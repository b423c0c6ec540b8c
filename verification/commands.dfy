/**
 The administrative slash commands: `setup-tickets`, which writes a guild's
 configuration, and `blacklist` / `unblacklist`, which maintain the list of
 users barred from opening tickets.
 */
module Commands {
  import opened Database
  import opened Platform
  import opened Text
  import TicketManager

  // ---------------------------------------------------------------------------
  // Staff predicate of the blacklist commands

  /** A role whose holder may use the blacklist commands. */
  predicate CommandStaffRole(name: string) {
    var n := Lower(name);
    Contains(n, "staff") || Contains(n, "moderator") || Contains(n, "admin")
  }

  /** Some role of the actor's names staff, moderator or admin. */
  predicate HoldsCommandStaffRole(actor: Member) {
    exists i :: 0 <= i < |actor.roleNames| && CommandStaffRole(actor.roleNames[i])
  }

  /** The blacklist commands' authorisation: the Manage Messages permission,
      or a role whose name mentions staff, moderator or admin. */
  predicate IsCommandStaff(actor: Member) {
    HasManageMessages(actor) || HoldsCommandStaffRole(actor)
  }

  /** Every role that lets its holder add or remove ticket participants also
      lets them use the blacklist commands, but not conversely: a role named
      "Admin" passes here and not there. */
  lemma StaffRolesCompared(name: string)
    ensures TicketManager.TicketStaffRole(name) ==> CommandStaffRole(name)
    ensures CommandStaffRole("Admin") && !TicketManager.TicketStaffRole("Admin")
  {
    assert Lower("Admin") == "admin";
    assert "admin" <= Lower("Admin")[0..];
    assert !Contains("admin", "staff") by {
      forall i | 0 <= i <= 5 ensures !("staff" <= "admin"[i..]) {
        if i == 0 { assert "admin"[0..][0] != "staff"[0]; }
      }
    }
    TooLongNotContained("admin", "moderator");
  }

  // ---------------------------------------------------------------------------
  // setup-tickets

  /** The configuration checks, in order: administrator, then a text panel
      channel, then a category, then a text transcript channel. */
  function SetupTickets(s: Store, actor: Member, guildId: Snowflake,
                        panel: ChannelOption, category: ChannelOption, transcript: ChannelOption,
                        now: Time): (o: Outcome)
    ensures o.status == Failure(NotAdministrator) <==> !actor.isAdministrator
    ensures o.status == Failure(PanelNotText) <==> actor.isAdministrator && panel.kind != TextChannelType
    ensures o.status == Failure(CategoryNotCategory) <==>
      actor.isAdministrator && panel.kind == TextChannelType && category.kind != CategoryChannelType
    ensures o.status == Failure(TranscriptNotText) <==>
      && actor.isAdministrator && panel.kind == TextChannelType && category.kind == CategoryChannelType
      && transcript.kind != TextChannelType
    ensures o.status.Success? <==>
      && actor.isAdministrator && panel.kind == TextChannelType && category.kind == CategoryChannelType
      && transcript.kind == TextChannelType
    ensures !o.status.Success? ==> o.store == s && o.effects == []
    ensures o.status.Success? ==>
      && o.store.tickets == s.tickets
      && o.store.blacklist == s.blacklist
      && o.store.configs.Keys == s.configs.Keys + {guildId}
      && (forall g :: g in s.configs && g != guildId ==> o.store.configs[g] == s.configs[g])
      && o.store.configs[guildId].ticketChannelId == panel.id
      && o.store.configs[guildId].ticketCategoryId == category.id
      && o.store.configs[guildId].transcriptChannelId == transcript.id
      && (guildId in s.configs ==>
            && o.store.configs[guildId].guildId == s.configs[guildId].guildId
            && o.store.configs[guildId].createdAt == s.configs[guildId].createdAt)
      && (guildId !in s.configs ==> o.store.configs[guildId] == Config(guildId, panel.id, category.id, transcript.id, now))
      && o.effects == [PostPanel(panel.id)]
  {
    if !actor.isAdministrator then Reject(s, NotAdministrator)
    else ConfigureTickets(s, guildId, panel, category, transcript, now)
  }

  /** Setup past the administrator test: the channel-type checks, then the
      upsert of the guild's configuration. */
  function ConfigureTickets(s: Store, guildId: Snowflake,
                            panel: ChannelOption, category: ChannelOption, transcript: ChannelOption,
                            now: Time): Outcome {
    if panel.kind != TextChannelType then Reject(s, PanelNotText)
    else if category.kind != CategoryChannelType then Reject(s, CategoryNotCategory)
    else if transcript.kind != TextChannelType then Reject(s, TranscriptNotText)
    else
      var config :=
        if guildId in s.configs then
          s.configs[guildId].(ticketChannelId := panel.id, ticketCategoryId := category.id,
                              transcriptChannelId := transcript.id)
        else
          Config(guildId, panel.id, category.id, transcript.id, now);
      Outcome(Success, s.(configs := s.configs[guildId := config]), [PostPanel(panel.id)])
  }

  lemma SetupPreservesValid(s: Store, actor: Member, guildId: Snowflake,
                            panel: ChannelOption, category: ChannelOption, transcript: ChannelOption, now: Time)
    requires Valid(s)
    ensures Valid(SetupTickets(s, actor, guildId, panel, category, transcript, now).store)
  {
  }

  /** Running setup twice with the same options leaves what running it once left. */
  lemma SetupIdempotent(s: Store, actor: Member, guildId: Snowflake,
                        panel: ChannelOption, category: ChannelOption, transcript: ChannelOption,
                        now1: Time, now2: Time)
    ensures var o1 := SetupTickets(s, actor, guildId, panel, category, transcript, now1);
      SetupTickets(o1.store, actor, guildId, panel, category, transcript, now2).store == o1.store
  {
    var o1 := SetupTickets(s, actor, guildId, panel, category, transcript, now1);
    if o1.status.Success? {
      var s2 := SetupTickets(o1.store, actor, guildId, panel, category, transcript, now2).store;
      assert s2.configs[guildId] == o1.store.configs[guildId];
      assert s2.configs == o1.store.configs;
    }
  }

  // ---------------------------------------------------------------------------
  // blacklist / unblacklist

  /** The stored reason: the given one, or the default when none (or an empty
      one) was given. */
  function ReasonOrDefault(reason: Option<string>): (r: string)
    ensures r != ""
    ensures reason.Some? && reason.value != "" ==> r == reason.value
    ensures reason.None? || reason.value == "" ==> r == DefaultReason
  {
    if reason.Some? && reason.value != "" then reason.value else DefaultReason
  }

  function BlacklistUser(s: Store, actor: Member, target: User, reason: Option<string>, now: Time): (o: Outcome)
    ensures o.status == Failure(NotStaff) <==> !IsCommandStaff(actor)
    ensures o.status == Failure(CannotBlacklistBot) <==> IsCommandStaff(actor) && target.bot
    ensures o.status == Failure(AlreadyBlacklisted) <==>
      IsCommandStaff(actor) && !target.bot && target.id in s.blacklist
    ensures o.status.Success? <==> IsCommandStaff(actor) && !target.bot && target.id !in s.blacklist
    ensures o.effects == []
    ensures !o.status.Success? ==> o.store == s
    ensures o.status.Success? ==>
      && o.store.tickets == s.tickets
      && o.store.configs == s.configs
      && o.store.blacklist.Keys == s.blacklist.Keys + {target.id}
      && (forall u :: u in s.blacklist ==> o.store.blacklist[u] == s.blacklist[u])
      && o.store.blacklist[target.id] ==
           BlacklistEntry(target.id, ReasonOrDefault(reason), actor.user.id, now)
  {
    if !IsCommandStaff(actor) then Reject(s, NotStaff)
    else AddToBlacklist(s, actor, target, reason, now)
  }

  /** The `blacklist` command as the platform invokes it. Its `user` option
      is mentionable, so staff may pick a role, and then no user is sent. The
      target is first dereferenced by the bot test after the staff test,
      outside the command's own error handling, so a role makes the command
      throw and the dispatcher reply with its generic failure. */
  function BlacklistCommand(s: Store, actor: Member, target: Option<User>, reason: Option<string>,
                            now: Time): (o: Outcome)
    ensures o.status == Failure(NotStaff) <==> !IsCommandStaff(actor)
    ensures o.status == Failure(CommandFailed) <==> IsCommandStaff(actor) && target.None?
    ensures target.None? ==> o.store == s && o.effects == [] && !o.status.Success?
    ensures target.Some? ==> o == BlacklistUser(s, actor, target.value, reason, now)
  {
    if !IsCommandStaff(actor) then Reject(s, NotStaff)
    else match target
      case None => Reject(s, CommandFailed)
      case Some(u) => AddToBlacklist(s, actor, u, reason, now)
  }

  /** Blacklisting past the staff test. */
  function AddToBlacklist(s: Store, actor: Member, target: User, reason: Option<string>, now: Time): Outcome {
    if target.bot then Reject(s, CannotBlacklistBot)
    else if target.id in s.blacklist then Reject(s, AlreadyBlacklisted)
    else
      var entry := BlacklistEntry(target.id, ReasonOrDefault(reason), actor.user.id, now);
      Outcome(Success, s.(blacklist := s.blacklist[target.id := entry]), [])
  }

  function UnblacklistUser(s: Store, actor: Member, target: User): (o: Outcome)
    ensures o.status == Failure(NotStaff) <==> !IsCommandStaff(actor)
    ensures o.status == Failure(NotBlacklisted) <==> IsCommandStaff(actor) && target.id !in s.blacklist
    ensures o.status.Success? <==> IsCommandStaff(actor) && target.id in s.blacklist
    ensures o.effects == []
    ensures !o.status.Success? ==> o.store == s
    ensures o.status.Success? ==>
      && o.store.tickets == s.tickets
      && o.store.configs == s.configs
      && o.store.blacklist.Keys == s.blacklist.Keys - {target.id}
      && (forall u :: u in o.store.blacklist ==> o.store.blacklist[u] == s.blacklist[u])
  {
    if !IsCommandStaff(actor) then Reject(s, NotStaff)
    else RemoveFromBlacklist(s, target)
  }

  /** The `unblacklist` command as the platform invokes it. A role picked for
      the mentionable `user` option sends no user; the target is first
      dereferenced by the delete, inside the command's own error handling,
      which replies with its own failure message. */
  function UnblacklistCommand(s: Store, actor: Member, target: Option<User>): (o: Outcome)
    ensures o.status == Failure(NotStaff) <==> !IsCommandStaff(actor)
    ensures o.status == Failure(ProcessingFailed) <==> IsCommandStaff(actor) && target.None?
    ensures target.None? ==> o.store == s && o.effects == [] && !o.status.Success?
    ensures target.Some? ==> o == UnblacklistUser(s, actor, target.value)
  {
    if !IsCommandStaff(actor) then Reject(s, NotStaff)
    else match target
      case None => Reject(s, ProcessingFailed)
      case Some(u) => RemoveFromBlacklist(s, u)
  }

  /** Unblacklisting past the staff test: one delete that reports whether an
      entry was there. */
  function RemoveFromBlacklist(s: Store, target: User): Outcome {
    if target.id !in s.blacklist then Reject(s, NotBlacklisted)
    else Outcome(Success, s.(blacklist := s.blacklist - {target.id}), [])
  }

  lemma BlacklistPreservesValid(s: Store, actor: Member, target: User, reason: Option<string>, now: Time)
    requires Valid(s)
    ensures Valid(BlacklistUser(s, actor, target, reason, now).store)
  {
  }

  lemma UnblacklistPreservesValid(s: Store, actor: Member, target: User)
    requires Valid(s)
    ensures Valid(UnblacklistUser(s, actor, target).store)
  {
  }

  /** Unblacklisting is not repeatable: the second attempt reports that the
      user is not blacklisted and changes nothing. */
  lemma UnblacklistTwiceFails(s: Store, actor: Member, target: User)
    requires UnblacklistUser(s, actor, target).status.Success?
    ensures var s1 := UnblacklistUser(s, actor, target).store;
      UnblacklistUser(s1, actor, target) == Reject(s1, NotBlacklisted)
  {
  }

  /** Blacklisting a user who was not blacklisted and then unblacklisting them
      restores the store. */
  lemma BlacklistThenUnblacklistRestores(s: Store, actor: Member, target: User, reason: Option<string>, now: Time)
    requires BlacklistUser(s, actor, target, reason, now).status.Success?
    ensures var s1 := BlacklistUser(s, actor, target, reason, now).store;
      UnblacklistUser(s1, actor, target) == Outcome(Success, s, [])
  {
    var s1 := BlacklistUser(s, actor, target, reason, now).store;
    assert UnblacklistUser(s1, actor, target).store.blacklist == s.blacklist;
  }

  /** A blacklisted user cannot open a ticket, in any guild, until unblacklisted;
      unblacklisting removes exactly that obstacle. */
  lemma BlacklistGatesCreation(s: Store, staff: Member, target: User, reason: Option<string>, now: Time,
                               guildId: Snowflake, guildChannels: set<Snowflake>, newChannelId: Snowflake)
    requires BlacklistUser(s, staff, target, reason, now).status.Success?
    ensures var s1 := BlacklistUser(s, staff, target, reason, now).store;
      && TicketManager.Create(s1, target, guildId, guildChannels, newChannelId, now).status == Failure(Blacklisted)
      && UnblacklistUser(s1, staff, target).store == s
  {
    BlacklistThenUnblacklistRestores(s, staff, target, reason, now);
  }
}
