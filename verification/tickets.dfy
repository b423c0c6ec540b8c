/**
 The ticket lifecycle: create, add and remove a participant, claim, unclaim
 and close. Each handler reads the store, runs a fixed sequence of checks and,
 when they all pass, performs one write. A rejection leaves the store as it
 was and requests nothing of the platform.
 */
module TicketManager {
  import opened Database
  import opened Platform
  import opened Text
  import Transcript

  /** Name of the channel created for a user's ticket. */
  function TicketChannelName(username: string): string {
    "ticket-" + username
  }

  /** A role that lets its holder add or remove participants. */
  predicate TicketStaffRole(name: string) {
    var n := Lower(name);
    Contains(n, "staff") || Contains(n, "moderator")
  }

  /** The add/remove authorisation: the actor has claimed the ticket, or holds
      a staff role. */
  predicate IsTicketStaff(t: Ticket, actor: Member) {
    || t.claimedBy == Some(actor.user.id)
    || exists i :: 0 <= i < |actor.roleNames| && TicketStaffRole(actor.roleNames[i])
  }

  /** The channel hosts an open ticket. */
  predicate OpenAt(s: Store, c: Snowflake) {
    c in s.tickets && s.tickets[c].IsOpen()
  }

  // ---------------------------------------------------------------------------
  // Create

  /** The four creation checks pass. */
  predicate CreateAdmitted(s: Store, userId: Snowflake, guildId: Snowflake, guildChannels: set<Snowflake>) {
    && userId !in s.blacklist
    && !HasOpenTicket(s, userId)
    && guildId in s.configs
    && s.configs[guildId].ticketCategoryId in guildChannels
  }

  /** A user asks for a ticket in guild `guildId`, whose resolvable channels
      are `guildChannels`; the platform gives the created channel the id
      `newChannelId`. */
  function Create(s: Store, actor: User, guildId: Snowflake, guildChannels: set<Snowflake>,
                  newChannelId: Snowflake, now: Time): (o: Outcome)
    ensures o.status == Failure(Blacklisted) <==> actor.id in s.blacklist
    ensures o.status == Failure(AlreadyOpen) <==>
      actor.id !in s.blacklist && HasOpenTicket(s, actor.id)
    ensures o.status == Failure(NotConfigured) <==>
      actor.id !in s.blacklist && !HasOpenTicket(s, actor.id) && guildId !in s.configs
    ensures o.status == Failure(CategoryMissing) <==>
      && actor.id !in s.blacklist && !HasOpenTicket(s, actor.id) && guildId in s.configs
      && s.configs[guildId].ticketCategoryId !in guildChannels
    ensures o.status == Failure(DuplicateTicketId) <==>
      CreateAdmitted(s, actor.id, guildId, guildChannels) && newChannelId in s.tickets
    ensures o.status.Success? <==>
      CreateAdmitted(s, actor.id, guildId, guildChannels) && newChannelId !in s.tickets
    ensures !o.status.Success? ==> o.store == s
    ensures !CreateAdmitted(s, actor.id, guildId, guildChannels) ==> o.effects == []
    ensures CreateAdmitted(s, actor.id, guildId, guildChannels) ==>
      o.effects == [CreateChannel(TicketChannelName(actor.username), s.configs[guildId].ticketCategoryId, actor.id)]
    ensures o.status.Success? ==>
      && o.store.tickets.Keys == s.tickets.Keys + {newChannelId}
      && (forall c :: c in s.tickets ==> o.store.tickets[c] == s.tickets[c])
      && o.store.tickets[newChannelId] == NewTicket(newChannelId, TicketChannelName(actor.username), actor.id, now)
      && o.store.blacklist == s.blacklist
      && o.store.configs == s.configs
  {
    if actor.id in s.blacklist then Reject(s, Blacklisted)
    else if HasOpenTicket(s, actor.id) then Reject(s, AlreadyOpen)
    else if guildId !in s.configs then Reject(s, NotConfigured)
    else
      var config := s.configs[guildId];
      if config.ticketCategoryId !in guildChannels then Reject(s, CategoryMissing)
      else
        var name := TicketChannelName(actor.username);
        var created := [CreateChannel(name, config.ticketCategoryId, actor.id)];
        // the channel exists before the record is saved; a clash on the unique
        // ticket id makes the save throw, nothing catches it and nothing
        // replies, and the channel is left behind
        if newChannelId in s.tickets then Outcome(Failure(DuplicateTicketId), s, created)
        else
          var t := NewTicket(newChannelId, name, actor.id, now);
          Outcome(Success, s.(tickets := s.tickets[newChannelId := t]), created)
  }

  // ---------------------------------------------------------------------------
  // Participants

  /** Removes every occurrence of `x`, keeping the other ids in order. */
  function Without(xs: seq<Snowflake>, x: Snowflake): (r: seq<Snowflake>)
    ensures forall y :: y in r <==> y in xs && y != x
    ensures |r| <= |xs|
  {
    if xs == [] then []
    else (if xs[0] == x then [] else [xs[0]]) + Without(xs[1..], x)
  }

  /** Staff add `target` to the ticket hosted in `channelId`. */
  function AddUser(s: Store, actor: Member, channelId: Snowflake, target: User): (o: Outcome)
    ensures o.status == Failure(NoOpenTicket) <==> !OpenAt(s, channelId)
    ensures o.status == Failure(NotTicketStaff) <==>
      OpenAt(s, channelId) && !IsTicketStaff(s.tickets[channelId], actor)
    ensures o.status == Failure(AlreadyAdded) <==>
      && OpenAt(s, channelId) && IsTicketStaff(s.tickets[channelId], actor)
      && target.id in s.tickets[channelId].addedUsers
    ensures o.status.Success? <==>
      && OpenAt(s, channelId) && IsTicketStaff(s.tickets[channelId], actor)
      && target.id !in s.tickets[channelId].addedUsers
    ensures !o.status.Success? ==> o.store == s && o.effects == []
    ensures o.status.Success? ==>
      && OnlyTicketChanged(s, o.store, channelId)
      && o.store.tickets[channelId] ==
           s.tickets[channelId].(addedUsers := s.tickets[channelId].addedUsers + [target.id])
      && o.effects == [GrantAccess(channelId, target.id)]
  {
    match FindOpenTicket(s, channelId)
    case None => Reject(s, NoOpenTicket)
    case Some(t) =>
      if !IsTicketStaff(t, actor) then Reject(s, NotTicketStaff)
      else if target.id in t.addedUsers then Reject(s, AlreadyAdded)
      else
        var t2 := t.(addedUsers := t.addedUsers + [target.id]);
        Outcome(Success, s.(tickets := s.tickets[channelId := t2]), [GrantAccess(channelId, target.id)])
  }

  /** Staff remove `target` from the ticket hosted in `channelId`. */
  function RemoveUser(s: Store, actor: Member, channelId: Snowflake, target: User): (o: Outcome)
    ensures o.status == Failure(NoOpenTicket) <==> !OpenAt(s, channelId)
    ensures o.status == Failure(NotTicketStaff) <==>
      OpenAt(s, channelId) && !IsTicketStaff(s.tickets[channelId], actor)
    ensures o.status == Failure(CannotRemoveBot) <==>
      OpenAt(s, channelId) && IsTicketStaff(s.tickets[channelId], actor) && target.bot
    ensures o.status == Failure(NotAdded) <==>
      && OpenAt(s, channelId) && IsTicketStaff(s.tickets[channelId], actor) && !target.bot
      && target.id !in s.tickets[channelId].addedUsers
    ensures o.status.Success? <==>
      && OpenAt(s, channelId) && IsTicketStaff(s.tickets[channelId], actor) && !target.bot
      && target.id in s.tickets[channelId].addedUsers
    ensures !o.status.Success? ==> o.store == s && o.effects == []
    ensures o.status.Success? ==>
      && OnlyTicketChanged(s, o.store, channelId)
      && o.store.tickets[channelId] ==
           s.tickets[channelId].(addedUsers := Without(s.tickets[channelId].addedUsers, target.id))
      && target.id !in o.store.tickets[channelId].addedUsers
      && o.effects == [RevokeAccess(channelId, target.id)]
  {
    match FindOpenTicket(s, channelId)
    case None => Reject(s, NoOpenTicket)
    case Some(t) =>
      if !IsTicketStaff(t, actor) then Reject(s, NotTicketStaff)
      else if target.bot then Reject(s, CannotRemoveBot)
      else if target.id !in t.addedUsers then Reject(s, NotAdded)
      else
        var t2 := t.(addedUsers := Without(t.addedUsers, target.id));
        Outcome(Success, s.(tickets := s.tickets[channelId := t2]), [RevokeAccess(channelId, target.id)])
  }

  // ---------------------------------------------------------------------------
  // Claim, unclaim, close

  /** Anyone who presses the claim button claims an unclaimed open ticket; no
      role is consulted. */
  function Claim(s: Store, actor: Snowflake, channelId: Snowflake, now: Time): (o: Outcome)
    ensures o.status == Failure(NoOpenTicket) <==> !OpenAt(s, channelId)
    ensures o.status == Failure(AlreadyClaimed) <==> OpenAt(s, channelId) && s.tickets[channelId].IsClaimed()
    ensures o.status.Success? <==> OpenAt(s, channelId) && !s.tickets[channelId].IsClaimed()
    ensures !o.status.Success? ==> o.store == s
    ensures o.effects == []
    ensures o.status.Success? ==>
      && OnlyTicketChanged(s, o.store, channelId)
      && o.store.tickets[channelId] ==
           s.tickets[channelId].(claimedBy := Some(actor), claimedAt := Some(now))
  {
    match FindOpenTicket(s, channelId)
    case None => Reject(s, NoOpenTicket)
    case Some(t) =>
      if t.IsClaimed() then Reject(s, AlreadyClaimed)
      else Outcome(Success, s.(tickets := s.tickets[channelId := t.(claimedBy := Some(actor), claimedAt := Some(now))]), [])
  }

  /** Only the claimant releases a claimed ticket. */
  function Unclaim(s: Store, actor: Snowflake, channelId: Snowflake): (o: Outcome)
    ensures o.status == Failure(NoOpenTicket) <==> !OpenAt(s, channelId)
    ensures o.status == Failure(NotClaimant) <==> OpenAt(s, channelId) && s.tickets[channelId].claimedBy != Some(actor)
    ensures o.status.Success? <==> OpenAt(s, channelId) && s.tickets[channelId].claimedBy == Some(actor)
    ensures !o.status.Success? ==> o.store == s
    ensures o.effects == []
    ensures o.status.Success? ==>
      && OnlyTicketChanged(s, o.store, channelId)
      && o.store.tickets[channelId] == s.tickets[channelId].(claimedBy := None, claimedAt := None)
  {
    match FindOpenTicket(s, channelId)
    case None => Reject(s, NoOpenTicket)
    case Some(t) =>
      if t.claimedBy != Some(actor) then Reject(s, NotClaimant)
      else Outcome(Success, s.(tickets := s.tickets[channelId := t.(claimedBy := None, claimedAt := None)]), [])
  }

  /** The side effects of a successful close: the transcript is archived when
      the guild is configured, then the channel is deleted after the grace delay. */
  function CloseEffects(s: Store, t: Ticket, channelId: Snowflake, guildId: Snowflake): seq<Effect> {
    (if guildId in s.configs
     then [SendTranscript(s.configs[guildId].transcriptChannelId, Transcript.TranscriptFileName(t.channelName))]
     else [])
    + [DeleteChannelAfter(channelId, DeleteDelayMs)]
  }

  /** Close an open ticket: refused only when someone else has claimed it. */
  function Close(s: Store, actor: Snowflake, channelId: Snowflake, guildId: Snowflake, now: Time): (o: Outcome)
    ensures o.status == Failure(NoOpenTicket) <==> !OpenAt(s, channelId)
    ensures o.status == Failure(ClaimedByOther) <==>
      OpenAt(s, channelId) && s.tickets[channelId].IsClaimed() && s.tickets[channelId].claimedBy != Some(actor)
    ensures o.status.Success? <==>
      OpenAt(s, channelId) && (!s.tickets[channelId].IsClaimed() || s.tickets[channelId].claimedBy == Some(actor))
    ensures !o.status.Success? ==> o.store == s && o.effects == []
    ensures o.status.Success? ==>
      && OnlyTicketChanged(s, o.store, channelId)
      && o.store.tickets[channelId] == s.tickets[channelId].(closedAt := Some(now), closedBy := Some(actor))
      && !o.store.tickets[channelId].IsOpen()
      && (guildId in s.configs <==> |o.effects| == 2)
      && (guildId !in s.configs <==> |o.effects| == 1)
      && o.effects[|o.effects| - 1] == DeleteChannelAfter(channelId, DeleteDelayMs)
      && (guildId in s.configs ==>
            o.effects[0] == SendTranscript(s.configs[guildId].transcriptChannelId,
                                           "transcript-" + s.tickets[channelId].channelName + ".html"))
  {
    match FindOpenTicket(s, channelId)
    case None => Reject(s, NoOpenTicket)
    case Some(t) =>
      if t.claimedBy.Some? && t.claimedBy != Some(actor) then Reject(s, ClaimedByOther)
      else
        var t2 := t.(closedAt := Some(now), closedBy := Some(actor));
        Outcome(Success, s.(tickets := s.tickets[channelId := t2]), CloseEffects(s, t, channelId, guildId))
  }

  // ---------------------------------------------------------------------------
  // Invariants

  lemma NoDuplicatesAppend(xs: seq<Snowflake>, x: Snowflake)
    requires NoDuplicates(xs) && x !in xs
    ensures NoDuplicates(xs + [x])
  {
  }

  lemma {:induction false} NoDuplicatesWithout(xs: seq<Snowflake>, x: Snowflake)
    requires NoDuplicates(xs)
    ensures NoDuplicates(Without(xs, x))
  {
    if xs != [] {
      NoDuplicatesWithout(xs[1..], x);
      assert xs[0] !in xs[1..];
    }
  }

  lemma CreatePreservesValid(s: Store, actor: User, guildId: Snowflake, guildChannels: set<Snowflake>,
                             newChannelId: Snowflake, now: Time)
    requires Valid(s)
    ensures Valid(Create(s, actor, guildId, guildChannels, newChannelId, now).store)
  {
    var o := Create(s, actor, guildId, guildChannels, newChannelId, now);
    if o.status.Success? {
      var s2 := o.store;
      forall c1, c2 | c1 in s2.tickets && c2 in s2.tickets && s2.tickets[c1].IsOpen() && s2.tickets[c2].IsOpen()
                      && s2.tickets[c1].userId == s2.tickets[c2].userId
        ensures c1 == c2
      {
      }
    }
  }

  /** A step that rewrites one ticket without touching its owner or reopening
      it keeps the store valid, provided the new ticket is well formed. */
  lemma ReplaceTicketPreservesValid(s: Store, s2: Store, c: Snowflake)
    requires Valid(s) && c in s.tickets
    requires OnlyTicketChanged(s, s2, c)
    requires s2.tickets[c].ticketId == s.tickets[c].ticketId
    requires s2.tickets[c].userId == s.tickets[c].userId
    requires s2.tickets[c].IsOpen() ==> s.tickets[c].IsOpen()
    requires TicketWellFormed(s2.tickets[c])
    ensures Valid(s2)
  {
    forall c1, c2 | c1 in s2.tickets && c2 in s2.tickets && s2.tickets[c1].IsOpen() && s2.tickets[c2].IsOpen()
                    && s2.tickets[c1].userId == s2.tickets[c2].userId
      ensures c1 == c2
    {
      assert s.tickets[c1].IsOpen() && s.tickets[c2].IsOpen();
    }
  }

  lemma AddUserPreservesValid(s: Store, actor: Member, channelId: Snowflake, target: User)
    requires Valid(s)
    ensures Valid(AddUser(s, actor, channelId, target).store)
  {
    var o := AddUser(s, actor, channelId, target);
    if o.status.Success? {
      NoDuplicatesAppend(s.tickets[channelId].addedUsers, target.id);
      ReplaceTicketPreservesValid(s, o.store, channelId);
    }
  }

  lemma RemoveUserPreservesValid(s: Store, actor: Member, channelId: Snowflake, target: User)
    requires Valid(s)
    ensures Valid(RemoveUser(s, actor, channelId, target).store)
  {
    var o := RemoveUser(s, actor, channelId, target);
    if o.status.Success? {
      NoDuplicatesWithout(s.tickets[channelId].addedUsers, target.id);
      ReplaceTicketPreservesValid(s, o.store, channelId);
    }
  }

  lemma ClaimPreservesValid(s: Store, actor: Snowflake, channelId: Snowflake, now: Time)
    requires Valid(s)
    ensures Valid(Claim(s, actor, channelId, now).store)
  {
    var o := Claim(s, actor, channelId, now);
    if o.status.Success? {
      ReplaceTicketPreservesValid(s, o.store, channelId);
    }
  }

  lemma UnclaimPreservesValid(s: Store, actor: Snowflake, channelId: Snowflake)
    requires Valid(s)
    ensures Valid(Unclaim(s, actor, channelId).store)
  {
    var o := Unclaim(s, actor, channelId);
    if o.status.Success? {
      ReplaceTicketPreservesValid(s, o.store, channelId);
    }
  }

  lemma ClosePreservesValid(s: Store, actor: Snowflake, channelId: Snowflake, guildId: Snowflake, now: Time)
    requires Valid(s)
    ensures Valid(Close(s, actor, channelId, guildId, now).store)
  {
    var o := Close(s, actor, channelId, guildId, now);
    if o.status.Success? {
      ReplaceTicketPreservesValid(s, o.store, channelId);
    }
  }

  // ---------------------------------------------------------------------------
  // Lifecycle properties

  /** A closed ticket is terminal: every operation inside its channel is
      refused as if there were no ticket, and nothing changes. */
  lemma ClosedIsTerminal(s: Store, channelId: Snowflake, guildId: Snowflake, member: Member, target: User, now: Time)
    requires channelId in s.tickets && !s.tickets[channelId].IsOpen()
    ensures AddUser(s, member, channelId, target) == Reject(s, NoOpenTicket)
    ensures RemoveUser(s, member, channelId, target) == Reject(s, NoOpenTicket)
    ensures Claim(s, member.user.id, channelId, now) == Reject(s, NoOpenTicket)
    ensures Unclaim(s, member.user.id, channelId) == Reject(s, NoOpenTicket)
    ensures Close(s, member.user.id, channelId, guildId, now) == Reject(s, NoOpenTicket)
  {
  }

  /** Removing an id that occurs nowhere changes nothing. */
  lemma {:induction false} WithoutAbsent(xs: seq<Snowflake>, x: Snowflake)
    requires x !in xs
    ensures Without(xs, x) == xs
  {
    if xs != [] {
      WithoutAbsent(xs[1..], x);
      assert xs == [xs[0]] + xs[1..];
    }
  }

  lemma {:induction false} WithoutAppend(a: seq<Snowflake>, b: seq<Snowflake>, x: Snowflake)
    ensures Without(a + b, x) == Without(a, x) + Without(b, x)
  {
    if a != [] {
      WithoutAppend(a[1..], b, x);
      assert (a + b)[1..] == a[1..] + b;
    } else {
      assert a + b == b;
    }
  }

  /** In a duplicate-free list an element occurs neither before nor after its position. */
  lemma UniqueAt(xs: seq<Snowflake>, i: nat)
    requires NoDuplicates(xs) && i < |xs|
    ensures xs[i] !in xs[..i] && xs[i] !in xs[i + 1..]
  {
    var pre, post := xs[..i], xs[i + 1..];
    forall j | 0 <= j < |pre| ensures pre[j] != xs[i] { assert pre[j] == xs[j]; }
    forall j | 0 <= j < |post| ensures post[j] != xs[i] { assert post[j] == xs[i + 1 + j]; }
  }

  /** Removing a participant of a duplicate-free list deletes exactly its one
      position and keeps the others in order. */
  lemma WithoutDeletesOnePosition(xs: seq<Snowflake>, i: nat)
    requires NoDuplicates(xs) && i < |xs|
    ensures Without(xs, xs[i]) == xs[..i] + xs[i + 1..]
  {
    UniqueAt(xs, i);
    WithoutSplice(xs[..i], xs[i], xs[i + 1..]);
    assert xs[..i] + [xs[i]] + xs[i + 1..] == xs;
  }

  /** Removing `x` from a list where it occurs once, between `pre` and `post`. */
  lemma WithoutSplice(pre: seq<Snowflake>, x: Snowflake, post: seq<Snowflake>)
    requires x !in pre && x !in post
    ensures Without(pre + [x] + post, x) == pre + post
  {
    calc {
      Without(pre + [x] + post, x);
      { assert pre + [x] + post == pre + ([x] + post); }
      Without(pre + ([x] + post), x);
      { WithoutAppend(pre, [x] + post, x); }
      Without(pre, x) + Without([x] + post, x);
      { WithoutAppend([x], post, x); }
      Without(pre, x) + (Without([x], x) + Without(post, x));
      { WithoutAbsent(pre, x); WithoutAbsent(post, x); }
      pre + (Without([x], x) + post);
      { assert Without([x], x) == []; }
      pre + post;
    }
  }

  /** Adding a participant and then removing them restores the store. */
  lemma AddThenRemoveRestores(s: Store, actor: Member, channelId: Snowflake, target: User)
    requires AddUser(s, actor, channelId, target).status.Success?
    requires !target.bot
    ensures var s1 := AddUser(s, actor, channelId, target).store;
      RemoveUser(s1, actor, channelId, target) == Outcome(Success, s, [RevokeAccess(channelId, target.id)])
  {
    var xs := s.tickets[channelId].addedUsers;
    var s1 := AddUser(s, actor, channelId, target).store;
    assert IsTicketStaff(s1.tickets[channelId], actor);
    WithoutAppend(xs, [target.id], target.id);
    WithoutAbsent(xs, target.id);
    assert Without([target.id], target.id) == [];
    var s2 := RemoveUser(s1, actor, channelId, target).store;
    assert s2.tickets[channelId] == s.tickets[channelId];
    assert s2.tickets == s.tickets;
  }

  /** Claiming and then releasing by the same actor restores the store. */
  lemma ClaimThenUnclaimRestores(s: Store, actor: Snowflake, channelId: Snowflake, now: Time)
    requires Valid(s)
    requires Claim(s, actor, channelId, now).status.Success?
    ensures var s1 := Claim(s, actor, channelId, now).store;
      Unclaim(s1, actor, channelId) == Outcome(Success, s, [])
  {
    var s1 := Claim(s, actor, channelId, now).store;
    assert ClaimPaired(s.tickets[channelId]);
    assert Unclaim(s1, actor, channelId).store.tickets == s.tickets;
  }

  /** A second claim, by anyone, is refused while the first stands. */
  lemma SecondClaimRefused(s: Store, first: Snowflake, second: Snowflake, channelId: Snowflake, t1: Time, t2: Time)
    requires Claim(s, first, channelId, t1).status.Success?
    ensures var s1 := Claim(s, first, channelId, t1).store;
      Claim(s1, second, channelId, t2) == Reject(s1, AlreadyClaimed)
  {
  }

  /** Nothing stops staff from adding the ticket's owner as a participant. */
  lemma OwnerCanBeAdded()
    ensures var t := NewTicket("10", "ticket-alice", "1", 0);
      var s := Store(map["10" := t], map[], map[]);
      var staff := Member(User("2", "bob", false), ["Staff"], false, false);
      && Valid(s)
      && AddUser(s, staff, "10", User("1", "alice", false)).status.Success?
      && "1" in AddUser(s, staff, "10", User("1", "alice", false)).store.tickets["10"].addedUsers
  {
    var staff := Member(User("2", "bob", false), ["Staff"], false, false);
    assert Lower("Staff") == "staff";
    assert "staff" <= Lower("Staff")[0..];
    assert TicketStaffRole(staff.roleNames[0]);
  }

  /** A bot can be added as a participant, but can then never be removed. */
  /** Claiming checks no role, so a ticket's owner can claim their own ticket;
      from then on no one else can close or release it. */
  lemma OwnerClaimLocksOutStaff(s: Store, c: Snowflake, guildId: Snowflake, staff: Snowflake, now: Time, later: Time)
    requires OpenAt(s, c) && !s.tickets[c].IsClaimed() && staff != s.tickets[c].userId
    ensures var owner := s.tickets[c].userId;
      var s1 := Claim(s, owner, c, now).store;
      && Claim(s, owner, c, now).status.Success?
      && Close(s1, staff, c, guildId, later) == Reject(s1, ClaimedByOther)
      && Unclaim(s1, staff, c) == Reject(s1, NotClaimant)
  {
  }

  lemma AddedBotIsStuck(s: Store, actor: Member, channelId: Snowflake, bot: User, actor2: Member)
    requires bot.bot
    requires AddUser(s, actor, channelId, bot).status.Success?
    ensures var s1 := AddUser(s, actor, channelId, bot).store;
      && bot.id in s1.tickets[channelId].addedUsers
      && !RemoveUser(s1, actor2, channelId, bot).status.Success?
  {
  }
}
