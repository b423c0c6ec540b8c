/**
 How the administrative commands test a member's permissions. The platform
 library knows the two permissions by the flag names `Administrator` and
 `ManageMessages`; `setup-tickets` asks for `ADMINISTRATOR` and the blacklist
 commands for `MANAGE_MESSAGES`. The library's test answers true for an
 administrator before it looks at the name; for anyone else it resolves the
 name, an unknown one throws, and the command dispatcher replies with a
 generic failure. This module models the test as written, shows that the
 three commands then only get past it for administrators, and gives the
 corrected test that the rest of the model uses.
 */
module PermissionNames {
  import opened Database
  import opened Platform
  import Commands
  import Text

  /** The library's flag names for the two permissions the commands consult. */
  const AdministratorFlag: string := "Administrator"
  const ManageMessagesFlag: string := "ManageMessages"

  /** The names the commands pass. */
  const WrittenAdministratorName: string := "ADMINISTRATOR"
  const WrittenManageMessagesName: string := "MANAGE_MESSAGES"

  /** The library's permission test by name: an answer, or `None` when it
      throws on a name it does not know. */
  function Has(actor: Member, name: string): (r: Option<bool>)
    ensures actor.isAdministrator ==> r == Some(true)
    ensures name == AdministratorFlag ==> r == Some(actor.isAdministrator)
    ensures name == ManageMessagesFlag ==> r == Some(HasManageMessages(actor))
    ensures r.None? <==> !actor.isAdministrator && name != AdministratorFlag && name != ManageMessagesFlag
  {
    if actor.isAdministrator then Some(true)
    else if name == AdministratorFlag then Some(false)
    else if name == ManageMessagesFlag then Some(actor.canManageMessages)
    else None
  }

  /** `setup-tickets` asking for the permission named `permissionName`. */
  function SetupChecking(permissionName: string, s: Store, actor: Member, guildId: Snowflake,
                         panel: ChannelOption, category: ChannelOption, transcript: ChannelOption,
                         now: Time): Outcome {
    match Has(actor, permissionName)
    case None => Reject(s, CommandFailed)
    case Some(admin) =>
      if !admin then Reject(s, NotAdministrator)
      else Commands.ConfigureTickets(s, guildId, panel, category, transcript, now)
  }

  /** `blacklist` asking for the permission named `permissionName`; the role
      test is only reached once the permission test has answered. */
  function BlacklistChecking(permissionName: string, s: Store, actor: Member, target: User,
                             reason: Option<string>, now: Time): Outcome {
    match Has(actor, permissionName)
    case None => Reject(s, CommandFailed)
    case Some(permitted) =>
      if !permitted && !Commands.HoldsCommandStaffRole(actor) then Reject(s, NotStaff)
      else Commands.AddToBlacklist(s, actor, target, reason, now)
  }

  /** `unblacklist` asking for the permission named `permissionName`. */
  function UnblacklistChecking(permissionName: string, s: Store, actor: Member, target: User): Outcome {
    match Has(actor, permissionName)
    case None => Reject(s, CommandFailed)
    case Some(permitted) =>
      if !permitted && !Commands.HoldsCommandStaffRole(actor) then Reject(s, NotStaff)
      else Commands.RemoveFromBlacklist(s, target)
  }

  // ---------------------------------------------------------------------------
  // As written

  function SetupAsWritten(s: Store, actor: Member, guildId: Snowflake,
                          panel: ChannelOption, category: ChannelOption, transcript: ChannelOption,
                          now: Time): Outcome {
    SetupChecking(WrittenAdministratorName, s, actor, guildId, panel, category, transcript, now)
  }

  function BlacklistAsWritten(s: Store, actor: Member, target: User, reason: Option<string>, now: Time): Outcome {
    BlacklistChecking(WrittenManageMessagesName, s, actor, target, reason, now)
  }

  function UnblacklistAsWritten(s: Store, actor: Member, target: User): Outcome {
    UnblacklistChecking(WrittenManageMessagesName, s, actor, target)
  }

  /** As written, the three commands serve administrators only: anyone else
      gets the generic failure and the store does not change, whatever roles
      or permission bits they hold. For an administrator they behave as
      specified. */
  lemma AsWrittenAdministratorsOnly(s: Store, actor: Member, target: User, reason: Option<string>, now: Time,
                                    guildId: Snowflake, panel: ChannelOption, category: ChannelOption,
                                    transcript: ChannelOption)
    ensures !actor.isAdministrator ==>
      && SetupAsWritten(s, actor, guildId, panel, category, transcript, now) == Reject(s, CommandFailed)
      && BlacklistAsWritten(s, actor, target, reason, now) == Reject(s, CommandFailed)
      && UnblacklistAsWritten(s, actor, target) == Reject(s, CommandFailed)
    ensures actor.isAdministrator ==>
      && SetupAsWritten(s, actor, guildId, panel, category, transcript, now)
           == Commands.SetupTickets(s, actor, guildId, panel, category, transcript, now)
      && BlacklistAsWritten(s, actor, target, reason, now) == Commands.BlacklistUser(s, actor, target, reason, now)
      && UnblacklistAsWritten(s, actor, target) == Commands.UnblacklistUser(s, actor, target)
  {
    assert WrittenAdministratorName != AdministratorFlag && WrittenAdministratorName != ManageMessagesFlag by {
      assert WrittenAdministratorName[1] != AdministratorFlag[1];
      assert |WrittenAdministratorName| != |ManageMessagesFlag|;
    }
    assert WrittenManageMessagesName != AdministratorFlag && WrittenManageMessagesName != ManageMessagesFlag by {
      assert |WrittenManageMessagesName| != |AdministratorFlag|;
      assert |WrittenManageMessagesName| != |ManageMessagesFlag|;
    }
  }

  /** A moderator without the two permission bits: the blacklist command as
      specified accepts them, as written it fails. */
  lemma ModeratorIsTurnedAway(s: Store, target: User, now: Time)
    requires !target.bot && target.id !in s.blacklist
    ensures var moderator := Member(User("1", "mod", false), ["Moderator"], false, false);
      && Commands.BlacklistUser(s, moderator, target, None, now).status == Success
      && BlacklistAsWritten(s, moderator, target, None, now) == Reject(s, CommandFailed)
  {
    var moderator := Member(User("1", "mod", false), ["Moderator"], false, false);
    assert Text.Lower("Moderator") == "moderator";
    assert "moderator" <= Text.Lower("Moderator")[0..];
    assert Commands.CommandStaffRole(moderator.roleNames[0]);
    AsWrittenAdministratorsOnly(s, moderator, target, None, now, "1", ChannelOption("1", 0),
                                ChannelOption("1", 0), ChannelOption("1", 0));
  }

  // ---------------------------------------------------------------------------
  // Corrected

  /** With the library's flag names, the three commands are exactly the
      specified ones, for every member. */
  lemma CorrectedNamesAreCommands(s: Store, actor: Member, target: User, reason: Option<string>, now: Time,
                                  guildId: Snowflake, panel: ChannelOption, category: ChannelOption,
                                  transcript: ChannelOption)
    ensures SetupChecking(AdministratorFlag, s, actor, guildId, panel, category, transcript, now)
      == Commands.SetupTickets(s, actor, guildId, panel, category, transcript, now)
    ensures BlacklistChecking(ManageMessagesFlag, s, actor, target, reason, now)
      == Commands.BlacklistUser(s, actor, target, reason, now)
    ensures UnblacklistChecking(ManageMessagesFlag, s, actor, target)
      == Commands.UnblacklistUser(s, actor, target)
  {
  }
}
