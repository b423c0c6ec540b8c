/**
 How the `add` and `remove` commands obtain their target user. Both commands
 declare a single required mentionable option (a user or a role) named `user`, but the ticket manager
 reads an option named `usuario`. The platform's option lookup returns null
 for a name that was not sent, and reading a field of that null target throws
 once the ticket and staff checks have passed; the command dispatcher catches
 the exception and replies with a generic failure. This module models the
 lookup as written, shows that neither command can then succeed, and gives the
 corrected lookup that the rest of the model uses.
 */
module OptionLookup {
  import opened Database
  import opened Platform
  import TicketManager

  /** The user-typed options an interaction carries, by option name. */
  type UserOptions = map<string, User>

  /** The option name both commands declare. */
  const DeclaredOption: string := "user"

  /** The option name the ticket manager reads. */
  const ReadOption: string := "usuario"

  /** The platform's lookup: the user sent under `name`, or null. */
  function GetUser(opts: UserOptions, name: string): (r: Option<User>)
    ensures r.Some? <==> name in opts
    ensures r.Some? ==> r.value == opts[name]
  {
    if name in opts then Some(opts[name]) else None
  }

  /** The options of an `add` or `remove` interaction: exactly the declared one. */
  function SentOptions(target: User): UserOptions {
    map[DeclaredOption := target]
  }

  /** The user options of an interaction whose mentionable `user` option holds
      a user, or a role (`None`), which the user lookup does not return. */
  function MentionOptions(target: Option<User>): (opts: UserOptions)
    ensures target.Some? ==> opts == SentOptions(target.value)
    ensures target.None? ==> DeclaredOption !in opts
  {
    match target
    case None => map[]
    case Some(u) => SentOptions(u)
  }

  /** `add` reading its target under `optionName`. The target is first
      dereferenced by the duplicate check, so a missing one makes the command
      throw there. */
  function AddCommandReading(optionName: string, s: Store, actor: Member, channelId: Snowflake,
                             opts: UserOptions): Outcome {
    var target := GetUser(opts, optionName);
    match FindOpenTicket(s, channelId)
    case None => Reject(s, NoOpenTicket)
    case Some(t) =>
      if !TicketManager.IsTicketStaff(t, actor) then Reject(s, NotTicketStaff)
      else if target.None? then Reject(s, CommandFailed)
      else TicketManager.AddUser(s, actor, channelId, target.value)
  }

  /** `remove` reading its target under `optionName`. The target is first
      dereferenced by the bot check. */
  function RemoveCommandReading(optionName: string, s: Store, actor: Member, channelId: Snowflake,
                                opts: UserOptions): Outcome {
    var target := GetUser(opts, optionName);
    match FindOpenTicket(s, channelId)
    case None => Reject(s, NoOpenTicket)
    case Some(t) =>
      if !TicketManager.IsTicketStaff(t, actor) then Reject(s, NotTicketStaff)
      else if target.None? then Reject(s, CommandFailed)
      else TicketManager.RemoveUser(s, actor, channelId, target.value)
  }

  // ---------------------------------------------------------------------------
  // As written

  function AddCommandAsWritten(s: Store, actor: Member, channelId: Snowflake, opts: UserOptions): Outcome {
    AddCommandReading(ReadOption, s, actor, channelId, opts)
  }

  function RemoveCommandAsWritten(s: Store, actor: Member, channelId: Snowflake, opts: UserOptions): Outcome {
    RemoveCommandReading(ReadOption, s, actor, channelId, opts)
  }

  /** With the options the platform actually sends, `add` and `remove` as
      written never succeed: past the ticket and staff checks they always fail,
      and the store never changes. */
  lemma AsWrittenNeverSucceeds(s: Store, actor: Member, channelId: Snowflake, target: User)
    ensures var o := AddCommandAsWritten(s, actor, channelId, SentOptions(target));
      !o.status.Success? && o.store == s
    ensures var o := RemoveCommandAsWritten(s, actor, channelId, SentOptions(target));
      !o.status.Success? && o.store == s
    ensures TicketManager.OpenAt(s, channelId) && TicketManager.IsTicketStaff(s.tickets[channelId], actor) ==>
      && AddCommandAsWritten(s, actor, channelId, SentOptions(target)).status == Failure(CommandFailed)
      && RemoveCommandAsWritten(s, actor, channelId, SentOptions(target)).status == Failure(CommandFailed)
  {
    assert DeclaredOption != ReadOption by { assert |DeclaredOption| != |ReadOption|; }
    assert ReadOption !in SentOptions(target);
  }

  // ---------------------------------------------------------------------------
  // Corrected

  /** `add` reading the option it declares. */
  function AddCommand(s: Store, actor: Member, channelId: Snowflake, opts: UserOptions): (o: Outcome)
    ensures DeclaredOption !in opts ==> o.store == s && !o.status.Success?
    ensures DeclaredOption in opts ==>
      var target := opts[DeclaredOption];
      && (TicketManager.OpenAt(s, channelId) && TicketManager.IsTicketStaff(s.tickets[channelId], actor)
          && target.id !in s.tickets[channelId].addedUsers
          <==> o.status.Success?)
      && (o.status.Success? ==> channelId in o.store.tickets && o.store.tickets[channelId].addedUsers == s.tickets[channelId].addedUsers + [target.id])
  {
    AddCommandReading(DeclaredOption, s, actor, channelId, opts)
  }

  /** `remove` reading the option it declares. */
  function RemoveCommand(s: Store, actor: Member, channelId: Snowflake, opts: UserOptions): (o: Outcome)
    ensures DeclaredOption !in opts ==> o.store == s && !o.status.Success?
    ensures DeclaredOption in opts ==>
      var target := opts[DeclaredOption];
      && (TicketManager.OpenAt(s, channelId) && TicketManager.IsTicketStaff(s.tickets[channelId], actor)
          && !target.bot && target.id in s.tickets[channelId].addedUsers
          <==> o.status.Success?)
      && (o.status.Success? ==> channelId in o.store.tickets && target.id !in o.store.tickets[channelId].addedUsers)
  {
    RemoveCommandReading(DeclaredOption, s, actor, channelId, opts)
  }

  /** With the options the platform sends, the corrected commands are exactly
      the ticket manager's add and remove of the named user. */
  lemma CorrectedCommandsAreManagerOps(s: Store, actor: Member, channelId: Snowflake, target: User)
    ensures AddCommand(s, actor, channelId, SentOptions(target)) == TicketManager.AddUser(s, actor, channelId, target)
    ensures RemoveCommand(s, actor, channelId, SentOptions(target)) == TicketManager.RemoveUser(s, actor, channelId, target)
  {
  }
}
