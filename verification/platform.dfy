/**
 What a handler sees of the chat platform (the acting user, their roles and
 permission flags, channel options) and what it asks of it (side effects),
 together with the outcome every handler returns: a status, the new store
 and the list of platform side effects it requested, in order.
 */
module Platform {
  import opened Database

  datatype User = User(id: Snowflake, username: string, bot: bool)

  /** The acting guild member: the user, the names of their roles and the two
      permission bits the commands consult. */
  datatype Member = Member(
    user: User,
    roleNames: seq<string>,
    isAdministrator: bool,
    canManageMessages: bool)

  /** The platform's Manage Messages test for a member: it holds the bit, or
      is an administrator, who holds every permission. */
  predicate HasManageMessages(m: Member) {
    m.isAdministrator || m.canManageMessages
  }

  /** A channel passed as a command option, with its platform channel type
      (0 = text channel, 4 = category). */
  datatype ChannelOption = ChannelOption(id: Snowflake, kind: int)

  const TextChannelType: int := 0
  const CategoryChannelType: int := 4

  /** Grace delay before a closed ticket's channel is deleted. */
  const DeleteDelayMs: nat := 3000

  /** Platform side effects that bear on the stored state. */
  datatype Effect =
    | CreateChannel(name: string, parent: Snowflake, owner: Snowflake)
    | GrantAccess(channel: Snowflake, user: Snowflake)
    | RevokeAccess(channel: Snowflake, user: Snowflake)
    | SendTranscript(channel: Snowflake, fileName: string)
    | DeleteChannelAfter(channel: Snowflake, delayMs: nat)
    | PostPanel(channel: Snowflake)

  /** Every way a handler can fail. All but `DuplicateTicketId` are answered
      with a reply; that one is a save that throws inside the ticket
      manager's listener, which catches nothing, so the user gets no reply. */
  datatype Error =
    // ticket creation
    | Blacklisted | AlreadyOpen | NotConfigured | CategoryMissing | DuplicateTicketId
    // operations inside a ticket channel
    | NoOpenTicket | NotTicketStaff | AlreadyAdded | CannotRemoveBot | NotAdded
    | AlreadyClaimed | NotClaimant | ClaimedByOther
    // setup
    | NotAdministrator | PanelNotText | CategoryNotCategory | TranscriptNotText
    // blacklist administration
    | NotStaff | CannotBlacklistBot | AlreadyBlacklisted | NotBlacklisted
    // an exception thrown inside a command, caught by the command dispatcher
    | CommandFailed
    // an exception caught by the command's own handler, which replies with
    // its own error message
    | ProcessingFailed

  datatype Status = Success | Failure(error: Error) | Unhandled

  datatype Outcome = Outcome(status: Status, store: Store, effects: seq<Effect>)

  /** A rejection: the store is untouched and nothing was asked of the platform. */
  function Reject(s: Store, e: Error): (o: Outcome)
    ensures o.status.Failure? && o.store == s && o.effects == []
  {
    Outcome(Failure(e), s, [])
  }

  /** `s2` differs from `s` at most in the ticket stored under `c`. */
  predicate OnlyTicketChanged(s: Store, s2: Store, c: Snowflake) {
    && s2.tickets.Keys == s.tickets.Keys
    && (forall d :: d in s.tickets && d != c ==> s2.tickets[d] == s.tickets[d])
    && s2.blacklist == s.blacklist
    && s2.configs == s.configs
  }
}
