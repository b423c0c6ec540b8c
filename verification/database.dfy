/**
 The three persisted record kinds (tickets, blacklist entries, per-guild
 configuration), their schema defaults and unique keys, and the store that
 holds them. Each collection is a map from the record's unique key to the
 record, so a second record with the same key cannot exist.
 */
module Database {

  /** A platform identifier (user, channel, guild). Identifiers are never empty,
      so testing one for truthiness is the same as testing it for presence. */
  type Snowflake = s: string | s != "" witness "0"

  /** Milliseconds on an abstract clock. */
  type Time = nat

  datatype Option<+T> = None | Some(value: T)

  /** Default blacklist reason, used by the schema and by the blacklist command. */
  const DefaultReason: string := "No specific reason"

  /** One support ticket, bound to the channel that hosts it. */
  datatype Ticket = Ticket(
    ticketId: Snowflake,              // hosting channel id, unique
    channelName: string,
    userId: Snowflake,                // the owner
    claimedBy: Option<Snowflake>,
    claimedAt: Option<Time>,
    addedUsers: seq<Snowflake>,
    closedAt: Option<Time>,
    closedBy: Option<Snowflake>,
    createdAt: Time)
  {
    predicate IsOpen() { closedAt.None? }
    predicate IsClaimed() { claimedBy.Some? }
  }

  datatype BlacklistEntry = BlacklistEntry(
    userId: Snowflake,                // unique
    reason: string,
    blacklistedBy: Snowflake,
    blacklistedAt: Time)

  datatype Config = Config(
    guildId: Snowflake,               // unique
    ticketChannelId: Snowflake,
    ticketCategoryId: Snowflake,
    transcriptChannelId: Snowflake,
    createdAt: Time)

  datatype Store = Store(
    tickets: map<Snowflake, Ticket>,
    blacklist: map<Snowflake, BlacklistEntry>,
    configs: map<Snowflake, Config>)

  /** A ticket as the schema builds it from the four values the creator supplies:
      every nullable field takes its default `null`, so it is unclaimed and open. */
  function NewTicket(ticketId: Snowflake, channelName: string, userId: Snowflake, now: Time): (t: Ticket)
    ensures t.ticketId == ticketId && t.channelName == channelName && t.userId == userId
    ensures t.IsOpen() && t.closedBy.None?
    ensures !t.IsClaimed() && t.claimedAt.None?
    ensures t.addedUsers == []
    ensures TicketWellFormed(t)
  {
    Ticket(ticketId, channelName, userId, None, None, [], None, None, now)
  }

  /** An empty store. */
  function EmptyStore(): (s: Store)
    ensures Valid(s)
  {
    Store(map[], map[], map[])
  }

  predicate NoDuplicates<T(==)>(xs: seq<T>) {
    forall i, j :: 0 <= i < j < |xs| ==> xs[i] != xs[j]
  }

  /** `claimedBy` is null exactly when `claimedAt` is null. */
  predicate ClaimPaired(t: Ticket) {
    t.claimedBy.None? <==> t.claimedAt.None?
  }

  /** `closedBy` is null exactly when `closedAt` is null. */
  predicate ClosePaired(t: Ticket) {
    t.closedAt.None? <==> t.closedBy.None?
  }

  predicate TicketWellFormed(t: Ticket) {
    ClaimPaired(t) && ClosePaired(t) && NoDuplicates(t.addedUsers)
  }

  /** Every record is stored under its own unique key. */
  predicate Keyed(s: Store) {
    && (forall c :: c in s.tickets ==> s.tickets[c].ticketId == c)
    && (forall u :: u in s.blacklist ==> s.blacklist[u].userId == u)
    && (forall g :: g in s.configs ==> s.configs[g].guildId == g)
  }

  /** No user owns two open tickets. */
  predicate OneOpenPerOwner(s: Store) {
    forall c1, c2 ::
      c1 in s.tickets && c2 in s.tickets &&
      s.tickets[c1].IsOpen() && s.tickets[c2].IsOpen() &&
      s.tickets[c1].userId == s.tickets[c2].userId
      ==> c1 == c2
  }

  predicate Valid(s: Store) {
    && Keyed(s)
    && (forall c :: c in s.tickets ==> TicketWellFormed(s.tickets[c]))
    && OneOpenPerOwner(s)
  }

  /** The lookup `Ticket.findOne({ userId, closedAt: null })`: does the user own an open ticket? */
  predicate HasOpenTicket(s: Store, userId: Snowflake) {
    exists c :: c in s.tickets && s.tickets[c].userId == userId && s.tickets[c].IsOpen()
  }

  /** The lookup `Ticket.findOne({ ticketId: channelId, closedAt: null })`. */
  function FindOpenTicket(s: Store, channelId: Snowflake): (r: Option<Ticket>)
    ensures r.Some? <==> channelId in s.tickets && s.tickets[channelId].IsOpen()
    ensures r.Some? ==> r.value == s.tickets[channelId]
  {
    if channelId in s.tickets && s.tickets[channelId].IsOpen() then Some(s.tickets[channelId]) else None
  }
}
