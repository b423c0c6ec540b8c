/**
 Routing of platform interactions to handlers, and one handled interaction as
 a step function over the store. The step runs the corrected commands: `add`
 and `remove` read the option they declare, and the administrative commands
 ask for permissions by the library's flag names; the code as written is
 modelled in `OptionLookup` and `PermissionNames`. Two listeners see every interaction: the ticket
 manager's, which reacts to the four ticket buttons and to the `ticket`
 command, and the command dispatcher's, which looks the command name up in
 its registry and ignores names it does not know.
 */
module Dispatch {
  import opened Database
  import opened Platform
  import TicketManager
  import Commands
  import OptionLookup

  datatype Interaction =
    | Button(customId: string)
    | SlashCommand(name: string)
    | OtherInteraction            // neither a button press nor a command

  datatype Action =
    | CreateTicket | CloseTicket | ClaimTicket | UnclaimTicket
    | AddUser | RemoveUser | Blacklist | Unblacklist | SetupTickets

  /** The ticket manager's listener: one independent test per button id, then
      the `ticket` command. A command carries no button id. */
  function ManagerActions(i: Interaction): seq<Action> {
    match i
    case OtherInteraction => []
    case SlashCommand(name) => if name == "ticket" then [CreateTicket] else []
    case Button(id) =>
      (if id == "create_ticket" then [CreateTicket] else [])
      + (if id == "close_ticket" then [CloseTicket] else [])
      + (if id == "claim_ticket" then [ClaimTicket] else [])
      + (if id == "unclaim_ticket" then [UnclaimTicket] else [])
  }

  /** The command dispatcher's registry, by command name. */
  const Registry: map<string, Action> := map[
    "add" := AddUser,
    "remove" := RemoveUser,
    "blacklist" := Blacklist,
    "unblacklist" := Unblacklist,
    "setup-tickets" := SetupTickets]

  /** The command dispatcher's listener: commands only; unknown names are ignored. */
  function HandlerActions(i: Interaction): seq<Action> {
    match i
    case SlashCommand(name) => if name in Registry then [Registry[name]] else []
    case _ => []
  }

  /** Everything an interaction sets in motion, in listener order. */
  function Route(i: Interaction): seq<Action> {
    ManagerActions(i) + HandlerActions(i)
  }

  /** The routing table: each interaction triggers at most one handler, the
      `ticket` command and the create button the same one, and anything
      else nothing. */
  lemma RouteTable(i: Interaction)
    ensures |Route(i)| <= 1
    ensures Route(i) == [CreateTicket] <==> i == Button("create_ticket") || i == SlashCommand("ticket")
    ensures Route(i) == [CloseTicket] <==> i == Button("close_ticket")
    ensures Route(i) == [ClaimTicket] <==> i == Button("claim_ticket")
    ensures Route(i) == [UnclaimTicket] <==> i == Button("unclaim_ticket")
    ensures Route(i) == [AddUser] <==> i == SlashCommand("add")
    ensures Route(i) == [RemoveUser] <==> i == SlashCommand("remove")
    ensures Route(i) == [Blacklist] <==> i == SlashCommand("blacklist")
    ensures Route(i) == [Unblacklist] <==> i == SlashCommand("unblacklist")
    ensures Route(i) == [SetupTickets] <==> i == SlashCommand("setup-tickets")
  {
    match i
    case OtherInteraction =>
    case Button(id) =>
      assert HandlerActions(i) == [];
      if id == "create_ticket" {
        assert Route(i) == [CreateTicket];
      } else if id == "close_ticket" {
        assert Route(i) == [CloseTicket];
      } else if id == "claim_ticket" {
        assert Route(i) == [ClaimTicket];
      } else if id == "unclaim_ticket" {
        assert Route(i) == [UnclaimTicket];
      } else {
        assert Route(i) == [];
      }
    case SlashCommand(name) =>
      assert "ticket" !in Registry;
      if name in Registry {
        assert name in {"add", "remove", "blacklist", "unblacklist", "setup-tickets"};
        assert Route(i) == [Registry[name]];
      } else {
        assert Route(i) == (if name == "ticket" then [CreateTicket] else []);
      }
  }

  /** Everything a handler may consult besides the store. */
  datatype Context = Context(
    actor: Member,
    channelId: Snowflake,           // the channel the interaction came from
    guildId: Snowflake,
    guildChannels: set<Snowflake>,  // channel ids the guild can resolve
    newChannelId: Snowflake,        // id the platform gives a newly created channel
    now: Time,
    target: Option<User>,           // the mentionable `user` option; None when a role was picked
    reason: Option<string>,         // the `reason` option
    panel: ChannelOption,
    category: ChannelOption,
    transcript: ChannelOption)

  function Perform(s: Store, a: Action, ctx: Context): Outcome {
    match a
    case CreateTicket => TicketManager.Create(s, ctx.actor.user, ctx.guildId, ctx.guildChannels, ctx.newChannelId, ctx.now)
    case CloseTicket => TicketManager.Close(s, ctx.actor.user.id, ctx.channelId, ctx.guildId, ctx.now)
    case ClaimTicket => TicketManager.Claim(s, ctx.actor.user.id, ctx.channelId, ctx.now)
    case UnclaimTicket => TicketManager.Unclaim(s, ctx.actor.user.id, ctx.channelId)
    case AddUser => OptionLookup.AddCommand(s, ctx.actor, ctx.channelId, OptionLookup.MentionOptions(ctx.target))
    case RemoveUser => OptionLookup.RemoveCommand(s, ctx.actor, ctx.channelId, OptionLookup.MentionOptions(ctx.target))
    case Blacklist => Commands.BlacklistCommand(s, ctx.actor, ctx.target, ctx.reason, ctx.now)
    case Unblacklist => Commands.UnblacklistCommand(s, ctx.actor, ctx.target)
    case SetupTickets => Commands.SetupTickets(s, ctx.actor, ctx.guildId, ctx.panel, ctx.category, ctx.transcript, ctx.now)
  }

  /** One interaction handled to completion. */
  function Step(s: Store, i: Interaction, ctx: Context): Outcome {
    var r := Route(i);
    if r == [] then Outcome(Unhandled, s, []) else Perform(s, r[0], ctx)
  }

  /** Every handler keeps the store valid: records under their own keys,
      claim fields paired, close fields paired, no duplicate participants,
      at most one open ticket per owner. */
  lemma StepPreservesValid(s: Store, i: Interaction, ctx: Context)
    requires Valid(s)
    ensures Valid(Step(s, i, ctx).store)
  {
    var r := Route(i);
    if r != [] {
      match r[0]
      case CreateTicket =>
        TicketManager.CreatePreservesValid(s, ctx.actor.user, ctx.guildId, ctx.guildChannels, ctx.newChannelId, ctx.now);
      case CloseTicket =>
        TicketManager.ClosePreservesValid(s, ctx.actor.user.id, ctx.channelId, ctx.guildId, ctx.now);
      case ClaimTicket =>
        TicketManager.ClaimPreservesValid(s, ctx.actor.user.id, ctx.channelId, ctx.now);
      case UnclaimTicket =>
        TicketManager.UnclaimPreservesValid(s, ctx.actor.user.id, ctx.channelId);
      case AddUser =>
        if ctx.target.Some? {
          OptionLookup.CorrectedCommandsAreManagerOps(s, ctx.actor, ctx.channelId, ctx.target.value);
          TicketManager.AddUserPreservesValid(s, ctx.actor, ctx.channelId, ctx.target.value);
        }
      case RemoveUser =>
        if ctx.target.Some? {
          OptionLookup.CorrectedCommandsAreManagerOps(s, ctx.actor, ctx.channelId, ctx.target.value);
          TicketManager.RemoveUserPreservesValid(s, ctx.actor, ctx.channelId, ctx.target.value);
        }
      case Blacklist =>
        if ctx.target.Some? {
          Commands.BlacklistPreservesValid(s, ctx.actor, ctx.target.value, ctx.reason, ctx.now);
        }
      case Unblacklist =>
        if ctx.target.Some? {
          Commands.UnblacklistPreservesValid(s, ctx.actor, ctx.target.value);
        }
      case SetupTickets =>
        Commands.SetupPreservesValid(s, ctx.actor, ctx.guildId, ctx.panel, ctx.category, ctx.transcript, ctx.now);
    }
  }

  /** Tickets are never deleted, and a closed ticket's record never changes
      again, whatever interaction arrives. */
  lemma ClosedRecordsNeverChange(s: Store, i: Interaction, ctx: Context, c: Snowflake)
    requires c in s.tickets
    ensures c in Step(s, i, ctx).store.tickets
    ensures !s.tickets[c].IsOpen() ==> Step(s, i, ctx).store.tickets[c] == s.tickets[c]
  {
    var r := Route(i);
    if r != [] && r[0] == CreateTicket {
      var o := TicketManager.Create(s, ctx.actor.user, ctx.guildId, ctx.guildChannels, ctx.newChannelId, ctx.now);
      assert o.status.Success? ==> c != ctx.newChannelId;
    }
  }

  /** Valid stores reached from the empty store by any sequence of interactions. */
  function Run(s: Store, script: seq<(Interaction, Context)>): Store
    decreases |script|
  {
    if script == [] then s else Run(Step(s, script[0].0, script[0].1).store, script[1..])
  }

  lemma {:induction false} RunPreservesValid(s: Store, script: seq<(Interaction, Context)>)
    requires Valid(s)
    ensures Valid(Run(s, script))
    decreases |script|
  {
    if script != [] {
      StepPreservesValid(s, script[0].0, script[0].1);
      RunPreservesValid(Step(s, script[0].0, script[0].1).store, script[1..]);
    }
  }

  /** In every store the bot can reach, each user owns at most one open ticket
      and every ticket's claim fields are both set or both unset. */
  lemma ReachableInvariants(script: seq<(Interaction, Context)>)
    ensures OneOpenPerOwner(Run(EmptyStore(), script))
    ensures forall c :: c in Run(EmptyStore(), script).tickets ==>
      ClaimPaired(Run(EmptyStore(), script).tickets[c])
  {
    RunPreservesValid(EmptyStore(), script);
  }
}
