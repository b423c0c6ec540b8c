# Support-ticket bot: ticket lifecycle model

A Dafny model of a chat-platform bot that runs support tickets. A user
presses a button and gets a private channel. Staff add and
remove participants, claim and release the ticket, and close it. Closing
archives a transcript of the channel. Administrators configure the guild
with `setup-tickets`, and staff keep a blacklist of users who may not open
tickets.

The persistent state is modelled as three maps, each keyed by its record's
unique key:

- tickets, keyed by the hosting channel id;
- blacklist entries, keyed by user id;
- guild configurations, keyed by guild id.

Every button and command is a pure function from (store, inputs) to an
`Outcome`. An outcome holds:

- a status: success, a named rejection, or "no handler";
- the new store;
- the platform side effects the handler requested, in order: channel
  creation, access grants and revocations, transcript delivery, delayed
  channel deletion, and panel posting.

Inputs the platform provides are plain parameters: the acting member with
their role names and permission bits, the target picked for a mentionable
option (a user, or a role, which sends no user), channel types, the
set of channel ids the guild can resolve, the id of a newly created channel,
and the clock.

Modules:

- `Database` (database.dfy): the record shapes, their defaults and keys, and
  the store invariant `Valid`. `Valid` requires that records sit under their
  own keys, that claim fields and close fields are each both set or both unset,
  that `addedUsers` has no duplicates, and that each owner has at most one open
  ticket.
- `Platform` (platform.dfy): users, members, channel options, effects,
  rejections and outcomes.
- `TicketManager` (tickets.dfy): create, add, remove, claim, unclaim and
  close, plus their lifecycle lemmas.
- `Commands` (commands.dfy): `setup-tickets`, `blacklist` and `unblacklist`.
- `Transcript` (transcript.dfy): which messages are archived and in what
  order, the full/compact grouping rule, attachment classification and the
  file name.
- `Dispatch` (dispatch.dfy): interaction routing by both listeners, one
  handled interaction as a `Step`, and the reachable-state invariants. `Step`
  runs the corrected form of the two defects listed under Findings: `add` and
  `remove` read the option they declare, and the administrative commands ask
  for permissions by the library's flag names. The code as written is modelled
  beside it in `OptionLookup` and `PermissionNames`.
- `OptionLookup` (options.dfy): how `add`/`remove` obtain their target (see
  Findings).
- `PermissionNames` (permissions.dfy): how the administrative commands test
  permissions by name (see Findings).
- `Text` (text.dfy): ASCII lower-casing, substring and suffix tests.

The model follows the code where it differs from what one would expect of a
ticket system:

- `claim` checks no role.
- Anyone may close an unclaimed ticket.
- Nothing stops staff from adding the ticket's owner or a bot as a
  participant. One would expect the participant list never to hold the
  owner; the code does not enforce this (`TicketManager.OwnerCanBeAdded`).
- The owner can claim their own ticket, after which no staff member can
  close or release it (`TicketManager.OwnerClaimLocksOutStaff`).
- A bot that was added can never be removed (`TicketManager.AddedBotIsStuck`).
- The open-ticket test looks only at the user id, across all guilds.

## Model

| member | source | states |
|---|---|---|
| Database.NewTicket | src/module/database.js:3-12 | a new ticket carries the given id, channel name and owner, is unclaimed and open, has no participants and is well formed |
| TicketManager.Create | src/module/ticket.js:65-125 | checks run in a fixed order, each rejection named by exactly the first failing check: blacklisted, then an open ticket for this user id, then no guild config, then an unresolvable category, then a clash on the unique ticket id. Any failure leaves the store unchanged. Success adds exactly one ticket under the new channel id: owned by the user, named `ticket-<username>`, unclaimed, open, no participants. Nothing else changes. The channel-creation request is issued exactly when the four checks pass |
| TicketManager.CreatePreservesValid | src/module/ticket.js:80-125 | create keeps the store valid; in particular no user ever owns two open tickets |
| TicketManager.AddUser | src/module/ticket.js:166-188 | checks in order: an open ticket in the channel, then claimant or staff/moderator role, then target not yet a participant. Success appends exactly the target to `addedUsers`, changes nothing else and requests one access grant; a failure changes nothing |
| TicketManager.AddUserPreservesValid | src/module/ticket.js:178-188 | add keeps `addedUsers` duplicate-free and the store valid |
| TicketManager.RemoveUser | src/module/ticket.js:197-223 | checks in order: open ticket, then staff, then target not a bot, then target a participant. Success removes the target id and nothing else, and requests one access revocation |
| TicketManager.RemoveUserPreservesValid | src/module/ticket.js:213-223 | remove keeps the store valid |
| TicketManager.WithoutDeletesOnePosition | src/module/ticket.js:222 | in a duplicate-free list, filtering out one id deletes exactly its position and keeps the other ids in order |
| TicketManager.AddThenRemoveRestores | src/module/ticket.js:178-223 | adding a non-bot user who was not a participant and then removing them restores the store exactly |
| TicketManager.Claim | src/module/ticket.js:228-244 | succeeds exactly on an open, unclaimed ticket, whatever the actor's roles. It sets `claimedBy` to the actor and `claimedAt` to now together and changes nothing else |
| TicketManager.ClaimPreservesValid | src/module/ticket.js:238-244 | claim keeps `claimedBy` and `claimedAt` paired |
| TicketManager.SecondClaimRefused | src/module/ticket.js:238-240 | once a claim has succeeded, any other claim is refused as already claimed |
| TicketManager.Unclaim | src/module/ticket.js:272-288 | succeeds exactly when the ticket is open and the actor is the claimant, and clears `claimedBy` and `claimedAt` together |
| TicketManager.UnclaimPreservesValid | src/module/ticket.js:282-288 | unclaim keeps the store valid |
| TicketManager.ClaimThenUnclaimRestores | src/module/ticket.js:238-288 | in a valid store, claim followed by unclaim by the same actor restores the store |
| TicketManager.Close | src/module/ticket.js:315-355 | refused with no open ticket, or when someone other than the actor has claimed it; an unclaimed ticket can be closed by anyone. Success sets `closedAt` and `closedBy` to the actor and nothing else. It requests transcript delivery to the configured archive channel as `transcript-<channelName>.html` only when the guild is configured, then channel deletion after 3000 ms |
| TicketManager.ClosePreservesValid | src/module/ticket.js:330-332 | close keeps the store valid |
| TicketManager.ClosedIsTerminal | src/module/ticket.js:166-332 | on a closed ticket, add, remove, claim, unclaim and close are all refused with "no open ticket" and change nothing |
| TicketManager.OwnerCanBeAdded | src/module/ticket.js:172-187 | a concrete valid store in which staff add the ticket's owner as a participant |
| TicketManager.OwnerClaimLocksOutStaff | src/module/ticket.js:238-323 | on an open, unclaimed ticket the owner's claim succeeds, since claiming checks no role; afterwards every other user's close is refused as claimed by someone else and every other user's release as not the claimant, with nothing changed |
| TicketManager.AddedBotIsStuck | src/module/ticket.js:178-215 | a bot can be added as a participant and, once added, no remove of it succeeds |
| Commands.StaffRolesCompared | src/commands/blacklist.js:24-29 | every role that grants add/remove also grants the blacklist commands; the role "Admin" grants the blacklist commands but not add/remove |
| Commands.SetupTickets | src/commands/ticket-setup.js:26-77 | a non-administrator is refused before any channel-type check. Then, in order, the panel must be a text channel (type 0), the category a category (type 4), the transcript channel a text channel (type 0). Any failure changes nothing. On success the guild's config holds exactly the three submitted ids whatever existed before. An existing config keeps its guild id and creation time; a new one is created for the guild. Other guilds, tickets and the blacklist are untouched |
| Commands.SetupPreservesValid | src/commands/ticket-setup.js:62-77 | setup keeps at most one config per guild, stored under its guild id |
| Commands.SetupIdempotent | src/commands/ticket-setup.js:62-77 | running setup a second time with the same options leaves the store as the first run left it |
| Commands.ReasonOrDefault | src/commands/blacklist.js:22 | the stored reason is the given one, or `No specific reason` when none or an empty one was given |
| Commands.BlacklistUser | src/commands/blacklist.js:20-59 | refuses non-staff (the Manage Messages permission, which every administrator holds, or a role naming staff/moderator/admin), then bots, then already-blacklisted users, changing nothing. Success inserts exactly one entry for the target with the defaulted reason, the actor as author and now as time |
| Commands.BlacklistPreservesValid | src/commands/blacklist.js:54-59 | blacklisting keeps one entry per user, stored under its user id |
| Commands.UnblacklistUser | src/commands/unblacklist.js:14-44 | refuses non-staff by the same predicate; deletes the entry when present and reports success; otherwise reports "not blacklisted" and changes nothing |
| Commands.BlacklistCommand | src/commands/blacklist.js:20-43 | the staff test comes first. When a role was picked for the mentionable `user` option, a staff member's blacklist fails with the dispatcher's generic error and changes nothing. With a user picked it is exactly `BlacklistUser` |
| Commands.UnblacklistCommand | src/commands/unblacklist.js:14-50 | the staff test comes first. When a role was picked, a staff member's unblacklist fails with the command's own error reply and changes nothing. With a user picked it is exactly `UnblacklistUser` |
| PermissionNames.AsWrittenAdministratorsOnly | src/commands/blacklist.js:24-36 | with the permission names as written, a non-administrator's blacklist, unblacklist or setup always ends in the generic failure with the store unchanged, whatever roles or bits they hold; for an administrator the three commands behave as specified |
| PermissionNames.ModeratorIsTurnedAway | src/commands/blacklist.js:24-29 | a member whose only qualification is a `Moderator` role may blacklist a non-bot, not-yet-blacklisted user under the specified command, but as written gets the generic failure |
| PermissionNames.CorrectedNamesAreCommands | src/commands/unblacklist.js:17-29 | asking by the flag names `Administrator` and `ManageMessages`, the three commands coincide with the specified setup, blacklist and unblacklist for every member |
| Commands.UnblacklistPreservesValid | src/commands/unblacklist.js:32 | unblacklisting keeps the store valid |
| Commands.UnblacklistTwiceFails | src/commands/unblacklist.js:32-39 | a second unblacklist of the same user is refused as not blacklisted |
| Commands.BlacklistThenUnblacklistRestores | src/commands/unblacklist.js:32-44 | blacklisting a user who was not blacklisted and then unblacklisting them restores the store |
| Commands.BlacklistGatesCreation | src/module/ticket.js:71-78 | after a successful blacklist the user's ticket creation is refused as blacklisted in every guild, and unblacklisting removes the entry again |
| Transcript.TranscriptMessages | src/module/ticket.js:359-360 | the rendered messages are the last min(100, history length) messages of the channel in chronological order: the fetch, newest first, reversed |
| Transcript.RenderMessage | src/module/ticket.js:672-677 | a message is compact exactly when there is a previous message with the same author username less than 60000 ms away in either direction. The block keeps the message's time, text and attachments, and a full block its author |
| Transcript.RenderFromAt | src/module/ticket.js:662-677 | in the rendering, block i depends only on messages i and i-1: the comparison is with the immediate predecessor, and the first block compares with nothing |
| Transcript.Render | src/module/ticket.js:662-743 | the rendering loop yields one block per message. Block 0 is full. Block i > 0 is compact exactly when message i continues message i-1. Text, timestamps and attachments are kept. The result equals the recursive reference rendering |
| Transcript.GroupingDrifts | src/module/ticket.js:672-677 | three messages by one author 50 s apart render as full, compact, compact, although the last is 100 s after the first |
| Transcript.TwoMessagesOfOneAuthor | src/module/ticket.js:673-677 | two messages by one author 30 s apart render as full then compact; 90 s apart, as two full blocks |
| Transcript.ImageNameMatchesPattern | src/module/ticket.js:691 | the suffix test on the lower-cased name is equivalent to the pattern: a dot followed, up to the end of the name, by jpg, jpeg, png, gif or webp in any letter case |
| Transcript.ImageMime | src/module/ticket.js:697 | an inlined image's content type is the declared one, or `image/png` when it is missing or empty |
| Transcript.AttachmentItem | src/module/ticket.js:690-706 | an attachment is a file link exactly when its name fails the image pattern. It is inlined exactly when the name matches and the download succeeds, otherwise it is an "unavailable" placeholder. Name, content type and size are carried over |
| Transcript.TranscriptFileName | src/module/ticket.js:760 | the file name is `transcript-` + channel name + `.html`, and the channel name can be read back from it |
| Transcript.Archive | src/module/ticket.js:357-766 | the document goes to the configured transcript channel, is named after the ticket's channel, and holds exactly the rendering of the last (at most) 100 messages in chronological order |
| Dispatch.RouteTable | src/module/ticket.js:16-39 | each interaction reaches at most one handler. The `create_ticket` button and the `ticket` command create; the close, claim and unclaim buttons reach their handlers; `add`, `remove`, `blacklist`, `unblacklist` and `setup-tickets` reach theirs; anything else is ignored |
| Dispatch.StepPreservesValid | src/handlers/commandHandler.js:40-47 | whatever interaction arrives, the handled step keeps the store valid |
| Dispatch.ClosedRecordsNeverChange | src/module/ticket.js:317-332 | no step deletes a ticket record, and no step changes a closed ticket's record |
| Dispatch.RunPreservesValid | src/module/ticket.js:65-355 | any sequence of interactions from a valid store ends in a valid store |
| Dispatch.ReachableInvariants | src/module/ticket.js:80-83 | in every store reachable from the empty store, each user owns at most one open ticket and every ticket's claim fields are both set or both unset |
| OptionLookup.AsWrittenNeverSucceeds | src/module/ticket.js:162-215 | with the options the platform sends (only `user`), `add` and `remove` as written never succeed and never change the store. Past the ticket and staff checks they always fail with a caught exception |
| OptionLookup.AddCommand | src/module/ticket.js:162-188 | reading the declared `user` option, `add` succeeds exactly when the ticket is open, the actor is staff and the target is not yet a participant; the target is then appended. With no user sent, as when a role is picked, it fails and changes nothing |
| OptionLookup.RemoveCommand | src/module/ticket.js:193-223 | reading the declared `user` option, `remove` succeeds exactly when the ticket is open, the actor is staff, the target is no bot and is a participant; the target is then gone. With no user sent, as when a role is picked, it fails and changes nothing |
| OptionLookup.CorrectedCommandsAreManagerOps | src/commands/add.js:6-13 | with the declared option, the corrected commands coincide with the manager's add and remove of the named user |

## Findings

| source | as written | input that shows it | evidently intended | confidence | as-written member | corrected member |
|---|---|---|---|---|---|---|
| src/module/ticket.js:163 | `add` reads its target from option `usuario`, but the command declares only `user` (src/commands/add.js:8). The lookup yields null and the duplicate check dereferences it | staff run `/add user:@U` in the channel of an open ticket: the command fails with a generic error and U is never added | read the declared `user` option | high; not executed | OptionLookup.AsWrittenNeverSucceeds | OptionLookup.AddCommand |
| src/module/ticket.js:194 | `remove` reads its target from option `usuario`, but the command declares only `user` (src/commands/remove.js:8). The bot check dereferences the null target | staff run `/remove user:@U` in an open ticket where U is a participant: the command fails with a generic error and U stays | read the declared `user` option | high; not executed | OptionLookup.AsWrittenNeverSucceeds | OptionLookup.RemoveCommand |
| src/commands/blacklist.js:24 | asks for the permission `MANAGE_MESSAGES`; the platform library (version 14, which `GatewayIntentBits` and the `clientReady` event in src/index.js require) names it `ManageMessages`. For a non-administrator the unknown name throws before the role test, and the dispatcher replies with a generic error | a member with a `Moderator` role and neither permission runs `/blacklist user:@U`: generic error, U is not blacklisted | ask for `ManageMessages`, so that staff roles are honoured | medium (depends on the library version); not executed | PermissionNames.ModeratorIsTurnedAway | Commands.BlacklistUser |
| src/commands/unblacklist.js:17 | the same unknown name `MANAGE_MESSAGES` | a member with a `Staff` role and neither permission runs `/unblacklist user:@U` for a blacklisted U: generic error, U stays blacklisted | ask for `ManageMessages` | medium (depends on the library version); not executed | PermissionNames.AsWrittenAdministratorsOnly | Commands.UnblacklistUser |
| src/commands/ticket-setup.js:31 | asks for `ADMINISTRATOR`, which the library names `Administrator`; a non-administrator gets the generic error instead of the "Only administrators" reply (the store is unchanged either way) | a non-administrator runs `/setup-tickets` | ask for `Administrator` and reply with the refusal | medium (depends on the library version); not executed | PermissionNames.AsWrittenAdministratorsOnly | Commands.SetupTickets |

## Left out

- Replies, embeds, buttons, `interaction.update` and the panel message of `sendTicketPanel` are presentation only. The panel posted by `setup-tickets` is recorded as a `PostPanel` effect.
- Per-user permission overwrites: channel creation is recorded as a `CreateChannel` effect naming the owner, and add/remove as grant and revoke effects. Their platform semantics are not modelled.
- Failures of platform or store calls other than the unique-key clash on ticket creation are not modelled. Examples: channel creation throwing, a save failing, the panel message failing after the config was saved.
- Concurrency: each step runs to completion. Races between a lookup and the later save cannot be expressed.
- The 3-second deletion timer is recorded as a `DeleteChannelAfter` effect, not run.
- Mongoose's automatic `updatedAt` timestamp is not modelled; `createdAt` is.
- Transcript: not modelled are the HTML/CSS template and the logo, display-name lookups, date formatting, and base64 encoding. The attachment download is an input flag. The KiB size with two decimals is floating-point formatting and is not modelled either; the byte size is carried. A transcript failure never blocks the close, and the model places no condition on delivery.
- Role names are lower-cased over ASCII letters only; the platform's full Unicode lower-casing is not modelled.
- The member's administrator and Manage Messages bits are boolean inputs. Permission names are resolved only as far as `PermissionNames` needs: the library's two flag names are known, and any other name throws for a non-administrator.
- Commands.BlacklistUser: states the behaviour with the library's flag name. As written, a non-administrator always gets the generic failure (see Findings and `PermissionNames.AsWrittenAdministratorsOnly`).
- Commands.UnblacklistUser: states the behaviour with the library's flag name. As written, a non-administrator always gets the generic failure (see Findings).
- Command registration with the platform and loading command files from disk are not modelled. An unregistered command name is ignored.
- PermissionNames.AsWrittenAdministratorsOnly: states the as-written permission test for a picked user only. With a role picked, the permission test throws first for a non-administrator, so the result is the same generic failure.
- Dispatch.RouteTable: the command registry is taken to be exactly the five command files `add`, `remove`, `blacklist`, `unblacklist` and `setup-tickets`. A command file named `ticket` would be dispatched by both listeners, so an interaction would reach two handlers. No such file is part of this model, so the `ticket` branch of the ticket manager's listener is modelled but cannot be reached from a registered command.
- Transcript.Continues: timestamps are natural numbers of milliseconds. A missing message timestamp is not modelled, though it would make the source's comparison false.
- The start-up code in src/index.js (environment, database connection, login) is not part of this model.
