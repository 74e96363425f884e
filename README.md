# Campus shuttle bot: membership tracker and request conversation

A Dafny model of the two pieces of logic in the shuttle bot
(`CUSMS_updated.py`, and `CUSMS.py`, which repeats its conversation part
almost line for line):

- **Membership tracker.** `extract_status_change` turns a chat-member update
  into a `(was_member, is_member)` pair, or into nothing when the status did
  not change. `track_chats` files the chat id under one of three process-wide
  registries (`user_ids`, `group_ids`, `channel_ids`) chosen by the chat type,
  adding it when the bot joined and discarding it when the bot left.
  `greet_chat_members` chooses a welcome, a farewell or nothing. `show_chats`
  lists the registries.
- **Request conversation.** `/start` opens a conversation at GENDER (the
  user's role: Student, Non-Student or Pilot). It then moves to DESTINATION
  (EIE, CST or Others), to LOCATION (a shared location or `/skip`), to BIO (a
  free-text remark), and ends. `/cancel` ends it from any state. The handler
  table in `main` decides which message each state accepts. Each handler
  returns the next state constant.

Files:

- `wrappers.dfy` holds `Option`.
- `membership.dfy` (module `Membership`) holds the pure tracker logic. It
  holds the transition, the greeting choice, category routing, the registry
  value with its update function `Track`, and the lemmas about them.
- `tracker.dfy` (module `Tracker`) holds the class `BotData`. Its three set
  fields are updated in place by `TrackChats`, which is proved against
  `Track`. `ShowChats` lists the fields through a loop.
- `conversation.dfy` (module `Conversation`) holds the states, the message
  events and the filters. It also holds the handler table (entry points, the
  handlers of each state, the fallbacks), the step function and the lemmas
  about accepted input and forward progress.
- `sessions.dfy` (module `Sessions`) holds the table of conversations in
  progress, a map from identity to state. A conversation is dropped when it
  reaches END.

Three points about what the code does and does not do:

- The handlers do not store the role, the destination, the location or the
  remark. They only log them. A conversation state therefore carries no
  answer, and nothing in the model claims that an answer is recorded.
- The code does not keep a chat id out of two registries by itself.
  `Membership.ExclusivityNeedsConsistentTypes` shows the same id filed as a
  user and as a group. Exclusivity holds only while every id arrives with a
  chat type of one category (`Membership.TrackAllStaysExclusive`).
- A message that does not fit the current state is simply not handled; the
  state stays as it was. Nothing is raised.

## Model

| member | source | states |
|---|---|---|
| `Membership.ExtractStatusChange` | CUSMS_updated.py:53-86 | No transition exactly when the update has no status entry. Otherwise each side is a member for member, creator and administrator. For restricted it is a member iff its `is_member` flag is exactly `True`. Left, kicked and unrecognised statuses are never members. |
| `Membership.IsMemberChangeAloneIsIgnored` | CUSMS_updated.py:60-64 | A change of `is_member` without a status change gives no transition, whatever the flags are. |
| `Membership.RestrictedWithoutTrueIsLikeLeft` | CUSMS_updated.py:61-84 | A restricted old member whose flag is `False` or missing (the `(None, None)` default) gives the same result as one who left. |
| `Membership.FlagOnlyMattersWhenRestricted` | CUSMS_updated.py:67-84 | When neither side is restricted, the result does not depend on the `is_member` entry. |
| `Membership.MemberFlags` | CUSMS_updated.py:61 | A flag is exactly `True` only when the `is_member` entry is present and says so on that side. A missing entry gives `(None, None)`. |
| `Membership.GreetChatMembers` | CUSMS_updated.py:137-156 | A welcome exactly for the transition (false, true). A farewell exactly for (true, false). |
| `Membership.GreetsNothingWithoutChange` | CUSMS_updated.py:139-156 | Nothing is sent exactly when there is no transition or both flags are equal. |
| `Membership.CategoryOf` | CUSMS_updated.py:101-115 | Private chats go to users, groups and supergroups to groups, every other type to channels. |
| `Membership.Track` | CUSMS_updated.py:89-121 | With no transition all three registries are unchanged. Otherwise only the chat type's registry can change. (false, true) adds the id, (true, false) discards it, and equal flags change nothing. |
| `Membership.TrackIsIdempotent` | CUSMS_updated.py:101-121 | Applying the same update twice leaves the registries as applying it once. |
| `Membership.TrackRegistersJoinAndLeave` | CUSMS_updated.py:102-121 | After a join the id is in its registry. After a leave it is not. With equal flags its membership is as before. |
| `Membership.TrackAllStaysExclusive` | CUSMS_updated.py:89-121 | Over any sequence of updates, if every id always comes with a chat type of the category it is filed under, each id stays in at most one registry. |
| `Membership.ExclusivityNeedsConsistentTypes` | CUSMS_updated.py:101-111 | One id that joins once as a private chat and once as a group ends up in two registries. |
| `Tracker.BotData.constructor` | CUSMS_updated.py:104-118 | The three registries start empty, as `setdefault(..., set())` creates them. |
| `Tracker.BotData.TrackChats` | CUSMS_updated.py:89-121 | The in-place update of the three set fields equals `Track` applied to the old registries. |
| `Tracker.BotData.ShowChats` | CUSMS_updated.py:124-134 | Reads the registries and changes nothing. Each listing holds every id of its registry exactly once. |
| `Tracker.Enumerate` | CUSMS_updated.py:126-128 | Iterating a set yields each of its elements once, in some order; its length is the set's size. |
| `Conversation.Constant` | CUSMS.py:41 | The awaiting states carry constants in `range(4)`. |
| `Conversation.ConstantsFollowOrder` | CUSMS.py:41 | The constants are distinct and ordered as GENDER, DESTINATION, LOCATION, BIO. |
| `Conversation.Matches` | CUSMS.py:152-159 | With no command among its alternatives, a regex filter accepts exactly a text among them. The text filter accepts exactly non-empty text that is not a command. A shared location passes the location filter only. |
| `Conversation.CommandFiltersAccept` | CUSMS.py:150-161 | The `/start`, `/skip` and `/cancel` filters accept exactly the command event or the same text typed out. |
| `Conversation.NextState` | CUSMS.py:57-137 | Only `start` returns GENDER. Only `bio` and `cancel` return END. Every other handler returns a later state than GENDER. |
| `Conversation.StateHandlers` | CUSMS.py:151-160 | Every awaiting state has handlers and END has none. Every handler of a state returns a later state. No state list holds `start` or `cancel`, and none of its filters accepts `/start` or `/cancel`. |
| `Conversation.FirstMatch` | CUSMS.py:149-162 | A handler list handles a message iff one of its filters accepts it. The callback is that of the first handler that accepts. |
| `Conversation.Dispatch` | CUSMS.py:149-162 | The callback reached moves the state forward. `/cancel` reaches the fallback from every awaiting state. Any other callback comes from the state's own list. |
| `Conversation.Step` | CUSMS_updated.py:272-285 | Every handled message moves strictly forward in GENDER < DESTINATION < LOCATION < BIO < END. `/cancel` ends every awaiting state. An ended conversation handles nothing. |
| `Conversation.Begin` | CUSMS.py:44-57 | `/start` is the only entry and leads to GENDER. |
| `Conversation.CancelEndsEverywhere` | CUSMS.py:129-137 | The `/cancel` fallback leads to END from every awaiting state. |
| `Conversation.GenderAccepts` | CUSMS.py:60-83 | GENDER moves to DESTINATION exactly on the texts Student, Non-Student and Pilot, and to END exactly on `/cancel`. Nothing else is handled. |
| `Conversation.GenderRejectsOtherText` | CUSMS.py:152 | `student`, `Driver` and `Pilot ` are not handled in GENDER. |
| `Conversation.DestinationAccepts` | CUSMS.py:86-93 | DESTINATION moves to LOCATION exactly on EIE, CST and Others, and to END exactly on `/cancel`. Nothing else is handled. |
| `Conversation.LocationAccepts` | CUSMS.py:96-118 | LOCATION moves to BIO exactly on a shared location or `/skip`, and to END exactly on `/cancel`. Nothing else is handled. |
| `Conversation.BioAccepts` | CUSMS.py:121-126 | BIO moves to END exactly on non-empty non-command text or `/cancel`. It never moves anywhere else, and leaves every other command unhandled. |
| `Conversation.WalkMovesForward` | CUSMS.py:149-162 | Over any sequence of messages, the states reached rise strictly in rank above the starting state. There are at most four steps. |
| `Conversation.NoStateRevisited` | CUSMS_updated.py:272-285 | No state of a conversation is visited twice, and the starting state is never re-entered. |
| `Conversation.SkippedLocationRequest` | CUSMS_updated.py:167-249 | `/start`, Pilot, CST, `/skip`, a remark passes through DESTINATION, LOCATION, BIO and END. |
| `Conversation.WrongAnswerIsIgnored` | CUSMS_updated.py:275-276 | A role sent again at DESTINATION is ignored and the question stays open. |
| `Conversation.CancelAtFirstQuestion` | CUSMS_updated.py:252-260 | `/cancel` at GENDER ends the conversation, and later answers are not handled. |
| `Sessions.Advance` | CUSMS_updated.py:272-285 | The sender's entry becomes the state its handler returned (the entry points' when no conversation runs), is dropped when that state is END, and is left as it was when nothing handles the message. Other senders' conversations are unchanged and no conversation is stored as END. |
| `Sessions.AdvanceMovesOnlyTheSender` | CUSMS_updated.py:272-285 | One message changes only its sender's conversation. No stored conversation is ever END. `/start` opens a new one at GENDER, a handled message moves a running one strictly forward, an unhandled one changes nothing, and `/cancel` drops it. |
| `Sessions.Conversations.constructor` | CUSMS.py:149-162 | No conversation is in progress at first. |
| `Sessions.Conversations.Deliver` | CUSMS.py:149-164 | The message goes to the entry points when the sender has no conversation and to its state's handlers otherwise. The table changes as `Advance` says, and no ended conversation is kept. |

## Left out

- Transport and lifecycle: the updater, polling, `idle` and the order in which handlers are registered. The bot token is not part of the model.
- Reply texts, keyboards, HTML and MarkdownV2 mentions, and the extra greeting for an empty first name in `gender`. They only render output.
- Logging. The answers are only logged, so the model keeps none of them.
- `ChatMemberUpdated.difference()` is a library call. Its result is the input `Membership.Difference`: an optional status pair and an optional `is_member` pair.
- Membership.Status: an unrecognised status string is `Unrecognised(name)`. The model assumes such a name is none of the six documented statuses.
- Library behaviour of the conversation handler that the code does not show is not modelled: re-entry on `/start` during a conversation, timeouts, and how the identity key is derived (`Sessions.Conversations` is generic in its key). `/start` mid-conversation is not in any state's list, so `Conversation.Step` leaves it unhandled.
- Location coordinates are floats. A shared location is the opaque event `SharedLocation`.
- Conversation.Matches: a regex filter is exact membership in its alternatives. Python's `$` also matches before a trailing newline, and that is not captured. A command is a text that starts with `/` and equals the command exactly, with case. The library compares command names without case, so `/CANCEL` ends a conversation in the bot but is unhandled here. Arguments after a command and `@botname` suffixes are not modelled. The library recognises a command by a bot-command entity at the start of the message, which the platform attaches only when command characters follow the slash; here any text starting with `/` is a command, so a remark such as `/` or `/ hi` is handled in BIO by the bot but is unhandled here.
- Membership.CategoryOf: `OtherType(name)` stands for a chat type string other than the four documented ones. The model assumes `name` is never "private", "group" or "supergroup"; such a value would be filed under channels here.
- Tracker.BotData.ShowChats: lists the ids but does not build the reply text, which also needs the bot's username.
- Concurrency: handlers run one at a time.
