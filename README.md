# WebRtcSimpleSignaller in Dafny

A model of the signalling core of WebRtcSimpleSignaller: a WebSocket server
that authenticates users, keeps channels (named groups of user ids), and routes
JSON messages between users. There is also a browser client that mirrors the
channels and members it was told about.

The model covers these parts:

- **The message envelope** (`Envelope`).
  - An immutable record of nine fields with its `with*` copies.
  - `asAnswer` and `asDataObject`.
  - The constructor's `||` fallbacks, including the collapse of falsy fields
    to `undefined`.
  - The older ten-field envelope under `Utils/` is modelled too
    (`LegacyEnvelope`): `mid`/`to`/`from`, a server flag, `reply` and
    `asServerMessage`.
- **The array helpers** (`ArrayTools`): `unique`, `exclude` and `intersect`,
  each parameterised by an equality function; both source files have them.
- **The event primitive** (`Events`): handler lists per event name, proxies,
  and `trigger`'s order of calls.
- **The server registries** (`Registry`).
  - The module-level lists of open channels and authenticated users.
  - Channel member lists.
  - Accepting a User, an id string or `null`/`undefined` wherever a user is
    meant.
- **The hub** (`Hub`).
  - The routing table of `send`.
  - The announcements that `join`, `leave`, `open`, `close` and
    `unauthenticate` send, in their order relative to the registry changes.
- **The context a message listener receives** (`Context`): its getters, its
  defaults, and its actions.
- **The older server's validation chain** (`Validation`).
- **The client** (`ClientMessages`, `Client`).
  - URL normalisation.
  - The defaults each level fills into an outgoing message.
  - Requests with a one-shot outcome.
  - The channel and member mirrors and how incoming messages are dispatched
    to them.

Where the code and its documentation disagree, the model follows the code.
Where the code is evidently wrong, both versions are modelled and the rest of
the model uses the intended one (see "## Findings").

Modelling conventions:

- **JavaScript values.** `Js.Value` has one case each for `undefined`, `null`,
  booleans, integers, strings, arrays, plain objects, and opaque objects such
  as sockets or dates.
  - Truthiness and `a || b` are modelled exactly.
  - An exception is a `Result.Throw` carrying the kind of error.
  - Strict equality `===` is value equality. For opaque objects it is equality
    of their handles.
- **State that the code mutates is held in classes.**
  - The registry lists, the channel member lists and the hub's socket outbox.
  - Listener tables.
  - The client's channel list, id and outbox.
  - Request slots.
- **Values that are never mutated are datatypes.**
  - Messages.
  - Users: `withId`/`withSocket` make copies.
- **Nondeterministic inputs are parameters.**
  - A `Gen` value supplies the random id and the date a constructor would draw.
  - What a socket receives is appended to an outbox sequence instead of being
    sent.

## Model

| member | source | states |
|---|---|---|
| Js.Or | src/Utils/Message.js:24-32 | `a \|\| b` is truthy iff either operand is; a truthy left operand is the result |
| Js.Default | src/Utils/Message.js:22 | a destructuring default replaces `undefined` only |
| Js.Prop | src/Server/Channel.js:128-131 | reading a property throws exactly for `undefined` and `null` |
| ArrayTools.Unique | src/Utils/ArrayTools.js:13-15 | the result is no longer than the input, takes its elements from it, holds no two `eq` elements, and keeps or has an `eq` partner for every input element |
| ArrayTools.Exclude | src/Utils/ArrayTools.js:24-26 | exactly the entries that are not `eq` to the element survive |
| ArrayTools.Intersect | src/Utils/ArrayTools.js:35-37 | exactly the entries that have an `eq` partner in the second array survive |
| ArrayTools.UniqueIsSubsequence | src/Utils/ArrayTools.js:13-15 | `unique` keeps the input order: its result is a subsequence of the input |
| ArrayTools.UniqueKeepsFirst | src/Utils/ArrayTools.js:13-15 | an element with no earlier `eq` element in the input is kept |
| ArrayTools.UniqueOfDistinct | Utils/ArrayTools.js:3-5 | an input with no two `eq` entries is returned unchanged |
| ArrayTools.UniqueIdempotent | src/Utils/ArrayTools.js:13-15 | `unique(unique(a)) == unique(a)` |
| ArrayTools.ExcludeAppend | Utils/ArrayTools.js:7-9 | `exclude` distributes over concatenation |
| ArrayTools.ExcludeNothing | src/Utils/ArrayTools.js:24-26 | an array with no `eq` entry is returned unchanged |
| ArrayTools.ExcludeKeepsDistinct | src/Utils/ArrayTools.js:24-26 | a duplicate-free array stays duplicate-free |
| ArrayTools.IntersectAppend | Utils/ArrayTools.js:11-13 | `intersect` distributes over concatenation of its first argument |
| Js.CountOf | src/Utils/Message.js:282 | `filter(v => v === x).length` is zero exactly when no entry equals `x` |
| Envelope.IsCustomTypeAsWrittenAcceptsPredefined | src/Utils/Message.js:282 | as written `"auth"` counts as a custom type; as intended it does not |
| Envelope.IsCustomTypeExact | src/Utils/Message.js:270-283 | as written every value is a custom type; as intended exactly the values other than the ten predefined types |
| Envelope.CustomAddresses | src/Utils/Message.js:297-303 | `"*"` and `"@"` are not custom addresses; every other value is |
| Envelope.AsDataObject | src/Utils/Message.js:236-249 | the data object has exactly the nine getter names, each holding that field |
| Envelope.New | src/Utils/Message.js:22-33 | `new Message()` has only the drawn id and sent date; every other field is `undefined` |
| Envelope.Copy | src/Utils/Message.js:22-33 | `new Message(m)` for an instance keeps every field, drawing an id or date only where `m` has none |
| Envelope.CopyIsConstruct | src/Utils/Message.js:22-33 | the copy is what the general constructor builds from the instance |
| Envelope.DataObjectRoundTrip | src/Utils/Message.js:22-33 | `new Message(m.asDataObject())` keeps each truthy field and collapses each falsy one to `undefined` |
| Envelope.DataObjectRoundTripExact | src/Utils/Message.js:236-249 | a message whose fields are all truthy survives the round trip unchanged |
| Envelope.ConstructFromFields | src/Utils/Message.js:22-33 | the plain-object constructor keeps a truthy property and turns a falsy or missing one into `undefined` |
| Envelope.WithType | src/Utils/Message.js:142-146 | the copy has the given type; on a stamped message nothing else changes |
| Envelope.WithChannel | src/Utils/Message.js:154-158 | the copy has the given channel; on a stamped message nothing else changes |
| Envelope.WithReceiver | src/Utils/Message.js:166-170 | the copy has the given receiver; on a stamped message nothing else changes |
| Envelope.WithSender | src/Utils/Message.js:178-182 | the copy has the given sender; on a stamped message nothing else changes |
| Envelope.WithContent | src/Utils/Message.js:190-194 | the copy has the given content; on a stamped message nothing else changes |
| Envelope.WithKeepsIdentity | src/Utils/Message.js:35-44 | chained `with*` copies share the original id and differ only in the replaced fields |
| Envelope.AsAnswer | src/Utils/Message.js:209-226 | the answer swaps sender and receiver, gets the new date, and refers to the original id; one argument sets the content, two set type and content, more throw; the original gets the fresh id |
| Envelope.AsAnswerKeepsOldId | src/Utils/Message.js:219-224 | the answer carries the original's old id, and the original no longer shares it |
| Envelope.AnswerTwiceRestoresAddresses | src/Utils/Message.js:220-222 | answering an answer swaps the addresses back |
| LegacyEnvelope.ConstructFromPlain | Utils/Message.js:11-24 | for a plain object, each of type, content, channel, to, from, forwarded and answered is the named property when it is truthy and its underscore-prefixed twin otherwise |
| LegacyEnvelope.ConstructStampsPlain | Utils/Message.js:11-22 | a missing `mid` or `sent` is drawn and a falsy one falls back to its underscore twin; the server flag is a truthy `_server` or else `false` |
| LegacyEnvelope.New | Utils/Message.js:11-12 | `new Message()` sets only the drawn id and date, and the server flag `false` |
| LegacyEnvelope.Copy | Utils/Message.js:11-24 | `new Message(m)` keeps every field, turns a falsy flag into `false` and draws a missing id or date |
| LegacyEnvelope.OwnFieldsRoundTrip | Utils/Message.js:11-24 | rebuilding a message from its own fields restores every field except the id and date, which are redrawn |
| LegacyEnvelope.WithType | Utils/Message.js:103-107 | the copy has the given type |
| LegacyEnvelope.WithChannel | Utils/Message.js:113-117 | the copy has the given channel |
| LegacyEnvelope.WithReceiver | Utils/Message.js:123-127 | the copy has the given `to` |
| LegacyEnvelope.WithSender | Utils/Message.js:133-137 | the copy has the given `from` |
| LegacyEnvelope.WithContent | Utils/Message.js:143-147 | the copy has the given content |
| LegacyEnvelope.WithKeepsMid | Utils/Message.js:103-147 | every `with*` copy keeps `mid` |
| LegacyEnvelope.Reply | Utils/Message.js:155-172 | throws iff it gets neither one nor two arguments; otherwise swaps `from`/`to`, stamps the date and `answered`, sets the content, and renews the original's id |
| LegacyEnvelope.AsServerMessage | Utils/Message.js:178-181 | returns `undefined` and sets the flag on the message itself, changing nothing else |
| LegacyEnvelope.IsCustomMessageAsWrittenAcceptsPredefined | Utils/Message.js:206 | as written `"server"` counts as a custom message type; as intended it does not |
| LegacyEnvelope.IsCustomMessageExact | Utils/Message.js:193-207 | as written every value is custom; as intended exactly the values other than the twelve predefined types |
| LegacyEnvelope.IsCustomAddressAsWrittenAcceptsReserved | Utils/Message.js:212-216 | as written, `"*"` and `"@"` count as custom addresses; as intended they do not |
| LegacyEnvelope.IsCustomAddressExact | Utils/Message.js:215 | the intended check rejects exactly `"*"` and `"@"`; as written it rejects only `undefined` |
| Events.Normalize | src/Utils/Listenable.js:80-84 | an array of arguments is passed as is, a single value is wrapped, and none gives `[]` |
| Events.OffFilterAsWritten | src/Utils/Listenable.js:47 | as written, `off` keeps only handlers whose text equals the given one |
| Events.OffFilter | src/Utils/Listenable.js:45-48 | as intended, no kept handler has the given text, and every other one is kept |
| Events.OffAsWrittenKeepsTheRemovedHandler | src/Utils/Listenable.js:45-48 | with two different handlers, `off(first)` as written keeps the first and drops the second; as intended it drops the first |
| Events.OffFilterRemovesAll | src/Utils/Listenable.js:45-48 | after the intended `off`, no handler with that text remains; the two filters split the list between them |
| Events.Listenable.constructor | src/Utils/Listenable.js:14-18 | no handlers, no proxies |
| Events.Listenable.HasListenerFor | src/Utils/Listenable.js:57-59 | true iff the event has at least one handler |
| Events.Listenable.On | src/Utils/Listenable.js:33-36 | a non-function throws the method's Error and changes nothing; a function is appended to the event's list and nothing else changes |
| Events.Listenable.Off | src/Utils/Listenable.js:45-48 | a non-function throws; otherwise an event with handlers keeps only the handlers the as-written filter keeps |
| Events.Listenable.OffIntended | src/Utils/Listenable.js:45-48 | a function's text is removed from the event's list, which keeps every other handler |
| Events.Listenable.Proxy | src/Utils/Listenable.js:67-70 | as written, a primitive argument throws the method's own Error and every object, a listenable included, throws a TypeError from `instanceof`; no proxy is added |
| Events.Listenable.ProxyIntended | src/Utils/Listenable.js:67-70 | a listenable is appended to the proxies; anything else throws the method's Error and changes nothing |
| Events.Listenable.Trigger | src/Utils/Listenable.js:80-84 | every proxy gets the same trigger first, in order; then every handler of the event is applied to the normalised arguments, in order |
| Registry.KeyOfUser | src/Server/Channel.js:128-131 | `user.id \|\| user`: `null`/`undefined` throws, a string is its own key, and a User gives its id or, when that is falsy, itself |
| Registry.KeyOfValue | src/Server/User.js:42-44 | `v.id \|\| v` for an id value: throws on `null`/`undefined`, otherwise the value itself |
| Registry.KeyOfChannel | src/Server/Channel.js:160-166 | `channel.id \|\| channel`, with the same cases as for users |
| Registry.IndexOf | src/Server/Channel.js:76-81 | the first index of the id, or -1 when it is absent |
| Registry.AppendKeepsNoDup | src/Server/Channel.js:65-69 | appending an absent id keeps a member list duplicate-free |
| Registry.RemoveFirstOfNoDup | src/Server/Channel.js:76-81 | in a duplicate-free list, `splice` at the found index removes the id entirely and keeps the rest in order |
| Registry.Channel.constructor | src/Server/Channel.js:15-18 | the given id and members |
| Registry.Channel.HasMember | src/Server/Channel.js:88-90 | true iff the id is a member |
| Registry.Channel.AddMember | src/Server/Channel.js:65-69 | an absent id is appended and the result is true; a present id changes nothing and the result is false |
| Registry.Channel.RemoveMember | src/Server/Channel.js:76-81 | a present id is removed at its first position and the result is true; an absent one changes nothing |
| Registry.Channel.WithId | src/Server/Channel.js:48-50 | a fresh channel with the new id and the same members |
| Registry.Channel.WithMembers | src/Server/Channel.js:56-58 | a fresh channel with the same id and the given members |
| Registry.UserWithId | src/Server/User.js:51-53 | the user with the new id and the same socket |
| Registry.UserWithSocket | src/Server/User.js:60-62 | the user with the same id and the new socket |
| Registry.FirstChannel | src/Server/Channel.js:117-120 | the index of the first channel with the id, or -1 when there is none |
| Registry.FirstUser | src/Server/User.js:100-103 | the index of the first user with the id, or -1 when there is none |
| Registry.FirstOnSocket | src/Server/User.js:89-92 | the index of the first user on the socket, or -1 when there is none |
| Registry.ChannelsWith | src/Server/Channel.js:128-131 | exactly the channels listing the id, as a subsequence of the registry |
| Registry.UniqueChannels | src/Server/Channel.js:182-184 | channels of the input with distinct ids, one for every id of the input |
| Registry.ExcludeChannels | src/Server/Channel.js:193-195 | exactly the channels without that id |
| Registry.UniqueUsers | src/Server/User.js:186-188 | users of the input with distinct ids, one for every id of the input |
| Registry.ExcludeUsers | src/Server/User.js:195-197 | exactly the users without that id |
| Registry.RemoveChannelAt | src/Server/Channel.js:160-166 | closing a channel among ones with distinct ids keeps the ids distinct and leaves none with the closed id |
| Registry.RemoveUserAt | src/Server/User.js:166-172 | removing a user among ones with distinct ids keeps the ids distinct and leaves none with the removed id |
| Registry.Registry.constructor | src/Server/Channel.js:2 | no open channels and no authenticated users |
| Registry.Registry.ChannelById | src/Server/Channel.js:117-120 | an open channel with the id; none iff no open channel has it |
| Registry.Registry.Target | src/Server/Channel.js:160-166 | the open channel a channel argument designates through its key |
| Registry.Registry.ChannelsByMember | src/Server/Channel.js:128-131 | throws iff the user is `null`/`undefined`; otherwise exactly the open channels listing the user's key, as a subsequence of the registry |
| Registry.Registry.UserChannels | src/Server/User.js:42-44 | for a string id, exactly the open channels listing it, as a subsequence of the open channels (so in their order); throws iff the id is `undefined` or `null` |
| Registry.Registry.UserById | src/Server/User.js:100-103 | an authenticated user with the id; none iff no user has it |
| Registry.Registry.UserBySocket | src/Server/User.js:89-92 | the first authenticated user on the socket; none iff no user is on it |
| Registry.Registry.AllChannels | src/Server/Channel.js:97-99 | `Channel.all` is the list of open channels itself, each of them found by its own id |
| Registry.Registry.ChannelsFoundById | src/Server/Channel.js:117-120 | with distinct ids, `byId` finds every open channel by its id |
| Registry.FrozenArray.constructor | src/Server/User.js:69-71 | a frozen array holds exactly the entries it was made from |
| Registry.FrozenArray.Push | src/Server/User.js:69-71 | pushing onto a frozen array throws a TypeError |
| Registry.Registry.AllUsers | src/Server/User.js:69-71 | `User.all` is a new frozen copy of the authenticated users, in order, each of them found by its own id |
| Registry.Registry.UsersFoundById | src/Server/User.js:100-103 | with distinct ids, `byId` finds every authenticated user by its id |
| Registry.Registry.OpenChannel | src/Server/Channel.js:139-144 | a channel whose id is not open is appended and the result is true; otherwise nothing changes and the result is false; ids stay distinct |
| Registry.Registry.Open | src/Server/Channel.js:139-152 | as written, a channel object opens as above, an id string throws a ReferenceError and `null` a TypeError, changing nothing |
| Registry.Registry.OpenIntended | src/Server/Channel.js:139-152 | an id string opens a new, empty channel with that id, appended after the open ones, unless one is open |
| Registry.Registry.Close | src/Server/Channel.js:160-174 | the first open channel with the argument's key is removed and the result is true; otherwise nothing changes; ids stay distinct |
| Registry.Registry.CloseId | src/Server/Channel.js:160-166 | removal by key: afterwards no open channel has that id |
| Registry.Registry.Authenticate | src/Server/User.js:146-158 | a user whose id is not registered is appended and the result is true; otherwise nothing changes |
| Registry.Registry.Unauthenticate | src/Server/User.js:166-180 | `null`/`undefined` throws; for an id key the result is true iff some user had that id, none has it afterwards, and exactly the first such user is taken out, the others staying in order; an object key gives false; when the result is false the users are unchanged |
| Registry.Registry.RemoveId | src/Server/User.js:166-172 | removal by key: the first user with that id is taken out, the others staying in order; afterwards no user has that id |
| Registry.Registry.Join | src/Server/User.js:110-115 | the user's id is added to the designated open channel; the result says whether membership changed; nothing else changes |
| Registry.Registry.Leave | src/Server/User.js:122-127 | the user's id is removed from the designated open channel; the result says whether membership changed |
| Registry.Registry.IsMemberOfAsWritten | src/Server/User.js:134-137 | as written, every designated open channel makes it throw a ReferenceError |
| Registry.Registry.IsMemberOf | src/Server/User.js:134-137 | as intended, true iff the designated open channel lists the user's id |
| Registry.IsMemberOfAsWrittenThrowsForMembers | src/Server/User.js:134-137 | for an open channel with a truthy id, `isMemberOf` as written throws a ReferenceError, while the intended one says whether the user is a member |
| Hub.AllMembers | src/Server/Hub.js:65-68 | every member id of the given channels, in order |
| Hub.SendAsWritten | src/Server/Hub.js:65-77 | as written, every call throws before anything is delivered: a channel broadcast on the undeclared `channel`, a direct message at `sendToUser` |
| Hub.Broadcast | src/Server/Hub.js:56-62 | the members of every channel that lists the sender, except the sender, once each |
| Hub.BroadcastMembers | src/Server/Hub.js:56-62 | an id is in the broadcast iff it differs from the sender and shares a channel with it |
| Hub.Hub.constructor | src/Server/Hub.js:20-53 | the given registry and nothing sent yet |
| Hub.Hub.Recipients | src/Server/Hub.js:56-77 | the documented routing table: a direct receiver, the members of the named channel except the sender, or the broadcast to every channel the sender shares, without repeats |
| Hub.Hub.Deliveries | src/Server/Hub.js:65-77 | the reference definition `SendEach` is proved against: no more deliveries than recipients |
| Hub.Hub.DeliveriesExactly | src/Server/Hub.js:65-77 | every delivery of the reference definition carries the message to the socket of an authenticated user named in the list, and every named authenticated user gets one |
| Hub.Hub.SendToUser | src/Server/Hub.js:84-87 | a User's socket receives the message; an id string or `null` throws and nothing is sent |
| Hub.Hub.Send | src/Server/Hub.js:56-77 | the sockets of exactly the routed recipients that are authenticated get the message, in routing order, and the routing is unchanged by the sending |
| Hub.Hub.SendEach | src/Server/Hub.js:65-77 | each id that names an authenticated user receives the message, in order |
| Hub.Hub.ResolveUser | src/Server/Hub.js:106 | an id string is looked up among the authenticated users; anything else is kept |
| Hub.Hub.ResolveChannel | src/Server/Hub.js:107 | an id string is looked up among the open channels; anything else is kept |
| Hub.Hub.Join | src/Server/Hub.js:105-112 | a missing user or channel throws; otherwise the JOIN announcement goes out, then the pre-join member list to the user, then the user joins |
| Hub.Hub.JoinResolved | src/Server/Hub.js:108-111 | the two messages go out in order before the registry's join, whose result is returned |
| Hub.Hub.Leave | src/Server/Hub.js:119-124 | a missing user or channel throws; otherwise the LEAVE announcement goes out, then the user leaves |
| Hub.Hub.LeaveResolved | src/Server/Hub.js:121-123 | the announcement goes out before the registry's leave, whose result is returned |
| Hub.Hub.Open | src/Server/Hub.js:130-134 | the channel is opened first, then the OPEN announcement goes out; an open that throws sends nothing, one that returns false still announces; an id string that opens appends a fresh, empty channel with that id and keeps the open ones, in order, in front of it |
| Hub.Hub.Close | src/Server/Hub.js:140-143 | the CLOSE announcement goes out, routed as before the close, then the channel is closed: a null argument throws with nothing sent or changed; otherwise the result says whether the argument designated an open channel, that channel alone is taken out of the list, the others staying in order, and nothing else changes when nothing was designated |
| Hub.Hub.LeaveEach | src/Server/Hub.js:152 | the user leaves each of its channels in turn, each announcement with its own draw of id and date; when no two channels share an id and none has the id `"*"`, what goes out is, announcement by announcement, what each is routed to in the starting state (`LeaveDeliveries`); afterwards the user is in none of them, and every other channel keeps its members |
| Hub.Hub.LeaveOne | src/Server/Hub.js:152 | one leave of an open channel: exactly the routing of its announcement before the leave goes out; a channel with a truthy id loses the first entry of the user's id; no other channel changes, and a channel with a falsy id designates none, so nothing changes |
| Hub.Hub.TargetIsItself | src/Server/Channel.js:160-166 | an open channel with a truthy id designates itself |
| Hub.Hub.Unauthenticate | src/Server/Hub.js:150-155 | an id string or no user throws, and so does an `undefined` or `null` id, sending nothing; otherwise the user leaves every channel it is in, sending those leaves' routings when no channel has the id `"*"`, while the other channels keep their members; it gets the DEAUTH notice (built from the draw after the leaves'); and the first user with its id is taken out of the users, which are otherwise unchanged |
| Hub.AppendAssoc | src/Server/Hub.js:65-77 | the outbox order of consecutive sends |
| Hub.ArgId | src/Server/Hub.js:132 | a Channel's id; a string has no `id` |
| Hub.JoinMessagesBuilt | src/Server/Hub.js:108-110 | both JOIN messages come from one base copy and share its id; the sender stays `undefined` |
| Hub.LeaveAnnouncementBuilt | src/Server/Hub.js:121 | the LEAVE announcement is what the constructor makes of the plain object |
| Hub.OpenAnnouncementBuilt | src/Server/Hub.js:132 | the OPEN announcement is what the `with*` chain builds |
| Hub.CloseAnnouncementBuilt | src/Server/Hub.js:141 | the CLOSE announcement names no channel |
| Hub.DeauthNoticeBuilt | src/Server/Hub.js:153 | the DEAUTH notice goes to the user in every channel from `"@"` |
| Hub.SendAsWrittenLosesDirectMessage | src/Server/Hub.js:65-87 | a direct message to an authenticated user is lost as written and delivered by the routing table |
| Context.ArgValue | src/Server/ServerContext.js:225-231 | a plain argument's value; a Message argument is an opaque object |
| Context.ArgAt | src/Server/ServerContext.js:225-231 | `arguments[i]`, which is `undefined` past the end |
| Context.FirstMessage | src/Server/ServerContext.js:119-122 | the index of the first Message in a list, or -1 when there is none, as the `findIndex` of `_messageFromArgs` computes over the list it searches |
| Context.PlainArgs | src/Server/ServerContext.js:125-127 | the non-Message arguments, in order |
| Context.PlainArgsOfValues | src/Server/ServerContext.js:125-127 | without a Message argument, every argument is plain |
| Context.ServerContext.constructor | src/Server/ServerContext.js:21-25 | the given hub, message and socket |
| Context.ServerContext.Content | src/Server/ServerContext.js:47-49 | `null` without a message, the message's content otherwise |
| Context.ServerContext.CurrentUser | src/Server/ServerContext.js:65-67 | the first authenticated user on the socket, or none |
| Context.ServerContext.IsAuthenticated | src/Server/ServerContext.js:93-95 | true iff some authenticated user is on the socket |
| Context.ServerContext.CurrentChannel | src/Server/ServerContext.js:74-76 | the open channel the message names; a `null` message throws |
| Context.ServerContext.ChannelsOfUser | src/Server/ServerContext.js:84-86 | no channels without a user; for a string id, exactly the open channels listing it |
| Context.ServerContext.SenderEqualsAuthenticatedUser | src/Server/ServerContext.js:105-107 | false without a user; otherwise whether the sender is the user's id |
| Context.ServerContext.ChannelOrDefault | src/Server/ServerContext.js:177-212 | the given channel, or else the message's |
| Context.ServerContext.UserOrDefault | src/Server/ServerContext.js:177-194 | the given user, or else the socket's |
| Context.ServerContext.LeaveUserAsWritten | src/Server/ServerContext.js:190-194 | as written, an omitted user is never defaulted |
| Context.ServerContext.LeaveAsWrittenDropsTheUser | src/Server/ServerContext.js:190-194 | on an authenticated socket, `leave()` as written passes no user, while the intended default is the socket's user |
| Context.ServerContext.Authenticate | src/Server/ServerContext.js:135-138 | the socket's user if there is one, or else a new user with the id on the socket, registered unless the id is taken |
| Context.ServerContext.UnauthenticateAsWritten | src/Server/ServerContext.js:146-149 | as written, every call throws a ReferenceError and nothing changes |
| Context.ServerContext.Unauthenticate | src/Server/ServerContext.js:146-149 | as intended, the given or socket user is unauthenticated by the hub, with the hub's guarantees for that user: the throws, the leaves' routings, the other channels' members, the DEAUTH notice and the removal of the first user with its id |
| Context.ServerContext.Join | src/Server/ServerContext.js:177-181 | the hub joins the defaulted user to the defaulted channel: the designated channel gets the id appended when it was not a member, and no other channel changes |
| Context.ServerContext.LeaveAsWritten | src/Server/ServerContext.js:190-194 | as written, leaving out the user makes the hub throw |
| Context.ServerContext.Leave | src/Server/ServerContext.js:190-194 | as intended, the hub removes the defaulted user from the defaulted channel: its first entry of the id is removed, a list without repeats keeps none, and no other channel changes |
| Context.ServerContext.Open | src/Server/ServerContext.js:201-203 | the hub opens the given or the message's channel, with the hub's guarantees: a channel object is appended iff no open channel has its id; an id string appends a fresh, empty channel with that id unless one is open; the open channels stay, in order, in front; `open()` opens nothing |
| Context.ServerContext.Close | src/Server/ServerContext.js:210-212 | the hub announces and closes the given or the message's channel: the result says whether it designated an open channel, that channel alone is taken out, the others staying in order, and otherwise the list is unchanged |
| Context.ServerContext.MessageFromArgsAsWritten | src/Server/ServerContext.js:119-122 | as written, the helper searches only its own arguments (the one arguments object) and always yields the context message |
| Context.ServerContext.MessageFromArgs | src/Server/ServerContext.js:119-122 | as intended, the first Message among the given arguments, or the context message when there is none |
| Context.ServerContext.MessageFromArgsAsWrittenMissesMessages | src/Server/ServerContext.js:119-122 | a Message argument is found as intended and missed as written |
| Context.ServerContext.ReplyAsWritten | src/Server/ServerContext.js:225-231 | as written, the reply takes the first argument as type and the second as content, whatever the count, and goes to the context message's sender from `"@"`; a `null` context message throws |
| Context.ServerContext.ReplyAsWrittenIgnoresMessageArgument | src/Server/ServerContext.js:226-229 | `reply(b)` answers the context message's sender and carries `b` as its type |
| Context.ServerContext.Reply | src/Server/ServerContext.js:213-231 | as documented, the reply is the given Message or the context message, with the type of two plain arguments and the content of the last one, sent from `"@"` to the user that sent the context message; without a context message it throws |
| Context.ServerContext.ReplyWithMessage | src/Server/ServerContext.js:213-216 | `reply(b)` answers the context message's sender with `b`'s type, content, id and channel |
| Context.ServerContext.ReplyWithContentOnly | src/Server/ServerContext.js:225-231 | `reply(content)` as written carries the content as the type and no content; as documented it carries it as the content |
| Context.ServerContext.ReplyWithTypeAndContent | src/Server/ServerContext.js:225-231 | with a type and a content, both replies agree |
| Context.ServerContext.SendReply | src/Server/ServerContext.js:230 | the reply goes over the context's socket only |
| Context.ServerContext.UserById | src/Server/ServerContext.js:157-159 | an authenticated user with that id; none iff no user has it |
| Context.ServerContext.ChannelById | src/Server/ServerContext.js:166-168 | an open channel with that id; none iff no open channel has it |
| Context.ServerContext.Send | src/Server/ServerContext.js:239-241 | the given or the context's message is routed by the hub; a `null` message throws and sends nothing |
| Validation.Code | Server/MessageValidation.js:33-42 | every reason has a non-empty code |
| Validation.CodesDistinct | Server/MessageValidation.js:33-42 | the eight codes are distinct, and every reason is one of them |
| Validation.ValidateServerMessageAsWritten | Server/MessageValidation.js:11-29 | as written, no user gives NOT-AUTHENTICATED and a typed message gives NO-TYPE |
| Validation.ValidateServerMessage | Server/MessageValidation.js:11-29 | as intended, an untyped message gives NO-TYPE; passing needs a type and the user as sender |
| Validation.FirstFailure | Server/MessageValidation.js:11-29 | the first failing test in the order, or -1 iff no test fails |
| Validation.ChainAsWrittenIsFirstFailure | Server/MessageValidation.js:11-29 | the chain as written returns the code of the first failing test |
| Validation.ChainIsFirstFailure | Server/MessageValidation.js:11-29 | the intended chain returns the first failing test's code, and `""` iff no test fails |
| Validation.NoTypeIsInverted | Server/MessageValidation.js:15 | a well-formed typed message is rejected as written and passes as intended; an untyped one the other way round |
| Validation.Validate | Server/MessageValidation.js:3-9 | the result is `undefined` whatever the chain says |
| ClientMessages.PrefixedHasScheme | src/Client/ClientHandler.js:17 | prefixing `wss://` gives a URL with a scheme separator |
| ClientMessages.ReplacedHasScheme | src/Client/ClientHandler.js:18 | replacing a leading `http` keeps the separator |
| ClientMessages.NormalizeUrl | src/Client/ClientHandler.js:17-18 | the URL gains `wss://` when it has no `://`, and then a leading `http` becomes `ws`; the result always has a separator |
| ClientMessages.NormalizeHttp | src/Client/ClientHandler.js:17-18 | `https://h` becomes `wss://h` and `http://h` becomes `ws://h` |
| ClientMessages.NormalizeBareHost | src/Client/ClientHandler.js:17 | a bare host becomes `wss://` plus the host |
| ClientMessages.NormalizeIdempotent | src/Client/ClientHandler.js:17-18 | normalising twice is normalising once |
| ClientMessages.Outgoing | src/Client/ClientHandler.js:160-166 | a given message is kept; a type and content build a new message with only those |
| ClientMessages.ClientFill | src/Client/ClientHandler.js:167-169 | a falsy sender becomes the client's id, a falsy channel and receiver `"*"`; other fields are kept |
| ClientMessages.ChannelFill | src/Client/ChannelHandler.js:44-54 | a falsy receiver becomes `undefined`, a falsy channel the channel's id |
| ClientMessages.MemberFill | src/Client/MemberHandler.js:47-56 | a falsy receiver becomes the member's id |
| ClientMessages.FillsAreIdempotent | src/Client/ClientHandler.js:167-169 | filling twice is filling once, at every level |
| ClientMessages.ChannelSendChain | src/Client/ChannelHandler.js:44-54 | a channel's message ends up with receiver `"*"` when it had none, its channel or else the channel's id, and the client's id as sender when it had none |
| ClientMessages.MemberSendChain | src/Client/MemberHandler.js:47-56 | a member's message ends up addressed to the member when it had no receiver |
| ClientMessages.ArgOf | src/Client/ChannelHandler.js:18-20 | the first trigger argument's value |
| ClientMessages.Without | src/Client/ChannelHandler.js:20 | exactly the entries other than the id remain, as a subsequence of the input (so in order), each as often as in the input |
| ClientMessages.Apply | src/Client/ChannelHandler.js:18-20 | a CHANNEL list replaces the ids and throws unless it is an array; JOIN appends; LEAVE drops the id and keeps the other ids in order, each as often as before |
| ClientMessages.WithoutTwice | src/Client/ChannelHandler.js:20 | dropping an id twice is dropping it once |
| ClientMessages.Answer | src/Client/ClientHandler.js:142-147 | an answer to the request settles a waiting slot with the content; anything else changes nothing |
| ClientMessages.Expire | src/Client/ClientHandler.js:138-141 | the timer rejects a waiting slot with TIMEOUT and leaves a settled one |
| ClientMessages.SettlesOnce | src/Client/ClientHandler.js:135-149 | a settled slot stays as it is under further answers and timeouts |
| ClientMessages.Outcome | src/Client/ClientHandler.js:72-101 | a rejection, a missing response, and a falsy success each throw, the last with its error or "INVALID"; a truthy success gives the response |
| Client.Builtin | src/Client/ChannelHandler.js:18-20 | which of the three built-in handlers a handler is |
| Client.Run | src/Client/ChannelHandler.js:18-20 | handlers run in order until the first throw, which is counted |
| Client.RunFailsOnlyOnList | src/Client/ChannelHandler.js:18 | only the CHANNEL handler can fail, and only with a list that is not an array |
| Client.RunOfOtherHandlers | src/Client/ChannelHandler.js:23-27 | other handlers leave the member ids alone |
| Client.RunOfOneBuiltin | src/Client/ChannelHandler.js:18-20 | CHANNEL sets the list, JOIN appends the id, LEAVE drops it |
| Client.Payloads | src/Client/ClientHandler.js:63 | the trigger arguments are the content and then the message |
| Client.TriggerCalls | src/Utils/Listenable.js:80-84 | one forward per proxy, then one application per handler of the event |
| Client.Retrigger | src/Client/ClientHandler.js:63 | the calls are exactly those of `trigger(type, [content, message])` |
| Client.Ids | src/Client/MemberHandler.js:26-28 | the member ids, in order |
| Client.FindMember | src/Client/ChannelHandler.js:33-36 | the first member with the id, or -1 when there is none |
| Client.KeepOthers | src/Client/ChannelHandler.js:20 | the members other than the id, whose ids are the ids without it |
| Client.SendTarget | src/Client/MemberHandler.js:47-56 | sending through something that is not a channel mirror throws a TypeError |
| Client.MemberChannelAsWritten | src/Client/ChannelHandler.js:18-19 | as written, a member mirror is given the channel's id, not the mirror |
| Client.MemberChannel | src/Client/MemberHandler.js:15-19 | as intended, a member mirror refers to its channel mirror |
| Client.MemberSendAsWrittenThrows | src/Client/MemberHandler.js:47-56 | as written, every member's `send` throws a TypeError |
| Client.FindChannel | src/Client/ClientHandler.js:122-125 | the first mirror with the id, or -1 iff every entry is a mirror of another channel; a throw is a TypeError on a `null` entry |
| Client.KnowingSender | src/Client/ClientHandler.js:56-58 | exactly the mirrors that know the sender as a member; any `null` entry throws; distinct mirrors stay distinct |
| Client.Dispatch | src/Client/ClientHandler.js:54-62 | the selected mirrors are the client's, without repeats when the client's are distinct; a message to one channel selects that channel's mirror when one is present and none otherwise, and throws only on a `null` entry |
| Client.HandleEach | src/Client/ClientHandler.js:56-61 | each selected mirror in turn has its members updated as its handlers' run says, until one throws; that one is the last reached (so a throw means one was reached), and the rest keep their members |
| Client.LeaveFilterAsWritten | src/Client/ClientHandler.js:102 | as written, the filter on `c.name` keeps every mirror for an `undefined` name and none otherwise |
| Client.LeaveFilter | src/Client/ClientHandler.js:97-103 | as intended, exactly the mirrors of other channels are kept, as a subsequence of the list (so in order), and distinct mirrors stay distinct; a `null` entry throws |
| Client.LeaveAsWrittenDropsEveryChannel | src/Client/ClientHandler.js:102 | as written, leaving one of two channels drops both; as intended it keeps the other |
| Client.CreateAsWrittenBlocksLookups | src/Client/ClientHandler.js:110-125 | as written, after `create` every lookup that found nothing before now throws |
| Client.MemberHandler.constructor | src/Client/MemberHandler.js:15-19 | the given id and channel, and an empty event table |
| Client.MemberHandler.Send | src/Client/MemberHandler.js:47-56 | the client's outbox gains the message filled by the member, the channel and the client in turn; a non-mirror channel throws |
| Client.MemberHandler.HandleMessage | src/Client/MemberHandler.js:58-61 | only a message from the member or from `"*"` is triggered, as its type with content and message |
| Client.ChannelHandler.constructor | src/Client/ChannelHandler.js:13-21 | no members, and exactly the three built-in handlers, under "channel", "join" and "leave" |
| Client.ChannelHandler.Member | src/Client/ChannelHandler.js:33-36 | a member mirror with the id; none iff the id is not a member |
| Client.ChannelHandler.NewMembers | src/Client/ChannelHandler.js:18 | fresh member mirrors of this channel mirror for exactly the listed ids |
| Client.ChannelHandler.Update | src/Client/ChannelHandler.js:18-20 | the member ids become what `Apply` gives, or stay when it throws |
| Client.ChannelHandler.ApplyAll | src/Client/ChannelHandler.js:18-27 | applying the handlers in turn leaves the members `Run` gives, with its failure flag and count |
| Client.ChannelHandler.HandleMessage | src/Client/ChannelHandler.js:23-27 | the addressed member mirror handles the message first; then the trigger runs as far as `Run` goes, the member ids become `Run`'s, and a failure throws a TypeError |
| Client.ChannelHandler.Send | src/Client/ChannelHandler.js:44-54 | the client's outbox gains the message filled by the channel and then the client |
| Client.Request.constructor | src/Client/ClientHandler.js:134-149 | the message, event and handler of a waiting request |
| Client.Request.Timeout | src/Client/ClientHandler.js:138-141 | the slot becomes its expiry |
| Client.RequestMessage | src/Client/ClientHandler.js:136 | a new message with the type and content, from the sender, to `"@"` |
| Client.RequestGoesToServer | src/Client/ClientHandler.js:136-137 | the request leaves for `"@"` on channel `"*"` |
| Client.ClientHandler.constructor | src/Client/ClientHandler.js:15-26 | the normalised URL, no channels, a `null` id |
| Client.ClientHandler.ChannelsAsWritten | src/Client/ClientHandler.js:33-35 | as written, reading the getter freezes the client's array |
| Client.ClientHandler.Channels | src/Client/ClientHandler.js:33-35 | as intended, a read-only view of the mirrors, all of them non-null mirrors of this client |
| Client.ClientHandler.SetChannels | src/Client/ClientHandler.js:37-39 | the setter throws a TypeError |
| Client.ClientHandler.SetId | src/Client/ClientHandler.js:50-52 | the setter throws a TypeError |
| Client.ClientHandler.Channel | src/Client/ClientHandler.js:122-125 | a mirror with the id, or none iff no mirror has it; a valid client never throws |
| Client.ClientHandler.Send | src/Client/ClientHandler.js:160-171 | the outbox gains the filled message; nothing else changes |
| Client.ClientHandler.HandleMessage | src/Client/ClientHandler.js:54-64 | the mirrors `Dispatch` selects handle the message in order, each one's member ids becoming what its handlers' run gives, until one throws; mirrors not reached keep their members; a lookup or handler failure throws a TypeError and skips the trigger, and a handler failure after a successful lookup means at least one mirror was reached; otherwise the message is triggered as its type with content and message |
| Client.ClientHandler.Request | src/Client/ClientHandler.js:134-150 | the request message is sent and its handler registered; the request waits |
| Client.ClientHandler.Deliver | src/Client/ClientHandler.js:142-147 | an answer unregisters the request handlers and settles the slot; anything else changes nothing |
| Client.ClientHandler.AuthStart | src/Client/ClientHandler.js:72-73 | an "auth" request carrying `{id, token}` is sent |
| Client.ClientHandler.AuthComplete | src/Client/ClientHandler.js:73-77 | the outcome is returned, and only a success sets the client's id |
| Client.ClientHandler.ChannelRequest | src/Client/ClientHandler.js:84-116 | the lookup comes first; join and create send a request only for an unknown channel, leave only for a known one |
| Client.ClientHandler.Push | src/Client/ClientHandler.js:89 | pushing onto a frozen array throws and changes nothing; otherwise the mirror is appended |
| Client.ClientHandler.JoinOrCreateComplete | src/Client/ClientHandler.js:87-89 | a success appends a fresh mirror of the channel; a failure throws and changes nothing |
| Client.ClientHandler.CreateCompleteAsWritten | src/Client/ClientHandler.js:113-115 | as written, a success appends `null` |
| Client.ClientHandler.LeaveComplete | src/Client/ClientHandler.js:100-102 | a success keeps the mirrors of other channels and only those, in their order; a failure changes nothing |
| Client.JoinedChannelIsFound | src/Client/ClientHandler.js:84-125 | after the intended join, the lookup finds the new mirror |

## Left out

- WebSocket I/O.
  - The hub constructor's server and socket wiring (src/Server/Hub.js:20-53): connection, message, authentication and close events.
  - `sendOverSocket` (src/Server/Hub.js:94-96).
  - The client's socket.
  - All of these are I/O. Deliveries are appended to an outbox instead.
- The client constructor assigns `onopen`, `onclose`, `onerror` and `onmessage` to the client rather than to its socket (src/Client/ClientHandler.js:20-23).
  - As written, no socket event ever reaches the handlers.
  - The model treats `HandleMessage` as the wired callback. Connection events are I/O and are not modelled.
- The JSON wire format.
  - Messages travel as values.
  - `JSON.parse` of a received frame becomes the plain-object constructor.
- Random ids and dates are the `Gen` parameter.
  - Where one operation builds several messages (`Hub.Hub.Unauthenticate`, `Hub.Hub.LeaveEach`), each message has its own draw from a sequence of `Gen`s.
  - The `with*` copies of an unstamped message reuse the one `Gen` of the copy they start from.
  - A real timer is the `Request.Timeout` method, and the `maxtime` argument is left out.
  - Floating-point dates are not modelled.
- `async` operations are split at their `await` into a start and a completion (`AuthStart`/`AuthComplete`, `ChannelRequest`/`JoinOrCreateComplete`/`LeaveComplete`).
  - The interleaving of other messages between the two halves is not modelled.
  - The completions take the same arguments as the start.
- `Types.isCustomType` (src/Utils/Message.js:282) and `Types.isCustomMessage` (Utils/Message.js:206) are modelled by the list that `Object.values(this)` yields, written out. In both arrow functions `this` is an object without enumerable values of its own: the `Message` class, whose statics are getters, and the empty module scope. The list is therefore empty as written; see the Findings.
- Events.Listenable.HasListenerFor: treats every event name as a plain key of the handler table. In JavaScript `_handlers = {}` inherits `Object.prototype`, so names such as `"constructor"` or `"hasOwnProperty"` find a function of nonzero `length`; `hasListenerFor` is then true and `on`, `off` and `trigger` throw a TypeError there. `"__proto__"` replaces the table's prototype. These names are not modelled.
- ArrayTools.Unique: appends each kept entry as one element. JavaScript's `set.concat(el)` spreads an entry that is itself an array. Every call site passes users, channels or ids, none of them arrays.
- Registry.Registry.AllChannels: returns the list of open channels as a value. The source returns the live module array, so a caller that pushes to it or splices it changes the open channels; that aliasing is not modelled.
- Client.ClientHandler.HandleMessage: requires the client's mirrors to be distinct objects, which `Client.ClientHandler.Valid` keeps. The source does not need this; with a mirror listed twice it would handle the message twice.
- Hub.Broadcast: delivers to each user who shares a channel with the sender once, as the routing table in the comment at src/Server/Hub.js:58-62 reads. The nested `forEach` of src/Server/Hub.js:68 would deliver once per shared channel, and the sender's own channels would include the sender too; that loop-level count is not modelled (as written the branch throws before it anyway, see the Findings).
- Hub.Hub.LeaveEach: states the leaves' deliveries only when no two of the channels share an id and none has the id `"*"`. An announcement to a `"*"` channel is a broadcast to everyone who shares a channel with its sender, and the earlier leaves change who that is, so that case is not stated.
- Hub.Hub.Unauthenticate: states the leaves' deliveries only when no open channel has the id `"*"`, for the reason given for `Hub.Hub.LeaveEach`.
- Context.ServerContext.Unauthenticate: inherits the same condition from `Hub.Hub.Unauthenticate`.
- `Channel.users` (src/Server/Channel.js:40-42) and `User.socket` as a getter are not modelled beyond the user record. The routing table states directly who receives a message.
- Handlers registered by application code are opaque.
  - `trigger` yields the sequence of calls it makes, not their effects.
  - Proxies only receive forwards.
- Strict equality `===` on objects is value equality of the model's records, except for mirrors and channels, which are references.
  - `withId` (src/Server/Channel.js:48-50) shares the member array in JavaScript; the model copies it.
- A Message instance passed where the context reads a plain value is one fixed opaque object (`Context.ArgValue`).
- `ChannelHandler.id` is a writable property in JavaScript; the model keeps it constant.
- Client.LeaveFilterAsWritten: reads `c.name` as always `undefined`, since mirrors have no such property. Application code that adds a `name` to a mirror is not modelled.
- LegacyEnvelope.Reply: a two-argument reply's type is the arguments object itself, as written. The comment makes the last argument the type, while the newer envelope makes it the first. With no single evident intention, no corrected member is given.
- Hub.Hub.Open: uses the intended `Channel.open`. As written, a string argument throws inside `Channel.open`, which is covered by `Registry.Registry.Open`.
- The legacy server files `Server/Hub.js` and `Server/ServerContext.js` and the legacy client `Client/*` are not part of this model, apart from the validation chain.

## Findings

| source | as written | input that shows it | evidently intended | confidence | as-written member | corrected member |
|---|---|---|---|---|---|---|
| src/Utils/Listenable.js:47 | `off` keeps the handlers whose text equals the given one | handlers `a`, `b` with different texts, `off(a)` | drop the handlers with that text | high, not executed | Events.OffAsWrittenKeepsTheRemovedHandler | Events.OffFilterRemovesAll |
| src/Utils/Listenable.js:67-70 | `instanceof Listenable` tests against an arrow-function mixin: a primitive is refused with the method's Error, and every object, listenables included, throws a TypeError because the mixin has no `prototype` | any listenable passed to `proxy` | a listenable is added as a proxy | medium, not executed | Events.Listenable.Proxy | Events.Listenable.ProxyIntended |
| Utils/Message.js:215 | the arrow function reads `this.ALL`/`this.SERVER` of the module scope, which are undefined | `isCustomAddress("*")` is true | `"*"` and `"@"` are not custom | high, not executed | LegacyEnvelope.IsCustomAddressAsWrittenAcceptsReserved | LegacyEnvelope.IsCustomAddressExact |
| src/Server/Channel.js:139-144 | `new Channel(id)` for a string reads an undeclared `id` | `Channel.open("room")` | open a new, empty channel "room" | high, not executed | Registry.Registry.Open | Registry.Registry.OpenIntended |
| src/Server/User.js:134-137 | the membership test reads an undeclared `id` | `isMemberOf` on any open channel | whether the channel lists the user's id | high, not executed | Registry.IsMemberOfAsWrittenThrowsForMembers | Registry.Registry.IsMemberOf |
| src/Server/Hub.js:65-87 | the broadcast reads `message.from`; the channel branch reads an undeclared `channel`; `sendToUser` never looks ids up | a direct message to an authenticated user's id | the documented routing table | high, not executed | Hub.SendAsWrittenLosesDirectMessage | Hub.Hub.Send |
| src/Server/ServerContext.js:146-149 | the default test reads an undeclared `id` | `unauthenticate()` | unauthenticate the given or the socket's user | high, not executed | Context.ServerContext.UnauthenticateAsWritten | Context.ServerContext.Unauthenticate |
| src/Server/ServerContext.js:190-194 | the `undefined` test is on the already defaulted channel, so the user never defaults | `leave()` on an authenticated socket | default to the socket's user | high, not executed | Context.ServerContext.LeaveAsWrittenDropsTheUser | Context.ServerContext.Leave |
| src/Server/ServerContext.js:119-122 | `_messageFromArgs` searches its own `arguments`, which is the one arguments object it was passed, so it never finds a Message | `reply(m)` with a Message `m` from another sender | find the first Message among the arguments given to `reply` | high, not executed | Context.ServerContext.MessageFromArgsAsWrittenMissesMessages | Context.ServerContext.MessageFromArgs |
| src/Server/ServerContext.js:225-229 | the reply is built from the raw parameters and the message `_messageFromArgs` returns, which as written is always the context message | `reply(b)` for a Message `b` | answer the context message's sender with `b`'s contents | high, not executed | Context.ServerContext.ReplyAsWrittenIgnoresMessageArgument | Context.ServerContext.ReplyWithMessage |
| src/Utils/Message.js:282 | `Object.values(this)` of the `Message` class is empty, so every type is custom | `Types.isCustomType("auth")` is true | false exactly for the ten predefined types | high, not executed | Envelope.IsCustomTypeAsWrittenAcceptsPredefined | Envelope.IsCustomTypeExact |
| Utils/Message.js:206 | `Object.values(this)` of the module scope is empty, so every type is custom | `Types.isCustomMessage("server")` is true | false exactly for the twelve predefined types | high, not executed | LegacyEnvelope.IsCustomMessageAsWrittenAcceptsPredefined | LegacyEnvelope.IsCustomMessageExact |
| src/Server/ServerContext.js:229 | the reply uses the raw `type` and `content` parameters | `reply("hi")` | content "hi" with the message's type | high, not executed | Context.ServerContext.ReplyWithContentOnly | Context.ServerContext.Reply |
| Server/MessageValidation.js:15 | the type test rejects a message that has a type | a typed, well-addressed message from its authenticated sender | reject a message without a type | high, not executed | Validation.NoTypeIsInverted | Validation.ChainIsFirstFailure |
| src/Client/ClientHandler.js:102 | the filter keeps `c.name === name`, and mirrors have no `name` | leaving one of two joined channels | keep the other channels | high, not executed | Client.LeaveAsWrittenDropsEveryChannel | Client.ClientHandler.LeaveComplete |
| src/Client/ClientHandler.js:115 | the `null` lookup result is pushed | `create("room")` after which `channel("x")` is called | push a new mirror of the channel | high, not executed | Client.CreateAsWrittenBlocksLookups | Client.ClientHandler.JoinOrCreateComplete |
| src/Client/ChannelHandler.js:18-19 | member mirrors get the channel's id instead of the channel mirror | `member.send(m)` for any announced member | send through the channel mirror | high, not executed | Client.MemberSendAsWrittenThrows | Client.MemberHandler.Send |
| src/Client/ClientHandler.js:34 | `Object.freeze` freezes the client's own array | reading `channels`, then `join("room")` | return a read-only view | medium, not executed | Client.ClientHandler.ChannelsAsWritten | Client.ClientHandler.Channels |
