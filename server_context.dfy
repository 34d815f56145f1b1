/**
 * The context the hub hands to a message listener: the hub, the received
 * message (or `null`) and the socket it came in on.  Its getters are
 * lookups in the registries; its actions fill in defaults from the message
 * and the socket's user and then delegate to the hub.
 */
module Context {
  import opened Js
  import opened Envelope
  import opened Registry
  import opened Hub

  /** An optional parameter: left out (or passed as `undefined`), or given. */
  datatype Param<T> = Omitted | Given(arg: T)

  /** An argument of `reply`: a Message instance, or any other value. */
  datatype ReplyArg = Msg(m: Message) | Val(v: Value)

  /** A Message instance where a plain value is read: an object the reply
      carries without inspecting it. */
  const MessageObject := Other(0)

  /** The arguments object of a call, where it is passed on as a value. */
  const ArgumentsObject := Other(1)

  /** The value of a `reply` argument. */
  function ArgValue(a: ReplyArg): (v: Value)
    ensures a.Val? ==> v == a.v
  {
    match a
    case Msg(_) => MessageObject
    case Val(v) => v
  }

  /** `arguments[i]`: `undefined` past the end. */
  function ArgAt(args: seq<ReplyArg>, i: nat): (v: Value)
    ensures i < |args| ==> v == ArgValue(args[i])
    ensures i >= |args| ==> v == Undefined
  {
    if i < |args| then ArgValue(args[i]) else Undefined
  }

  /** The index of the first Message among the arguments, or -1 (`findIndex`). */
  function FirstMessage(args: seq<ReplyArg>): (i: int)
    ensures -1 <= i < |args|
    ensures i == -1 <==> forall k :: 0 <= k < |args| ==> args[k].Val?
    ensures 0 <= i ==> args[i].Msg? && forall k :: 0 <= k < i ==> args[k].Val?
  {
    if |args| == 0 then -1
    else if args[0].Msg? then 0
    else
      var j := FirstMessage(args[1..]);
      if j == -1 then -1 else j + 1
  }

  /** The arguments that are no Message, in order. */
  function PlainArgs(args: seq<ReplyArg>): (r: seq<Value>)
    ensures |r| <= |args|
    ensures forall k :: 0 <= k < |args| && args[k].Val? ==> args[k].v in r
    ensures forall v :: v in r ==> Val(v) in args
  {
    if |args| == 0 then []
    else
      var rest := PlainArgs(args[1..]);
      assert forall k :: 1 <= k < |args| ==> args[k] == args[1..][k - 1];
      if args[0].Val? then [args[0].v] + rest else rest
  }

  /** Without a Message argument every argument is a plain one. */
  lemma {:induction false} PlainArgsOfValues(args: seq<ReplyArg>)
    requires forall k :: 0 <= k < |args| ==> args[k].Val?
    ensures PlainArgs(args) == seq(|args|, k requires 0 <= k < |args| => args[k].v)
    decreases |args|
  {
    if |args| > 0 {
      PlainArgsOfValues(args[1..]);
    }
  }

  class ServerContext {
    const hub: Hub
    const message: Option<Message>
    const socket: Socket

    /** `new ServerContext({hub, message, socket})`. */
    constructor (hub: Hub, message: Option<Message>, socket: Socket)
      ensures this.hub == hub && this.message == message && this.socket == socket
    {
      this.hub := hub;
      this.message := message;
      this.socket := socket;
    }

    /** The registries hold no two channels and no two users with one id. */
    ghost predicate Valid()
      reads hub.reg
    {
      hub.reg.Valid()
    }

    /** `content`: `null` without a message, the message's content otherwise. */
    function Content(): (r: Value)
      ensures message.None? ==> r == Null
      ensures message.Some? ==> r == message.value.content
    {
      if message.Some? then message.value.content else Null
    }

    /** `user`: the first authenticated user on the context's socket, or null. */
    function CurrentUser(): (r: Option<User>)
      reads hub.reg
      ensures r.Some? ==> r.value in hub.reg.users && r.value.socket == socket
      ensures r.None? <==> forall u :: u in hub.reg.users ==> u.socket != socket
    {
      hub.reg.UserBySocket(socket)
    }

    /** `isAuthenticated`: some authenticated user is on the context's socket. */
    function IsAuthenticated(): (r: bool)
      reads hub.reg
      ensures r <==> exists u :: u in hub.reg.users && u.socket == socket
    {
      CurrentUser().Some?
    }

    /** `channel`: the open channel the message names, or null; reading the
        channel of a `null` message throws. */
    function CurrentChannel(): (r: Result<Option<Channel>>)
      reads hub.reg
      ensures r.Throw? <==> message.None?
      ensures r.Ok? && r.value.Some? ==> r.value.value in hub.reg.channels && r.value.value.id == message.value.channel
      ensures r.Ok? && r.value.None? ==> forall c :: c in hub.reg.channels ==> c.id != message.value.channel
    {
      if message.None? then Throw(TypeError)
      else Ok(hub.reg.ChannelById(message.value.channel))
    }

    /** `channelsOfUser`: no channels without a user; otherwise the user's
        `channels`, which for a string id are exactly the open channels
        listing it. */
    function ChannelsOfUser(): (r: Result<seq<Channel>>)
      reads hub.reg, set c | c in hub.reg.channels
      ensures CurrentUser().None? ==> r == Ok([])
      ensures CurrentUser().Some? && CurrentUser().value.id.Str? ==> (r.Ok? &&
        forall c :: c in hub.reg.channels ==> (c in r.value <==> CurrentUser().value.id in c.members))
      ensures r.Ok? ==> forall c :: c in r.value ==> c in hub.reg.channels
    {
      match CurrentUser()
      case None => Ok([])
      case Some(u) => hub.reg.UserChannels(u)
    }

    /** `senderEqualsAuthenticatedUser`: false without a user; otherwise
        whether the message's sender is the user's id (a `null` message
        then throws). */
    function SenderEqualsAuthenticatedUser(): (r: Result<bool>)
      reads hub.reg
      ensures CurrentUser().None? ==> r == Ok(false)
      ensures CurrentUser().Some? && message.None? ==> r.Throw?
      ensures CurrentUser().Some? && message.Some? ==>
        r == Ok(message.value.sender == CurrentUser().value.id)
      ensures r == Ok(true) ==> exists u :: u in hub.reg.users && u.socket == socket && u.id == message.value.sender
    {
      match CurrentUser()
      case None => Ok(false)
      case Some(u) =>
        if message.None? then Throw(TypeError)
        else Ok(message.value.sender == u.id)
    }

    /** The channel an action works on: the given one, or else `this.channel`
        (the open channel of the message, `null` when none is open). */
    function ChannelOrDefault(ca: Param<ChannelArg>): (r: Result<ChannelArg>)
      reads hub.reg
      ensures ca.Given? ==> r == Ok(ca.arg)
      ensures ca.Omitted? ==> (r.Throw? <==> message.None?)
      ensures ca.Omitted? && r.Ok? ==> !r.value.ChannelId?
      ensures ca.Omitted? && r.Ok? && r.value.AChannel? ==>
        r.value.c in hub.reg.channels && r.value.c.id == message.value.channel
      ensures ca.Omitted? && r.Ok? && r.value.NoChannel? ==>
        forall c :: c in hub.reg.channels ==> c.id != message.value.channel
    {
      match ca
      case Given(a) => Ok(a)
      case Omitted =>
        match CurrentChannel()
        case Throw(e) => Throw(e)
        case Ok(None) => Ok(NoChannel)
        case Ok(Some(c)) => Ok(AChannel(c))
    }

    /** The user an action works on: the given one, or else `this.user`. */
    function UserOrDefault(ua: Param<UserArg>): (r: UserArg)
      reads hub.reg
      ensures ua.Given? ==> r == ua.arg
      ensures ua.Omitted? ==> (r.AUser? <==> IsAuthenticated()) && !r.UserId?
      ensures ua.Omitted? && r.AUser? ==> r.u in hub.reg.users && r.u.socket == socket
    {
      match ua
      case Given(a) => a
      case Omitted => if CurrentUser().Some? then AUser(CurrentUser().value) else NoUser
    }

    /** The user `leave` as written hands to the hub: it tests the already
        defaulted channel for `undefined`, which `this.channel` never is, so
        a left-out user stays `undefined`. */
    function LeaveUserAsWritten(ua: Param<UserArg>): (r: UserArg)
      ensures ua.Given? ==> r == ua.arg
      ensures ua.Omitted? ==> r == NoUser
    {
      match ua
      case Given(a) => a
      case Omitted => NoUser
    }

    /** On an authenticated socket, `leave()` as written passes no user to
        the hub, while the intended default is the socket's user. */
    lemma LeaveAsWrittenDropsTheUser()
      requires IsAuthenticated()
      ensures LeaveUserAsWritten(Omitted) == NoUser
      ensures UserOrDefault(Omitted) == AUser(CurrentUser().value)
    {
    }

    /** `authenticate(id, socket)`: the socket's user if it has one, or else
        a new user with `id` on the given socket (by default the context's),
        is handed to `User.authenticate`.  So a socket that already has a
        user never registers another, and the result is false for it. */
    method Authenticate(id: Value, s: Param<Socket>) returns (added: bool)
      modifies hub.reg
      ensures old(CurrentUser()).Some? ==> !added && hub.reg.users == old(hub.reg.users)
      ensures old(CurrentUser()).None? ==>
        var u := User(id, if s.Given? then s.arg else socket);
        && (added <==> old(hub.reg.UserById(id)).None?)
        && hub.reg.users == (if added then old(hub.reg.users) + [u] else old(hub.reg.users))
      ensures added ==> (IsAuthenticated() <==> s.Omitted? || s.arg == socket)
      ensures hub.reg.channels == old(hub.reg.channels)
      ensures old(Valid()) ==> Valid()
    {
      var current := CurrentUser();
      var user := if current.Some? then current.value else User(id, if s.Given? then s.arg else socket);
      added := hub.reg.Authenticate(user);
    }

    /** `unauthenticate(user)` as written: its default test reads an
        undeclared `id`, so every call throws a ReferenceError and nothing
        is sent or removed. */
    method UnauthenticateAsWritten(ua: Param<UserArg>) returns (r: Result<bool>)
      ensures r == Throw(ReferenceError("id"))
    {
      r := Throw(ReferenceError("id"));
    }

    /** `unauthenticate` as intended: the given user, or else the socket's,
        is unauthenticated by the hub (leaving its channels, notified, removed),
        each message drawing from `gs` as the hub's `unauthenticate` says. */
    method Unauthenticate(ua: Param<UserArg>, gs: nat -> Gen) returns (r: Result<bool>, ghost left: seq<Delivery>, ghost notice: seq<Delivery>)
      requires Valid()
      modifies hub, hub.reg, set c | c in hub.reg.channels
      ensures Valid()
      ensures !old(UserOrDefault(ua)).AUser? ==> r == Throw(TypeError) && hub.outbox == old(hub.outbox)
      ensures ua.Omitted? && old(IsAuthenticated()) && Truthy(old(CurrentUser()).value.id) ==>
        var u := old(CurrentUser()).value;
        r == Ok(true) && hub.reg.UserById(u.id).None?
        && hub.outbox == old(hub.outbox) + left + notice
      ensures r.Ok? ==> hub.outbox == old(hub.outbox) + left + notice
      ensures hub.reg.channels == old(hub.reg.channels)
      ensures var a := old(UserOrDefault(ua));
        a.AUser? && (a.u.id == Undefined || a.u.id == Null) ==> r.Throw? && hub.outbox == old(hub.outbox)
      ensures var a := old(UserOrDefault(ua));
        a.AUser? && a.u.id != Undefined && a.u.id != Null ==> r.Ok?
      ensures var a := old(UserOrDefault(ua));
        r.Ok? ==> a.AUser? && old(hub.reg.UserChannels(a.u)).Ok?
      ensures var a := old(UserOrDefault(ua));
        r.Ok? && Truthy(a.u.id) ==> (r.value <==> old(hub.reg.UserById(a.u.id)).Some?) && hub.reg.UserById(a.u.id).None?
      ensures var a := old(UserOrDefault(ua));
        r.Ok? && (forall c :: c in old(hub.reg.channels) ==> c.id != ALL) ==>
        left == old(hub.LeaveDeliveries(a.u, hub.reg.UserChannels(a.u).value, gs))
      ensures var a := old(UserOrDefault(ua));
        r.Ok? ==> forall c :: c in hub.reg.channels && c !in old(hub.reg.UserChannels(a.u).value) ==> c.members == old(c.members)
      ensures var a := old(UserOrDefault(ua));
        r.Ok? && Truthy(a.u.id) && a.u.id != ALL ==>
        notice == old(hub.Deliveries([a.u.id], DeauthNotice(gs(|hub.reg.UserChannels(a.u).value|), a.u.id)))
      ensures var a := old(UserOrDefault(ua));
        r.Ok? && a.u.id.Str? && Truthy(a.u.id) && old(hub.reg.MembersNoDup()) ==>
        forall c :: c in hub.reg.channels && Truthy(c.id) ==> a.u.id !in c.members
      ensures !(r.Ok? && r.value) ==> hub.reg.users == old(hub.reg.users)
      ensures var a := old(UserOrDefault(ua));
        r.Ok? && r.value ==>
        0 <= FirstUser(old(hub.reg.users), a.u.id) && hub.reg.users == RemoveAt(old(hub.reg.users), FirstUser(old(hub.reg.users), a.u.id))
    {
      var user := UserOrDefault(ua);
      if ua.Omitted? && user.AUser? {
        assert old(hub.reg.UserById(user.u.id)).Some?;
      }
      r, left, notice := hub.Unauthenticate(user, gs);
    }

    /** `join(channel, user)`: with the channel defaulting to the message's
        and the user to the socket's, the hub announces the join and adds
        the member. */
    method Join(ca: Param<ChannelArg>, ua: Param<UserArg>, g: Gen) returns (r: Result<bool>)
      modifies hub, set c | c in hub.reg.channels
      ensures old(ChannelOrDefault(ca)).Throw? ==> r == Throw(TypeError) && hub.outbox == old(hub.outbox)
      ensures old(ChannelOrDefault(ca)).Ok? ==>
        var u, c := old(hub.ResolveUser(UserOrDefault(ua))), old(hub.ResolveChannel(ChannelOrDefault(ca).value));
        && (r.Throw? <==> u.NoUser? || c.NoChannel?)
        && (r.Ok? ==> hub.outbox == old(hub.outbox) + old(hub.Routed(JoinAnnouncement(g, c.c.id, u.u.id)))
                                                     + old(hub.Routed(MemberListing(g, c.c.id, u.u.id, c.c.members))))
        && (r.Ok? ==> (r.value <==> old(hub.reg.Target(AChannel(c.c))).Some? && u.u.id !in old(hub.reg.Target(AChannel(c.c)).value.members)))
      ensures r.Throw? ==> forall c :: c in hub.reg.channels ==> c.members == old(c.members)
      ensures hub.reg.channels == old(hub.reg.channels) && hub.reg.users == old(hub.reg.users)
      ensures old(ChannelOrDefault(ca)).Ok? && r.Ok? ==>
        var u, c := old(hub.ResolveUser(UserOrDefault(ua))), old(hub.ResolveChannel(ChannelOrDefault(ca).value));
        var t := old(hub.reg.Target(AChannel(c.c)));
        && (t.Some? ==> t.value.members == if r.value then old(t.value.members) + [u.u.id] else old(t.value.members))
        && (forall d :: d in hub.reg.channels && t != Some(d) ==> d.members == old(d.members))
    {
      var channel := ChannelOrDefault(ca);
      if channel.Throw? {
        return Throw(TypeError);
      }
      var user := UserOrDefault(ua);
      r := hub.Join(user, channel.value, g);
    }

    /** `leave(channel, user)` as written: the channel defaults to the
        message's, but the user does not default, so leaving the user out
        throws before anything is sent. */
    method LeaveAsWritten(ca: Param<ChannelArg>, ua: Param<UserArg>, g: Gen) returns (r: Result<bool>)
      modifies hub, set c | c in hub.reg.channels
      ensures ua.Omitted? ==> r.Throw?
      ensures r.Throw? ==> hub.outbox == old(hub.outbox) && forall c :: c in hub.reg.channels ==> c.members == old(c.members)
      ensures old(ChannelOrDefault(ca)).Ok? && ua.Given? ==>
        var u, c := old(hub.ResolveUser(ua.arg)), old(hub.ResolveChannel(ChannelOrDefault(ca).value));
        && (r.Throw? <==> u.NoUser? || c.NoChannel?)
        && (r.Ok? ==> hub.outbox == old(hub.outbox) + old(hub.Routed(LeaveAnnouncement(g, c.c.id, u.u.id))))
      ensures hub.reg.channels == old(hub.reg.channels) && hub.reg.users == old(hub.reg.users)
    {
      var channel := ChannelOrDefault(ca);
      if channel.Throw? {
        return Throw(TypeError);
      }
      var user := LeaveUserAsWritten(ua);
      r := hub.Leave(user, channel.value, g);
    }

    /** `leave` as intended: the channel defaults to the message's and the
        user to the socket's; the hub announces the leave and removes the member. */
    method Leave(ca: Param<ChannelArg>, ua: Param<UserArg>, g: Gen) returns (r: Result<bool>)
      modifies hub, set c | c in hub.reg.channels
      ensures old(ChannelOrDefault(ca)).Throw? ==> r == Throw(TypeError) && hub.outbox == old(hub.outbox)
      ensures old(ChannelOrDefault(ca)).Ok? ==>
        var u, c := old(hub.ResolveUser(UserOrDefault(ua))), old(hub.ResolveChannel(ChannelOrDefault(ca).value));
        && (r.Throw? <==> u.NoUser? || c.NoChannel?)
        && (r.Ok? ==> hub.outbox == old(hub.outbox) + old(hub.Routed(LeaveAnnouncement(g, c.c.id, u.u.id))))
        && (r.Ok? ==> (r.value <==> old(hub.reg.Target(AChannel(c.c))).Some? && u.u.id in old(hub.reg.Target(AChannel(c.c)).value.members)))
      ensures r.Throw? ==> forall c :: c in hub.reg.channels ==> c.members == old(c.members)
      ensures hub.reg.channels == old(hub.reg.channels) && hub.reg.users == old(hub.reg.users)
      ensures old(ChannelOrDefault(ca)).Ok? && r.Ok? ==>
        var u, c := old(hub.ResolveUser(UserOrDefault(ua))), old(hub.ResolveChannel(ChannelOrDefault(ca).value));
        var t := old(hub.reg.Target(AChannel(c.c)));
        && (r.value ==> t.value.members == RemoveAt(old(t.value.members), IndexOf(old(t.value.members), u.u.id)))
        && (t.Some? && old(NoDup(t.value.members)) ==> NoDup(t.value.members) && u.u.id !in t.value.members)
        && (forall d :: d in hub.reg.channels && (t != Some(d) || !r.value) ==> d.members == old(d.members))
    {
      var channel := ChannelOrDefault(ca);
      if channel.Throw? {
        return Throw(TypeError);
      }
      var user := UserOrDefault(ua);
      r := hub.Leave(user, channel.value, g);
    }

    /** `open(channel)`: the given channel, or else the message's, is opened
        by the hub.  The default is a channel already open (or `null`, which
        throws), so `open()` never opens anything. */
    method Open(ca: Param<ChannelArg>, g: Gen) returns (r: Result<bool>)
      modifies hub, hub.reg
      ensures old(ChannelOrDefault(ca)).Throw? ==> r == Throw(TypeError)
      ensures r.Throw? ==> hub.outbox == old(hub.outbox) && hub.reg.channels == old(hub.reg.channels)
      ensures old(ChannelOrDefault(ca)).Ok? ==>
        var c := old(ChannelOrDefault(ca)).value;
        && (r.Throw? <==> c.NoChannel?)
        && (r.Ok? ==> hub.outbox == old(hub.outbox) + hub.Routed(OpenAnnouncement(g, ArgId(c))))
        && (c.AChannel? ==> (r.Ok? && (r.value <==> old(hub.reg.ChannelById(c.c.id)).None?)
          && hub.reg.channels == (if r.value then old(hub.reg.channels) + [c.c] else old(hub.reg.channels))))
        && (c.ChannelId? ==> (r.Ok? && (r.value <==> old(hub.reg.ChannelById(Str(c.s))).None?)
          && |hub.reg.channels| == |old(hub.reg.channels)| + (if r.value then 1 else 0)
          && hub.reg.ChannelById(Str(c.s)).Some?
          && (r.value ==> fresh(hub.reg.channels[|hub.reg.channels| - 1]) && hub.reg.channels[|hub.reg.channels| - 1].members == []
                          && hub.reg.channels[|hub.reg.channels| - 1].id == Str(c.s))))
      ensures r.Ok? ==> old(hub.reg.channels) <= hub.reg.channels
      ensures ca.Omitted? && r.Ok? ==> !r.value && hub.reg.channels == old(hub.reg.channels)
      ensures hub.reg.users == old(hub.reg.users)
      ensures old(Valid()) ==> Valid()
    {
      var channel := ChannelOrDefault(ca);
      if channel.Throw? {
        return Throw(TypeError);
      }
      r := hub.Open(channel.value, g);
    }

    /** `close(channel)`: the given channel, or else the message's, is
        announced as closed and closed by the hub. */
    method Close(ca: Param<ChannelArg>, g: Gen) returns (r: Result<bool>)
      modifies hub, hub.reg
      ensures old(ChannelOrDefault(ca)).Throw? ==> r == Throw(TypeError)
      ensures r.Throw? ==> hub.outbox == old(hub.outbox) && hub.reg.channels == old(hub.reg.channels)
      ensures old(ChannelOrDefault(ca)).Ok? ==>
        var c := old(ChannelOrDefault(ca)).value;
        && (r.Throw? <==> c.NoChannel?)
        && (r.Ok? ==> hub.outbox == old(hub.outbox) + old(hub.Routed(CloseAnnouncement(g, ArgId(c)))))
        && (r.Ok? ==> (r.value <==> old(hub.reg.Target(c)).Some?))
        && (r.Ok? && r.value ==> (exists i ::
                                   0 <= i < |old(hub.reg.channels)| && old(hub.reg.channels)[i] == old(hub.reg.Target(c)).value
                                   && hub.reg.channels == RemoveAt(old(hub.reg.channels), i)))
      ensures !(r.Ok? && r.value) ==> hub.reg.channels == old(hub.reg.channels)
      ensures old(Valid()) && r.Ok? ==> hub.reg.Target(old(ChannelOrDefault(ca)).value).None?
      ensures hub.reg.users == old(hub.reg.users)
      ensures old(Valid()) ==> Valid()
    {
      var channel := ChannelOrDefault(ca);
      if channel.Throw? {
        return Throw(TypeError);
      }
      r := hub.Close(channel.value, g);
    }

    /** `_messageFromArgs(list)`: the first Message of the list the helper
        searches, or the context message. */
    function MessageAmong(list: seq<ReplyArg>): Option<Message>
    {
      var i := FirstMessage(list);
      if i >= 0 then Some(list[i].m) else message
    }

    /** `_messageFromArgs(arguments)` as written: it searches its own
        arguments, whose only entry is the arguments object of `reply`
        (an array-like, no Message), so it always yields the context message. */
    function MessageFromArgsAsWritten(args: seq<ReplyArg>): (r: Option<Message>)
      ensures r == message
    {
      MessageAmong([Val(ArgumentsObject)])
    }

    /** `_messageFromArgs(argsArray)` as intended: the first Message among
        the given arguments, or the context message. */
    function MessageFromArgs(args: seq<ReplyArg>): (r: Option<Message>)
      ensures FirstMessage(args) >= 0 ==> r == Some(args[FirstMessage(args)].m)
      ensures FirstMessage(args) < 0 ==> r == message
      ensures (forall k :: 0 <= k < |args| ==> args[k].Val?) ==> r == message
    {
      MessageAmong(args)
    }

    /** A Message argument passed to `_messageFromArgs` is found as intended
        and missed as written. */
    lemma MessageFromArgsAsWrittenMissesMessages(b: Message)
      requires message != Some(b)
      ensures MessageFromArgs([Msg(b)]) == Some(b)
      ensures MessageFromArgsAsWritten([Msg(b)]) != Some(b)
    {
    }

    /** The reply `reply(...args)` builds, as written: the context message
        with the first argument as type and the second as content,
        addressed to the sender of the context message (the message the
        helper yields) and sent by `"@"`.  The type and content the
        arguments would give that message are computed and dropped, so
        `reply(content)` sets the type to the content and the content to
        `undefined`.  A `null` context message throws. */
    function ReplyAsWritten(args: seq<ReplyArg>, g: Gen): (r: Result<Message>)
      ensures r.Throw? <==> message.None?
      ensures r.Ok? ==> r.value.msgType == ArgAt(args, 0) && r.value.content == ArgAt(args, 1)
      ensures r.Ok? ==> r.value.sender == SERVER && r.value.receiver == message.value.sender
      ensures r.Ok? && Stamped(message.value) ==>
        r.value.id == message.value.id && r.value.channel == message.value.channel
        && r.value.sent == message.value.sent && r.value.answered == message.value.answered
    {
      match MessageFromArgsAsWritten(args)
      case None => Throw(TypeError)
      case Some(base) =>
        var plain := PlainArgs(args);
        var typed := if |plain| == 2 then WithType(base, ArgAt(args, 0), g) else base;
        var chosen := if |plain| > 0 then WithContent(typed, ArgAt(args, |plain| - 1), g) else typed;
        var m := message.value;
        Ok(WithSender(WithReceiver(WithContent(WithType(m, ArgAt(args, 0), g), ArgAt(args, 1), g), chosen.sender, g), SERVER, g))
    }

    /** `reply(b)` as written answers the sender of the context message, not
        the sender of `b`, and carries `b` as its type. */
    lemma ReplyAsWrittenIgnoresMessageArgument(b: Message, g: Gen)
      requires message.Some?
      ensures ReplyAsWritten([Msg(b)], g).value.receiver == message.value.sender
      ensures ReplyAsWritten([Msg(b)], g).value.msgType == MessageObject
    {
    }

    /** The reply as documented: the first Message argument (or the context
        message), with the type of two plain arguments and the content of
        the last plain argument, addressed to the user that sent the context
        message and sent by `"@"`.  Without a context message there is no
        one to answer, and it throws. */
    function Reply(args: seq<ReplyArg>, g: Gen): (r: Result<Message>)
      ensures r.Throw? <==> message.None?
      ensures r.Ok? ==> r.value.sender == SERVER && r.value.receiver == message.value.sender
      ensures r.Ok? ==> var b := MessageFromArgs(args).value;
        && r.value.msgType == (if |PlainArgs(args)| == 2 then PlainArgs(args)[0] else b.msgType)
        && r.value.content == (if |PlainArgs(args)| > 0 then PlainArgs(args)[|PlainArgs(args)| - 1] else b.content)
        && (Stamped(b) ==> r.value.id == b.id && r.value.channel == b.channel && r.value.answered == b.answered)
    {
      if message.None? then Throw(TypeError)
      else
        var base := MessageFromArgs(args).value;
        var plain := PlainArgs(args);
        var typed := if |plain| == 2 then WithType(base, plain[0], g) else base;
        var chosen := if |plain| > 0 then WithContent(typed, plain[|plain| - 1], g) else typed;
        Ok(WithSender(WithReceiver(chosen, message.value.sender, g), SERVER, g))
    }

    /** `reply(b)` as intended answers the context message's sender with `b`
        itself: its type, content, id and channel. */
    lemma ReplyWithMessage(b: Message, g: Gen)
      requires message.Some? && Stamped(b)
      ensures Reply([Msg(b)], g).value.msgType == b.msgType && Reply([Msg(b)], g).value.content == b.content
      ensures Reply([Msg(b)], g).value.id == b.id && Reply([Msg(b)], g).value.channel == b.channel
      ensures Reply([Msg(b)], g).value.receiver == message.value.sender
    {
      assert PlainArgs([Msg(b)]) == [];
    }

    /** With one plain argument, the documented reply keeps the message's
        type and carries the argument as content; as written the reply
        carries the argument as its type and no content. */
    lemma ReplyWithContentOnly(c: Value, g: Gen)
      requires message.Some?
      ensures ReplyAsWritten([Val(c)], g).value.msgType == c
      ensures ReplyAsWritten([Val(c)], g).value.content == Undefined
      ensures Reply([Val(c)], g).value.msgType == message.value.msgType
      ensures Reply([Val(c)], g).value.content == c
    {
      assert PlainArgs([Val(c)]) == [c] by { PlainArgsOfValues([Val(c)]); }
    }

    /** With a type and a content, both replies carry them, to the sender. */
    lemma ReplyWithTypeAndContent(t: Value, c: Value, g: Gen)
      requires message.Some?
      ensures ReplyAsWritten([Val(t), Val(c)], g) == Reply([Val(t), Val(c)], g)
    {
      assert PlainArgs([Val(t), Val(c)]) == [t, c] by { PlainArgsOfValues([Val(t), Val(c)]); }
      var m := message.value;
      assert WithType(m, t, g).sender == m.sender;
    }

    /** `reply(...)` sends the reply over the context's socket only. */
    method SendReply(args: seq<ReplyArg>, g: Gen) returns (r: Result<()>)
      modifies hub
      ensures r.Throw? <==> Reply(args, g).Throw?
      ensures r.Ok? ==> hub.outbox == old(hub.outbox) + [(socket, Reply(args, g).value)]
      ensures r.Throw? ==> hub.outbox == old(hub.outbox)
    {
      var reply := Reply(args, g);
      if reply.Throw? {
        return Throw(reply.error);
      }
      hub.outbox := hub.outbox + [(socket, reply.value)];
      r := Ok(());
    }

    /** `userById(id)`: the authenticated user with that id, or null. */
    function UserById(id: Value): (r: Option<User>)
      reads hub.reg
      ensures r.Some? ==> r.value in hub.reg.users && r.value.id == id
      ensures r.None? <==> forall u :: u in hub.reg.users ==> u.id != id
    {
      hub.reg.UserById(id)
    }

    /** `channelById(id)`: the open channel with that id, or null. */
    function ChannelById(id: Value): (r: Option<Channel>)
      reads hub.reg
      ensures r.Some? ==> r.value in hub.reg.channels && r.value.id == id
      ensures r.None? <==> forall c :: c in hub.reg.channels ==> c.id != id
    {
      hub.reg.ChannelById(id)
    }

    /** `send(message)`: the given message, or else the context's, goes
        through the hub's routing; routing a `null` message throws on
        reading its channel. */
    method Send(mp: Param<Message>) returns (r: Result<()>)
      modifies hub
      ensures r.Throw? <==> mp.Omitted? && message.None?
      ensures r.Throw? ==> hub.outbox == old(hub.outbox)
      ensures r.Ok? ==> hub.outbox == old(hub.outbox) + old(hub.Routed(if mp.Given? then mp.arg else message.value))
    {
      if mp.Omitted? && message.None? {
        return Throw(TypeError);
      }
      var m := if mp.Given? then mp.arg else message.value;
      hub.Send(m);
      r := Ok(());
    }
  }
}
