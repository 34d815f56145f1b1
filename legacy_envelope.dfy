/**
 * The older message envelope kept under Utils/: ten fields (`mid`, `to`,
 * `from` and a `server` flag instead of `id`, `receiver`, `sender`), copied
 * through the underscore-prefixed fields of the object it is built from.
 */
module LegacyEnvelope {
  import opened Js

  datatype Message = Message(
    mid: Value,
    msgType: Value,
    content: Value,
    channel: Value,
    to: Value,
    from: Value,
    sent: Value,
    forwarded: Value,
    server: Value,
    answered: Value)

  /** The random id and the current date a constructor call may draw. */
  datatype Gen = Gen(id: Value, now: Value)

  const ALL := Str("*")          // Message.ALL and Addresses.ALL
  const SERVER := Str("@")       // Addresses.SERVER

  const AUTH := Str("auth")
  const DEAUTH := Str("deauth")
  const JOIN := Str("join")
  const LEAVE := Str("leave")
  const CHANNEL := Str("channel")
  const OPEN := Str("open")
  const CLOSE := Str("close")
  const DISCONNECT := Str("disconnect")
  const CONNECT := Str("connect")
  const SERVER_TYPE := Str("server")
  const TRANSMIT := Str("transmit")
  const ERROR := Str("error")

  /** Nine message properties, as one kind of key holds them. */
  datatype Fields = Fields(
    mid: Value,
    msgType: Value,
    content: Value,
    channel: Value,
    to: Value,
    from: Value,
    sent: Value,
    forwarded: Value,
    answered: Value)

  /** What the constructor reads from its argument: the plainly named
      properties it destructures, the underscore-prefixed ones it falls back
      on (`config._mid`, ...), and `_server`. */
  datatype Config = Config(named: Fields, own: Fields, ownServer: Value)

  const NoFields := Fields(Undefined, Undefined, Undefined, Undefined, Undefined, Undefined, Undefined, Undefined, Undefined)

  /** The properties of a plain object. */
  function Plain(o: map<string, Value>): Config
  {
    Config(
      Fields(Get(o, "mid"), Get(o, "type"), Get(o, "content"), Get(o, "channel"), Get(o, "to"),
             Get(o, "from"), Get(o, "sent"), Get(o, "forwarded"), Get(o, "answered")),
      Fields(Get(o, "_mid"), Get(o, "_type"), Get(o, "_content"), Get(o, "_channel"), Get(o, "_to"),
             Get(o, "_from"), Get(o, "_sent"), Get(o, "_forwarded"), Get(o, "_answered")),
      Get(o, "_server"))
  }

  /** The properties of a Message instance: its getters (there is none for
      `answered`) and its underscore-prefixed own fields. */
  function OfInstance(m: Message): Config
  {
    Config(
      Fields(m.mid, m.msgType, m.content, m.channel, m.to, m.from, m.sent, m.forwarded, Undefined),
      Fields(m.mid, m.msgType, m.content, m.channel, m.to, m.from, m.sent, m.forwarded, m.answered),
      m.server)
  }

  /** The properties of an object holding only the underscore-prefixed
      fields of `m`, as a parsed `JSON.stringify` of an instance does. */
  function OwnFields(m: Message): Config
  {
    Config(NoFields,
      Fields(m.mid, m.msgType, m.content, m.channel, m.to, m.from, m.sent, m.forwarded, m.answered),
      m.server)
  }

  /** `new Message(config)`: each field is the destructured property (with
      the defaults for `mid` and `sent`) `||` the underscore-prefixed
      property; `server` comes from `_server` only and defaults to false.
      No argument behaves as the empty object `Plain(map[])`. */
  function Construct(c: Config, g: Gen): Message
  {
    Message(
      Or(Default(c.named.mid, g.id), c.own.mid),
      Or(c.named.msgType, c.own.msgType),
      Or(c.named.content, c.own.content),
      Or(c.named.channel, c.own.channel),
      Or(c.named.to, c.own.to),
      Or(c.named.from, c.own.from),
      Or(Default(c.named.sent, g.now), c.own.sent),
      Or(c.named.forwarded, c.own.forwarded),
      Or(c.ownServer, Bool(false)),
      Or(c.named.answered, c.own.answered))
  }

  /** The field of `r` that the property named `k` (or `_k`) feeds. */
  function FieldOf(r: Message, k: string): Value
  {
    match k
    case "type" => r.msgType
    case "content" => r.content
    case "channel" => r.channel
    case "to" => r.to
    case "from" => r.from
    case "forwarded" => r.forwarded
    case _ => r.answered
  }

  /** A plain object given to the constructor: a truthy property is kept,
      otherwise its underscore-prefixed twin is taken, whatever that is. */
  lemma ConstructFromPlain(o: map<string, Value>, g: Gen, k: string)
    requires k in {"type", "content", "channel", "to", "from", "forwarded", "answered"}
    ensures var v := Get(o, k);
      FieldOf(Construct(Plain(o), g), k) == (if Truthy(v) then v else Get(o, "_" + k))
  {
    if k == "type" { assert "_" + k == "_type"; }
    else if k == "content" { assert "_" + k == "_content"; }
    else if k == "channel" { assert "_" + k == "_channel"; }
    else if k == "to" { assert "_" + k == "_to"; }
    else if k == "from" { assert "_" + k == "_from"; }
    else if k == "forwarded" { assert "_" + k == "_forwarded"; }
    else { assert "_" + k == "_answered"; }
  }

  /** The stamped fields of a plain object's message: a missing `mid` or
      `sent` is drawn, a falsy one falls back to its underscore twin, and
      the server flag is `_server` when that is truthy and `false` otherwise,
      so it is never falsy-but-not-`false`. */
  lemma ConstructStampsPlain(o: map<string, Value>, g: Gen)
    ensures var r := Construct(Plain(o), g);
      var mid, sent, server := Get(o, "mid"), Get(o, "sent"), Get(o, "_server");
      && r.mid == (if mid == Undefined then Or(g.id, Get(o, "_mid")) else Or(mid, Get(o, "_mid")))
      && r.sent == (if sent == Undefined then Or(g.now, Get(o, "_sent")) else Or(sent, Get(o, "_sent")))
      && r.server == (if Truthy(server) then server else Bool(false))
      && (Truthy(r.server) || r.server == Bool(false))
  {
  }

  /** `new Message()`: no argument behaves as the empty object; only the
      drawn id and date are set and the server flag is `false`. */
  function New(g: Gen): (r: Message)
    ensures r.mid == Or(g.id, Undefined) && r.sent == Or(g.now, Undefined) && r.server == Bool(false)
    ensures r.msgType == Undefined && r.content == Undefined && r.channel == Undefined
    ensures r.to == Undefined && r.from == Undefined && r.forwarded == Undefined && r.answered == Undefined
  {
    Construct(Plain(map[]), g)
  }

  /** A message with an id, a sent date and a boolean server flag. */
  predicate Stamped(m: Message)
  {
    m.mid != Undefined && m.sent != Undefined && m.server.Bool?
  }

  /** `new Message(m)`: all fields are copied; a falsy server flag becomes
      `false`, and a missing id or date is drawn afresh. */
  function Copy(m: Message, g: Gen): (r: Message)
    ensures r.mid == (if m.mid != Undefined then m.mid else Or(g.id, Undefined))
    ensures r.sent == (if m.sent != Undefined then m.sent else Or(g.now, Undefined))
    ensures r.server == (if Truthy(m.server) then m.server else Bool(false))
    ensures r.msgType == m.msgType && r.content == m.content && r.channel == m.channel
    ensures r.to == m.to && r.from == m.from && r.forwarded == m.forwarded && r.answered == m.answered
    ensures Stamped(m) ==> r == m
  {
    Construct(OfInstance(m), g)
  }

  /** A message that travelled as its own fields is rebuilt with the same
      contents; only its id and date may be replaced by the generator's,
      since the destructuring defaults apply before the `||` fallback. */
  lemma OwnFieldsRoundTrip(m: Message, g: Gen)
    requires Stamped(m)
    ensures var r := Construct(OwnFields(m), g);
      r.msgType == m.msgType && r.content == m.content && r.channel == m.channel
      && r.to == m.to && r.from == m.from && r.forwarded == m.forwarded
      && r.answered == m.answered && r.server == m.server
      && r.mid == Or(g.id, m.mid) && r.sent == Or(g.now, m.sent)
  {
  }

  function WithType(m: Message, t: Value, g: Gen): (r: Message)
    ensures r.msgType == t && (Stamped(m) ==> r == m.(msgType := t))
  {
    Copy(m, g).(msgType := t)
  }

  function WithChannel(m: Message, c: Value, g: Gen): (r: Message)
    ensures r.channel == c && (Stamped(m) ==> r == m.(channel := c))
  {
    Copy(m, g).(channel := c)
  }

  function WithReceiver(m: Message, u: Value, g: Gen): (r: Message)
    ensures r.to == u && (Stamped(m) ==> r == m.(to := u))
  {
    Copy(m, g).(to := u)
  }

  function WithSender(m: Message, u: Value, g: Gen): (r: Message)
    ensures r.from == u && (Stamped(m) ==> r == m.(from := u))
  {
    Copy(m, g).(from := u)
  }

  function WithContent(m: Message, d: Value, g: Gen): (r: Message)
    ensures r.content == d && (Stamped(m) ==> r == m.(content := d))
  {
    Copy(m, g).(content := d)
  }

  /** Every `with*` copy keeps `mid`, whatever field it replaces. */
  lemma WithKeepsMid(m: Message, v: Value, g: Gen)
    requires m.mid != Undefined
    ensures WithType(m, v, g).mid == m.mid && WithChannel(m, v, g).mid == m.mid
      && WithReceiver(m, v, g).mid == m.mid && WithSender(m, v, g).mid == m.mid
      && WithContent(m, v, g).mid == m.mid
  {
  }

  /** `m.reply(...args)`: a copy with `from`/`to` swapped, sent date `now` and
      `answered` set to `m.mid`; one argument sets the content, two set the
      content to the second and the type to the arguments object itself;
      any other number throws.  `m` itself gets the new id `newId`. */
  function Reply(m: Message, args: seq<Value>, g: Gen, now: Value, newId: Value): (r: Result<(Message, Message)>)
    ensures r.Throw? <==> (|args| != 1 && |args| != 2)
    ensures r.Ok? ==>
      var (reply, self) := r.value;
      && reply.from == m.to && reply.to == m.from && reply.answered == m.mid
      && reply.sent == now && reply.channel == m.channel && reply.mid == Copy(m, g).mid
      && reply.content == args[|args| - 1]
      && reply.msgType == (if |args| == 2 then Arr(args) else m.msgType)
      && self == m.(mid := newId)
  {
    var msg := Copy(m, g);
    if |args| == 1 || |args| == 2 then
      var typed := if |args| == 1 then msg.(content := args[0]) else msg.(msgType := Arr(args), content := args[1]);
      Ok((typed.(sent := now, from := msg.to, to := msg.from, answered := m.mid), m.(mid := newId)))
    else Throw(Error(Str("Invalid Argument number")))
  }

  /** `asServerMessage()`: sets the flag on `m` itself and returns `undefined`
      (the copy it builds is discarded). */
  function AsServerMessage(m: Message): (r: (Value, Message))
    ensures r.0 == Undefined && r.1.server == Bool(true)
    ensures r.1.(server := m.server) == m
  {
    (Undefined, m.(server := Bool(true)))
  }

  /** The values of `Message.Types` a message type can equal. */
  const TypeValues := [AUTH, DEAUTH, JOIN, LEAVE, CHANNEL, OPEN, CLOSE, DISCONNECT, CONNECT, SERVER_TYPE, TRANSMIT, ERROR]

  /** `Types.isCustomMessage` as written: its arrow function reads `this` of
      the module scope, an empty exports object, so every value counts as
      custom. */
  predicate IsCustomMessageAsWritten(t: Value)
  {
    var moduleValues: seq<Value> := [];   // Object.values of the module-scope `this`
    CountOf(moduleValues, t) == 0
  }

  /** `isCustomMessage` as intended: no predefined type equals it. */
  predicate IsCustomMessage(t: Value)
  {
    CountOf(TypeValues, t) == 0
  }

  /** As written `"server"` is a custom message type; as intended it is not. */
  lemma IsCustomMessageAsWrittenAcceptsPredefined()
    ensures IsCustomMessageAsWritten(SERVER_TYPE) && !IsCustomMessage(SERVER_TYPE)
  {
    assert SERVER_TYPE == TypeValues[9];
  }

  /** Both versions for every value: as written all are custom; as
      intended exactly those outside the twelve predefined types. */
  lemma IsCustomMessageExact(t: Value)
    ensures IsCustomMessageAsWritten(t)
    ensures IsCustomMessage(t) <==> t !in {Str("auth"), Str("deauth"), Str("join"), Str("leave"),
      Str("channel"), Str("open"), Str("close"), Str("disconnect"), Str("connect"), Str("server"),
      Str("transmit"), Str("error")}
  {
  }

  /** `Addresses.isCustomAddress` as written: its arrow function reads `this`
      of the module scope, whose `ALL` and `SERVER` are undefined, so it only
      rejects `undefined`. */
  predicate IsCustomAddressAsWritten(addr: Value)
  {
    var self := map[];   // the module-scope `this`, an empty exports object
    addr != Get(self, "ALL") && addr != Get(self, "SERVER")
  }

  lemma IsCustomAddressAsWrittenAcceptsReserved()
    ensures IsCustomAddressAsWritten(ALL) && IsCustomAddressAsWritten(SERVER)
    ensures !IsCustomAddress(ALL) && !IsCustomAddress(SERVER)
  {
  }

  /** The intended check: neither `"*"` nor `"@"`. */
  predicate IsCustomAddress(addr: Value)
  {
    addr != ALL && addr != SERVER
  }

  lemma IsCustomAddressExact(addr: Value)
    ensures IsCustomAddress(addr) <==> addr != Str("*") && addr != Str("@")
    ensures IsCustomAddressAsWritten(addr) <==> addr != Undefined
  {
  }
}
