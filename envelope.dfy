/**
 * The message envelope of the signaller: an immutable record of nine fields
 * whose `with*` operations return fresh copies, whose `asAnswer` builds a
 * reply correlated to the original, and whose `asDataObject` exposes the
 * fields as a plain object.  Random ids and `new Date()` stamps are drawn
 * from a `Gen` parameter.
 */
module Envelope {
  import opened Js

  /** The nine fields of a message (`_id`, `_type`, ... `_answered`). */
  datatype Message = Message(
    id: Value,
    msgType: Value,
    content: Value,
    channel: Value,
    receiver: Value,
    sender: Value,
    sent: Value,
    forwarded: Value,
    answered: Value)

  /** The two values the constructor may draw: a random id and the current date. */
  datatype Gen = Gen(id: Value, now: Value)

  /** The constructor's argument: a plain object of properties, or a Message instance. */
  datatype Arg = Fields(props: map<string, Value>) | Instance(msg: Message)

  // Reserved message types.
  const AUTH := Str("auth")
  const DEAUTH := Str("deauth")
  const JOIN := Str("join")
  const LEAVE := Str("leave")
  const CHANNEL := Str("channel")
  const OPEN := Str("open")
  const CLOSE := Str("close")
  const DISCONNECT := Str("disconnect")
  const CONNECT := Str("connect")
  const ERROR := Str("error")

  /** The values of `Message.Types` a message type can equal. */
  const TypeValues := [AUTH, DEAUTH, JOIN, LEAVE, CHANNEL, OPEN, CLOSE, DISCONNECT, CONNECT, ERROR]

  /** `Types.isCustomType` as written: its arrow function's `this` is the
      Message class of the static getter, whose own enumerable values are
      none (its statics are getters), so every type counts as custom. */
  predicate IsCustomTypeAsWritten(t: Value)
  {
    var classValues: seq<Value> := [];   // Object.values(Message)
    CountOf(classValues, t) == 0
  }

  /** `isCustomType` as intended: no predefined type equals it. */
  predicate IsCustomType(t: Value)
  {
    CountOf(TypeValues, t) == 0
  }

  /** As written `"auth"` is a custom type; as intended it is not. */
  lemma IsCustomTypeAsWrittenAcceptsPredefined()
    ensures IsCustomTypeAsWritten(AUTH) && !IsCustomType(AUTH)
  {
    assert AUTH == TypeValues[0];
  }

  /** Both versions for every value: as written all are custom; as
      intended exactly those outside the ten predefined types. */
  lemma IsCustomTypeExact(t: Value)
    ensures IsCustomTypeAsWritten(t)
    ensures IsCustomType(t) <==> t !in {Str("auth"), Str("deauth"), Str("join"), Str("leave"),
      Str("channel"), Str("open"), Str("close"), Str("disconnect"), Str("connect"), Str("error")}
  {
  }

  // Reserved addresses.
  const ALL := Str("*")
  const SERVER := Str("@")

  /** `Addresses.isCustomAddress`: neither the broadcast nor the server address. */
  predicate IsCustomAddress(a: Value)
  {
    a != ALL && a != SERVER
  }

  lemma CustomAddresses(a: Value)
    ensures IsCustomAddress(a) <==> !(a == Str("*") || a == Str("@"))
    ensures !IsCustomAddress(ALL) && !IsCustomAddress(SERVER)
  {
  }

  /** `asDataObject`: a plain object carrying every getter's value under its name. */
  function AsDataObject(m: Message): (o: map<string, Value>)
    ensures o.Keys == {"id", "type", "content", "sender", "receiver", "channel", "sent", "forwarded", "answered"}
    ensures o["id"] == m.id && o["type"] == m.msgType && o["content"] == m.content
    ensures o["sender"] == m.sender && o["receiver"] == m.receiver && o["channel"] == m.channel
    ensures o["sent"] == m.sent && o["forwarded"] == m.forwarded && o["answered"] == m.answered
  {
    map["id" := m.id, "type" := m.msgType, "content" := m.content,
        "sender" := m.sender, "receiver" := m.receiver, "channel" := m.channel,
        "sent" := m.sent, "forwarded" := m.forwarded, "answered" := m.answered]
  }

  /** What a destructuring pattern reads for key `k`: an own property of the
      plain object, or the getter of a Message instance. */
  function Read(arg: Arg, k: string): Value
  {
    match arg
    case Fields(props) => Get(props, k)
    case Instance(m) => Get(AsDataObject(m), k)
  }

  /** `new Message(arg)`: every field is the destructured value (with the
      defaults for `id` and `sent`) `||` the value of the copied message,
      which is only consulted when the argument is a Message instance. */
  function Construct(arg: Arg, g: Gen): (r: Message)
  {
    var base := if arg.Instance? then AsDataObject(arg.msg) else map[];
    Message(
      Or(Default(Read(arg, "id"), g.id), Get(base, "id")),
      Or(Read(arg, "type"), Get(base, "type")),
      Or(Read(arg, "content"), Get(base, "content")),
      Or(Read(arg, "channel"), Get(base, "channel")),
      Or(Read(arg, "receiver"), Get(base, "receiver")),
      Or(Read(arg, "sender"), Get(base, "sender")),
      Or(Default(Read(arg, "sent"), g.now), Get(base, "sent")),
      Or(Read(arg, "forwarded"), Get(base, "forwarded")),
      Or(Read(arg, "answered"), Get(base, "answered")))
  }

  /** `new Message()`: a fresh envelope with only an id and a sent date. */
  function New(g: Gen): (r: Message)
    ensures r.id == Or(g.id, Undefined) && r.sent == Or(g.now, Undefined)
    ensures r.msgType == Undefined && r.content == Undefined && r.channel == Undefined
    ensures r.receiver == Undefined && r.sender == Undefined
    ensures r.forwarded == Undefined && r.answered == Undefined
  {
    Construct(Fields(map[]), g)
  }

  /** An envelope with an id and a sent date, as every constructed one has
      unless the generator or the caller supplied a falsy value. */
  predicate Stamped(m: Message)
  {
    m.id != Undefined && m.sent != Undefined
  }

  /** `new Message(m)` for a Message `m`: every field is copied, except that
      an undefined id or sent date is drawn afresh. */
  function Copy(m: Message, g: Gen): (r: Message)
    ensures r.id == (if m.id != Undefined then m.id else Or(g.id, Undefined))
    ensures r.sent == (if m.sent != Undefined then m.sent else Or(g.now, Undefined))
    ensures r.msgType == m.msgType && r.content == m.content && r.channel == m.channel
    ensures r.receiver == m.receiver && r.sender == m.sender
    ensures r.forwarded == m.forwarded && r.answered == m.answered
    ensures Stamped(m) ==> r == m
  {
    m.(id := if m.id != Undefined then m.id else Or(g.id, Undefined),
       sent := if m.sent != Undefined then m.sent else Or(g.now, Undefined))
  }

  /** `Copy` is the constructor applied to a Message instance: every field
      is the destructured getter `||` the same getter of the data object. */
  lemma CopyIsConstruct(m: Message, g: Gen)
    ensures Copy(m, g) == Construct(Instance(m), g)
  {
  }

  /** `new Message(m.asDataObject())`: truthy fields survive, falsy ones
      collapse to `undefined` (because of `||`), and a missing id or sent
      date is drawn afresh. */
  lemma DataObjectRoundTrip(m: Message, g: Gen)
    ensures var r := Construct(Fields(AsDataObject(m)), g);
      && r.id == (if m.id == Undefined then Or(g.id, Undefined) else Or(m.id, Undefined))
      && r.sent == (if m.sent == Undefined then Or(g.now, Undefined) else Or(m.sent, Undefined))
      && r.msgType == Or(m.msgType, Undefined) && r.content == Or(m.content, Undefined)
      && r.channel == Or(m.channel, Undefined) && r.receiver == Or(m.receiver, Undefined)
      && r.sender == Or(m.sender, Undefined) && r.forwarded == Or(m.forwarded, Undefined)
      && r.answered == Or(m.answered, Undefined)
  {
  }

  /** Every field is truthy: such a message survives the round trip unchanged. */
  predicate AllTruthy(m: Message)
  {
    Truthy(m.id) && Truthy(m.msgType) && Truthy(m.content) && Truthy(m.channel)
    && Truthy(m.receiver) && Truthy(m.sender) && Truthy(m.sent)
    && Truthy(m.forwarded) && Truthy(m.answered)
  }

  lemma DataObjectRoundTripExact(m: Message, g: Gen)
    requires AllTruthy(m)
    ensures Construct(Fields(AsDataObject(m)), g) == m
  {
    DataObjectRoundTrip(m, g);
  }

  /** The plain-object constructor keeps truthy properties and turns falsy ones into `undefined`. */
  lemma ConstructFromFields(props: map<string, Value>, g: Gen, k: string)
    requires k in {"type", "content", "channel", "receiver", "sender", "forwarded", "answered"}
    ensures var r := Construct(Fields(props), g);
      var v := Get(props, k);
      var f := match k
        case "type" => r.msgType
        case "content" => r.content
        case "channel" => r.channel
        case "receiver" => r.receiver
        case "sender" => r.sender
        case "forwarded" => r.forwarded
        case _ => r.answered;
      f == (if Truthy(v) then v else Undefined)
  {
  }

  /** `withType(t)`: a copy whose type is `t`. */
  function WithType(m: Message, t: Value, g: Gen): (r: Message)
    ensures r.msgType == t
    ensures Stamped(m) ==> r == m.(msgType := t)
  {
    Copy(m, g).(msgType := t)
  }

  /** `withChannel(c)`: a copy whose channel is `c`. */
  function WithChannel(m: Message, c: Value, g: Gen): (r: Message)
    ensures r.channel == c
    ensures Stamped(m) ==> r == m.(channel := c)
  {
    Copy(m, g).(channel := c)
  }

  /** `withReceiver(u)`: a copy whose receiver is `u`. */
  function WithReceiver(m: Message, u: Value, g: Gen): (r: Message)
    ensures r.receiver == u
    ensures Stamped(m) ==> r == m.(receiver := u)
  {
    Copy(m, g).(receiver := u)
  }

  /** `withSender(u)`: a copy whose sender is `u`. */
  function WithSender(m: Message, u: Value, g: Gen): (r: Message)
    ensures r.sender == u
    ensures Stamped(m) ==> r == m.(sender := u)
  {
    Copy(m, g).(sender := u)
  }

  /** `withContent(d)`: a copy whose content is `d`. */
  function WithContent(m: Message, d: Value, g: Gen): (r: Message)
    ensures r.content == d
    ensures Stamped(m) ==> r == m.(content := d)
  {
    Copy(m, g).(content := d)
  }

  /** A `with*` copy keeps the id, so two chained copies of one message
      share its id and differ from it in the replaced fields only. */
  lemma WithKeepsIdentity(m: Message, s: Value, u: Value, g: Gen)
    requires Stamped(m)
    ensures var r := WithReceiver(WithSender(m, s, g), u, g);
      r.id == m.id && r.sender == s && r.receiver == u
      && r.msgType == m.msgType && r.content == m.content && r.channel == m.channel
      && r.sent == m.sent && r.forwarded == m.forwarded && r.answered == m.answered
  {
  }

  /** `m.asAnswer(...args)`.  The answer is a copy of `m` with sender and
      receiver swapped, a new sent date `now` and `answered` set to `m`'s id;
      with one argument it takes that content, with two that type and
      content, with more it throws.  The copy keeps `m`'s id, and `m` itself
      is given the new id `newId`: the second component is `m` after the call. */
  function AsAnswer(m: Message, args: seq<Value>, g: Gen, now: Value, newId: Value): (r: Result<(Message, Message)>)
    ensures r.Throw? <==> |args| > 2
    ensures r.Ok? ==>
      var (answer, self) := r.value;
      var c := Copy(m, g);
      && answer.sender == m.receiver && answer.receiver == m.sender
      && answer.channel == m.channel && answer.answered == m.id
      && answer.id == c.id && answer.sent == now
      && answer.forwarded == m.forwarded
      && answer.msgType == (if |args| == 2 then args[0] else m.msgType)
      && answer.content == (if |args| == 1 then args[0] else if |args| == 2 then args[1] else m.content)
      && self == m.(id := newId)
  {
    var msg := Copy(m, g);
    if |args| > 2 then Throw(Error(Str("Invalid Argument number")))
    else
      var typed :=
        if |args| == 1 then msg.(content := args[0])
        else if |args| == 2 then msg.(msgType := args[0], content := args[1])
        else msg;
      var answer := typed.(sent := now, sender := msg.receiver, receiver := msg.sender, answered := m.id);
      Ok((answer, m.(id := newId)))
  }

  /** The answer reuses the original id and the original gets a fresh one:
      after `asAnswer`, the answer and the original no longer share an id
      (when the new id differs), and the answer's id is the old one. */
  lemma AsAnswerKeepsOldId(m: Message, args: seq<Value>, g: Gen, now: Value, newId: Value)
    requires Stamped(m) && |args| <= 2 && newId != m.id
    ensures var r := AsAnswer(m, args, g, now, newId);
      r.Ok? && r.value.0.id == m.id && r.value.0.answered == m.id
      && r.value.1.id == newId && r.value.0.id != r.value.1.id
  {
  }

  /** Answering an answer swaps the addresses back. */
  lemma AnswerTwiceRestoresAddresses(m: Message, g: Gen, now: Value, id1: Value, id2: Value)
    ensures var r1 := AsAnswer(m, [], g, now, id1);
      r1.Ok? &&
      var r2 := AsAnswer(r1.value.0, [], g, now, id2);
      r2.Ok? && r2.value.0.sender == m.sender && r2.value.0.receiver == m.receiver
      && r2.value.0.channel == m.channel && r2.value.0.msgType == m.msgType
      && r2.value.0.content == m.content
  {
  }
}
