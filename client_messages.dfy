/**
 * The pure parts of the browser client: normalising the server URL, the
 * defaults each sending layer fills into a message (member, channel,
 * client), the member-list updates the channel mirror applies for
 * CHANNEL/JOIN/LEAVE messages, and the outcome of a settled request.
 */
module ClientMessages {
  import opened Js
  import opened Envelope
  import ArrayTools

  /** The separator `"://"` starts at index `i` of the text. */
  predicate SchemeAt(u: string, i: int)
  {
    0 <= i && i + 3 <= |u| && u[i..i + 3] == "://"
  }

  /** The text contains `"://"` (`url.indexOf("://") !== -1`). */
  predicate HasScheme(u: string)
  {
    exists i :: 0 <= i < |u| && SchemeAt(u, i)
  }

  /** The text starts with `"http"` (the regular expression `/^http/`). */
  predicate StartsWithHttp(u: string)
  {
    |u| >= 4 && u[..4] == "http"
  }

  /** Putting `"wss://"` in front gives a separator and no `"http"` prefix. */
  lemma PrefixedHasScheme(url: string)
    ensures HasScheme("wss://" + url) && !StartsWithHttp("wss://" + url)
  {
    var u := "wss://" + url;
    assert u[3..6] == "://";
    assert SchemeAt(u, 3);
    assert u[0] == 'w';
  }

  /** Replacing a leading `"http"` by `"ws"` keeps the separator. */
  lemma ReplacedHasScheme(u: string)
    requires HasScheme(u) && StartsWithHttp(u)
    ensures HasScheme("ws" + u[4..])
  {
    var r := "ws" + u[4..];
    var i :| 0 <= i < |u| && SchemeAt(u, i);
    assert u[i] == ':' by { assert u[i..i + 3][0] == u[i]; }
    assert u[..4] == [u[0], u[1], u[2], u[3]];
    assert i >= 4;
    assert r[i - 2..i + 1] == u[i..i + 3];
    assert SchemeAt(r, i - 2);
  }

  /** The URL the client opens: `"wss://"` is put in front of a URL without
      a scheme separator, and then a leading `"http"` becomes `"ws"`. */
  function NormalizeUrl(url: string): (r: string)
    ensures HasScheme(r)
    ensures !HasScheme(url) ==> r == "wss://" + url
    ensures HasScheme(url) && !StartsWithHttp(url) ==> r == url
    ensures HasScheme(url) && StartsWithHttp(url) ==> r == "ws" + url[4..]
  {
    if !HasScheme(url) then
      PrefixedHasScheme(url);
      "wss://" + url
    else if StartsWithHttp(url) then
      ReplacedHasScheme(url);
      "ws" + url[4..]
    else url
  }

  /** `"https://host"` opens `"wss://host"` and `"http://host"` opens `"ws://host"`. */
  lemma NormalizeHttp(host: string)
    ensures NormalizeUrl("https://" + host) == "wss://" + host
    ensures NormalizeUrl("http://" + host) == "ws://" + host
  {
    var a, b := "https://" + host, "http://" + host;
    assert a[5..8] == "://";
    assert SchemeAt(a, 5) && a[..4] == "http";
    assert b[4..7] == "://";
    assert SchemeAt(b, 4) && b[..4] == "http";
    assert "ws" + a[4..] == "wss://" + host;
    assert "ws" + b[4..] == "ws://" + host;
  }

  /** A bare host name gets the secure WebSocket scheme. */
  lemma NormalizeBareHost(host: string)
    requires !HasScheme(host)
    ensures NormalizeUrl(host) == "wss://" + host
  {
  }

  /** A normalised URL is normalised already. */
  lemma NormalizeIdempotent(url: string)
    ensures NormalizeUrl(NormalizeUrl(url)) == NormalizeUrl(url)
  {
    var r := NormalizeUrl(url);
    assert !StartsWithHttp(r) by {
      if !HasScheme(url) {
        assert r[0] == 'w';
      } else if StartsWithHttp(url) {
        assert r[0] == 'w';
      }
    }
  }

  /** The arguments of a `send`: a message, or a type and a content. */
  datatype SendArgs = Given(m: Message) | TypeContent(t: Value, c: Value)

  /** The message a `send` starts from: the given one, or a new one with
      that type and content. */
  function Outgoing(args: SendArgs, g: Gen): (r: Message)
    ensures args.Given? ==> r == args.m
    ensures args.TypeContent? ==> (r.msgType == Or(args.t, Undefined) && r.content == Or(args.c, Undefined)
      && r.receiver == Undefined && r.channel == Undefined && r.sender == Undefined)
  {
    match args
    case Given(m) => m
    case TypeContent(t, c) => Construct(Fields(map["type" := t, "content" := c]), g)
  }

  /** The client's defaults: a missing sender becomes the client's id, a
      missing channel or receiver becomes `"*"`. */
  function ClientFill(m: Message, id: Value, g: Gen): (r: Message)
    ensures r.sender == (if Truthy(m.sender) then m.sender else id)
    ensures r.channel == (if Truthy(m.channel) then m.channel else ALL)
    ensures r.receiver == (if Truthy(m.receiver) then m.receiver else ALL)
    ensures r.msgType == m.msgType && r.content == m.content && r.answered == m.answered
    ensures Stamped(m) ==> r.id == m.id && r.sent == m.sent
  {
    var a := if !Truthy(m.sender) then WithSender(m, id, g) else m;
    var b := if !Truthy(a.channel) then WithChannel(a, ALL, g) else a;
    if !Truthy(b.receiver) then WithReceiver(b, ALL, g) else b
  }

  /** The channel mirror's defaults: a missing receiver is replaced by
      `Message.ALL`, a static property the envelope class does not have (the
      broadcast address is `Message.Addresses.ALL`), so it becomes
      `undefined`; a missing channel becomes the channel's id. */
  function ChannelFill(m: Message, channel: Value, g: Gen): (r: Message)
    ensures r.receiver == (if Truthy(m.receiver) then m.receiver else Undefined)
    ensures r.channel == (if Truthy(m.channel) then m.channel else channel)
    ensures r.sender == m.sender && r.msgType == m.msgType && r.content == m.content && r.answered == m.answered
    ensures Stamped(m) ==> r.id == m.id && r.sent == m.sent
  {
    var a := if !Truthy(m.receiver) then WithReceiver(m, Undefined, g) else m;
    if !Truthy(a.channel) then WithChannel(a, channel, g) else a
  }

  /** The member mirror's default: a missing receiver becomes the member's id. */
  function MemberFill(m: Message, member: Value, g: Gen): (r: Message)
    ensures r.receiver == (if Truthy(m.receiver) then m.receiver else member)
    ensures r.channel == m.channel && r.sender == m.sender && r.msgType == m.msgType
    ensures r.content == m.content && r.answered == m.answered
    ensures Stamped(m) ==> r.id == m.id && r.sent == m.sent
  {
    if !Truthy(m.receiver) then WithReceiver(m, member, g) else m
  }

  /** Filling never overrides a field that is set, and filling twice is
      filling once (for truthy defaults). */
  lemma FillsAreIdempotent(m: Message, id: Value, channel: Value, member: Value, g: Gen)
    requires Truthy(id) && Truthy(channel) && Truthy(member) && Stamped(m)
    ensures ClientFill(ClientFill(m, id, g), id, g) == ClientFill(m, id, g)
    ensures ChannelFill(ChannelFill(m, channel, g), channel, g) == ChannelFill(m, channel, g)
    ensures MemberFill(MemberFill(m, member, g), member, g) == MemberFill(m, member, g)
    ensures Truthy(m.sender) && Truthy(m.channel) && Truthy(m.receiver) ==> ClientFill(m, id, g) == m
  {
  }

  /** A message a channel mirror sends leaves the client addressed to
      everyone, as the documentation says, although the channel layer itself
      leaves the receiver `undefined`: the client layer fills in `"*"`.  Its
      channel is the caller's, else the channel's id, else `"*"`. */
  lemma ChannelSendChain(m: Message, channel: Value, id: Value, g: Gen)
    ensures var r := ClientFill(ChannelFill(m, channel, g), id, g);
      && r.receiver == Or(m.receiver, ALL)
      && r.channel == Or(Or(m.channel, channel), ALL)
      && r.sender == Or(m.sender, id)
      && r.msgType == m.msgType && r.content == m.content
  {
  }

  /** A message sent to a member goes out addressed to the member, in the
      member's channel, from the client, unless the caller set those fields. */
  lemma MemberSendChain(m: Message, member: Value, channel: Value, id: Value, g: Gen)
    requires Truthy(member)
    ensures var r := ClientFill(ChannelFill(MemberFill(m, member, g), channel, g), id, g);
      && r.receiver == Or(m.receiver, member)
      && r.channel == Or(Or(m.channel, channel), ALL)
      && r.sender == Or(m.sender, id)
      && r.msgType == m.msgType && r.content == m.content
  {
  }

  /** A value passed to a mirror's handlers: a plain value, or the message. */
  datatype Payload = Data(v: Value) | Envelope(m: Message)

  /** The member-list update a constructor-registered handler of the
      channel mirror makes for a call with these arguments: CHANNEL replaces
      the ids by the listed ones (a non-array list has no `map` and throws),
      JOIN appends the id, LEAVE keeps every other id. */
  datatype Update = Replace | Append | Remove

  function ArgOf(args: seq<Payload>): (v: Value)
    ensures |args| > 0 && args[0].Data? ==> v == args[0].v
  {
    if |args| > 0 && args[0].Data? then args[0].v else Undefined
  }

  /** The ids other than `id`, in order (`filter(member => member.id !== m)`). */
  function Without(ids: seq<Value>, id: Value): (r: seq<Value>)
    ensures forall x :: x in r <==> x in ids && x != id
    ensures |r| <= |ids|
    ensures ArrayTools.IsSubsequence(r, ids)
    ensures forall x :: x != id ==> multiset(r)[x] == multiset(ids)[x]
  {
    if |ids| == 0 then []
    else
      assert ids == [ids[0]] + ids[1..];
      var rest := Without(ids[1..], id);
      if ids[0] == id then
        assert |rest| > 0 ==> rest[0] in rest && rest[0] != ids[0];
        rest
      else
        assert ([ids[0]] + rest)[1..] == rest;
        [ids[0]] + rest
  }

  /** `Without` takes off one head at a time. */
  lemma WithoutCons(x: Value, rest: seq<Value>, id: Value)
    ensures Without([x] + rest, id) == if x == id then Without(rest, id) else [x] + Without(rest, id)
  {
    assert ([x] + rest)[0] == x && ([x] + rest)[1..] == rest;
  }

  function Apply(u: Update, ids: seq<Value>, args: seq<Payload>): (r: Result<seq<Value>>)
    ensures u == Replace ==> (r.Ok? <==> ArgOf(args).Arr?) && (r.Ok? ==> r.value == ArgOf(args).items)
    ensures u == Append ==> r == Ok(ids + [ArgOf(args)])
    ensures u == Remove ==> r.Ok? && forall x :: x in r.value <==> x in ids && x != ArgOf(args)
    ensures u == Remove ==> ArrayTools.IsSubsequence(r.value, ids)
    ensures u == Remove ==> forall x :: x != ArgOf(args) ==> multiset(r.value)[x] == multiset(ids)[x]
  {
    match u
    case Replace => if ArgOf(args).Arr? then Ok(ArgOf(args).items) else Throw(TypeError)
    case Append => Ok(ids + [ArgOf(args)])
    case Remove => Ok(Without(ids, ArgOf(args)))
  }

  /** Removing an id twice is removing it once; removing it keeps the order
      of the others. */
  lemma {:induction false} WithoutTwice(ids: seq<Value>, id: Value)
    ensures Without(Without(ids, id), id) == Without(ids, id)
    ensures id !in ids ==> Without(ids, id) == ids
    decreases |ids|
  {
    if |ids| > 0 {
      WithoutTwice(ids[1..], id);
      if ids[0] != id {
        assert ([ids[0]] + Without(ids[1..], id))[1..] == Without(ids[1..], id);
      }
    }
  }

  /** A request's one-shot result: waiting, resolved with the content of
      the answer, or rejected with a reason. */
  datatype Slot = Pending | Resolved(content: Value) | Rejected(reason: string)

  /** The answer `(content, response)` settles a waiting request whose
      message id is `id` iff the response answers that id. */
  function Answer(s: Slot, id: Value, content: Value, response: Message): (r: Slot)
    ensures !s.Pending? ==> r == s
    ensures s.Pending? ==> r == (if response.answered == id then Resolved(content) else Pending)
  {
    if s.Pending? && response.answered == id then Resolved(content) else s
  }

  /** The timer rejects a waiting request with "TIMEOUT". */
  function Expire(s: Slot): (r: Slot)
    ensures !s.Pending? ==> r == s
    ensures s.Pending? ==> r == Rejected("TIMEOUT")
  {
    if s.Pending? then Rejected("TIMEOUT") else s
  }

  /** Whichever comes first settles the request; later answers and the
      timer change nothing. */
  lemma SettlesOnce(s: Slot, id: Value, c1: Value, r1: Message, c2: Value, r2: Message)
    requires s.Pending? && r1.answered == id
    ensures Answer(Answer(s, id, c1, r1), id, c2, r2) == Resolved(c1)
    ensures Expire(Answer(s, id, c1, r1)) == Resolved(c1)
    ensures Answer(Expire(s), id, c1, r1) == Rejected("TIMEOUT")
  {
  }

  /** What `await this.request(...)` makes of a settled request whose
      response is checked for `success`: the response when it is truthy;
      otherwise the thrown `Error(response.error || "INVALID")`; a rejection
      rethrows its reason, and a missing response throws on `.success`. */
  function Outcome(s: Slot): (r: Result<Value>)
    requires !s.Pending?
    ensures s.Rejected? ==> r == Throw(Error(Str(s.reason)))
    ensures s.Resolved? && (s.content == Undefined || s.content == Null) ==> r == Throw(TypeError)
    ensures r.Ok? ==> s.Resolved? && r.value == s.content && Truthy(Prop(s.content, "success").value)
    ensures s.Resolved? && s.content.Record? && !Truthy(Get(s.content.fields, "success")) ==>
      r == Throw(Error(Or(Get(s.content.fields, "error"), Str("INVALID"))))
  {
    match s
    case Rejected(reason) => Throw(Error(Str(reason)))
    case Resolved(resp) =>
      match Prop(resp, "success")
      case Throw(e) => Throw(e)
      case Ok(ok) =>
        if Truthy(ok) then Ok(resp)
        else
          match Prop(resp, "error")
          case Throw(e) => Throw(e)
          case Ok(err) => Throw(Error(Or(err, Str("INVALID"))))
  }
}
