/**
 * The browser client's mirrors of the server state: a ClientHandler owns
 * the channel mirrors it joined, each ChannelHandler keeps MemberHandlers
 * for the ids the server announced, and every mirror re-triggers incoming
 * messages on its own event table.  The socket is an outbox of the
 * messages handed to it; timers and promises become a request object whose
 * one-shot slot an answer or the timer settles, and each `async` operation
 * is split at its `await` into a start and a completion.
 */
module Client {
  import opened Js
  import opened Envelope
  import opened ClientMessages
  import opened Events
  import ArrayTools

  // The three handlers the channel mirror registers in its constructor.
  const ListHandler := Handler("list => replace the members", 0)
  const JoinHandler := Handler("m => append a member", 1)
  const LeaveHandler := Handler("m => drop the member", 2)

  /** The member-list update a handler makes, if it is one of the three. */
  function Builtin(h: Handler): (u: Option<Update>)
    ensures h == ListHandler ==> u == Some(Replace)
    ensures h == JoinHandler ==> u == Some(Append)
    ensures h == LeaveHandler ==> u == Some(Remove)
    ensures u.None? <==> h != ListHandler && h != JoinHandler && h != LeaveHandler
  {
    if h == ListHandler then Some(Replace)
    else if h == JoinHandler then Some(Append)
    else if h == LeaveHandler then Some(Remove)
    else None
  }

  /** The state a run of handlers leaves: the member ids, whether a handler
      threw, and how many handlers were applied (the thrower included). */
  datatype Applied = Applied(ids: seq<Value>, failed: bool, done: nat)

  /** The handlers `hs` applied in order to the member ids: the built-in ones
      update the list; the first one that throws ends the run. */
  function Run(hs: seq<Handler>, ids: seq<Value>, args: seq<Payload>): (r: Applied)
    ensures r.done <= |hs|
    ensures !r.failed ==> r.done == |hs|
    ensures r.failed ==> r.done > 0
    decreases |hs|
  {
    if |hs| == 0 then Applied(ids, false, 0)
    else
      var next := match Builtin(hs[0])
        case None => Ok(ids)
        case Some(u) => Apply(u, ids, args);
      if next.Throw? then Applied(ids, true, 1)
      else
        var t := Run(hs[1..], next.value, args);
        t.(done := t.done + 1)
  }

  /** Only the list handler can throw, and only for a list that is not an array. */
  lemma {:induction false} RunFailsOnlyOnList(hs: seq<Handler>, ids: seq<Value>, args: seq<Payload>)
    ensures Run(hs, ids, args).failed ==> ListHandler in hs && !ArgOf(args).Arr?
    decreases |hs|
  {
    if |hs| > 0 {
      var next := match Builtin(hs[0]) case None => Ok(ids) case Some(u) => Apply(u, ids, args);
      if next.Ok? {
        RunFailsOnlyOnList(hs[1..], next.value, args);
      }
    }
  }

  /** Handlers other than the three built-in ones leave the member ids alone. */
  lemma {:induction false} RunOfOtherHandlers(hs: seq<Handler>, ids: seq<Value>, args: seq<Payload>)
    requires forall h :: h in hs ==> Builtin(h).None?
    ensures Run(hs, ids, args) == Applied(ids, false, |hs|)
    decreases |hs|
  {
    if |hs| > 0 {
      assert forall h :: h in hs[1..] ==> h in hs;
      RunOfOtherHandlers(hs[1..], ids, args);
    }
  }

  /** After the constructor, a CHANNEL message sets the ids to its list, a
      JOIN message appends its id and a LEAVE message drops its id. */
  lemma RunOfOneBuiltin(ids: seq<Value>, v: Value, m: Message)
    ensures Run([ListHandler], ids, [Data(v), Envelope(m)]) ==
      (if v.Arr? then Applied(v.items, false, 1) else Applied(ids, true, 1))
    ensures Run([JoinHandler], ids, [Data(v), Envelope(m)]) == Applied(ids + [v], false, 1)
    ensures Run([LeaveHandler], ids, [Data(v), Envelope(m)]) == Applied(Without(ids, v), false, 1)
  {
    assert [ListHandler][1..] == [] && [JoinHandler][1..] == [] && [LeaveHandler][1..] == [];
  }

  /** The two arguments every mirror triggers with: the content and the message. */
  function Payloads(m: Message): (r: seq<Payload>)
    ensures |r| == 2 && r[0] == Data(m.content) && r[1] == Envelope(m)
  {
    [Data(m.content), Envelope(m)]
  }

  /** The calls `trigger(event, args, self)` makes on `l`: one forward per
      proxy, then one application per handler of the event. */
  function TriggerCalls(l: Listenable<Payload>, event: string, args: seq<Payload>, self: object): (r: seq<Call<Payload>>)
    reads l
    ensures |r| == |l.proxies| + |l.Handlers(event)|
    ensures forall i :: 0 <= i < |l.proxies| ==> r[i] == Forward(l.proxies[i], event, args, self)
    ensures forall j :: 0 <= j < |l.Handlers(event)| ==> r[|l.proxies| + j] == Invoke(l.Handlers(event)[j], args, self)
  {
    var ps, hs := l.proxies, l.Handlers(event);
    seq(|ps|, i requires 0 <= i < |ps| => Forward(ps[i], event, args, self))
      + seq(|hs|, j requires 0 <= j < |hs| => Invoke(hs[j], args, self))
  }

  /** Triggers `event` with the content and the message on `l`. */
  method Retrigger(l: Listenable<Payload>, m: Message, self: object) returns (calls: seq<Call<Payload>>)
    ensures calls == TriggerCalls(l, Key(m.msgType), Payloads(m), self)
  {
    calls := l.Trigger(Key(m.msgType), ArgArray(Payloads(m)), self);
    var t := TriggerCalls(l, Key(m.msgType), Payloads(m), self);
    var p := |l.proxies|;
    forall i | 0 <= i < |t|
      ensures calls[i] == t[i]
    {
      if i >= p {
        var j := i - p;
        assert calls[p + j] == t[p + j];
      }
    }
  }

  /** The ids of a list of member mirrors, in order. */
  function Ids(ms: seq<MemberHandler>): (r: seq<Value>)
    ensures |r| == |ms| && forall i :: 0 <= i < |ms| ==> r[i] == ms[i].id
  {
    seq(|ms|, i requires 0 <= i < |ms| => ms[i].id)
  }

  /** The index of the first member mirror with id `id`, or -1 (`findIndex`). */
  function FindMember(ms: seq<MemberHandler>, id: Value): (i: int)
    ensures -1 <= i < |ms|
    ensures i == -1 <==> id !in Ids(ms)
    ensures 0 <= i ==> ms[i].id == id && forall k :: 0 <= k < i ==> ms[k].id != id
  {
    if |ms| == 0 then -1
    else if ms[0].id == id then 0
    else
      var j := FindMember(ms[1..], id);
      assert Ids(ms) == [ms[0].id] + Ids(ms[1..]);
      if j == -1 then -1 else j + 1
  }

  /** The member mirrors whose id is not `id`, in order (the LEAVE handler's filter). */
  function KeepOthers(ms: seq<MemberHandler>, id: Value): (r: seq<MemberHandler>)
    ensures Ids(r) == Without(Ids(ms), id)
    ensures forall m :: m in r ==> m in ms
  {
    if |ms| == 0 then []
    else
      var rest := KeepOthers(ms[1..], id);
      KeepOthersStep(ms, id, rest);
      if ms[0].id == id then rest else [ms[0]] + rest
  }

  /** One step of `KeepOthers`: keeping or dropping the head matches
      `Without` on the ids. */
  lemma KeepOthersStep(ms: seq<MemberHandler>, id: Value, rest: seq<MemberHandler>)
    requires |ms| > 0 && Ids(rest) == Without(Ids(ms[1..]), id)
    ensures Ids(if ms[0].id == id then rest else [ms[0]] + rest) == Without(Ids(ms), id)
  {
    assert ms == [ms[0]] + ms[1..];
    IdsCons(ms[0], ms[1..]);
    WithoutCons(ms[0].id, Ids(ms[1..]), id);
    if ms[0].id != id {
      IdsCons(ms[0], rest);
    }
  }

  /** `Ids` of a list with a head. */
  lemma {:induction false} IdsCons(m: MemberHandler, ms: seq<MemberHandler>)
    ensures Ids([m] + ms) == [m.id] + Ids(ms)
  {
    var l, r := Ids([m] + ms), [m.id] + Ids(ms);
    forall i | 0 <= i < |l| ensures l[i] == r[i] {
      if i > 0 {
        assert ([m] + ms)[i] == ms[i - 1];
      }
    }
  }

  /** What a member mirror's `_channel` holds: the channel mirror it belongs
      to, or some other value. */
  datatype ChannelRef = AHandler(h: ChannelHandler) | NotAHandler(v: Value)

  /** `this._channel.send`: only a channel mirror has a `send` method; on
      any other value the call throws a TypeError. */
  function SendTarget(c: ChannelRef): (r: Result<ChannelHandler>)
    ensures r.Ok? <==> c.AHandler?
    ensures c.AHandler? ==> r.value == c.h
    ensures c.NotAHandler? ==> r == Throw(TypeError)
  {
    match c
    case AHandler(h) => Ok(h)
    case NotAHandler(_) => Throw(TypeError)
  }

  /** The channel the constructor-registered handlers give a new member
      mirror as written: `new Member(m, this.id)`, the channel's id. */
  function MemberChannelAsWritten(ch: ChannelHandler): (c: ChannelRef)
    ensures c == NotAHandler(ch.id)
  {
    NotAHandler(ch.id)
  }

  /** The channel a new member mirror gets as intended: the channel mirror. */
  function MemberChannel(ch: ChannelHandler): (c: ChannelRef)
    ensures c == AHandler(ch)
  {
    AHandler(ch)
  }

  /** As written, every member the server announces is a mirror whose `send`
      throws, because its channel is an id; as intended it sends through the
      channel mirror. */
  lemma MemberSendAsWrittenThrows(ch: ChannelHandler)
    ensures SendTarget(MemberChannelAsWritten(ch)) == Throw(TypeError)
    ensures SendTarget(MemberChannel(ch)) == Ok(ch)
  {
  }

  /** The index of the first channel mirror with id `id` in the client's
      list, or -1 (`channel(id)`); a `null` entry met before a match throws. */
  function FindChannel(cs: seq<ChannelHandler?>, id: Value): (r: Result<int>)
    ensures r.Ok? ==> -1 <= r.value < |cs|
    ensures r.Ok? && 0 <= r.value ==> (cs[r.value] != null && cs[r.value].id == id
      && forall k :: 0 <= k < r.value ==> cs[k] != null && cs[k].id != id)
    ensures r == Ok(-1) <==> forall k :: 0 <= k < |cs| ==> cs[k] != null && cs[k].id != id
    ensures r.Throw? ==> r.error == TypeError && null in cs
  {
    if |cs| == 0 then Ok(-1)
    else if cs[0] == null then Throw(TypeError)
    else if cs[0].id == id then Ok(0)
    else match FindChannel(cs[1..], id)
      case Throw(e) => Throw(e)
      case Ok(j) => if j == -1 then Ok(-1) else Ok(j + 1)
  }

  /** No channel mirror occurs twice in the list (`null` entries aside). */
  ghost predicate DistinctMirrors(cs: seq<ChannelHandler?>)
  {
    forall i, j :: 0 <= i < j < |cs| && cs[i] != null ==> cs[i] != cs[j]
  }

  /** Dropping the head of a list of distinct mirrors leaves distinct
      mirrors, none of them the head. */
  lemma DistinctMirrorsTail(cs: seq<ChannelHandler?>)
    requires |cs| > 0 && cs[0] != null
    ensures DistinctMirrors(cs) ==> DistinctMirrors(cs[1..]) && cs[0] !in cs[1..]
  {
    if DistinctMirrors(cs) {
      forall i, j | 0 <= i < j < |cs[1..]| && cs[1..][i] != null
        ensures cs[1..][i] != cs[1..][j]
      {
        assert cs[1..][i] == cs[i + 1] && cs[1..][j] == cs[j + 1];
      }
      forall k | 0 <= k < |cs[1..]| ensures cs[1..][k] != cs[0] {
        assert cs[1..][k] == cs[k + 1];
      }
    }
  }

  /** The channel mirrors that know `sender` as a member, in order (the
      filter of a broadcast); a `null` entry throws. */
  function KnowingSender(cs: seq<ChannelHandler?>, sender: Value): (r: Result<seq<ChannelHandler>>)
    reads cs
    ensures r.Throw? <==> null in cs
    ensures r.Throw? ==> r.error == TypeError
    ensures r.Ok? ==> forall c :: c in r.value ==> c in cs && c.Member(sender).Some?
    ensures r.Ok? ==> forall c :: c in cs && c != null && c.Member(sender).Some? ==> c in r.value
    ensures r.Ok? && DistinctMirrors(cs) ==> DistinctMirrors(r.value)
  {
    if |cs| == 0 then Ok([])
    else if cs[0] == null then Throw(TypeError)
    else
      var c: ChannelHandler := cs[0];
      match KnowingSender(cs[1..], sender)
      case Throw(e) => Throw(e)
      case Ok(rest) =>
        DistinctMirrorsTail(cs);
        Ok((if c.Member(sender).Some? then [c] else []) + rest)
  }

  /** The channel mirrors an incoming message is handed to: for the channel
      `"*"` those that know the sender as a member, otherwise the mirror of
      the message's channel if the client has one. */
  function Dispatch(cs: seq<ChannelHandler?>, m: Message): (r: Result<seq<ChannelHandler>>)
    reads cs
    ensures r.Throw? ==> r.error == TypeError
    ensures r.Ok? ==> forall c :: c in r.value ==> c in cs
    ensures m.channel != ALL && r.Ok? ==> |r.value| <= 1 && forall c :: c in r.value ==> c.id == m.channel
    ensures m.channel != ALL && r.Ok? ==>
      (r.value == [] <==> forall c :: c in cs && c != null ==> c.id != m.channel)
    ensures m.channel != ALL ==> (r.Throw? ==> null in cs)
    ensures r.Ok? && DistinctMirrors(cs) ==> DistinctMirrors(r.value)
  {
    if m.channel == ALL then KnowingSender(cs, m.sender)
    else match FindChannel(cs, m.channel)
      case Throw(e) => Throw(e)
      case Ok(i) =>
        if i < 0 then Ok([])
        else
          var c: ChannelHandler := cs[i];
          Ok([c])
  }

  /** The `forEach` of `_messagehandler`: each of the distinct mirrors
      `targets` handles `m` in turn, until one throws.  The first `done`
      mirrors are updated as their `Handling` says, only the last of them
      may have failed, and the rest keep their members. */
  method HandleEach(targets: seq<ChannelHandler>, m: Message) returns (done: nat, failed: bool)
    requires DistinctMirrors(targets)
    requires forall i :: 0 <= i < |targets| ==> targets[i].Valid()
    modifies set i | 0 <= i < |targets| :: targets[i]
    ensures done <= |targets| && (!failed ==> done == |targets|)
    ensures failed ==> done > 0
    ensures forall i :: 0 <= i < |targets| ==> targets[i].Valid()
    ensures forall i :: 0 <= i < done ==> Ids(targets[i].members) == old(targets[i].Handling(m)).ids
    ensures forall i :: 0 <= i < done ==> (old(targets[i].Handling(m)).failed <==> failed && i == done - 1)
    ensures forall i :: done <= i < |targets| ==> targets[i].members == old(targets[i].members)
  {
    ghost var plan := Plans(targets, m);
    done, failed := HandleEachIn(targets, m, plan);
  }

  /** The run each of `targets` would make on `m`. */
  ghost function Plans(targets: seq<ChannelHandler>, m: Message): (r: seq<Applied>)
    reads set i | 0 <= i < |targets| :: targets[i], set i | 0 <= i < |targets| :: targets[i].events
    ensures |r| == |targets| && forall i :: 0 <= i < |targets| ==> r[i] == targets[i].Handling(m)
    decreases |targets|
  {
    if |targets| == 0 then []
    else Plans(targets[..|targets| - 1], m) + [targets[|targets| - 1].Handling(m)]
  }

  /** The loop of `HandleEach`, stated against `plan`, the run each mirror
      would make on `m` at the start. */
  method HandleEachIn(targets: seq<ChannelHandler>, m: Message, ghost plan: seq<Applied>) returns (done: nat, failed: bool)
    requires DistinctMirrors(targets)
    requires forall i :: 0 <= i < |targets| ==> targets[i].Valid()
    requires |plan| == |targets| && forall i :: 0 <= i < |targets| ==> plan[i] == targets[i].Handling(m)
    modifies set i | 0 <= i < |targets| :: targets[i]
    ensures done <= |targets| && (!failed ==> done == |targets|)
    ensures failed ==> done > 0
    ensures forall i :: 0 <= i < |targets| ==> targets[i].Valid()
    ensures forall i :: 0 <= i < done ==> Ids(targets[i].members) == plan[i].ids
    ensures forall i :: 0 <= i < done ==> (plan[i].failed <==> failed && i == done - 1)
    ensures forall i :: done <= i < |targets| ==> targets[i].members == old(targets[i].members)
  {
    done, failed := 0, false;
    while done < |targets|
      invariant 0 <= done <= |targets| && !failed
      invariant forall i :: 0 <= i < |targets| ==> targets[i].Valid()
      invariant forall i :: 0 <= i < done ==> Ids(targets[i].members) == plan[i].ids && !plan[i].failed
      invariant forall i :: done <= i < |targets| ==> targets[i].members == old(targets[i].members)
      invariant forall i :: done <= i < |targets| ==> plan[i] == targets[i].Handling(m)
    {
      var stepFailed := HandleStep(targets, m, plan, done);
      done := done + 1;
      if stepFailed {
        return done, true;
      }
    }
  }

  /** The `k`-th mirror handles `m` as `plan[k]` says; no other mirror
      changes. */
  method HandleStep(targets: seq<ChannelHandler>, m: Message, ghost plan: seq<Applied>, k: nat) returns (failed: bool)
    requires k < |targets| == |plan| && DistinctMirrors(targets)
    requires forall i :: 0 <= i < |targets| ==> targets[i].Valid()
    requires forall i :: k <= i < |targets| ==> plan[i] == targets[i].Handling(m)
    modifies targets[k]
    ensures forall i :: 0 <= i < |targets| ==> targets[i].Valid()
    ensures Ids(targets[k].members) == plan[k].ids && (failed <==> plan[k].failed)
    ensures forall i :: 0 <= i < |targets| && i != k ==> targets[i].members == old(targets[i].members)
    ensures forall i :: k < i < |targets| ==> plan[i] == targets[i].Handling(m)
  {
    var c := targets[k];
    var _, _, cr := c.HandleMessage(m);
    failed := cr.Throw?;
  }

  /** `leave` as written keeps the channels whose `name` equals the left
      one's; a channel mirror has no `name`, so every channel is dropped
      unless the name is `undefined`; a `null` entry throws. */
  function LeaveFilterAsWritten(cs: seq<ChannelHandler?>, name: Value): (r: Result<seq<ChannelHandler?>>)
    ensures r.Throw? <==> null in cs
    ensures r.Ok? ==> r.value == (if name == Undefined then cs else [])
  {
    if null in cs then Throw(TypeError)
    else if name == Undefined then Ok(cs)
    else Ok([])
  }

  /** `leave` as intended: every channel mirror but the left one is kept, in order. */
  function LeaveFilter(cs: seq<ChannelHandler?>, name: Value): (r: Result<seq<ChannelHandler?>>)
    ensures r.Throw? <==> null in cs
    ensures r.Ok? ==> forall c :: c in r.value ==> c in cs && c != null && c.id != name
    ensures r.Ok? ==> forall c :: c in cs && c != null && c.id != name ==> c in r.value
    ensures r.Ok? ==> ArrayTools.IsSubsequence(r.value, cs)
    ensures r.Ok? && DistinctMirrors(cs) ==> DistinctMirrors(r.value)
  {
    if |cs| == 0 then Ok([])
    else if cs[0] == null then Throw(TypeError)
    else match LeaveFilter(cs[1..], name)
      case Throw(e) => Throw(e)
      case Ok(rest) =>
        var c := cs[0];
        DistinctMirrorsTail(cs);
        if c.id != name then
          assert ([c] + rest)[1..] == rest;
          Ok([c] + rest)
        else
          assert |rest| > 0 ==> rest[0] in rest && rest[0] != c;
          Ok(rest)
  }

  /** Leaving one of two joined channels keeps the other as intended, and
      drops both as written. */
  lemma LeaveAsWrittenDropsEveryChannel(a: ChannelHandler, b: ChannelHandler)
    requires a.id != b.id && a.id != Undefined
    ensures LeaveFilterAsWritten([a, b], a.id).Ok? && LeaveFilterAsWritten([a, b], a.id).value == []
    ensures LeaveFilter([a, b], a.id).Ok? && LeaveFilter([a, b], a.id).value == [b]
  {
    assert LeaveFilter([b][1..], a.id) == Ok([]);
    assert LeaveFilter([b], a.id).value == [b];
    assert [a, b][1..] == [b] && [b][1..] == [];

  }

  /** `create` as written pushes the `null` its lookup returned: from then on
      every lookup of a channel the client did not have before throws, the
      created one included. */
  lemma {:induction false} CreateAsWrittenBlocksLookups(cs: seq<ChannelHandler?>, id: Value)
    requires FindChannel(cs, id) == Ok(-1)
    ensures FindChannel(cs + [null], id) == Throw(TypeError)
    decreases |cs|
  {
    if |cs| > 0 {
      assert (cs + [null])[1..] == cs[1..] + [null];
      CreateAsWrittenBlocksLookups(cs[1..], id);
    }
  }

  /** A mirror of one member of a channel. */
  class MemberHandler {
    const id: Value
    const channel: ChannelRef
    const events: Listenable<Payload>

    constructor (id: Value, channel: ChannelRef)
      ensures this.id == id && this.channel == channel
      ensures fresh(events) && events.handlers == map[] && events.proxies == []
    {
      this.id := id;
      this.channel := channel;
      events := new Listenable<Payload>();
    }

    /** `send`: a missing receiver becomes the member's id, then the channel
        mirror sends it; a channel that is not a mirror throws. */
    method Send(args: SendArgs, g: Gen) returns (r: Result<()>)
      modifies if channel.AHandler? then {channel.h.client} else {}
      ensures r == (if channel.AHandler? then Ok(()) else Throw(TypeError))
      ensures channel.AHandler? ==> (channel.h.client.outbox == old(channel.h.client.outbox)
        + [ClientFill(ChannelFill(MemberFill(Outgoing(args, g), id, g), channel.h.id, g), old(channel.h.client.id), g)])
      ensures channel.AHandler? ==> (channel.h.client.channels == old(channel.h.client.channels)
        && channel.h.client.id == old(channel.h.client.id))
    {
      var m := MemberFill(Outgoing(args, g), id, g);
      match SendTarget(channel)
      case Throw(e) => r := Throw(e);
      case Ok(ch) =>
        ch.Send(Given(m), g);
        r := Ok(());
    }

    /** `_messagehandler`: a message from this member or from `"*"` is
        triggered as its type with the content and the message; any other
        message is ignored. */
    method HandleMessage(m: Message) returns (calls: seq<Call<Payload>>)
      ensures calls == (if m.sender == id || m.sender == ALL then TriggerCalls(events, Key(m.msgType), Payloads(m), this) else [])
    {
      calls := [];
      if m.sender == id || m.sender == ALL {
        calls := Retrigger(events, m, this);
      }
    }
  }

  /** A mirror of one channel the client joined. */
  class ChannelHandler {
    const id: Value
    const client: ClientHandler
    const events: Listenable<Payload>
    var members: seq<MemberHandler>

    /** Every member mirror belongs to this channel mirror. */
    ghost predicate Valid()
      reads this
    {
      forall m :: m in members ==> m.channel == MemberChannel(this)
    }

    /** The constructor registers the three member-list handlers. */
    constructor (id: Value, client: ClientHandler)
      ensures this.id == id && this.client == client && members == [] && Valid()
      ensures fresh(events) && events.proxies == []
      ensures events.handlers == map["channel" := [ListHandler], "join" := [JoinHandler], "leave" := [LeaveHandler]]
    {
      this.id := id;
      this.client := client;
      members := [];
      var l := new Listenable<Payload>();
      events := l;
      new;
      assert l.handlers == map[];
      var r1 := l.On("channel", Function(ListHandler));
      assert r1.Ok?;
      assert l.Handlers("channel") == [ListHandler];
      assert l.handlers == map["channel" := [ListHandler]];
      var r2 := l.On("join", Function(JoinHandler));
      assert r2.Ok?;
      assert l.Handlers("join") == [JoinHandler];
      assert l.handlers == map["channel" := [ListHandler], "join" := [JoinHandler]];
      var r3 := l.On("leave", Function(LeaveHandler));
      assert r3.Ok?;
      assert l.Handlers("leave") == [LeaveHandler];
    }

    /** `member(id)`: the first member mirror with that id, or none. */
    function Member(mid: Value): (r: Option<MemberHandler>)
      reads this
      ensures r.Some? ==> r.value in members && r.value.id == mid
      ensures r.None? <==> mid !in Ids(members)
    {
      var i := FindMember(members, mid);
      if i < 0 then None else Some(members[i])
    }

    /** New member mirrors of this channel for the listed ids. */
    method NewMembers(items: seq<Value>) returns (ms: seq<MemberHandler>)
      ensures Ids(ms) == items
      ensures forall m :: m in ms ==> m.channel == MemberChannel(this)
      ensures forall m :: m in ms ==> fresh(m)
    {
      ms := [];
      for k := 0 to |items|
        invariant Ids(ms) == items[..k]
        invariant forall m :: m in ms ==> m.channel == MemberChannel(this)
        invariant forall m :: m in ms ==> fresh(m)
      {
        var m := new MemberHandler(items[k], MemberChannel(this));
        ms := ms + [m];
      }
    }

    /** What handling `m` does to the member mirrors: the event's handlers
        run over the current member ids. */
    function Handling(m: Message): Applied
      reads this, events
    {
      Run(events.Handlers(Key(m.msgType)), Ids(members), Payloads(m))
    }

    /** Applies one built-in update to the member mirrors. */
    method Update(u: Update, args: seq<Payload>) returns (failed: bool)
      requires Valid()
      modifies this
      ensures Valid()
      ensures failed <==> Apply(u, old(Ids(members)), args).Throw?
      ensures !failed ==> Ids(members) == Apply(u, old(Ids(members)), args).value
      ensures failed ==> members == old(members)
    {
      failed := false;
      var v := ArgOf(args);
      match u
      case Replace =>
        if v.Arr? {
          members := NewMembers(v.items);
        } else {
          failed := true;
        }
      case Append =>
        var m := new MemberHandler(v, MemberChannel(this));
        assert Ids(members + [m]) == Ids(members) + [v];
        members := members + [m];
      case Remove =>
        members := KeepOthers(members, v);
    }

    /** Applies the handlers in order to the member mirrors, as `Run` says. */
    method ApplyAll(hs: seq<Handler>, args: seq<Payload>) returns (done: nat, failed: bool)
      requires Valid()
      modifies this
      ensures Valid()
      ensures Run(hs, old(Ids(members)), args) == Applied(Ids(members), failed, done)
    {
      ghost var run := Run(hs, Ids(members), args);
      failed := false;
      done := 0;
      while done < |hs| && !failed
        invariant 0 <= done <= |hs|
        invariant Valid()
        invariant !failed ==> (var t := Run(hs[done..], Ids(members), args); run == t.(done := t.done + done))
        invariant failed ==> run == Applied(Ids(members), true, done)
        decreases |hs| - done, !failed
      {
        assert hs[done..][1..] == hs[done + 1..];
        var b := Builtin(hs[done]);
        if b.Some? {
          failed := Update(b.value, args);
        }
        done := done + 1;
      }
      if !failed {
        assert hs[done..] == [];
      }
    }

    /** `_messagehandler`: the member mirror addressed by the receiver gets the
        message, then the channel triggers its type with the content and the
        message, and the built-in handlers among those it applies update the
        member mirrors; a CHANNEL list that is not an array throws a
        TypeError and ends the trigger. */
    method HandleMessage(m: Message) returns (memberCalls: seq<Call<Payload>>, calls: seq<Call<Payload>>, r: Result<()>)
      requires Valid()
      modifies this
      ensures Valid()
      ensures var run := Run(events.Handlers(Key(m.msgType)), old(Ids(members)), Payloads(m));
        && Ids(members) == run.ids
        && (r.Throw? <==> run.failed)
        && calls == TriggerCalls(events, Key(m.msgType), Payloads(m), this)[..|events.proxies| + run.done]
      ensures r.Throw? ==> r.error == TypeError
      ensures old(Member(m.receiver)).None? ==> memberCalls == []
      ensures old(Member(m.receiver)).Some? ==> (var mh := old(Member(m.receiver)).value;
        memberCalls == (if m.sender == mh.id || m.sender == ALL then TriggerCalls(mh.events, Key(m.msgType), Payloads(m), mh) else []))
    {
      memberCalls := [];
      var found := Member(m.receiver);
      if found.Some? {
        memberCalls := found.value.HandleMessage(m);
      }
      var all := Retrigger(events, m, this);
      var done, failed := ApplyAll(events.Handlers(Key(m.msgType)), Payloads(m));
      calls := all[..|events.proxies| + done];
      r := if failed then Throw(TypeError) else Ok(());
    }

    /** `send`: a missing receiver becomes `Message.ALL` (`undefined`), a
        missing channel the channel's id, then the client sends it. */
    method Send(args: SendArgs, g: Gen)
      modifies client
      ensures client.outbox == old(client.outbox) + [ClientFill(ChannelFill(Outgoing(args, g), id, g), old(client.id), g)]
      ensures client.channels == old(client.channels) && client.id == old(client.id)
    {
      client.Send(Given(ChannelFill(Outgoing(args, g), id, g)), g);
    }
  }

  /** A request awaiting its answer: the message sent, the event it listens
      on, the handler it registered, and its one-shot outcome. */
  class Request {
    const msg: Message
    const event: string
    const handler: Handler
    var state: Slot

    constructor (msg: Message, event: string, handler: Handler)
      ensures this.msg == msg && this.event == event && this.handler == handler && state == Pending
    {
      this.msg := msg;
      this.event := event;
      this.handler := handler;
      state := Pending;
    }

    /** The timer fires: a waiting request is rejected with "TIMEOUT". */
    method Timeout()
      modifies this
      ensures state == Expire(old(state))
    {
      state := Expire(state);
    }
  }

  /** The text every request handler has (they are closures of one function). */
  const RequestText := "(content, response) => settle when it answers the request"

  /** The message `request(type, content)` sends: a new envelope with that
      type and content, from the client's id, to the server. */
  function RequestMessage(t: Value, content: Value, sender: Value, g: Gen): (r: Message)
    ensures r.msgType == t && r.content == content && r.sender == sender && r.receiver == SERVER
    ensures r.id == Or(g.id, Undefined) && r.channel == Undefined && r.answered == Undefined
  {
    WithReceiver(WithSender(WithContent(WithType(New(g), t, g), content, g), sender, g), SERVER, g)
  }

  /** The request message leaves the client for the server on channel `"*"`,
      whatever the client's id. */
  lemma RequestGoesToServer(t: Value, content: Value, id: Value, g: Gen)
    ensures var r := ClientFill(RequestMessage(t, content, id, g), id, g);
      r.receiver == SERVER && r.channel == ALL && r.sender == id && r.msgType == t && r.content == content
  {
  }

  /** The client endpoint. */
  class ClientHandler {
    const url: string
    const events: Listenable<Payload>
    var channels: seq<ChannelHandler?>
    var id: Value
    var outbox: seq<Message>
    /** Whether the channel array has been frozen by the getter. */
    var frozen: bool

    /** The client's channel list holds distinct mirrors of this client only. */
    ghost predicate Valid()
      reads this
    {
      (forall c :: c in channels ==> c != null && c.client == this) && DistinctMirrors(channels)
    }

    /** The constructor: the URL is normalised, no channel, no id. */
    constructor (u: string)
      ensures url == NormalizeUrl(u) && channels == [] && id == Null && outbox == [] && !frozen
      ensures fresh(events) && events.handlers == map[] && events.proxies == []
      ensures Valid()
    {
      url := NormalizeUrl(u);
      events := new Listenable<Payload>();
      channels := [];
      id := Null;
      outbox := [];
      frozen := false;
    }

    /** The `channels` getter as written freezes the client's own array, so
        that a later `join` or `create` cannot push onto it. */
    method ChannelsAsWritten() returns (cs: seq<ChannelHandler?>)
      modifies this
      ensures cs == channels && channels == old(channels) && frozen
      ensures id == old(id) && outbox == old(outbox)
    {
      frozen := true;
      cs := channels;
    }

    /** The `channels` getter as intended: a read-only view of the list. */
    function Channels(): (cs: seq<ChannelHandler?>)
      reads this
      ensures Valid() ==> forall c :: c in cs ==> c != null && c.client == this
    {
      channels
    }

    /** The `channels` and `id` setters throw; nothing changes. */
    method SetChannels(v: Value) returns (r: Result<()>)
      ensures r == Throw(TypeError)
    {
      r := Throw(TypeError);
    }

    method SetId(v: Value) returns (r: Result<()>)
      ensures r == Throw(TypeError)
    {
      r := Throw(TypeError);
    }

    /** `channel(id)`: the first mirror with that id, none, or a TypeError
        when a `null` entry comes first. */
    function Channel(cid: Value): (r: Result<Option<ChannelHandler>>)
      reads this
      ensures r.Ok? && r.value.Some? ==> r.value.value in channels && r.value.value.id == cid
      ensures Valid() ==> r.Ok?
      ensures Valid() && r.value.None? ==> forall c :: c in channels ==> c.id != cid
    {
      match FindChannel(channels, cid)
      case Throw(e) => Throw(e)
      case Ok(i) => if i < 0 then Ok(None) else Ok(Some(channels[i]))
    }

    /** `send`: a missing sender becomes the client's id, a missing channel
        and receiver `"*"`; the message goes to the socket. */
    method Send(args: SendArgs, g: Gen)
      modifies this
      ensures outbox == old(outbox) + [ClientFill(Outgoing(args, g), id, g)]
      ensures channels == old(channels) && id == old(id) && frozen == old(frozen)
    {
      outbox := outbox + [ClientFill(Outgoing(args, g), id, g)];
    }

    /** `_messagehandler` once the mirrors `targets`, drawn from
        `channels`, are selected: `HandleEach` over them, then the client's
        trigger unless one threw.  Every other mirror of `channels` keeps
        its members. */
    method HandleSelected(targets: seq<ChannelHandler>, m: Message) returns (r: Result<seq<Call<Payload>>>, ghost done: nat)
      requires DistinctMirrors(targets)
      requires forall i :: 0 <= i < |targets| ==> targets[i] in channels
      requires forall c :: c in channels && c != null ==> c.Valid()
      modifies set c: ChannelHandler | c in channels
      ensures done <= |targets|
      ensures forall i :: 0 <= i < done ==> Ids(targets[i].members) == old(targets[i].Handling(m)).ids
      ensures forall i :: 0 <= i < done ==> (old(targets[i].Handling(m)).failed <==> r.Throw? && i == done - 1)
      ensures r.Ok? ==> done == |targets| && r.value == TriggerCalls(events, Key(m.msgType), Payloads(m), this)
      ensures r.Throw? ==> r.error == TypeError && done > 0
      ensures forall c :: c in channels && c != null && c !in targets[..done] ==> c.members == old(c.members)
      ensures forall c :: c in channels && c != null ==> c.Valid()
    {
      var failed;
      done, failed := HandleEach(targets, m);
      forall c | c in channels && c != null && c !in targets[..done]
        ensures c.members == old(c.members)
      {
        if c in targets {
          var j :| 0 <= j < |targets| && targets[j] == c;
        }
      }
      if failed {
        return Throw(TypeError), done;
      }
      var calls := Retrigger(events, m, this);
      r := Ok(calls);
    }

    /** `_messagehandler`: the message is handed to the channel mirrors
        `Dispatch` selects, in order, then triggered as its type on the
        client.  The first `done` of the selected mirrors (`handled`) have
        their members updated as `Handling` says; a mirror whose handling
        throws is the last one reached, and the client's trigger is then
        skipped.  The other mirrors keep their members. */
    method HandleMessage(m: Message) returns (r: Result<seq<Call<Payload>>>, ghost handled: seq<ChannelHandler>, ghost done: nat)
      requires DistinctMirrors(channels)
      requires forall c :: c in channels && c != null ==> c.Valid()
      modifies set c: ChannelHandler | c in channels
      ensures old(Dispatch(channels, m)).Throw? ==> r == Throw(TypeError) && done == 0
      ensures old(Dispatch(channels, m)).Ok? ==> handled == old(Dispatch(channels, m)).value
      ensures done <= |handled|
      ensures forall i :: 0 <= i < |handled| ==> handled[i] in old(channels) && old(allocated(handled[i]))
      ensures forall i :: 0 <= i < done ==> Ids(handled[i].members) == old(handled[i].Handling(m)).ids
      ensures forall i :: 0 <= i < done ==> (old(handled[i].Handling(m)).failed <==> r.Throw? && i == done - 1)
      ensures r.Ok? ==> done == |handled| && r.value == TriggerCalls(events, Key(m.msgType), Payloads(m), this)
      ensures r.Throw? ==> r.error == TypeError
      ensures r.Throw? && old(Dispatch(channels, m)).Ok? ==> done > 0
      ensures forall c :: c in channels && c != null && c !in handled[..done] ==> c.members == old(c.members)
      ensures forall c :: c in channels && c != null ==> c.Valid()
    {
      var d := Dispatch(channels, m);
      handled, done := [], 0;
      if d.Throw? {
        return Throw(TypeError), handled, done;
      }
      var targets := d.value;
      handled := targets;
      assert forall i :: 0 <= i < |targets| ==> targets[i] in targets && targets[i] in channels;
      r, done := HandleSelected(targets, m);
    }

    /** `request(type, content)`: the request message is sent and a handler
        is registered for its type; the returned request is waiting. */
    method Request(t: Value, content: Value, g: Gen, ident: nat) returns (req: Request)
      modifies this, events
      ensures fresh(req) && req.state == Pending && req.event == Key(t)
      ensures req.msg == RequestMessage(t, content, old(id), g) && req.handler == Handler(RequestText, ident)
      ensures outbox == old(outbox) + [ClientFill(req.msg, old(id), g)]
      ensures events.handlers == old(events.handlers)[Key(t) := old(events.Handlers(Key(t))) + [req.handler]]
      ensures channels == old(channels) && id == old(id) && frozen == old(frozen)
    {
      var msg := RequestMessage(t, content, id, g);
      Send(Given(msg), g);
      req := new Request(msg, Key(t), Handler(RequestText, ident));
      var _ := events.On(Key(t), Function(req.handler));
    }

    /** The request handler receives `(content, response)`: an answer to the
        request unregisters the request handlers of its type and settles a
        waiting request with the content; anything else is ignored. */
    method Deliver(req: Request, content: Value, response: Message)
      modifies events, req
      ensures req.state == Answer(old(req.state), req.msg.id, content, response)
      ensures response.answered != req.msg.id ==> events.handlers == old(events.handlers)
      ensures response.answered == req.msg.id && old(events.HasListenerFor(req.event)) ==>
        events.handlers == old(events.handlers)[req.event := OffFilter(old(events.Handlers(req.event)), req.handler)]
      ensures response.answered == req.msg.id ==> forall h :: h in events.Handlers(req.event) ==> h.text != req.handler.text
    {
      if response.answered == req.msg.id {
        var _ := events.OffIntended(req.event, Function(req.handler));
        req.state := Answer(req.state, req.msg.id, content, response);
      }
    }

    /** `auth(id, token)` up to its `await`: the request carries `{id, token}`. */
    method AuthStart(uid: Value, token: Value, g: Gen, ident: nat) returns (req: Request)
      modifies this, events
      ensures fresh(req) && req.state == Pending && req.event == "auth"
      ensures req.msg == RequestMessage(AUTH, Record(map["id" := uid, "token" := token]), old(id), g)
      ensures outbox == old(outbox) + [ClientFill(req.msg, old(id), g)]
      ensures channels == old(channels) && id == old(id) && frozen == old(frozen)
    {
      req := Request(AUTH, Record(map["id" := uid, "token" := token]), g, ident);
    }

    /** The rest of `auth`: a successful response sets the client's id. */
    method AuthComplete(req: Request, uid: Value) returns (r: Result<Value>)
      requires !req.state.Pending?
      modifies this
      ensures r == Outcome(req.state)
      ensures id == (if r.Ok? then uid else old(id))
      ensures channels == old(channels) && outbox == old(outbox) && frozen == old(frozen)
    {
      r := Outcome(req.state);
      if r.Ok? {
        id := uid;
      }
    }

    /** `join(name)`, `leave(name)`, `create(name)` up to their `await`:
        the lookup comes first; join and create stop when the client
        already has the channel, leave when it does not. */
    method ChannelRequest(t: Value, name: Value, g: Gen, ident: nat) returns (r: Result<Option<Request>>)
      requires t == JOIN || t == LEAVE || t == Str("create")
      modifies this, events
      ensures r.Throw? <==> Channel(name).Throw?
      ensures r.Ok? ==> (r.value.None? <==> (if t == LEAVE then Channel(name).value.None? else Channel(name).value.Some?))
      ensures r.Ok? && r.value.Some? ==> (fresh(r.value.value) && r.value.value.state == Pending
        && r.value.value.msg == RequestMessage(t, name, old(id), g)
        && outbox == old(outbox) + [ClientFill(r.value.value.msg, old(id), g)])
      ensures !(r.Ok? && r.value.Some?) ==> outbox == old(outbox)
      ensures channels == old(channels) && id == old(id) && frozen == old(frozen)
    {
      var found := Channel(name);
      if found.Throw? {
        return Throw(found.error);
      }
      if (t == LEAVE) == found.value.None? {
        return Ok(None);
      }
      var req := Request(t, name, g, ident);
      r := Ok(Some(req));
    }

    /** `this._channels.push(c)`: a frozen array throws a TypeError. */
    method Push(c: ChannelHandler?) returns (r: Result<()>)
      modifies this
      ensures r.Throw? <==> old(frozen)
      ensures channels == (if old(frozen) then old(channels) else old(channels) + [c])
      ensures id == old(id) && outbox == old(outbox) && frozen == old(frozen)
    {
      if frozen {
        return Throw(TypeError);
      }
      channels := channels + [c];
      r := Ok(());
    }

    /** The rest of `join` and of `create` as intended: a successful
        response adds a new mirror of the channel. */
    method JoinOrCreateComplete(req: Request, name: Value) returns (r: Result<()>)
      requires !req.state.Pending? && Valid()
      modifies this
      ensures Valid()
      ensures Outcome(req.state).Throw? ==> r == Throw(Outcome(req.state).error) && channels == old(channels)
      ensures Outcome(req.state).Ok? ==> (r.Throw? <==> old(frozen))
      ensures r.Ok? ==> (|channels| == |old(channels)| + 1 && channels[..|old(channels)|] == old(channels)
        && channels[|old(channels)|] != null && channels[|old(channels)|].id == name
        && fresh(channels[|old(channels)|]))
      ensures r.Throw? ==> channels == old(channels)
      ensures id == old(id) && outbox == old(outbox)
    {
      var o := Outcome(req.state);
      if o.Throw? {
        return Throw(o.error);
      }
      var c := new ChannelHandler(name, this);
      r := Push(c);
    }

    /** The rest of `create` as written: the `null` its lookup returned is
        pushed instead of a mirror. */
    method CreateCompleteAsWritten(req: Request) returns (r: Result<()>)
      requires !req.state.Pending?
      modifies this
      ensures Outcome(req.state).Throw? ==> r == Throw(Outcome(req.state).error)
      ensures r.Ok? ==> channels == old(channels) + [null]
      ensures r.Throw? ==> channels == old(channels)
      ensures id == old(id) && outbox == old(outbox)
    {
      var o := Outcome(req.state);
      if o.Throw? {
        return Throw(o.error);
      }
      r := Push(null);
    }

    /** The rest of `leave` as intended: a successful response removes the
        mirror of the channel left. */
    method LeaveComplete(req: Request, name: Value) returns (r: Result<()>)
      requires !req.state.Pending? && Valid()
      modifies this
      ensures Valid() && r == (if Outcome(req.state).Ok? then Ok(()) else Throw(Outcome(req.state).error))
      ensures r.Ok? ==> forall c :: c in channels ==> c in old(channels) && c != null && c.id != name
      ensures r.Ok? ==> forall c :: c in old(channels) && c != null && c.id != name ==> c in channels
      ensures r.Ok? ==> ArrayTools.IsSubsequence(channels, old(channels))
      ensures r.Ok? ==> !frozen
      ensures r.Throw? ==> channels == old(channels) && frozen == old(frozen)
      ensures id == old(id) && outbox == old(outbox)
    {
      var o := Outcome(req.state);
      if o.Throw? {
        return Throw(o.error);
      }
      var kept := LeaveFilter(channels, name);
      channels := kept.value;
      frozen := false;
      r := Ok(());
    }
  }

  /** Joining a channel as intended makes the lookup find it when the client
      did not have it before. */
  lemma {:induction false} JoinedChannelIsFound(cs: seq<ChannelHandler?>, c: ChannelHandler)
    requires FindChannel(cs, c.id) == Ok(-1)
    ensures FindChannel(cs + [c], c.id) == Ok(|cs|)
    decreases |cs|
  {
    if |cs| > 0 {
      assert (cs + [c])[1..] == cs[1..] + [c];
      JoinedChannelIsFound(cs[1..], c);
    }
  }
}
