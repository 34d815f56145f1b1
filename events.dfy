/**
 * The event primitive every stateful object of the signaller mixes in: a
 * table from event names to handler lists, plus a list of proxies that
 * receive every trigger as well.  Handlers are opaque: what a call does is
 * outside the model, so `Trigger` returns the calls it makes, in order.
 */
module Events {
  import opened Js

  /** A handler function, known by its source text (what `toString` gives)
      and an identity that tells apart two closures with the same text. */
  datatype Handler = Handler(text: string, ident: nat)

  /** An argument passed where a handler is expected: a function or anything else. */
  datatype HandlerArg = Function(h: Handler) | NotFunction

  /** The second argument of `trigger`: omitted (or `undefined`), an array of
      arguments, or a single non-array value. */
  datatype Args<A> = Omitted | ArgArray(items: seq<A>) | Single(arg: A)

  /** A call made by `trigger`: forwarding to a proxy, or applying a handler. */
  datatype Call<A> =
    | Forward(proxy: Listenable<A>, event: string, args: seq<A>, self: object)
    | Invoke(handler: Handler, args: seq<A>, self: object)

  /** An argument passed to `proxy`: an object that mixes in the primitive,
      some other object, or a primitive value (`undefined`, a number, ...). */
  datatype ProxyArg<A> = IsListenable(l: Listenable<A>) | OtherObject | Primitive

  /** `argumentsArray`: the default `[]`, an array as is, anything else wrapped. */
  function Normalize<A>(args: Args<A>): (r: seq<A>)
    ensures args.ArgArray? ==> r == args.items
    ensures args.Single? ==> r == [args.arg]
    ensures args.Omitted? ==> r == []
  {
    match args
    case Omitted => []
    case ArgArray(items) => items
    case Single(a) => [a]
  }

  /** `off` as written: it keeps the handlers whose text EQUALS the given one's. */
  function OffFilterAsWritten(hs: seq<Handler>, h: Handler): (r: seq<Handler>)
    ensures forall i :: 0 <= i < |r| ==> r[i] in hs && r[i].text == h.text
    ensures forall i :: 0 <= i < |hs| && hs[i].text == h.text ==> hs[i] in r
  {
    if |hs| == 0 then []
    else if hs[0].text == h.text then [hs[0]] + OffFilterAsWritten(hs[1..], h)
    else OffFilterAsWritten(hs[1..], h)
  }

  /** What `off` is documented to do: drop the handlers with the given text. */
  function OffFilter(hs: seq<Handler>, h: Handler): (r: seq<Handler>)
    ensures forall i :: 0 <= i < |r| ==> r[i] in hs && r[i].text != h.text
    ensures forall i :: 0 <= i < |hs| && hs[i].text != h.text ==> hs[i] in r
  {
    if |hs| == 0 then []
    else if hs[0].text == h.text then OffFilter(hs[1..], h)
    else [hs[0]] + OffFilter(hs[1..], h)
  }

  /** With two handlers of different text, `off(first)` as written leaves only
      the first one registered, the intended filter leaves only the second. */
  lemma OffAsWrittenKeepsTheRemovedHandler()
    ensures var a, b := Handler("a", 0), Handler("b", 1);
      OffFilterAsWritten([a, b], a) == [a] && OffFilter([a, b], a) == [b]
  {
    var a, b := Handler("a", 0), Handler("b", 1);
    assert [a, b][1..] == [b];
    assert OffFilterAsWritten([b], a) == [] by { assert [b][1..] == []; }
    assert OffFilter([b], a) == [b] by { assert [b][1..] == []; }
  }

  /** After the intended `off`, nothing with that text remains, whatever was registered. */
  lemma {:induction false} OffFilterRemovesAll(hs: seq<Handler>, h: Handler)
    ensures forall g :: g in OffFilter(hs, h) ==> g.text != h.text
    ensures |OffFilter(hs, h)| + |OffFilterAsWritten(hs, h)| == |hs|
    decreases |hs|
  {
    if |hs| > 0 { OffFilterRemovesAll(hs[1..], h); }
  }

  class Listenable<A> {
    var handlers: map<string, seq<Handler>>
    var proxies: seq<Listenable<A>>

    constructor ()
      ensures handlers == map[] && proxies == []
    {
      handlers := map[];
      proxies := [];
    }

    /** The handlers registered for `event`, in registration order. */
    function Handlers(event: string): seq<Handler>
      reads this
    {
      if event in handlers then handlers[event] else []
    }

    /** `hasListenerFor(event)`: at least one handler is registered for it. */
    function HasListenerFor(event: string): (r: bool)
      reads this
      ensures r <==> |Handlers(event)| > 0
    {
      event in handlers && |handlers[event]| > 0
    }

    /** `on(event, handler)`: a non-function throws and changes nothing; a
        function is appended to the event's list, nothing else changes. */
    method On(event: string, h: HandlerArg) returns (r: Result<()>)
      modifies this
      ensures r.Throw? <==> h.NotFunction?
      ensures r.Throw? ==> handlers == old(handlers)
      ensures r.Ok? ==> handlers == old(handlers)[event := old(Handlers(event)) + [h.h]]
      ensures proxies == old(proxies)
    {
      if h.NotFunction? {
        return Throw(Error(Str("Invalid Handler function given")));
      }
      assert Handlers(event) + [h.h] == if HasListenerFor(event) then handlers[event] + [h.h] else [h.h];
      handlers := handlers[event := if HasListenerFor(event) then handlers[event] + [h.h] else [h.h]];
      r := Ok(());
    }

    /** `off(event, handler)` as written: a non-function throws; otherwise,
        when the event has handlers, only those whose source text equals the
        given handler's are kept. */
    method Off(event: string, h: HandlerArg) returns (r: Result<()>)
      modifies this
      ensures r.Throw? <==> h.NotFunction?
      ensures r.Ok? && old(HasListenerFor(event))
        ==> handlers == old(handlers)[event := OffFilterAsWritten(old(Handlers(event)), h.h)]
      ensures r.Throw? || !old(HasListenerFor(event)) ==> handlers == old(handlers)
      ensures proxies == old(proxies)
    {
      if h.NotFunction? {
        return Throw(Error(Str("Invalid Handler function given")));
      }
      if HasListenerFor(event) {
        handlers := handlers[event := OffFilterAsWritten(handlers[event], h.h)];
      }
      r := Ok(());
    }

    /** `off` as intended: the handlers with the given text are removed. */
    method OffIntended(event: string, h: HandlerArg) returns (r: Result<()>)
      modifies this
      ensures r.Throw? <==> h.NotFunction?
      ensures r.Ok? && old(HasListenerFor(event))
        ==> handlers == old(handlers)[event := OffFilter(old(Handlers(event)), h.h)]
      ensures r.Throw? || !old(HasListenerFor(event)) ==> handlers == old(handlers)
      ensures r.Ok? ==> forall g :: g in Handlers(event) ==> g.text != h.h.text
      ensures proxies == old(proxies)
    {
      if h.NotFunction? {
        return Throw(Error(Str("Invalid Handler function given")));
      }
      if HasListenerFor(event) {
        handlers := handlers[event := OffFilter(handlers[event], h.h)];
      }
      r := Ok(());
    }

    /** `proxy(listenable)` as written: `listenable instanceof
        Listenable` tests against the mixin factory, an arrow function without
        a prototype.  A primitive is no instance of anything, so the method
        throws its own Error; for any object `instanceof` reads the missing
        prototype and throws a TypeError.  No proxy is ever added. */
    method Proxy(arg: ProxyArg<A>) returns (r: Result<()>)
      ensures arg.Primitive? ==> r == Throw(Error(Str("Invalid Proxy given, must be Listenable")))
      ensures !arg.Primitive? ==> r == Throw(TypeError)
    {
      if arg.Primitive? {
        return Throw(Error(Str("Invalid Proxy given, must be Listenable")));
      }
      r := Throw(TypeError);
    }

    /** `proxy` as intended: anything but a Listenable throws; a Listenable is appended. */
    method ProxyIntended(arg: ProxyArg<A>) returns (r: Result<()>)
      modifies this
      ensures r.Throw? <==> !arg.IsListenable?
      ensures r.Throw? ==> r.error == Error(Str("Invalid Proxy given, must be Listenable"))
      ensures r.Ok? ==> proxies == old(proxies) + [arg.l]
      ensures r.Throw? ==> proxies == old(proxies)
      ensures handlers == old(handlers)
    {
      if !arg.IsListenable? {
        return Throw(Error(Str("Invalid Proxy given, must be Listenable")));
      }
      proxies := proxies + [arg.l];
      r := Ok(());
    }

    /** `trigger(event, args, self)`: every proxy first receives the same
        trigger once, in order, then every handler for the event is applied
        to the arguments, in registration order. */
    method Trigger(event: string, args: Args<A>, self: object) returns (calls: seq<Call<A>>)
      ensures |calls| == |proxies| + |Handlers(event)|
      ensures forall i :: 0 <= i < |proxies| ==> calls[i] == Forward(proxies[i], event, Normalize(args), self)
      ensures forall j :: 0 <= j < |Handlers(event)| ==>
        calls[|proxies| + j] == Invoke(Handlers(event)[j], Normalize(args), self)
      ensures !HasListenerFor(event) ==> forall c :: c in calls ==> c.Forward?
    {
      var argv := Normalize(args);
      calls := [];
      var i := 0;
      while i < |proxies|
        invariant 0 <= i <= |proxies|
        invariant |calls| == i
        invariant forall k :: 0 <= k < i ==> calls[k] == Forward(proxies[k], event, argv, self)
      {
        calls := calls + [Forward(proxies[i], event, argv, self)];
        i := i + 1;
      }
      if HasListenerFor(event) {
        var hs := handlers[event];
        var j := 0;
        while j < |hs|
          invariant 0 <= j <= |hs|
          invariant |calls| == |proxies| + j
          invariant forall k :: 0 <= k < |proxies| ==> calls[k] == Forward(proxies[k], event, argv, self)
          invariant forall k :: 0 <= k < j ==> calls[|proxies| + k] == Invoke(hs[k], argv, self)
        {
          calls := calls + [Invoke(hs[j], argv, self)];
          j := j + 1;
        }
      }
    }
  }
}
