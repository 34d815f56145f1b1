/**
 * The hub: routes messages to the sockets of authenticated users and
 * sequences the registry changes with the announcements that inform the
 * clients.  Delivering over a socket is appending to an outbox.
 */
module Hub {
  import opened Js
  import opened Envelope
  import opened Registry
  import ArrayTools

  /** A message handed to a socket. */
  type Delivery = (Socket, Message)

  /** Every member id of the given channels, channel by channel. */
  function AllMembers(cs: seq<Channel>): (r: seq<Value>)
    reads set c | c in cs
    ensures forall x :: x in r <==> exists i :: 0 <= i < |cs| && x in cs[i].members
  {
    if |cs| == 0 then []
    else
      var rest := AllMembers(cs[1..]);
      cs[0].members + rest
  }

  /** Strict equality of ids. */
  function SameId(a: Value, b: Value): bool { a == b }

  /** `hub.send` as written: the broadcast branch reads `message.from`, which a
      Message does not have, and passes it to `Channel.byMember`, which throws
      on `undefined.id`; the channel branch reads an undeclared `channel`; and
      a direct message hands the receiver's id string to `sendToUser`, whose
      `typeof User` test is never true, so `undefined.send` throws.  Every
      call throws before anything is delivered. */
  function SendAsWritten(m: Message): (r: Result<()>)
    ensures r.Throw?
    ensures m.channel != ALL && m.receiver == ALL ==> r == Throw(ReferenceError("channel"))
    ensures m.receiver != ALL ==> r == Throw(TypeError)
  {
    var from := Undefined;   // a Message has no `from` getter
    if m.channel == ALL then
      if m.receiver == ALL then
        match KeyOfValue(from)
        case Throw(e) => Throw(e)
        case Ok(_) => Ok(())
      else Throw(TypeError)
    else if m.receiver == ALL then Throw(ReferenceError("channel"))
    else Throw(TypeError)
  }

  /** Some channel of `channels` lists both `sender` and `x`. */
  predicate SharesChannel(channels: seq<Channel>, sender: Value, x: Value)
    reads set c | c in channels
  {
    exists c :: c in channels && sender in c.members && x in c.members
  }

  /** The broadcast of a message to every channel: the members of every
      channel that lists the sender, each once, without the sender. */
  function Broadcast(channels: seq<Channel>, sender: Value): (r: seq<Value>)
    reads set c | c in channels
    ensures forall x :: x in r <==> x != sender && SharesChannel(channels, sender, x)
    ensures forall i, j :: 0 <= i < j < |r| ==> r[i] != r[j]
  {
    var cs := ChannelsWith(channels, sender);
    var everyone := AllMembers(cs);
    var once := ArrayTools.Unique(everyone, SameId);
    var r := ArrayTools.Exclude(once, sender, SameId);
    BroadcastMembers(channels, sender, cs, everyone, once, r);
    ArrayTools.ExcludeKeepsDistinct(once, sender, SameId);
    r
  }

  lemma BroadcastMembers(channels: seq<Channel>, sender: Value, cs: seq<Channel>, everyone: seq<Value>, once: seq<Value>, r: seq<Value>)
    requires cs == ChannelsWith(channels, sender) && everyone == AllMembers(cs)
    requires once == ArrayTools.Unique(everyone, SameId) && r == ArrayTools.Exclude(once, sender, SameId)
    ensures forall x :: x in r <==> x != sender && SharesChannel(channels, sender, x)
  {
    assert forall x :: x in once <==> x in everyone by {
      forall x | x in everyone ensures x in once {
        var i :| 0 <= i < |everyone| && everyone[i] == x;
        assert everyone[i] in once || ArrayTools.HasEqual(once, everyone[i], SameId);
      }
    }
    assert forall x :: x in r <==> x in once && x != sender by {
      forall x | x in r ensures x in once && x != sender {
        var i :| 0 <= i < |r| && r[i] == x;
      }
      forall x | x in once && x != sender ensures x in r {
        var i :| 0 <= i < |once| && once[i] == x;
      }
    }
    forall x | x in everyone ensures SharesChannel(channels, sender, x) {
      var i :| 0 <= i < |cs| && x in cs[i].members;
      assert cs[i] in channels;
    }
    forall x | SharesChannel(channels, sender, x) ensures x in everyone {
      var c :| c in channels && sender in c.members && x in c.members;
      var k :| 0 <= k < |channels| && channels[k] == c;
      assert c in cs;
      var i :| 0 <= i < |cs| && cs[i] == c;
    }
  }

  class Hub {
    const reg: Registry
    var outbox: seq<Delivery>

    constructor (reg: Registry)
      ensures this.reg == reg && outbox == []
    {
      this.reg := reg;
      outbox := [];
    }

    /** The routing table of the hub's documentation, over user ids:
        a specific receiver gets the message whatever the channel; a
        broadcast in channel C reaches C's members except the sender; a
        broadcast in every channel reaches the members of every channel the
        sender is in, once each, except the sender. */
    function Recipients(m: Message): (r: seq<Value>)
      reads reg, set c | c in reg.channels
      ensures m.receiver != ALL ==> r == [m.receiver]
      ensures m.channel != ALL && m.receiver == ALL && reg.ChannelById(m.channel).None? ==> r == []
      ensures m.channel != ALL && m.receiver == ALL && reg.ChannelById(m.channel).Some? ==>
        forall x :: x in r <==> x in reg.ChannelById(m.channel).value.members && x != m.sender
      ensures m.channel == ALL && m.receiver == ALL ==>
        forall x :: x in r <==> x != m.sender && SharesChannel(reg.channels, m.sender, x)
      ensures m.channel == ALL && m.receiver == ALL ==> forall i, j :: 0 <= i < j < |r| ==> r[i] != r[j]
    {
      if m.receiver != ALL then [m.receiver]
      else if m.channel == ALL then Broadcast(reg.channels, m.sender)
      else
        match reg.ChannelById(m.channel)
        case None => []
        case Some(c) => ArrayTools.Exclude(c.members, m.sender, SameId)
    }

    /** The deliveries of `m` to those of `ids` who are authenticated users, in order. */
    function Deliveries(ids: seq<Value>, m: Message): (r: seq<Delivery>)
      reads reg
      ensures |r| <= |ids|
    {
      if |ids| == 0 then []
      else
        var init := ids[..|ids| - 1];
        var rest := Deliveries(init, m);
        match reg.UserById(ids[|ids| - 1])
        case None => rest
        case Some(u) => rest + [(u.socket, m)]
    }

    /** Every delivery carries `m` to the socket of an authenticated user
        named in `ids`, and every named authenticated user gets one. */
    lemma DeliveriesExactly(ids: seq<Value>, m: Message)
      ensures forall d :: d in Deliveries(ids, m) ==>
        d.1 == m && exists i :: 0 <= i < |ids| && reg.UserById(ids[i]) == Some(User(ids[i], d.0))
      ensures forall i :: 0 <= i < |ids| && reg.UserById(ids[i]).Some? ==>
        (reg.UserById(ids[i]).value.socket, m) in Deliveries(ids, m)
    {
      DeliveriesSound(ids, m);
      DeliveriesComplete(ids, m);
    }

    /** Every delivery of `m` goes to the socket of a named authenticated user. */
    lemma {:induction false} DeliveriesSound(ids: seq<Value>, m: Message)
      ensures forall d :: d in Deliveries(ids, m) ==>
        d.1 == m && exists i :: 0 <= i < |ids| && reg.UserById(ids[i]) == Some(User(ids[i], d.0))
    {
      if |ids| > 0 {
        var init := ids[..|ids| - 1];
        DeliveriesSound(init, m);
        forall d | d in Deliveries(ids, m)
          ensures d.1 == m && exists i :: 0 <= i < |ids| && reg.UserById(ids[i]) == Some(User(ids[i], d.0))
        {
          if d in Deliveries(init, m) {
            var i :| 0 <= i < |init| && reg.UserById(init[i]) == Some(User(init[i], d.0));
            assert ids[i] == init[i];
          } else {
            assert reg.UserById(ids[|ids| - 1]) == Some(User(ids[|ids| - 1], d.0));
          }
        }
      }
    }

    /** Every named authenticated user gets a delivery of `m`. */
    lemma {:induction false} DeliveriesComplete(ids: seq<Value>, m: Message)
      ensures forall i :: 0 <= i < |ids| && reg.UserById(ids[i]).Some? ==>
        (reg.UserById(ids[i]).value.socket, m) in Deliveries(ids, m)
    {
      if |ids| > 0 {
        var init := ids[..|ids| - 1];
        DeliveriesComplete(init, m);
        forall i | 0 <= i < |ids| && reg.UserById(ids[i]).Some?
          ensures (reg.UserById(ids[i]).value.socket, m) in Deliveries(ids, m)
        {
          if i < |init| {
            assert ids[i] == init[i];
          }
        }
      }
    }

    /** What `send(m)` hands out in the present state: `m` to the socket of
        every recipient that is an authenticated user, in recipient order. */
    function Routed(m: Message): (r: seq<Delivery>)
      reads reg, set c | c in reg.channels
    {
      Deliveries(Recipients(m), m)
    }

    /** `sendToUser(user, message)`: a User's socket receives the message.
        Its `typeof User === "string"` test is never true, so an id string
        is not looked up: reading `.socket` of the string gives `undefined`,
        on which `send` throws. */
    method SendToUser(a: UserArg, m: Message) returns (r: Result<()>)
      modifies this
      ensures r.Throw? <==> !a.AUser?
      ensures r.Ok? ==> outbox == old(outbox) + [(a.u.socket, m)]
      ensures r.Throw? ==> outbox == old(outbox)
    {
      if !a.AUser? {
        return Throw(TypeError);
      }
      outbox := outbox + [(a.u.socket, m)];
      r := Ok(());
    }

    /** `send(message)` following the routing table: every recipient that is
        an authenticated user receives the message on its socket. */
    method Send(m: Message)
      modifies this
      ensures outbox == old(outbox) + old(Routed(m))
      ensures Routed(m) == old(Routed(m))
    {
      var ids := Recipients(m);
      SendEach(ids, m);
    }

    /** The `forEach` of `send`: each id that names an authenticated user, in
        order, gets the message through `sendToUser`. */
    method SendEach(ids: seq<Value>, m: Message)
      modifies this
      ensures outbox == old(outbox) + Deliveries(ids, m)
    {
      var i := 0;
      while i < |ids|
        invariant 0 <= i <= |ids|
        invariant outbox == old(outbox) + Deliveries(ids[..i], m)
      {
        assert ids[..i + 1][..i] == ids[..i];
        var u := reg.UserById(ids[i]);
        ghost var before := Deliveries(ids[..i], m);
        assert Deliveries(ids[..i + 1], m)
          == if u.Some? then before + [(u.value.socket, m)] else before;
        if u.Some? {
          var _ := SendToUser(AUser(u.value), m);
        }
        i := i + 1;
      }
      assert ids[..|ids|] == ids;
    }

    /** A user given by id is looked up; anything else is taken as it is. */
    function ResolveUser(a: UserArg): (r: UserArg)
      reads reg
      ensures a.UserId? ==> r == (if reg.UserById(Str(a.s)).Some? then AUser(reg.UserById(Str(a.s)).value) else NoUser)
      ensures !a.UserId? ==> r == a
    {
      match a
      case UserId(s) => (match reg.UserById(Str(s)) case Some(u) => AUser(u) case None => NoUser)
      case _ => a
    }

    /** A channel given by id is looked up; anything else is taken as it is. */
    function ResolveChannel(a: ChannelArg): (r: ChannelArg)
      reads reg
      ensures a.ChannelId? ==> r == (if reg.ChannelById(Str(a.s)).Some? then AChannel(reg.ChannelById(Str(a.s)).value) else NoChannel)
      ensures !a.ChannelId? ==> r == a
    {
      match a
      case ChannelId(s) => (match reg.ChannelById(Str(s)) case Some(c) => AChannel(c) case None => NoChannel)
      case _ => a
    }

    /** `join(user, channel)`: once both resolve, a JOIN announcement of the
        user's id goes to the channel, then the member list as it was before
        the join goes to the user, and only then the user is added; the
        result says whether membership changed.  An unresolved user or
        channel throws before anything is sent. */
    method Join(ua: UserArg, ca: ChannelArg, g: Gen) returns (r: Result<bool>)
      modifies this, set c | c in reg.channels
      ensures r.Throw? <==> old(ResolveUser(ua)).NoUser? || old(ResolveChannel(ca)).NoChannel?
      ensures r.Throw? ==> outbox == old(outbox)
      ensures r.Throw? ==> forall c :: c in reg.channels ==> c.members == old(c.members)
      ensures r.Ok? ==> var u, c := old(ResolveUser(ua)).u, old(ResolveChannel(ca)).c;
        outbox == old(outbox) + old(Routed(JoinAnnouncement(g, c.id, u.id)))
                              + old(Routed(MemberListing(g, c.id, u.id, c.members)))
      ensures r.Ok? ==> var u, t := old(ResolveUser(ua)).u, old(reg.Target(AChannel(ResolveChannel(ca).c)));
        && (r.value <==> t.Some? && u.id !in old(t.value.members))
        && (t.Some? ==> t.value.members == if r.value then old(t.value.members) + [u.id] else old(t.value.members))
        && (forall d :: d in reg.channels && t != Some(d) ==> d.members == old(d.members))
      ensures reg.channels == old(reg.channels) && reg.users == old(reg.users)
    {
      var user := ResolveUser(ua);
      var channel := ResolveChannel(ca);
      if channel.NoChannel? || user.NoUser? {
        return Throw(TypeError);
      }
      var joined := JoinResolved(user.u, channel.c, g);
      r := Ok(joined);
    }

    /** `join` once both arguments are resolved. */
    method JoinResolved(u: User, c: Channel, g: Gen) returns (joined: bool)
      modifies this, set c | c in reg.channels
      ensures outbox == old(outbox) + old(Routed(JoinAnnouncement(g, c.id, u.id)))
                                    + old(Routed(MemberListing(g, c.id, u.id, c.members)))
      ensures var t := old(reg.Target(AChannel(c)));
        && (joined <==> t.Some? && u.id !in old(t.value.members))
        && (t.Some? ==> t.value.members == if joined then old(t.value.members) + [u.id] else old(t.value.members))
        && (forall d :: d in reg.channels && t != Some(d) ==> d.members == old(d.members))
      ensures reg.channels == old(reg.channels) && reg.users == old(reg.users)
    {
      var m1, m2 := JoinAnnouncement(g, c.id, u.id), MemberListing(g, c.id, u.id, c.members);
      var ids1, ids2 := Recipients(m1), Recipients(m2);
      SendEach(ids1, m1);
      SendEach(ids2, m2);
      var r := reg.Join(u, AChannel(c));
      joined := r.value;
    }

    /** `leave(user, channel)`: once both resolve, a LEAVE announcement of
        the user's id from `"@"` goes to the channel, and then the user is
        removed; the result says whether membership changed. */
    method Leave(ua: UserArg, ca: ChannelArg, g: Gen) returns (r: Result<bool>)
      modifies this, set c | c in reg.channels
      ensures r.Throw? <==> old(ResolveUser(ua)).NoUser? || old(ResolveChannel(ca)).NoChannel?
      ensures r.Throw? ==> outbox == old(outbox)
      ensures r.Throw? ==> forall c :: c in reg.channels ==> c.members == old(c.members)
      ensures r.Ok? ==> outbox == old(outbox) + old(Routed(LeaveAnnouncement(g, ResolveChannel(ca).c.id, ResolveUser(ua).u.id)))
      ensures r.Ok? ==> var u, t := old(ResolveUser(ua)).u, old(reg.Target(AChannel(ResolveChannel(ca).c)));
        && (r.value <==> t.Some? && u.id in old(t.value.members))
        && (r.value ==> t.value.members == RemoveAt(old(t.value.members), IndexOf(old(t.value.members), u.id)))
        && (t.Some? && old(NoDup(t.value.members)) ==> NoDup(t.value.members) && u.id !in t.value.members)
        && (forall d :: d in reg.channels && (t != Some(d) || !r.value) ==> d.members == old(d.members))
      ensures reg.channels == old(reg.channels) && reg.users == old(reg.users)
    {
      var user := ResolveUser(ua);
      var channel := ResolveChannel(ca);
      if user.NoUser? || channel.NoChannel? {
        return Throw(TypeError);
      }
      var left := LeaveResolved(user.u, channel.c, g);
      r := Ok(left);
    }

    /** `leave` once both arguments are resolved. */
    method LeaveResolved(u: User, c: Channel, g: Gen) returns (left: bool)
      modifies this, set c | c in reg.channels
      ensures outbox == old(outbox) + old(Routed(LeaveAnnouncement(g, c.id, u.id)))
      ensures var t := old(reg.Target(AChannel(c)));
        && (left <==> t.Some? && u.id in old(t.value.members))
        && (left ==> t.value.members == RemoveAt(old(t.value.members), IndexOf(old(t.value.members), u.id)))
        && (t.Some? && old(NoDup(t.value.members)) ==> NoDup(t.value.members) && u.id !in t.value.members)
        && (forall d :: d in reg.channels && (t != Some(d) || !left) ==> d.members == old(d.members))
      ensures reg.channels == old(reg.channels) && reg.users == old(reg.users)
    {
      Send(LeaveAnnouncement(g, c.id, u.id));
      var r := reg.Leave(u, AChannel(c));
      left := r.value;
    }

    /** `open(channel)`: the channel is opened first, then an OPEN
        announcement with its id goes out; the result is `Channel.open`'s.
        (This uses the intended `Channel.open`, since as written a string
        argument throws.) */
    method Open(ca: ChannelArg, g: Gen) returns (r: Result<bool>)
      modifies this, reg
      ensures r.Throw? <==> ca.NoChannel?
      ensures r.Throw? ==> outbox == old(outbox) && reg.channels == old(reg.channels)
      ensures r.Ok? ==> outbox == old(outbox) + Routed(OpenAnnouncement(g, ArgId(ca)))
      ensures ca.AChannel? ==> (r.Ok? && (r.value <==> old(reg.ChannelById(ca.c.id)).None?)
        && reg.channels == (if r.value then old(reg.channels) + [ca.c] else old(reg.channels)))
      ensures ca.ChannelId? ==> (r.Ok? && (r.value <==> old(reg.ChannelById(Str(ca.s))).None?)
        && |reg.channels| == |old(reg.channels)| + (if r.value then 1 else 0)
        && reg.ChannelById(Str(ca.s)).Some?
        && (r.value ==> fresh(reg.channels[|reg.channels| - 1]) && reg.channels[|reg.channels| - 1].members == []
                        && reg.channels[|reg.channels| - 1].id == Str(ca.s)))
      ensures r.Ok? ==> old(reg.channels) <= reg.channels
      ensures reg.users == old(reg.users)
      ensures old(reg.Valid()) ==> reg.Valid()
    {
      r := reg.OpenIntended(ca);
      if r.Throw? {
        return;
      }
      Send(OpenAnnouncement(g, ArgId(ca)));
    }

    /** `close(channel)`: a CLOSE announcement with the channel's id goes out
        (it names no channel, so the routing table finds no open channel for
        it unless one has an undefined id), then the channel is closed; the
        result says whether one was open. */
    method Close(ca: ChannelArg, g: Gen) returns (r: Result<bool>)
      modifies this, reg
      ensures r.Throw? <==> ca.NoChannel?
      ensures r.Throw? ==> outbox == old(outbox) && reg.channels == old(reg.channels)
      ensures r.Ok? ==> outbox == old(outbox) + old(Routed(CloseAnnouncement(g, ArgId(ca))))
      ensures r.Ok? ==> (r.value <==> old(reg.Target(ca)).Some?)
      ensures r.Ok? && r.value ==> (exists i ::
                                     0 <= i < |old(reg.channels)| && old(reg.channels)[i] == old(reg.Target(ca)).value
                                     && reg.channels == RemoveAt(old(reg.channels), i))
      ensures !(r.Ok? && r.value) ==> reg.channels == old(reg.channels)
      ensures old(reg.Valid()) && r.Ok? ==> reg.Target(ca).None?
      ensures reg.users == old(reg.users)
      ensures old(reg.Valid()) ==> reg.Valid()
    {
      if ca.NoChannel? {
        return Throw(TypeError);
      }
      Send(CloseAnnouncement(g, ArgId(ca)));
      r := reg.Close(ca);
    }

    /** The `forEach` of `unauthenticate`: the user leaves each of `cs` in
        turn, each leave with its announcement, the `i`-th built from the
        draws `gs(i)`; `left` is what they sent.  Afterwards no channel of
        `cs` lists the user's id, and the channels outside `cs` are as they
        were. */
    method LeaveEach(u: User, cs: seq<Channel>, gs: nat -> Gen) returns (ghost left: seq<Delivery>)
      requires forall c :: c in cs ==> c in reg.channels
      requires reg.Valid()
      modifies this, set c | c in reg.channels
      ensures outbox == old(outbox) + left
      ensures DistinctChannelIds(cs) && (forall c :: c in cs ==> c.id != ALL) ==>
        left == old(LeaveDeliveries(u, cs, gs))
      ensures reg.channels == old(reg.channels) && reg.users == old(reg.users)
      ensures forall c :: c in reg.channels && (c !in cs || !Truthy(c.id)) ==> c.members == old(c.members)
      ensures old(reg.MembersNoDup()) ==> reg.MembersNoDup()
      ensures old(reg.MembersNoDup()) ==> forall c :: c in cs && Truthy(c.id) ==> u.id !in c.members
    {
      ghost var allNoDup := reg.MembersNoDup();
      ghost var orig := map c | c in reg.channels :: c.members;
      ghost var apart := DistinctChannelIds(cs) && (forall c :: c in cs ==> c.id != ALL);
      if apart {
        LeaveDeliveriesFromSnapshot(u, cs, gs, orig);
      }
      left := LeaveEachIn(u, cs, gs, orig, apart, allNoDup);
    }

    /** The loop of `LeaveEach`, stated against the snapshot `orig` of the
        channels' members at its start. */
    method LeaveEachIn(u: User, cs: seq<Channel>, gs: nat -> Gen, ghost orig: map<Channel, seq<Value>>,
                       ghost apart: bool, ghost allNoDup: bool)
      returns (ghost left: seq<Delivery>)
      requires (forall c :: c in cs ==> c in reg.channels) && reg.Valid()
      requires apart ==> DistinctChannelIds(cs) && forall c :: c in cs ==> c.id != ALL
      requires forall c :: c in reg.channels ==> c in orig && c.members == orig[c]
      requires allNoDup ==> reg.MembersNoDup()
      modifies this, set c | c in reg.channels
      ensures outbox == old(outbox) + left
      ensures reg.channels == old(reg.channels) && reg.users == old(reg.users)
      ensures apart ==> left == LeaveDeliveriesIn(u, cs, gs, orig)
      ensures forall c :: c in reg.channels && (c !in cs || !Truthy(c.id)) ==> c.members == orig[c]
      ensures allNoDup ==> reg.MembersNoDup()
      ensures allNoDup ==> forall c :: c in cs && Truthy(c.id) ==> u.id !in c.members
    {
      left := [];
      var i := 0;
      assert LeaveDeliveriesIn(u, cs[..0], gs, orig) == [];
      while i < |cs|
        invariant 0 <= i <= |cs|
        invariant reg.channels == old(reg.channels) && reg.users == old(reg.users)
        invariant outbox == old(outbox) + left
        invariant apart ==> left == LeaveDeliveriesIn(u, cs[..i], gs, orig)
        invariant forall c :: c in reg.channels ==> c in orig
        invariant forall c :: c in reg.channels && (c !in cs[..i] || !Truthy(c.id)) ==> c.members == orig[c]
        invariant allNoDup ==> reg.MembersNoDup()
        invariant allNoDup ==> forall c :: c in cs[..i] && Truthy(c.id) ==> u.id !in c.members
      {
        ghost var sent := LeaveStep(u, cs, i, gs, orig, apart, allNoDup, left);
        AppendAssoc(old(outbox), left, sent);
        left := left + sent;
        i := i + 1;
        assert apart ==> left == LeaveDeliveriesIn(u, cs[..i], gs, orig);
      }
      assert cs[..|cs|] == cs;
    }

    /** The `i`-th step of `LeaveEach`, carrying its loop invariant from
        `i` to `i + 1`; `orig` is the channels' members at the start. */
    method LeaveStep(u: User, cs: seq<Channel>, i: nat, gs: nat -> Gen, ghost orig: map<Channel, seq<Value>>,
                     ghost apart: bool, ghost allNoDup: bool, ghost left: seq<Delivery>)
      returns (ghost sent: seq<Delivery>)
      requires i < |cs| && (forall c :: c in cs ==> c in reg.channels) && reg.Valid()
      requires apart ==> DistinctChannelIds(cs) && forall c :: c in cs ==> c.id != ALL
      requires apart ==> left == LeaveDeliveriesIn(u, cs[..i], gs, orig)
      requires forall c :: c in reg.channels ==> c in orig
      requires forall c :: c in reg.channels && (c !in cs[..i] || !Truthy(c.id)) ==> c.members == orig[c]
      requires allNoDup ==> reg.MembersNoDup()
      requires allNoDup ==> forall c :: c in cs[..i] && Truthy(c.id) ==> u.id !in c.members
      modifies this, set c | c in reg.channels
      ensures outbox == old(outbox) + sent
      ensures reg.channels == old(reg.channels) && reg.users == old(reg.users)
      ensures apart ==> left + sent == LeaveDeliveriesIn(u, cs[..i + 1], gs, orig)
      ensures forall c :: c in reg.channels && (c !in cs[..i + 1] || !Truthy(c.id)) ==> c.members == orig[c]
      ensures allNoDup ==> reg.MembersNoDup()
      ensures allNoDup ==> forall c :: c in cs[..i + 1] && Truthy(c.id) ==> u.id !in c.members
    {
      var c := cs[i];
      assert cs[..i + 1] == cs[..i] + [c];
      if apart {
        StepFromSnapshot(u, cs, i, gs, orig);
      }
      sent := LeaveOne(u, c, gs(i));
    }

    /** Before the `i`-th leave the channel its announcement goes to still
        has the members of the snapshot, since the earlier leaves were from
        channels with other ids; so that announcement is routed as the
        snapshot says, which extends `LeaveDeliveriesIn` by one. */
    lemma StepFromSnapshot(u: User, cs: seq<Channel>, i: nat, gs: nat -> Gen, orig: map<Channel, seq<Value>>)
      requires i < |cs| && DistinctChannelIds(cs) && (forall c :: c in cs ==> c.id != ALL)
      requires forall c :: c in reg.channels ==> c in orig
      requires forall c :: c in reg.channels && (c !in cs[..i] || !Truthy(c.id)) ==> c.members == orig[c]
      ensures Routed(LeaveAnnouncement(gs(i), cs[i].id, u.id)) == RoutedIn(LeaveAnnouncement(gs(i), cs[i].id, u.id), orig)
      ensures LeaveDeliveriesIn(u, cs[..i + 1], gs, orig)
        == LeaveDeliveriesIn(u, cs[..i], gs, orig) + RoutedIn(LeaveAnnouncement(gs(i), cs[i].id, u.id), orig)
    {
      var m := LeaveAnnouncement(gs(i), cs[i].id, u.id);
      var d := reg.ChannelById(m.channel);
      if d.Some? && Truthy(d.value.id) {
        forall j | 0 <= j < i ensures cs[..i][j] != d.value {
          assert cs[..i][j] == cs[j] && cs[j].id != cs[i].id;
        }
      }
      RoutedFromSnapshot(m, orig);
      assert cs[..i + 1][..i] == cs[..i] && cs[..i + 1][i] == cs[i];
    }

    /** What the LEAVE announcements of leaving each of `cs` in turn are
        routed to, the `i`-th built from `gs(i)`, all read in the present
        state. */
    ghost function LeaveDeliveries(u: User, cs: seq<Channel>, gs: nat -> Gen): seq<Delivery>
      reads reg, set c | c in reg.channels
      decreases |cs|
    {
      if |cs| == 0 then []
      else LeaveDeliveries(u, cs[..|cs| - 1], gs) + Routed(LeaveAnnouncement(gs(|cs| - 1), cs[|cs| - 1].id, u.id))
    }

    /** The routing of a broadcast in one channel, with the channels'
        members read from the snapshot `orig` instead of the heap. */
    ghost function RoutedIn(m: Message, orig: map<Channel, seq<Value>>): seq<Delivery>
      reads reg
    {
      match reg.ChannelById(m.channel)
      case None => []
      case Some(d) => Deliveries(ArrayTools.Exclude(if d in orig then orig[d] else [], m.sender, SameId), m)
    }

    /** `LeaveDeliveries` with the members read from the snapshot `orig`. */
    ghost function LeaveDeliveriesIn(u: User, cs: seq<Channel>, gs: nat -> Gen, orig: map<Channel, seq<Value>>): seq<Delivery>
      reads reg
      decreases |cs|
    {
      if |cs| == 0 then []
      else
        var last := LeaveAnnouncement(gs(|cs| - 1), cs[|cs| - 1].id, u.id);
        LeaveDeliveriesIn(u, cs[..|cs| - 1], gs, orig) + RoutedIn(last, orig)
    }

    /** A broadcast in one channel is routed as the snapshot says when the
        snapshot holds that channel's present members. */
    lemma RoutedFromSnapshot(m: Message, orig: map<Channel, seq<Value>>)
      requires m.receiver == ALL && m.channel != ALL
      requires reg.ChannelById(m.channel).Some? ==>
        reg.ChannelById(m.channel).value in orig && orig[reg.ChannelById(m.channel).value] == reg.ChannelById(m.channel).value.members
      ensures Routed(m) == RoutedIn(m, orig)
    {
    }

    /** Read against a snapshot of every channel's present members, the
        LEAVE announcements are routed as in the heap. */
    lemma {:induction false} LeaveDeliveriesFromSnapshot(u: User, cs: seq<Channel>, gs: nat -> Gen, orig: map<Channel, seq<Value>>)
      requires forall c :: c in cs ==> c.id != ALL
      requires forall c :: c in reg.channels ==> c in orig && orig[c] == c.members
      ensures LeaveDeliveries(u, cs, gs) == LeaveDeliveriesIn(u, cs, gs, orig)
      decreases |cs|
    {
      if |cs| > 0 {
        LeaveDeliveriesFromSnapshot(u, cs[..|cs| - 1], gs, orig);
        RoutedFromSnapshot(LeaveAnnouncement(gs(|cs| - 1), cs[|cs| - 1].id, u.id), orig);
      }
    }

    /** One step of that `forEach`: the user leaves the open channel `c`,
        announced to the channel as it is before the leave. */
    method LeaveOne(u: User, c: Channel, g: Gen) returns (ghost sent: seq<Delivery>)
      requires c in reg.channels && reg.Valid()
      modifies this, set c | c in reg.channels
      ensures sent == old(Routed(LeaveAnnouncement(g, c.id, u.id)))
      ensures outbox == old(outbox) + sent
      ensures reg.channels == old(reg.channels) && reg.users == old(reg.users)
      ensures forall d :: d in reg.channels && (d != c || !Truthy(c.id)) ==> d.members == old(d.members)
      ensures Truthy(c.id) && u.id in old(c.members) ==>
        c.members == RemoveAt(old(c.members), IndexOf(old(c.members), u.id))
      ensures old(reg.MembersNoDup()) ==> reg.MembersNoDup() && (Truthy(c.id) ==> u.id !in c.members)
    {
      TargetIsItself(c);
      if !Truthy(c.id) {
        assert reg.Target(AChannel(c)).None?;
      }
      sent := Routed(LeaveAnnouncement(g, c.id, u.id));
      var _ := LeaveResolved(u, c, g);
    }

    /** An open channel with a truthy id is the one its id designates. */
    lemma TargetIsItself(c: Channel)
      requires c in reg.channels && reg.Valid()
      ensures Truthy(c.id) ==> reg.Target(AChannel(c)) == Some(c)
      ensures reg.Target(AChannel(c)).Some? ==> reg.Target(AChannel(c)) == Some(c)
    {
      if reg.Target(AChannel(c)).Some? {
        var t := reg.Target(AChannel(c)).value;
        var a :| 0 <= a < |reg.channels| && reg.channels[a] == t;
        var b :| 0 <= b < |reg.channels| && reg.channels[b] == c;
        assert t.id == c.id;
      }
    }

    /** `unauthenticate(user)`: the user leaves every channel it is in (each
        with its LEAVE announcement, together `left`), then a DEAUTH message
        goes to the user (`notice`), then the user is removed.  Each of these
        messages draws its own id and date: with `n` channels, the leaves
        use `gs(0)` to `gs(n - 1)` and the notice `gs(n)`.  Its `typeof
        User` test is never true, so an id string is not looked up and
        `.channels` of it throws. */
    method Unauthenticate(ua: UserArg, gs: nat -> Gen) returns (r: Result<bool>, ghost left: seq<Delivery>, ghost notice: seq<Delivery>)
      requires reg.Valid()
      modifies this, reg, set c | c in reg.channels
      ensures !ua.AUser? ==> r == Throw(TypeError) && outbox == old(outbox)
      ensures ua.AUser? && (ua.u.id == Undefined || ua.u.id == Null) ==> r.Throw? && outbox == old(outbox)
      ensures ua.AUser? && ua.u.id != Undefined && ua.u.id != Null ==> r.Ok?
      ensures reg.channels == old(reg.channels) && reg.Valid()
      ensures r.Ok? ==> outbox == old(outbox) + left + notice
      ensures r.Ok? ==> old(reg.UserChannels(ua.u)).Ok?
      ensures r.Ok? && Truthy(ua.u.id) && ua.u.id != ALL ==>
        notice == old(Deliveries([ua.u.id], DeauthNotice(gs(|reg.UserChannels(ua.u).value|), ua.u.id)))
      ensures r.Ok? && Truthy(ua.u.id) ==>
        (r.value <==> old(reg.UserById(ua.u.id)).Some?) && reg.UserById(ua.u.id).None?
      ensures r.Ok? && ua.u.id.Str? && Truthy(ua.u.id) && old(reg.MembersNoDup()) ==>
        forall c :: c in reg.channels && Truthy(c.id) ==> ua.u.id !in c.members
      ensures r.Ok? && (forall c :: c in old(reg.channels) ==> c.id != ALL) ==>
        left == old(LeaveDeliveries(ua.u, reg.UserChannels(ua.u).value, gs))
      ensures r.Ok? ==> forall c :: c in reg.channels && c !in old(reg.UserChannels(ua.u).value) ==> c.members == old(c.members)
      ensures !(r.Ok? && r.value) ==> reg.users == old(reg.users)
      ensures r.Ok? && r.value ==>
        0 <= FirstUser(old(reg.users), ua.u.id) && reg.users == RemoveAt(old(reg.users), FirstUser(old(reg.users), ua.u.id))
    {
      left, notice := [], [];
      if !ua.AUser? {
        return Throw(TypeError), left, notice;
      }
      var u := ua.u;
      var member := reg.UserChannels(u);
      if member.Throw? {
        return Throw(member.error), left, notice;
      }
      var cs := member.value;
      SubsequenceKeepsDistinctIds(cs, reg.channels);
      left := LeaveEach(u, cs, gs);
      var m := DeauthNotice(gs(|cs|), u.id);
      notice := Routed(m);
      if Truthy(u.id) && u.id != ALL {
        assert Recipients(m) == [u.id];
        assert notice == Deliveries([u.id], m);
      }
      Send(m);
      r := reg.Unauthenticate(AUser(u));
    }
  }

  lemma AppendAssoc(a: seq<Delivery>, b: seq<Delivery>, c: seq<Delivery>)
    ensures a + b + c == a + (b + c)
  {
  }

  /** `Channel#id`-like reading of a channel argument: a Channel's id;
      a string has no `id` property. */
  function ArgId(a: ChannelArg): (r: Value)
    ensures a.AChannel? ==> r == a.c.id
    ensures !a.AChannel? ==> r == Undefined
  {
    if a.AChannel? then a.c.id else Undefined
  }

  /** A message built by the hub: a fresh id and sent date from the
      generator, nothing forwarded or answered. */
  function Announcement(g: Gen, t: Value, content: Value, channel: Value, receiver: Value, sender: Value): (m: Message)
  {
    Message(id := Or(g.id, Undefined), msgType := t, content := content, channel := channel,
            receiver := receiver, sender := sender, sent := Or(g.now, Undefined),
            forwarded := Undefined, answered := Undefined)
  }

  /** The JOIN announcement of `hub.join`: the channel's id, the user's id
      as content, to everyone.  The sender is `Message.Types.SERVER`, which
      does not exist, so it stays undefined. */
  function JoinAnnouncement(g: Gen, channel: Value, user: Value): Message
  {
    Announcement(g, JOIN, user, channel, ALL, Undefined)
  }

  /** The member listing of `hub.join`: the channel's members, to the user. */
  function MemberListing(g: Gen, channel: Value, user: Value, members: seq<Value>): Message
  {
    Announcement(g, CHANNEL, Arr(members), channel, user, Undefined)
  }

  /** Both messages of `hub.join` are what its `with*` chains build from one
      `new Message().withSender(Message.Types.SERVER).withChannel(channel.id)`,
      and so they share the id. */
  lemma JoinMessagesBuilt(g: Gen, channel: Value, user: Value, members: seq<Value>)
    ensures var m := WithChannel(WithSender(New(g), Undefined, g), channel, g);
      && JoinAnnouncement(g, channel, user) == WithReceiver(WithContent(WithType(m, JOIN, g), user, g), ALL, g)
      && MemberListing(g, channel, user, members) == WithReceiver(WithContent(WithType(m, CHANNEL, g), Arr(members), g), user, g)
    ensures JoinAnnouncement(g, channel, user).id == MemberListing(g, channel, user, members).id
  {
  }

  /** The LEAVE announcement of `hub.leave`: the user's id to everyone in the channel, from `"@"`. */
  function LeaveAnnouncement(g: Gen, channel: Value, user: Value): Message
  {
    Announcement(g, LEAVE, Or(user, Undefined), Or(channel, Undefined), ALL, SERVER)
  }

  /** It is what the constructor makes of the plain object `hub.leave` passes,
      where falsy ids collapse to `undefined`. */
  lemma LeaveAnnouncementBuilt(g: Gen, channel: Value, user: Value)
    ensures LeaveAnnouncement(g, channel, user) ==
      Construct(Fields(map["type" := LEAVE, "content" := user, "receiver" := ALL, "channel" := channel, "sender" := SERVER]), g)
  {
  }

  /** The OPEN announcement of `hub.open`: the channel id as content and channel, to everyone from `"@"`. */
  function OpenAnnouncement(g: Gen, channel: Value): Message
  {
    Announcement(g, OPEN, channel, channel, ALL, SERVER)
  }

  lemma OpenAnnouncementBuilt(g: Gen, channel: Value)
    ensures OpenAnnouncement(g, channel) ==
      WithSender(WithChannel(WithReceiver(WithContent(WithType(New(g), OPEN, g), channel, g), ALL, g), channel, g), SERVER, g)
  {
  }

  /** The CLOSE announcement of `hub.close`: the channel id as content
      only, with no channel, to everyone from `"@"`. */
  function CloseAnnouncement(g: Gen, channel: Value): Message
  {
    Announcement(g, CLOSE, Or(channel, Undefined), Undefined, ALL, SERVER)
  }

  lemma CloseAnnouncementBuilt(g: Gen, channel: Value)
    ensures CloseAnnouncement(g, channel) ==
      Construct(Fields(map["type" := CLOSE, "content" := channel, "receiver" := ALL, "sender" := SERVER]), g)
  {
  }

  /** The DEAUTH notice of `hub.unauthenticate`: to the user, in every channel, from `"@"`. */
  function DeauthNotice(g: Gen, user: Value): Message
  {
    Announcement(g, DEAUTH, Undefined, ALL, Or(user, Undefined), SERVER)
  }

  lemma DeauthNoticeBuilt(g: Gen, user: Value)
    ensures DeauthNotice(g, user) ==
      Construct(Fields(map["type" := DEAUTH, "receiver" := user, "channel" := ALL, "sender" := SERVER]), g)
  {
  }

  /** A direct message to an authenticated user is lost by `send` as written,
      while the routing table delivers it to that user's socket. */
  lemma SendAsWrittenLosesDirectMessage(h: Hub, m: Message)
    requires m.receiver != ALL && h.reg.UserById(m.receiver).Some?
    ensures SendAsWritten(m).Throw?
    ensures h.Deliveries(h.Recipients(m), m) == [(h.reg.UserById(m.receiver).value.socket, m)]
  {
    assert [m.receiver][..0] == [];
  }
}
