/**
 * The server-side registries: channels (an id and a mutable member list)
 * and authenticated users (an id and a socket), kept in two module-level
 * lists that `open`/`close` and `authenticate`/`unauthenticate` change.
 * Both lists live in one `Registry` object here; sockets are opaque handles.
 */
module Registry {
  import opened Js
  import ArrayTools

  /** An opaque socket handle; two handles are the same socket iff equal. */
  type Socket = nat

  /** A server-side user: never changed once built (`withId`/`withSocket` copy). */
  datatype User = User(id: Value, socket: Socket)

  /** What the registry operations accept where a user is expected: a User
      instance, its id as a string, or `null`/`undefined`. */
  datatype UserArg = AUser(u: User) | UserId(s: string) | NoUser

  /** What they accept where a channel is expected. */
  datatype ChannelArg = AChannel(c: Channel) | ChannelId(s: string) | NoChannel

  /** The lookup key `x.id || x`: an id value, or the object itself when its id
      is falsy (an object that no id compares equal to). */
  datatype Key = Id(v: Value) | Itself

  /** `user.id || user`; reading `.id` of `null` or `undefined` throws, and a
      string has no `id` property, so it is its own key. */
  function KeyOfUser(a: UserArg): (r: Result<Key>)
    ensures r.Throw? <==> a.NoUser?
    ensures a.UserId? ==> r == Ok(Id(Str(a.s)))
    ensures a.AUser? && Truthy(a.u.id) ==> r == Ok(Id(a.u.id))
    ensures a.AUser? && !Truthy(a.u.id) ==> r == Ok(Itself)
  {
    match a
    case AUser(u) => Ok(if Truthy(u.id) then Id(u.id) else Itself)
    case UserId(s) => Ok(Id(Str(s)))
    case NoUser => Throw(TypeError)
  }

  /** `v.id || v` for an id value `v` (as `Channel.byMember(user.id)` computes it). */
  function KeyOfValue(v: Value): (r: Result<Value>)
    ensures r.Throw? <==> v == Undefined || v == Null
    ensures v.Str? ==> r == Ok(v)
  {
    match Prop(v, "id")
    case Throw(e) => Throw(e)
    case Ok(p) => Ok(if Truthy(p) then p else v)
  }

  /** `channel.id || channel`, likewise. */
  function KeyOfChannel(a: ChannelArg): (r: Result<Key>)
    ensures r.Throw? <==> a.NoChannel?
    ensures a.ChannelId? ==> r == Ok(Id(Str(a.s)))
    ensures a.AChannel? && Truthy(a.c.id) ==> r == Ok(Id(a.c.id))
    ensures a.AChannel? && !Truthy(a.c.id) ==> r == Ok(Itself)
  {
    match a
    case AChannel(c) => Ok(if Truthy(c.id) then Id(c.id) else Itself)
    case ChannelId(s) => Ok(Id(Str(s)))
    case NoChannel => Throw(TypeError)
  }

  /** `Array.prototype.indexOf` over ids. */
  function IndexOf(s: seq<Value>, x: Value): (i: int)
    ensures -1 <= i < |s|
    ensures i == -1 <==> x !in s
    ensures 0 <= i ==> s[i] == x && x !in s[..i]
  {
    if |s| == 0 then -1
    else if s[0] == x then 0
    else
      var j := IndexOf(s[1..], x);
      if j == -1 then -1
      else
        assert s[..j + 1] == [s[0]] + s[1..][..j];
        j + 1
  }

  /** `splice(i, 1)`: the sequence without its `i`-th entry. */
  function RemoveAt<T>(s: seq<T>, i: nat): (r: seq<T>)
    requires i < |s|
    ensures |r| == |s| - 1
    ensures forall k :: 0 <= k < i ==> r[k] == s[k]
    ensures forall k :: i <= k < |r| ==> r[k] == s[k + 1]
  {
    s[..i] + s[i + 1..]
  }

  /** No id occurs twice. */
  predicate NoDup(s: seq<Value>)
  {
    forall i, j :: 0 <= i < j < |s| ==> s[i] != s[j]
  }

  /** Appending an absent id keeps a member list duplicate-free. */
  lemma AppendKeepsNoDup(s: seq<Value>, x: Value)
    requires NoDup(s) && x !in s
    ensures NoDup(s + [x])
  {
    forall i, j | 0 <= i < j < |s + [x]| ensures (s + [x])[i] != (s + [x])[j] {
      if j == |s| { assert (s + [x])[i] == s[i]; }
    }
  }

  /** In a duplicate-free list, removing the first occurrence of `x` removes
      `x` entirely and keeps the list duplicate-free; the others keep their order. */
  lemma RemoveFirstOfNoDup(s: seq<Value>, x: Value)
    requires NoDup(s) && x in s
    ensures var r := RemoveAt(s, IndexOf(s, x));
      x !in r && NoDup(r) && (forall y :: y in r <==> y in s && y != x)
  {
    var i := IndexOf(s, x);
    var r := RemoveAt(s, i);
    forall y ensures y in r <==> y in s && y != x {
      if y in r {
        var k :| 0 <= k < |r| && r[k] == y;
        if k < i { assert s[k] == y && k != i; } else { assert s[k + 1] == y && k + 1 != i; }
      }
      if y in s && y != x {
        var k :| 0 <= k < |s| && s[k] == y;
        if k < i { assert r[k] == y; } else { assert k != i; assert r[k - 1] == y; }
      }
    }
    forall a, b | 0 <= a < b < |r| ensures r[a] != r[b] {
      var a', b' := if a < i then a else a + 1, if b < i then b else b + 1;
      assert r[a] == s[a'] && r[b] == s[b'] && a' < b';
    }
  }

  class Channel {
    const id: Value
    var members: seq<Value>

    /** `new Channel(id, members = [])`. */
    constructor (id: Value, members: seq<Value>)
      ensures this.id == id && this.members == members
    {
      this.id := id;
      this.members := members;
    }

    /** `hasMember(id)`: the id is among the members. */
    function HasMember(uid: Value): (r: bool)
      reads this
      ensures r <==> uid in members
    {
      IndexOf(members, uid) >= 0
    }

    /** `addMember(id)`: appends an absent id and reports whether it did. */
    method AddMember(uid: Value) returns (joinable: bool)
      modifies this
      ensures joinable <==> uid !in old(members)
      ensures members == if joinable then old(members) + [uid] else old(members)
      ensures old(NoDup(members)) ==> NoDup(members)
    {
      joinable := IndexOf(members, uid) == -1;
      if joinable {
        if NoDup(members) { AppendKeepsNoDup(members, uid); }
        members := members + [uid];
      }
    }

    /** `removeMember(id)`: removes the first occurrence of a present id and
        reports whether it did; a duplicate-free list then no longer holds it. */
    method RemoveMember(uid: Value) returns (leaveable: bool)
      modifies this
      ensures leaveable <==> uid in old(members)
      ensures leaveable ==> members == RemoveAt(old(members), IndexOf(old(members), uid))
      ensures !leaveable ==> members == old(members)
      ensures old(NoDup(members)) ==> NoDup(members) && uid !in members
    {
      var i := IndexOf(members, uid);
      leaveable := i >= 0;
      if leaveable {
        if NoDup(members) { RemoveFirstOfNoDup(members, uid); }
        members := RemoveAt(members, i);
      }
    }

    /** `withId(id)`: a new channel with the given id and this channel's members. */
    method WithId(newId: Value) returns (c: Channel)
      ensures fresh(c) && c.id == newId && c.members == members
    {
      c := new Channel(newId, members);
    }

    /** `withMembers(members)`: a new channel with this id and the given members. */
    method WithMembers(ms: seq<Value>) returns (c: Channel)
      ensures fresh(c) && c.id == id && c.members == ms
    {
      c := new Channel(id, ms);
    }
  }

  /** `withId(id)`: a user with the given id and the same socket. */
  function UserWithId(u: User, id: Value): (r: User)
    ensures r.id == id && r.socket == u.socket
  {
    u.(id := id)
  }

  /** `withSocket(socket)`: a user with the same id and the given socket. */
  function UserWithSocket(u: User, s: Socket): (r: User)
    ensures r.id == u.id && r.socket == s
  {
    u.(socket := s)
  }

  /** The index of the first channel with id `id`, or -1 (`findIndex`). */
  function FirstChannel(cs: seq<Channel>, id: Value): (i: int)
    ensures -1 <= i < |cs|
    ensures i == -1 <==> forall k :: 0 <= k < |cs| ==> cs[k].id != id
    ensures 0 <= i ==> cs[i].id == id && forall k :: 0 <= k < i ==> cs[k].id != id
  {
    if |cs| == 0 then -1
    else if cs[0].id == id then 0
    else
      var j := FirstChannel(cs[1..], id);
      if j == -1 then -1 else j + 1
  }

  /** The index of the first user with id `id`, or -1. */
  function FirstUser(us: seq<User>, id: Value): (i: int)
    ensures -1 <= i < |us|
    ensures i == -1 <==> forall k :: 0 <= k < |us| ==> us[k].id != id
    ensures 0 <= i ==> us[i].id == id && forall k :: 0 <= k < i ==> us[k].id != id
  {
    if |us| == 0 then -1
    else if us[0].id == id then 0
    else
      var j := FirstUser(us[1..], id);
      if j == -1 then -1 else j + 1
  }

  /** The index of the first user on socket `s`, or -1. */
  function FirstOnSocket(us: seq<User>, s: Socket): (i: int)
    ensures -1 <= i < |us|
    ensures i == -1 <==> forall k :: 0 <= k < |us| ==> us[k].socket != s
    ensures 0 <= i ==> us[i].socket == s && forall k :: 0 <= k < i ==> us[k].socket != s
  {
    if |us| == 0 then -1
    else if us[0].socket == s then 0
    else
      var j := FirstOnSocket(us[1..], s);
      if j == -1 then -1 else j + 1
  }

  /** The channels of `cs` whose members contain `id`, in order (`filter`). */
  function ChannelsWith(cs: seq<Channel>, id: Value): (r: seq<Channel>)
    reads set c | c in cs
    ensures forall c :: c in r ==> c in cs && id in c.members
    ensures forall c :: c in cs && id in c.members ==> c in r
    ensures ArrayTools.IsSubsequence(r, cs)
  {
    if |cs| == 0 then []
    else
      var rest := ChannelsWith(cs[1..], id);
      if id in cs[0].members then [cs[0]] + rest else rest
  }

  /** `Channel.unique`: one channel per id, the first of each. */
  function UniqueChannels(cs: seq<Channel>): (r: seq<Channel>)
    ensures forall c :: c in r ==> c in cs
    ensures forall i, j :: 0 <= i < j < |r| ==> r[i].id != r[j].id
    ensures forall c :: c in cs ==> exists d :: d in r && d.id == c.id
  {
    var u := ArrayTools.Unique(cs, (a: Channel, b: Channel) => a.id == b.id);
    u
  }

  /** `Channel.exclude(cs, id)`: every channel but those with that id, in order. */
  function ExcludeChannels(cs: seq<Channel>, id: Value): (r: seq<Channel>)
    ensures forall c :: c in r ==> c in cs && c.id != id
    ensures forall c :: c in cs && c.id != id ==> c in r
  {
    ArrayTools.Exclude(cs, id, (a: Channel, b: Value) => a.id == b)
  }

  /** `User.unique`: one user per id, the first of each. */
  function UniqueUsers(us: seq<User>): (r: seq<User>)
    ensures forall u :: u in r ==> u in us
    ensures forall i, j :: 0 <= i < j < |r| ==> r[i].id != r[j].id
    ensures forall u :: u in us ==> exists v :: v in r && v.id == u.id
  {
    ArrayTools.Unique(us, (a: User, b: User) => a.id == b.id)
  }

  /** `User.exclude(us, id)`: every user but those with that id, in order. */
  function ExcludeUsers(us: seq<User>, id: Value): (r: seq<User>)
    ensures forall u :: u in r <==> u in us && u.id != id
  {
    ArrayTools.Exclude(us, id, (a: User, b: Value) => a.id == b)
  }

  /** No two of the channels share an id. */
  predicate DistinctChannelIds(cs: seq<Channel>)
  {
    forall i, j :: 0 <= i < j < |cs| ==> cs[i].id != cs[j].id
  }

  /** No two of the users share an id. */
  predicate DistinctUserIds(us: seq<User>)
  {
    forall i, j :: 0 <= i < j < |us| ==> us[i].id != us[j].id
  }

  /** Closing the `i`-th of channels with distinct ids leaves distinct ids
      and no channel with the closed one's id. */
  lemma RemoveChannelAt(cs: seq<Channel>, i: nat)
    requires i < |cs| && DistinctChannelIds(cs)
    ensures DistinctChannelIds(RemoveAt(cs, i))
    ensures forall c :: c in RemoveAt(cs, i) ==> c.id != cs[i].id
  {
    var r := RemoveAt(cs, i);
    forall c | c in r ensures c.id != cs[i].id {
      var k :| 0 <= k < |r| && r[k] == c;
      if k < i { assert r[k] == cs[k]; } else { assert r[k] == cs[k + 1]; }
    }
    forall a, b | 0 <= a < b < |r| ensures r[a].id != r[b].id {
      var a', b' := if a < i then a else a + 1, if b < i then b else b + 1;
      assert r[a] == cs[a'] && r[b] == cs[b'] && a' < b';
    }
  }

  /** The channels of a subsequence of channels with distinct ids have
      distinct ids too. */
  lemma {:induction false} SubsequenceKeepsDistinctIds(s: seq<Channel>, t: seq<Channel>)
    requires ArrayTools.IsSubsequence(s, t) && DistinctChannelIds(t)
    ensures DistinctChannelIds(s)
    decreases |t|
  {
    if |s| > 0 {
      assert DistinctChannelIds(t[1..]) by {
        forall a, b | 0 <= a < b < |t| - 1 ensures t[1..][a].id != t[1..][b].id {
          assert t[1..][a] == t[a + 1] && t[1..][b] == t[b + 1];
        }
      }
      if s[0] == t[0] {
        SubsequenceKeepsDistinctIds(s[1..], t[1..]);
        ArrayTools.SubsequenceMembers(s[1..], t[1..]);
        forall a, b | 0 <= a < b < |s| ensures s[a].id != s[b].id {
          assert s[b] == s[1..][b - 1];
          if a == 0 {
            assert s[b] in s[1..];
            assert s[b] in t[1..];
            var k :| 0 <= k < |t[1..]| && t[1..][k] == s[b];
            assert t[k + 1] == s[b];
          } else {
            assert s[a] == s[1..][a - 1];
          }
        }
      } else {
        SubsequenceKeepsDistinctIds(s, t[1..]);
      }
    }
  }

  /** Removing the `i`-th of users with distinct ids leaves distinct ids
      and no user with the removed one's id. */
  lemma RemoveUserAt(us: seq<User>, i: nat)
    requires i < |us| && DistinctUserIds(us)
    ensures DistinctUserIds(RemoveAt(us, i))
    ensures forall u :: u in RemoveAt(us, i) ==> u.id != us[i].id
  {
    var r := RemoveAt(us, i);
    forall u | u in r ensures u.id != us[i].id {
      var k :| 0 <= k < |r| && r[k] == u;
      if k < i { assert r[k] == us[k]; } else { assert r[k] == us[k + 1]; }
    }
    forall a, b | 0 <= a < b < |r| ensures r[a].id != r[b].id {
      var a', b' := if a < i then a else a + 1, if b < i then b else b + 1;
      assert r[a] == us[a'] && r[b] == us[b'] && a' < b';
    }
  }

  /** An array `Object.freeze` has been applied to: its entries can no
      longer change, and `push` on it throws a TypeError. */
  class FrozenArray<T> {
    const items: seq<T>

    constructor (items: seq<T>)
      ensures this.items == items
    {
      this.items := items;
    }

    /** `push(x)`: a frozen array cannot grow. */
    method Push(x: T) returns (r: Result<()>)
      ensures r == Throw(TypeError)
    {
      r := Throw(TypeError);
    }
  }

  /** The two module-level lists: open channels and authenticated users. */
  class Registry {
    var channels: seq<Channel>
    var users: seq<User>

    /** No two open channels and no two authenticated users share an id. */
    ghost predicate Valid()
      reads this
    {
      DistinctChannelIds(channels) && DistinctUserIds(users)
    }

    /** No open channel lists an id twice. */
    ghost predicate MembersNoDup()
      reads this, set c | c in channels
    {
      forall c :: c in channels ==> NoDup(c.members)
    }

    constructor ()
      ensures channels == [] && users == [] && Valid()
    {
      channels := [];
      users := [];
    }

    /** `Channel.byId(id)`: the open channel with that id, or null. */
    function ChannelById(id: Value): (r: Option<Channel>)
      reads this
      ensures r.Some? ==> r.value in channels && r.value.id == id
      ensures r.None? <==> forall c :: c in channels ==> c.id != id
    {
      var i := FirstChannel(channels, id);
      if i >= 0 then Some(channels[i]) else None
    }

    /** The open channel a channel argument designates through `channel.id || channel`. */
    function Target(a: ChannelArg): (r: Option<Channel>)
      reads this
      ensures r.Some? ==> r.value in channels
      ensures a.ChannelId? ==> r == ChannelById(Str(a.s))
      ensures a.AChannel? && Truthy(a.c.id) ==> r == ChannelById(a.c.id)
    {
      match KeyOfChannel(a)
      case Ok(Id(v)) => ChannelById(v)
      case _ => None
    }

    /** `Channel.byMember(user)`: the open channels whose members contain the
        user's key, in registry order; `null`/`undefined` throws. */
    function ChannelsByMember(a: UserArg): (r: Result<seq<Channel>>)
      reads this, set c | c in channels
      ensures r.Throw? <==> a.NoUser?
      ensures r.Ok? ==> ArrayTools.IsSubsequence(r.value, channels)
      ensures r.Ok? && KeyOfUser(a).value.Id? ==>
        forall c :: c in channels ==> (c in r.value <==> KeyOfUser(a).value.v in c.members)
      ensures r.Ok? && KeyOfUser(a).value.Itself? ==> r.value == []
    {
      match KeyOfUser(a)
      case Throw(e) => Throw(e)
      case Ok(Itself) => Ok([])
      case Ok(Id(v)) => Ok(ChannelsWith(channels, v))
    }

    /** `user.channels`: `Channel.byMember(user.id)`, so for a string id exactly
        the open channels that list the id. */
    function UserChannels(u: User): (r: Result<seq<Channel>>)
      reads this, set c | c in channels
      ensures u.id.Str? ==> (r.Ok? &&
        forall c :: c in channels ==> (c in r.value <==> u.id in c.members))
      ensures r.Ok? ==> forall c :: c in r.value ==> c in channels
      ensures r.Ok? ==> ArrayTools.IsSubsequence(r.value, channels)
      ensures r.Throw? <==> u.id == Undefined || u.id == Null
    {
      match KeyOfValue(u.id)
      case Throw(e) => Throw(e)
      case Ok(k) => Ok(ChannelsWith(channels, k))
    }

    /** `User.byId(id)`: the authenticated user with that id, or null. */
    function UserById(id: Value): (r: Option<User>)
      reads this
      ensures r.Some? ==> r.value in users && r.value.id == id
      ensures r.None? <==> forall u :: u in users ==> u.id != id
    {
      var i := FirstUser(users, id);
      if i >= 0 then Some(users[i]) else None
    }

    /** `User.bySocket(socket)`: the first authenticated user on that socket, or null. */
    function UserBySocket(s: Socket): (r: Option<User>)
      reads this
      ensures r.Some? ==> r.value in users && r.value.socket == s
      ensures r.Some? ==> (exists i ::
                            0 <= i < |users| && users[i] == r.value
                            && forall k :: 0 <= k < i ==> users[k].socket != s)
      ensures r.None? <==> forall u :: u in users ==> u.socket != s
    {
      var i := FirstOnSocket(users, s);
      if i >= 0 then Some(users[i]) else None
    }

    /** `Channel.all`: the module's own list of open channels, each of them
        the channel `byId` finds for its id. */
    function AllChannels(): (r: seq<Channel>)
      reads this
      ensures r == channels
      ensures Valid() ==> forall c :: c in r ==> ChannelById(c.id) == Some(c)
    {
      ChannelsFoundById();
      channels
    }

    /** With distinct ids, `byId` finds every open channel by its own id. */
    lemma ChannelsFoundById()
      ensures Valid() ==> forall c :: c in channels ==> ChannelById(c.id) == Some(c)
    {
      if Valid() {
        forall c | c in channels ensures ChannelById(c.id) == Some(c) {
          var k :| 0 <= k < |channels| && channels[k] == c;
          var i := FirstChannel(channels, c.id);
          assert i == k by {
            if i < k { assert channels[i].id == channels[k].id; }
          }
        }
      }
    }

    /** `User.all`: a frozen copy of the authenticated users, in order, each
        of them the user `byId` finds for its id.  The copy is a new array
        whose entries cannot change, so later registry changes do not reach
        it, and pushing onto it throws. */
    method AllUsers() returns (a: FrozenArray<User>)
      ensures fresh(a) && a.items == users
      ensures Valid() ==> forall u :: u in a.items ==> UserById(u.id) == Some(u)
    {
      UsersFoundById();
      a := new FrozenArray(users);
    }

    /** With distinct ids, `byId` finds every authenticated user by its own id. */
    lemma UsersFoundById()
      ensures Valid() ==> forall u :: u in users ==> UserById(u.id) == Some(u)
    {
      if Valid() {
        forall u | u in users ensures UserById(u.id) == Some(u) {
          var k :| 0 <= k < |users| && users[k] == u;
          var i := FirstUser(users, u.id);
          assert i == k by {
            if i < k { assert users[i].id == users[k].id; }
          }
        }
      }
    }

    /** `Channel.open(c)` for a Channel object: registers it unless a channel
        with its id is open, and reports whether it did. */
    method OpenChannel(c: Channel) returns (added: bool)
      modifies this
      ensures added <==> old(ChannelById(c.id)).None?
      ensures channels == if added then old(channels) + [c] else old(channels)
      ensures users == old(users)
      ensures old(Valid()) ==> Valid()
      ensures ChannelById(c.id).Some?
    {
      added := ChannelById(c.id).None?;
      if added {
        channels := channels + [c];
        assert channels[|channels| - 1] == c;
      }
    }

    /** `Channel.open(channel)` as written: a string argument reaches
        `new Channel(id)` with an undeclared `id` and throws a ReferenceError;
        `null`/`undefined` throw on `.id`. */
    method Open(a: ChannelArg) returns (r: Result<bool>)
      modifies this
      ensures a.ChannelId? ==> r == Throw(ReferenceError("id"))
      ensures a.NoChannel? ==> r == Throw(TypeError)
      ensures r.Throw? ==> channels == old(channels)
      ensures a.AChannel? ==> (r.Ok? && (r.value <==> old(ChannelById(a.c.id)).None?)
        && channels == (if r.value then old(channels) + [a.c] else old(channels)))
      ensures users == old(users)
      ensures old(Valid()) ==> Valid()
    {
      match a
      case ChannelId(_) => r := Throw(ReferenceError("id"));
      case NoChannel => r := Throw(TypeError);
      case AChannel(c) =>
        var added := OpenChannel(c);
        r := Ok(added);
    }

    /** `Channel.open` as intended: a string opens a new, empty channel with that id. */
    method OpenIntended(a: ChannelArg) returns (r: Result<bool>)
      modifies this
      ensures r.Throw? <==> a.NoChannel?
      ensures a.ChannelId? ==> (r.Ok? && (r.value <==> old(ChannelById(Str(a.s))).None?)
        && |channels| == |old(channels)| + (if r.value then 1 else 0)
        && ChannelById(Str(a.s)).Some?
        && (r.value ==> fresh(channels[|channels| - 1]) && channels[|channels| - 1].members == []
                        && channels[|channels| - 1].id == Str(a.s)))
      ensures a.AChannel? ==> (r.Ok? && (r.value <==> old(ChannelById(a.c.id)).None?)
        && channels == (if r.value then old(channels) + [a.c] else old(channels)))
      ensures r.Ok? ==> old(channels) <= channels
      ensures r.Throw? ==> channels == old(channels)
      ensures users == old(users)
      ensures old(Valid()) ==> Valid()
    {
      match a
      case ChannelId(s) =>
        var c := new Channel(Str(s), []);
        var added := OpenChannel(c);
        r := Ok(added);
      case NoChannel => r := Throw(TypeError);
      case AChannel(c) =>
        var added := OpenChannel(c);
        r := Ok(added);
    }

    /** `Channel.close(channel)`: removes the first open channel whose id is
        the argument's key, and reports whether there was one. */
    method Close(a: ChannelArg) returns (r: Result<bool>)
      modifies this
      ensures r.Throw? <==> a.NoChannel?
      ensures r.Ok? ==> (r.value <==> old(Target(a)).Some?)
      ensures r.Ok? && r.value ==> (exists i ::
                                     0 <= i < |old(channels)| && old(channels)[i] == old(Target(a)).value
                                     && channels == RemoveAt(old(channels), i))
      ensures !(r.Ok? && r.value) ==> channels == old(channels)
      ensures old(Valid()) && r.Ok? ==> Target(a).None?
      ensures users == old(users)
      ensures old(Valid()) ==> Valid()
    {
      var key := KeyOfChannel(a);
      if key.Throw? {
        return Throw(key.error);
      }
      if key.value.Itself? {
        return Ok(false);
      }
      var closed := CloseId(key.value.v);
      r := Ok(closed);
    }

    /** The removal `Channel.close` performs once it has the key `v`. */
    method CloseId(v: Value) returns (closed: bool)
      modifies this
      ensures closed <==> old(ChannelById(v)).Some?
      ensures closed ==> (exists i ::
                           0 <= i < |old(channels)| && old(channels)[i] == old(ChannelById(v)).value
                           && channels == RemoveAt(old(channels), i))
      ensures !closed ==> channels == old(channels)
      ensures old(Valid()) ==> Valid() && ChannelById(v).None?
      ensures users == old(users)
    {
      var i := FirstChannel(channels, v);
      if i >= 0 {
        if Valid() {
          RemoveChannelAt(channels, i);
        }
        channels := RemoveAt(channels, i);
      }
      closed := i >= 0;
    }

    /** `User.authenticate(user)`: registers the user unless one with its id
        is registered, and reports whether it did. */
    method Authenticate(u: User) returns (added: bool)
      modifies this
      ensures added <==> old(UserById(u.id)).None?
      ensures users == if added then old(users) + [u] else old(users)
      ensures channels == old(channels)
      ensures old(Valid()) ==> Valid()
      ensures UserById(u.id).Some?
    {
      added := UserById(u.id).None?;
      if added {
        users := users + [u];
        assert users[|users| - 1] == u;
      }
    }

    /** `User.unauthenticate(user)`: removes the first user whose id is the
        argument's key, and reports whether there was one. */
    method Unauthenticate(a: UserArg) returns (r: Result<bool>)
      modifies this
      ensures r.Throw? <==> a.NoUser?
      ensures r.Ok? && KeyOfUser(a).value.Id? ==> (r.value <==> old(UserById(KeyOfUser(a).value.v)).Some?)
      ensures r.Ok? && KeyOfUser(a).value.Itself? ==> !r.value
      ensures !(r.Ok? && r.value) ==> users == old(users)
      ensures r.Ok? && r.value ==> (exists i ::
                                     0 <= i < |old(users)| && old(users)[i].id == KeyOfUser(a).value.v
                                     && users == RemoveAt(old(users), i))
      ensures r.Ok? && r.value ==> var v := KeyOfUser(a).value.v;
        0 <= FirstUser(old(users), v) && users == RemoveAt(old(users), FirstUser(old(users), v))
      ensures old(Valid()) && r.Ok? && KeyOfUser(a).value.Id? ==> UserById(KeyOfUser(a).value.v).None?
      ensures channels == old(channels)
      ensures old(Valid()) ==> Valid()
    {
      var key := KeyOfUser(a);
      if key.Throw? {
        return Throw(key.error);
      }
      if key.value.Itself? {
        return Ok(false);
      }
      var removed := RemoveId(key.value.v);
      r := Ok(removed);
    }

    /** The removal `User.unauthenticate` performs once it has the key `v`. */
    method RemoveId(v: Value) returns (removed: bool)
      modifies this
      ensures removed <==> old(UserById(v)).Some?
      ensures removed ==> (exists i ::
                            0 <= i < |old(users)| && old(users)[i].id == v
                            && users == RemoveAt(old(users), i))
      ensures removed ==> 0 <= FirstUser(old(users), v) && users == RemoveAt(old(users), FirstUser(old(users), v))
      ensures !removed ==> users == old(users)
      ensures old(Valid()) ==> Valid() && UserById(v).None?
      ensures channels == old(channels)
    {
      var i := FirstUser(users, v);
      if i >= 0 {
        if Valid() {
          RemoveUserAt(users, i);
        }
        users := RemoveAt(users, i);
      }
      removed := i >= 0;
    }

    /** `user.join(channel)`: adds the user's id to the open channel the
        argument designates, if there is one; reports whether membership changed. */
    method Join(u: User, a: ChannelArg) returns (r: Result<bool>)
      modifies set c | c in channels
      ensures r.Throw? <==> a.NoChannel?
      ensures r.Ok? ==> (r.value <==> old(Target(a)).Some? && u.id !in old(Target(a).value.members))
      ensures Target(a).Some? && r.Ok? ==> (Target(a).value.members ==
        if r.value then old(Target(a).value.members) + [u.id] else old(Target(a).value.members))
      ensures forall c :: c in channels && Target(a) != Some(c) ==> c.members == old(c.members)
      ensures r.Throw? ==> forall c :: c in channels ==> c.members == old(c.members)
    {
      if a.NoChannel? {
        return Throw(TypeError);
      }
      var t := Target(a);
      var joined := false;
      if t.Some? {
        joined := t.value.AddMember(u.id);
      }
      r := Ok(joined);
    }

    /** `user.leave(channel)`: removes the user's id from the open channel the
        argument designates, if there is one; reports whether membership changed. */
    method Leave(u: User, a: ChannelArg) returns (r: Result<bool>)
      modifies set c | c in channels
      ensures r.Throw? <==> a.NoChannel?
      ensures r.Ok? ==> (r.value <==> old(Target(a)).Some? && u.id in old(Target(a).value.members))
      ensures Target(a).Some? && r.Ok? && r.value ==> (Target(a).value.members ==
        RemoveAt(old(Target(a).value.members), IndexOf(old(Target(a).value.members), u.id)))
      ensures Target(a).Some? && old(NoDup(Target(a).value.members)) ==> (NoDup(Target(a).value.members)
        && (r.Ok? ==> u.id !in Target(a).value.members))
      ensures forall c :: c in channels && (Target(a) != Some(c) || !(r.Ok? && r.value)) ==> c.members == old(c.members)
    {
      if a.NoChannel? {
        return Throw(TypeError);
      }
      var t := Target(a);
      var left := false;
      if t.Some? {
        left := t.value.RemoveMember(u.id);
      }
      r := Ok(left);
    }

    /** `user.isMemberOf(channel)` as written: the body reads an undeclared
        `id`, so it throws whenever the designated channel is open. */
    function IsMemberOfAsWritten(u: User, a: ChannelArg): (r: Result<bool>)
      reads this
      ensures a.NoChannel? || Target(a).Some? <==> r.Throw?
      ensures Target(a).Some? ==> r == Throw(ReferenceError("id"))
    {
      if a.NoChannel? then Throw(TypeError)
      else if Target(a).None? then Ok(false)
      else Throw(ReferenceError("id"))
    }

    /** `isMemberOf` as intended: the designated open channel lists the user's id. */
    function IsMemberOf(u: User, a: ChannelArg): (r: Result<bool>)
      reads this, set c | c in channels
      ensures r.Throw? <==> a.NoChannel?
      ensures r.Ok? ==> (r.value <==> Target(a).Some? && u.id in Target(a).value.members)
    {
      if a.NoChannel? then Throw(TypeError)
      else
        var t := Target(a);
        Ok(t.Some? && t.value.HasMember(u.id))
    }
  }

  /** A user's id in any open channel that `isMemberOf` as written checks makes it throw. */
  lemma IsMemberOfAsWrittenThrowsForMembers(reg: Registry, u: User, c: Channel)
    requires c in reg.channels && Truthy(c.id) && reg.Valid()
    ensures reg.IsMemberOfAsWritten(u, AChannel(c)) == Throw(ReferenceError("id"))
    ensures reg.IsMemberOf(u, AChannel(c)) == Ok(u.id in c.members)
  {
    var i :| 0 <= i < |reg.channels| && reg.channels[i] == c;
    var t := reg.ChannelById(c.id);
    assert t.Some?;
    assert t.value == c;
  }
}
