/**
 The client's connection: its lifecycle, and the numbers that fence each attempt off from transport
 events of earlier ones. Callbacks may disconnect but not connect; which of them do is an arbitrary
 function of how many there have been.
 */
module Connection {
  import opened Common

  datatype Lifecycle =
    | Disconnected
    | Connecting(id: nat, hasTransport: bool)
    | Connected(id: nat, handshakePending: bool)

  datatype Settlement = Pending | Resolved | Rejected

  /** Server messages by what the connection does with them; `foreign` is a hello from another server. */
  datatype Incoming = Hello(foreign: bool) | HelloError | Other(body: nat)

  /** Callbacks, tagged with the attempt they belong to. */
  datatype Notice =
    | OnConnecting(id: nat)
    | OnHandshake(id: nat)
    | OnConnected(id: nat)
    | OnDisconnected(id: nat)
    | OnMessage(id: nat, body: nat)

  /** A reader of the notices. */
  datatype Phase = Off(last: nat) | Trying(id: nat) | Greeted(id: nat) | On(id: nat) | Broken

  function Read(p: Phase, n: Notice): Phase {
    match p
    case Off(last) => if n == OnConnecting(last + 1) then Trying(last + 1) else Broken
    case Trying(id) => if n == OnHandshake(id) then Greeted(id) else if n == OnDisconnected(id) then Off(id) else Broken
    case Greeted(id) => if n == OnConnected(id) then On(id) else if n == OnDisconnected(id) then Off(id) else Broken
    case On(id) => if n.OnMessage? && n.id == id then On(id) else if n == OnDisconnected(id) then Off(id) else Broken
    case Broken => Broken
  }

  function ReadAll(log: seq<Notice>): Phase {
    if log == [] then Off(0) else Read(ReadAll(log[..|log| - 1]), log[|log| - 1])
  }

  lemma ReadOn(log: seq<Notice>, n: Notice)
    ensures ReadAll(log + [n]) == Read(ReadAll(log), n)
  {
    assert (log + [n])[..|log|] == log;
  }

  /** A message notice comes after its attempt's handshake and connected notices, with no disconnect notice between. */
  lemma {:induction false} MessagesWhileOn(log: seq<Notice>, i: nat) returns (h: nat)
    requires !ReadAll(log).Broken? && i < |log| && log[i].OnMessage?
    ensures h < i && log[h] == OnHandshake(log[i].id)
    ensures forall k :: h < k < i ==> (log[k].OnConnected? || log[k].OnMessage?) && log[k].id == log[i].id
  {
    UnbrokenPrefix(log, i + 1);
    assert log[..i + 1] == log[..i] + [log[i]];
    ReadOn(log[..i], log[i]);
    h := HandshakeBefore(log[..i]);
  }

  lemma {:induction false} UnbrokenPrefix(log: seq<Notice>, n: nat)
    requires n <= |log| && !ReadAll(log).Broken?
    ensures !ReadAll(log[..n]).Broken?
    decreases |log|
  {
    if n < |log| {
      assert log[..|log| - 1][..n] == log[..n];
      UnbrokenPrefix(log[..|log| - 1], n);
    } else {
      assert log[..n] == log;
    }
  }

  lemma {:induction false} HandshakeBefore(log: seq<Notice>) returns (h: nat)
    requires ReadAll(log).On? || ReadAll(log).Greeted?
    ensures var id := ReadAll(log).id;
      && h < |log| && log[h] == OnHandshake(id)
      && forall k :: h < k < |log| ==> (log[k].OnConnected? || log[k].OnMessage?) && log[k].id == id
    decreases |log|
  {
    var last := |log| - 1;
    if log[last].OnHandshake? {
      h := last;
    } else {
      h := HandshakeBefore(log[..last]);
    }
  }

  // ---------------------------------------------------------------- what a chunk's messages lead to

  /** What becomes of an attempt and of its promise if that is still pending, and the callbacks on the way. */
  datatype Course = Course(after: Lifecycle, promise: Settlement, notices: seq<Notice>)

  function Ends(id: nat): Course { Course(Disconnected, Rejected, [OnDisconnected(id)]) }

  function Then(a: Course, b: Course): Course {
    Course(b.after, if a.promise.Pending? then b.promise else a.promise, a.notices + b.notices)
  }

  /** `calls` callbacks have been made before; `disconnects` tells which of them give the connection up. */
  function OfMessage(disconnects: nat -> bool, calls: nat, at: Lifecycle, m: Incoming): Course
    requires !at.Disconnected?
  {
    match at
    case Connecting(id, hasTransport) =>
      if !m.Hello? || m.foreign || !hasTransport then Ends(id)
      else if disconnects(calls) then Course(Disconnected, Rejected, [OnHandshake(id), OnDisconnected(id)])
      else if disconnects(calls + 1) then Course(Disconnected, Rejected,
          [OnHandshake(id), OnConnected(id), OnDisconnected(id)])
      else Course(Connected(id, false), Resolved, [OnHandshake(id), OnConnected(id)])
    case Connected(id, _) =>
      if !m.Other? then Ends(id)
      else if disconnects(calls) then Course(Disconnected, Rejected, [OnMessage(id, m.body), OnDisconnected(id)])
      else Course(at, Pending, [OnMessage(id, m.body)])
  }

  function OfMessages(disconnects: nat -> bool, calls: nat, at: Lifecycle, ms: seq<Incoming>): Course {
    if ms == [] then Course(at, Pending, [])
    else
      var before := OfMessages(disconnects, calls, at, ms[..|ms| - 1]);
      if before.after.Disconnected? then before
      else Then(before, OfMessage(disconnects, calls + |before.notices|, before.after, ms[|ms| - 1]))
  }

  /** The messages passed on. */
  function Heard(ns: seq<Notice>): seq<nat> {
    if ns == [] then []
    else Heard(ns[..|ns| - 1]) + if ns[|ns| - 1].OnMessage? then [ns[|ns| - 1].body] else []
  }

  function Bodies(ms: seq<Incoming>): seq<nat> {
    if ms == [] then []
    else Bodies(ms[..|ms| - 1]) + BodyOf(ms[|ms| - 1])
  }

  function BodyOf(m: Incoming): seq<nat> { if m.Other? then [m.body] else [] }

  lemma {:induction false} HeardAppend(a: seq<Notice>, b: seq<Notice>)
    ensures Heard(a + b) == Heard(a) + Heard(b)
    decreases |b|
  {
    if b == [] {
      assert a + b == a;
    } else {
      assert (a + b)[..|a + b| - 1] == a + b[..|b| - 1];
      HeardAppend(a, b[..|b| - 1]);
    }
  }

  lemma HeardUpToThree(a: Notice, b: Notice, c: Notice)
    ensures Heard([a]) == Heard([]) + if a.OnMessage? then [a.body] else []
    ensures Heard([a, b]) == Heard([a]) + if b.OnMessage? then [b.body] else []
    ensures Heard([a, b, c]) == Heard([a, b]) + if c.OnMessage? then [c.body] else []
  {
    assert [a][..0] == [] && [a, b][..1] == [a] && [a, b, c][..2] == [a, b];
  }

  /** What is passed on of one message. */
  lemma OneHeard(disconnects: nat -> bool, calls: nat, at: Lifecycle, m: Incoming)
    requires !at.Disconnected?
    ensures Heard(OfMessage(disconnects, calls, at, m).notices) == if at.Connecting? then [] else BodyOf(m)
  {
    var id := at.id;
    assert Heard([]) == [];
    HeardUpToThree(OnHandshake(id), OnConnected(id), OnDisconnected(id));
    HeardUpToThree(OnHandshake(id), OnDisconnected(id), OnDisconnected(id));
    HeardUpToThree(OnDisconnected(id), OnDisconnected(id), OnDisconnected(id));
    if m.Other? { HeardUpToThree(OnMessage(id, m.body), OnDisconnected(id), OnDisconnected(id)); }
    hide Heard;
  }

  /** One message is passed on, or is the handshake, or ends the attempt. */
  lemma HeardOne(disconnects: nat -> bool, calls: nat, at: Lifecycle, m: Incoming)
    requires !at.Disconnected?
    ensures var c := OfMessage(disconnects, calls, at, m);
      (c.after.Disconnected? && Heard(c.notices) == []) || Heard(c.notices) == BodyOf(m)
  {
    OneHeard(disconnects, calls, at, m);
    hide Heard;
  }

  lemma BodiesSnoc(ms: seq<Incoming>, m: Incoming)
    ensures Bodies(ms + [m]) == Bodies(ms) + BodyOf(m)
  {
    hide BodyOf;
    assert (ms + [m])[..|ms|] == ms;
  }

  lemma MessagesSnoc(disconnects: nat -> bool, calls: nat, at: Lifecycle, ms: seq<Incoming>, m: Incoming)
    ensures var before := OfMessages(disconnects, calls, at, ms);
      OfMessages(disconnects, calls, at, ms + [m]) ==
        if before.after.Disconnected? then before
        else Then(before, OfMessage(disconnects, calls + |before.notices|, before.after, m))
  {
    hide OfMessage, Then;
    assert (ms + [m])[..|ms|] == ms;
  }

  lemma PrefixMore(a: seq<nat>, b: seq<nat>, c: seq<nat>)
    requires a <= b
    ensures a <= b + c
  {
  }

  /** The messages passed on are the first of the chunk's in their order, and all of them while the connection stays. */
  predicate InOrder(c: Course, ms: seq<Incoming>) {
    Heard(c.notices) <= Bodies(ms) && (!c.after.Disconnected? ==> Heard(c.notices) == Bodies(ms))
  }

  lemma {:induction false} HeardInOrder(disconnects: nat -> bool, calls: nat, at: Lifecycle, ms: seq<Incoming>)
    requires !at.Disconnected?
    ensures InOrder(OfMessages(disconnects, calls, at, ms), ms)
    decreases |ms|
  {
    hide *;
    if ms == [] {
      HeardNothing(disconnects, calls, at);
    } else {
      var last := |ms| - 1;
      HeardInOrder(disconnects, calls, at, ms[..last]);
      HeardNext(disconnects, calls, at, ms[..last], ms[last]);
      assert ms[..last] + [ms[last]] == ms;
    }
  }

  lemma HeardNothing(disconnects: nat -> bool, calls: nat, at: Lifecycle)
    ensures InOrder(OfMessages(disconnects, calls, at, []), [])
  {
  }

  lemma HeardNext(disconnects: nat -> bool, calls: nat, at: Lifecycle, ms: seq<Incoming>, m: Incoming)
    requires InOrder(OfMessages(disconnects, calls, at, ms), ms)
    ensures InOrder(OfMessages(disconnects, calls, at, ms + [m]), ms + [m])
  {
    BodiesSnoc(ms, m);
    MessagesSnoc(disconnects, calls, at, ms, m);
    var before := OfMessages(disconnects, calls, at, ms);
    hide OfMessages, OfMessage, Heard, Bodies, BodyOf, Then;
    if before.after.Disconnected? {
      PrefixMore(Heard(before.notices), Bodies(ms), BodyOf(m));
    } else {
      HeardOne(disconnects, calls + |before.notices|, before.after, m);
      HeardThen(before, OfMessage(disconnects, calls + |before.notices|, before.after, m), Bodies(ms), BodyOf(m));
    }
  }

  lemma HeardThen(a: Course, b: Course, told: seq<nat>, more: seq<nat>)
    requires Heard(a.notices) == told && ((b.after.Disconnected? && Heard(b.notices) == []) || Heard(b.notices) == more)
    ensures var c := Then(a, b); Heard(c.notices) <= told + more && (!c.after.Disconnected? ==>
      Heard(c.notices) == told + more)
  {
    HeardAppend(a.notices, b.notices);
    hide Heard;
  }

  // ---------------------------------------------------------------- what a chunk comes to

  /** Nothing but messages to pass on, and no callback gives the connection up. */
  predicate Calm(disconnects: nat -> bool, calls: nat, ms: seq<Incoming>) {
    forall i: nat :: i < |ms| ==> ms[i].Other? && !disconnects(calls + i)
  }

  /** This server's hello comes first, and neither of its callbacks gives the connection up. */
  predicate Welcomed(disconnects: nat -> bool, calls: nat, ms: seq<Incoming>) {
    ms != [] && ms[0] == Hello(false) && !disconnects(calls) && !disconnects(calls + 1)
  }

  predicate Survives(disconnects: nat -> bool, calls: nat, at: Lifecycle, ms: seq<Incoming>)
    requires !at.Disconnected?
  {
    if at.Connected? then Calm(disconnects, calls, ms)
    else ms == [] || (at.hasTransport && Welcomed(disconnects, calls, ms) && Calm(disconnects, calls + 2, ms[1..]))
  }

  /** What an attempt that survives has become. */
  predicate HasCome(c: Course, at: Lifecycle, ms: seq<Incoming>)
    requires !at.Disconnected?
  {
    var established := at.Connecting? && ms != [];
    && c.after == (if established then Connected(at.id, false) else at)
    && c.promise == (if established then Resolved else Pending)
    && |c.notices| == |ms| + (if established then 1 else 0)
    && Heard(c.notices) == Bodies(ms)
  }

  /** What one that has ended leaves: all messages up to the one that ended it have been passed on. */
  predicate HasGone(c: Course, at: Lifecycle, ms: seq<Incoming>, n: nat, welcomed: bool)
    requires 0 < n <= |ms|
  {
    && c.after.Disconnected? && c.promise == (if at.Connecting? && welcomed then Resolved else Rejected)
    && c.notices != [] && c.notices[|c.notices| - 1].OnDisconnected?
    && Heard(c.notices) == if at.Connecting? && n == 1 then [] else Bodies(ms[..n])
  }

  ghost predicate Decided(disconnects: nat -> bool, calls: nat, at: Lifecycle, ms: seq<Incoming>, c: Course, n: nat)
    requires !at.Disconnected?
  {
    && n <= |ms|
    && if Survives(disconnects, calls, at, ms) then HasCome(c, at, ms)
       else
         && 0 < n && Survives(disconnects, calls, at, ms[..n - 1]) && !Survives(disconnects, calls, at, ms[..n])
         && HasGone(c, at, ms, n, Welcomed(disconnects, calls, ms))
  }

  /**
   A connection survives a chunk if and only if it consists of messages to pass on, behind this server's hello while
   connecting, and no callback disconnects. Otherwise it ends with the first message that breaks this rule. The promise
   resolves if and only if the hello established the connection, whatever came later.
   */
  lemma {:induction false} ChunkDecides(disconnects: nat -> bool, calls: nat, at: Lifecycle, ms: seq<Incoming>)
      returns (n: nat)
    requires !at.Disconnected? && (at.Connecting? ==> at.hasTransport)
    ensures Decided(disconnects, calls, at, ms, OfMessages(disconnects, calls, at, ms), n)
    decreases |ms|
  {
    hide OfMessages, Decided;
    if ms == [] {
      n := 0;
      NothingDecides(disconnects, calls, at);
    } else {
      var init, m := ms[..|ms| - 1], ms[|ms| - 1];
      assert ms == init + [m];
      n := ChunkDecides(disconnects, calls, at, init);
      MessagesSnoc(disconnects, calls, at, init, m);
      n := NextDecides(disconnects, calls, at, init, m, OfMessages(disconnects, calls, at, init), n);
    }
  }

  lemma NothingDecides(disconnects: nat -> bool, calls: nat, at: Lifecycle)
    requires !at.Disconnected?
    ensures Decided(disconnects, calls, at, [], OfMessages(disconnects, calls, at, []), 0)
  {
  }

  lemma EndedStays(disconnects: nat -> bool, calls: nat, at: Lifecycle, ms: seq<Incoming>, m: Incoming, n: nat,
      c: Course)
    requires !at.Disconnected? && 0 < n <= |ms| && !Survives(disconnects, calls, at, ms)
    requires HasGone(c, at, ms, n, Welcomed(disconnects, calls, ms))
    ensures c.after.Disconnected? && HasGone(c, at, ms + [m], n, Welcomed(disconnects, calls, ms + [m]))
    ensures !Survives(disconnects, calls, at, ms + [m])
  {
    hide Heard, Bodies;
    assert (ms + [m])[..n] == ms[..n];
    if at.Connecting? { assert (ms + [m])[1..] == ms[1..] + [m]; }
    if ms[0] == Hello(false) { CalmParts(disconnects, calls + 2, ms[1..], m); }
    CalmParts(disconnects, calls, ms, m);
    hide Calm;
  }

  lemma CalmParts(disconnects: nat -> bool, calls: nat, ms: seq<Incoming>, m: Incoming)
    ensures Calm(disconnects, calls, ms + [m]) <==>
      Calm(disconnects, calls, ms) && m.Other? && !disconnects(calls + |ms|)
  {
    if Calm(disconnects, calls, ms + [m]) {
      assert (ms + [m])[|ms|] == m;
      forall i: nat | i < |ms| ensures ms[i].Other? && !disconnects(calls + i) { assert (ms + [m])[i] == ms[i]; }
    }
  }

  /** The next message of a chunk. */
  lemma NextDecides(disconnects: nat -> bool, calls: nat, at: Lifecycle, ms: seq<Incoming>, m: Incoming,
      before: Course, n: nat) returns (k: nat)
    requires !at.Disconnected? && (at.Connecting? ==> at.hasTransport)
    requires Decided(disconnects, calls, at, ms, before, n)
    ensures var c := if before.after.Disconnected? then before
        else Then(before, OfMessage(disconnects, calls + |before.notices|, before.after, m));
      Decided(disconnects, calls, at, ms + [m], c, k)
  {
    hide Survives, HasCome, HasGone, Welcomed, Then, OfMessage;
    if Survives(disconnects, calls, at, ms) {
      k := |ms| + 1;
      assert (ms + [m])[..k] == ms + [m] && (ms + [m])[..k - 1] == ms;
      CameOn(before, at, ms);
      if at.Connecting? && ms == [] {
        FirstDecides(disconnects, calls, at, m, before);
        assert ms + [m] == [m];
      } else {
        LaterDecides(disconnects, calls, at, ms, m, before);
      }
    } else {
      k := n;
      assert ms[..n] == (ms + [m])[..n] && ms[..n - 1] == (ms + [m])[..n - 1];
      EndedStays(disconnects, calls, at, ms, m, n, before);
    }
  }

  lemma CameOn(c: Course, at: Lifecycle, ms: seq<Incoming>)
    requires !at.Disconnected? && HasCome(c, at, ms)
    ensures !c.after.Disconnected?
  {
  }

  lemma FirstDecides(disconnects: nat -> bool, calls: nat, at: Lifecycle, m: Incoming, before: Course)
    requires at.Connecting? && at.hasTransport && HasCome(before, at, [])
    ensures var c := Then(before, OfMessage(disconnects, calls + |before.notices|, before.after, m));
      if Survives(disconnects, calls, at, [m]) then HasCome(c, at, [m])
      else HasGone(c, at, [m], 1, Welcomed(disconnects, calls, [m]))
  {
    FirstSurvives(disconnects, calls, at, m);
    var one := OfMessage(disconnects, calls, at, m);
    OneHeard(disconnects, calls, at, m);
    hide Heard, Bodies, Survives;
    assert before.notices + one.notices == one.notices;
  }

  lemma LaterDecides(disconnects: nat -> bool, calls: nat, at: Lifecycle, ms: seq<Incoming>, m: Incoming,
      before: Course)
    requires !at.Disconnected? && (at.Connecting? ==> at.hasTransport && ms != [])
    requires Survives(disconnects, calls, at, ms) && HasCome(before, at, ms)
    ensures var c := Then(before, OfMessage(disconnects, calls + |before.notices|, before.after, m));
      if Survives(disconnects, calls, at, ms + [m]) then HasCome(c, at, ms + [m])
      else HasGone(c, at, ms + [m], |ms| + 1, Welcomed(disconnects, calls, ms + [m]))
  {
    hide Heard, Bodies, Survives, Welcomed, BodyOf, OfMessage;
    LaterSurvives(disconnects, calls, at, ms, m);
    BodiesSnoc(ms, m);
    var one := OfMessage(disconnects, calls + |before.notices|, before.after, m);
    PassedOnOrOver(disconnects, calls + |before.notices|, before.after, m);
    OneHeard(disconnects, calls + |before.notices|, before.after, m);
    HeardAppend(before.notices, one.notices);
    assert (ms + [m])[..|ms| + 1] == ms + [m];
  }

  /** One more message for an established connection. */
  lemma PassedOnOrOver(disconnects: nat -> bool, calls: nat, at: Lifecycle, m: Incoming)
    requires at.Connected?
    ensures var c := OfMessage(disconnects, calls, at, m);
      if m.Other? && !disconnects(calls) then c.after == at && c.promise.Pending? && |c.notices| == 1
      else
        && c.after.Disconnected? && c.promise.Rejected?
        && c.notices != [] && c.notices[|c.notices| - 1].OnDisconnected?
  {
  }

  lemma FirstSurvives(disconnects: nat -> bool, calls: nat, at: Lifecycle, m: Incoming)
    requires at.Connecting? && at.hasTransport
    ensures Survives(disconnects, calls, at, [m]) <==> Welcomed(disconnects, calls, [m])
    ensures Bodies([m]) == BodyOf(m)
  {
    BodiesSnoc([], m);
    assert [] + [m] == [m];
  }

  lemma LaterSurvives(disconnects: nat -> bool, calls: nat, at: Lifecycle, ms: seq<Incoming>, m: Incoming)
    requires !at.Disconnected? && (at.Connecting? ==> at.hasTransport && ms != [])
    requires Survives(disconnects, calls, at, ms)
    ensures Survives(disconnects, calls, at, ms + [m]) <==>
      m.Other? && !disconnects(calls + |ms| + if at.Connecting? then 1 else 0)
    ensures at.Connecting? ==> Welcomed(disconnects, calls, ms + [m])
  {
    CalmParts(disconnects, calls, ms, m);
    if at.Connecting? {
      assert (ms + [m])[1..] == ms[1..] + [m];
      CalmParts(disconnects, calls + 2, ms[1..], m);
    }
    hide Calm;
  }

  class Connection {
    var lifecycle: Lifecycle
    var sequence: nat
    var callbacks: nat
    const disconnects: nat -> bool
    ghost var handshakes: map<nat, Settlement>
    ghost var log: seq<Notice>

    /**
     The lifecycle and the notices tell the same story, and each attempt's promise is pending only while it is being
     made.
     */
    ghost predicate Consistent()
      reads this
    {
      && (forall i :: i in handshakes <==> 1 <= i <= sequence)
      && (forall i :: i in handshakes && handshakes[i].Pending? ==> IsCurrent(i))
      && match lifecycle
         case Disconnected => ReadAll(log) == Off(sequence)
         case Connecting(id, _) => id == sequence > 0 && ReadAll(log) == Trying(id) && handshakes[id].Pending?
         case Connected(id, pending) =>
           && id == sequence > 0
           && handshakes[id] == (if pending then Pending else Resolved)
           && (!pending ==> ReadAll(log) == On(id))
    }

    /** Between events: an established attempt's promise has been resolved. */
    ghost predicate Valid()
      reads this
    {
      Consistent() && (lifecycle.Connected? ==> !lifecycle.handshakePending)
    }

    predicate IsCurrent(id: nat)
      reads this`lifecycle
    {
      !lifecycle.Disconnected? && lifecycle.id == id
    }

    /** Promises are only added, and once settled stay as they are. */
    twostate predicate Settling()
      reads this
    {
      && old(sequence) <= sequence
      && (forall i :: i in old(handshakes) ==> i in handshakes && (!old(handshakes)[i].Pending? ==>
          handshakes[i] == old(handshakes)[i]))
    }

    constructor (disconnects: nat -> bool)
      ensures Valid() && lifecycle.Disconnected? && log == []
    {
      this.disconnects := disconnects;
      lifecycle, sequence, callbacks, handshakes, log := Disconnected, 0, 0, map[], [];
    }

    /** The attempt has taken this course, and its promise has settled with it. */
    twostate predicate Took(c: Course)
      reads this
    {
      && Settling() && sequence == old(sequence) && handshakes.Keys == old(handshakes).Keys
      && lifecycle == c.after && log == old(log) + c.notices && callbacks == old(callbacks) + |c.notices|
      && (forall i :: i in handshakes && old(handshakes)[i].Pending? ==> handshakes[i] == c.promise)
    }

    twostate predicate Unchanged()
      reads this
    {
      && lifecycle == old(lifecycle) && log == old(log) && callbacks == old(callbacks)
      && handshakes == old(handshakes) && sequence == old(sequence)
    }

    /** Calls back; whether the callback disconnects is its own affair. */
    method Notify(n: Notice) returns (disconnect: bool)
      modifies this`log, this`callbacks
      ensures log == old(log) + [n] && ReadAll(log) == Read(old(ReadAll(log)), n)
      ensures disconnect == disconnects(old(callbacks)) && callbacks == old(callbacks) + 1
    {
      ReadOn(log, n);
      log := log + [n];
      disconnect := disconnects(callbacks);
      callbacks := callbacks + 1;
    }

    /**
     `#fail`: the lifecycle goes first, then the promise, then the notice; a callback's `disconnect` finds nothing left
     to do.
     */
    method Fail()
      requires Consistent() && (lifecycle.Connected? ==>
        !ReadAll(log).Broken? && !ReadAll(log).Off? && ReadAll(log).id == lifecycle.id)
      modifies this
      ensures Valid()
      ensures old(lifecycle).Disconnected? ==> Unchanged()
      ensures !old(lifecycle).Disconnected? ==> Took(Ends(old(lifecycle).id))
    {
      hide ReadAll;
      if lifecycle.Disconnected? { return; }
      var id := lifecycle.id;
      lifecycle := Disconnected;
      if handshakes[id].Pending? { handshakes := handshakes[id := Rejected]; }
      var _ := Notify(OnDisconnected(id));
    }

    method Disconnect()
      requires Valid()
      modifies this
      ensures Valid()
      ensures old(lifecycle).Disconnected? ==> Unchanged()
      ensures !old(lifecycle).Disconnected? ==> Took(Ends(old(lifecycle).id))
    {
      Fail();
    }

    /** Every attempt gets a number of its own; the first callback may already give it up. */
    method Connect() returns (id: Option<nat>)
      requires Valid()
      modifies this
      ensures Valid() && Settling()
      ensures id.Some? <==> old(lifecycle).Disconnected?
      ensures id.Some? ==> id.value == sequence == old(sequence) + 1 && id.value !in old(handshakes)
      ensures id.Some? ==>
        if disconnects(old(callbacks)) then
          && lifecycle.Disconnected? && handshakes == old(handshakes)[sequence := Rejected]
          && log == old(log) + [OnConnecting(sequence), OnDisconnected(sequence)]
        else
          && lifecycle == Connecting(sequence, false) && handshakes == old(handshakes)[sequence := Pending]
          && log == old(log) + [OnConnecting(sequence)]
      ensures id.None? ==> Unchanged()
    {
      hide ReadAll;
      if !lifecycle.Disconnected? { return None; }
      sequence := sequence + 1;
      id := Some(sequence);
      lifecycle := Connecting(sequence, false);
      handshakes := handshakes[sequence := Pending];
      var disconnect := Notify(OnConnecting(sequence));
      if disconnect { Fail(); }
    }

    /** The factory has answered; a transport for an attempt no longer being made is closed and forgotten. */
    method TransportOpened(id: nat, ok: bool)
      requires Valid()
      modifies this
      ensures Valid()
      ensures !old(IsCurrent(id)) ==> Unchanged()
      ensures old(IsCurrent(id)) && !ok ==> Took(Ends(id))
      ensures old(IsCurrent(id)) && ok ==> Took(Course(if old(lifecycle).Connecting? then Connecting(id, true)
        else old(lifecycle), Pending, []))
    {
      if !ok {
        if IsCurrent(id) { Fail(); }
        return;
      }
      if !lifecycle.Connecting? || lifecycle.id != id { return; }
      lifecycle := Connecting(id, true);
    }

    /**
     Sending the hello failed, the transport closed, or it reported an error: all end the attempt they belong to, and
     no other.
     */
    method TransportEnded(id: nat)
      requires Valid()
      modifies this
      ensures Valid()
      ensures !old(IsCurrent(id)) ==> Unchanged()
      ensures old(IsCurrent(id)) ==> Took(Ends(id))
    {
      if IsCurrent(id) { Fail(); }
    }

    /** A chunk, as the messages its decoder made of it, or none if it rejected the stream. */
    method HandleData(id: nat, decoded: Option<seq<Incoming>>)
      requires Valid()
      modifies this
      ensures Valid()
      ensures !old(IsCurrent(id)) ==> Unchanged()
      ensures old(IsCurrent(id)) ==>
        var early := old(lifecycle).Connecting? && !old(lifecycle).hasTransport;
        if early || decoded.None? then Took(Ends(id))
        else
          && Took(OfMessages(disconnects, old(callbacks), old(lifecycle), decoded.value))
          && (!lifecycle.Disconnected? <==> Survives(disconnects, old(callbacks), old(lifecycle), decoded.value))
    {
      if lifecycle.Disconnected? || lifecycle.id != id { return; }
      if lifecycle.Connecting? && !lifecycle.hasTransport {
        Fail();
        return;
      }
      if decoded.None? {
        Fail();
        return;
      }
      ghost var _ := ChunkDecides(disconnects, callbacks, lifecycle, decoded.value);
      HandleMessages(decoded.value);
    }

    method HandleMessages(ms: seq<Incoming>)
      requires Valid()
      modifies this
      ensures Valid() && Took(OfMessages(disconnects, old(callbacks), old(lifecycle), ms))
    {
      hide OfMessage, OfMessages, ReadAll;
      NoMessages(disconnects, callbacks, lifecycle);
      ghost var at, calls := lifecycle, callbacks;
      var i := 0;
      while i < |ms|
        invariant 0 <= i <= |ms|
        invariant Valid() && Took(OfMessages(disconnects, calls, at, ms[..i]))
      {
        if lifecycle.Disconnected? {
          GoneStays(disconnects, calls, at, ms, i);
          return;
        }
        ghost var before := OfMessages(disconnects, calls, at, ms[..i]);
        label Before:
        HandleMessage(ms[i]);
        Twice(before, OfMessage(disconnects, calls + |before.notices|, before.after, ms[i]), old(log), old@Before(log),
            log);
        assert ms[..i + 1] == ms[..i] + [ms[i]];
        MessagesSnoc(disconnects, calls, at, ms[..i], ms[i]);
        i := i + 1;
      }
      assert ms[..i] == ms;
    }

    method HandleMessage(m: Incoming)
      requires Valid() && !lifecycle.Disconnected?
      modifies this
      ensures Valid() && Took(OfMessage(disconnects, old(callbacks), old(lifecycle), m))
    {
      hide ReadAll;
      if lifecycle.Connecting? {
        if !m.Hello? || m.foreign || !lifecycle.hasTransport {
          Fail();
        } else {
          Establish(lifecycle.id);
        }
        return;
      }
      if !m.Other? {
        Fail();
        return;
      }
      var disconnect := Notify(OnMessage(lifecycle.id, m.body));
      if disconnect { Fail(); }
    }

    /** The hello: connected first, then the callbacks, and the promise only if neither gave the connection up. */
    method Establish(id: nat)
      requires Consistent() && lifecycle == Connecting(id, true)
      modifies this
      ensures Valid() && Took(OfMessage(disconnects, old(callbacks), old(lifecycle), Hello(false)))
    {
      hide ReadAll;
      lifecycle := Connected(id, true);
      var disconnect := Notify(OnHandshake(id));
      if disconnect { Fail(); }
      if !lifecycle.Connected? { return; }
      disconnect := Notify(OnConnected(id));
      if disconnect { Fail(); }
      if !lifecycle.Connected? { return; }
      lifecycle := Connected(id, false);
      handshakes := handshakes[id := Resolved];
    }
  }

  lemma Twice(a: Course, b: Course, first: seq<Notice>, middle: seq<Notice>, last: seq<Notice>)
    requires middle == first + a.notices && last == middle + b.notices
    ensures last == first + Then(a, b).notices
  {
  }

  lemma NoMessages(disconnects: nat -> bool, calls: nat, at: Lifecycle)
    ensures OfMessages(disconnects, calls, at, []) == Course(at, Pending, [])
  {
  }

  /** After the attempt has ended the chunk's remaining messages do nothing. */
  lemma {:induction false} GoneStays(disconnects: nat -> bool, calls: nat, at: Lifecycle, ms: seq<Incoming>, i: nat)
    requires i <= |ms| && OfMessages(disconnects, calls, at, ms[..i]).after.Disconnected?
    ensures OfMessages(disconnects, calls, at, ms) == OfMessages(disconnects, calls, at, ms[..i])
    decreases |ms|
  {
    if i == |ms| {
      assert ms[..i] == ms;
    } else {
      assert ms[..|ms| - 1][..i] == ms[..i];
      GoneStays(disconnects, calls, at, ms[..|ms| - 1], i);
    }
  }
}
