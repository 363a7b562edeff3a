/** The locks of the modem and its engines: the order in which they are taken, and why no threads can ever wait for each other in a circle. */
module LockOrder {

  /** A stream mutex (`MutexIn` or `MutexOut`), `MutexModemCallback`, a modem body's `Mutex`, `MutexModem`, or an engine's `Mutex`. */
  datatype Kind = Stream | Callback | Body | Modem | Engine

  datatype Lock = Lock(kind: Kind, id: nat)

  function Rank(l: Lock): (r: nat)
    ensures 1 <= r <= 5
  {
    match l.kind
    case Stream => 1
    case Callback => 2
    case Body => 3
    case Modem => 4
    case Engine => 5
  }

  /** A step of a thread; a try that finds the lock taken goes on with `otherwise`, to the end. */
  datatype Action = Acquire(lock: Lock) | Try(lock: Lock, otherwise: seq<Action>) | Release(lock: Lock)

  /** Every blocking acquire goes up the order, every release is of a lock held, and at the end none is held. */
  predicate Disciplined(held: set<Lock>, rest: seq<Action>)
    decreases rest
  {
    if rest == [] then held == {}
    else
      match rest[0]
      case Acquire(l) => (forall h :: h in held ==> Rank(h) < Rank(l)) && Disciplined(held + {l}, rest[1..])
      case Try(l, otherwise) => l !in held && Disciplined(held + {l}, rest[1..]) && Disciplined(held, otherwise)
      case Release(l) => l in held && Disciplined(held - {l}, rest[1..])
  }

  // ------------------------------------------------------------- what the threads do

  /** `ModemCallbackWithUnlock`, called with the engine's lock: the modem's handler takes its own lock. */
  function CallbackSteps(e: nat, m: nat): seq<Action> {
    [Release(Lock(Engine, e)), Acquire(Lock(Callback, e)), Acquire(Lock(Body, m)), Release(Lock(Body, m)),
     Release(Lock(Callback, e)), Acquire(Lock(Engine, e))]
  }

  function Callbacks(e: nat, m: nat, n: nat): seq<Action> { if n == 0 then [] else CallbackSteps(e, m) + Callbacks(e, m, n - 1) }

  /** A stay under the engine's lock, with `n` callbacks. */
  function Locked(e: nat, m: nat, n: nat): seq<Action> { [Acquire(Lock(Engine, e))] + Callbacks(e, m, n) + [Release(Lock(Engine, e))] }

  /** Several such stays, one after the other. */
  function Stays(e: nat, m: nat, callbacks: seq<nat>): seq<Action> {
    if callbacks == [] then [] else Locked(e, m, callbacks[0]) + Stays(e, m, callbacks[1..])
  }

  /** A call of the modem API: `SendStart`, `Recv` and the like. */
  function ModemCall(e: nat): seq<Action> {
    [Acquire(Lock(Modem, e)), Acquire(Lock(Engine, e)), Release(Lock(Engine, e)), Release(Lock(Modem, e))]
  }

  /** The modem's lock and an engine's modem lock, and then a try for its callback lock. */
  function TrySteps(e: nat, m: nat): seq<Action> {
    [Acquire(Lock(Body, m)), Acquire(Lock(Modem, e)),
     Try(Lock(Callback, e), [Release(Lock(Modem, e)), Release(Lock(Body, m))]),
     Acquire(Lock(Engine, e)), Release(Lock(Engine, e)), Release(Lock(Callback, e)), Release(Lock(Modem, e))]
  }

  datatype Operation =
    | EngineCall(e: nat, m: nat, callbacks: nat)              // OpenIn, CloseOut, EnableFakeIn, HandlePacket, ...
    | StreamCall(e: nat, m: nat, s: nat, stays: seq<nat>)     // PreparePacket, and the audio reads and writes
    | BodyCall(e: nat, m: nat)                                // a command of the modem that uses its engine
    | Attach(e: nat, m: nat)                                  // _AttachEngine
    | Detach(e: nat, m: nat)                                  // a turn of the loop of _DetachEngine
    | StatePost(e: nat, m: nat, callbacks: nat)               // CheckStatePost

  function Steps(op: Operation): seq<Action> {
    match op
    case EngineCall(e, m, n) => Locked(e, m, n)
    case StreamCall(e, m, s, callbacks) => [Acquire(Lock(Stream, s))] + Stays(e, m, callbacks) + [Release(Lock(Stream, s))]
    case BodyCall(e, m) => [Acquire(Lock(Body, m))] + ModemCall(e) + [Release(Lock(Body, m))]
    case Attach(e, m) => TrySteps(e, m) + ModemCall(e) + [Release(Lock(Body, m))]
    case Detach(e, m) => TrySteps(e, m) + [Release(Lock(Body, m))]
    case StatePost(e, m, n) =>
      [Acquire(Lock(Body, m)), Release(Lock(Body, m))] + Locked(e, m, n) + [Acquire(Lock(Body, m)), Release(Lock(Body, m))]
  }

  /** A part that gives back what it takes may stand before anything. */
  ghost predicate Part(held: set<Lock>, part: seq<Action>) {
    forall rest :: Disciplined(held, rest) ==> Disciplined(held, part + rest)
  }

  lemma PartThen(held: set<Lock>, a: seq<Action>, b: seq<Action>)
    requires Part(held, a) && Part(held, b)
    ensures Part(held, a + b)
  {
    forall rest | Disciplined(held, rest) ensures Disciplined(held, a + b + rest) {
      assert a + b + rest == a + (b + rest);
    }
  }

  /** An acquire that goes up, a part, and the release. */
  lemma PartUnder(held: set<Lock>, l: Lock, part: seq<Action>)
    requires (forall h :: h in held ==> Rank(h) < Rank(l)) && Part(held + {l}, part)
    ensures Part(held, [Acquire(l)] + part + [Release(l)])
  {
    forall rest | Disciplined(held, rest) ensures Disciplined(held, [Acquire(l)] + part + [Release(l)] + rest) {
      var after := [Release(l)] + rest;
      assert after[1..] == rest;
      assert held + {l} - {l} == held;
      assert Disciplined(held + {l}, after);
      var all := [Acquire(l)] + part + [Release(l)] + rest;
      assert all[1..] == part + after;
    }
  }

  lemma PartNone(held: set<Lock>)
    ensures Part(held, [])
  {
    forall rest | Disciplined(held, rest) ensures Disciplined(held, [] + rest) { assert [] + rest == rest; }
  }

  lemma PartEnd(part: seq<Action>)
    requires Part({}, part)
    ensures Disciplined({}, part)
  {
    assert part + [] == part;
    assert Disciplined({}, []);
  }

  /** The lock is given back, a part goes by without it, and it is taken again. */
  lemma PartBetween(held: set<Lock>, l: Lock, part: seq<Action>)
    requires l !in held && (forall h :: h in held ==> Rank(h) < Rank(l)) && Part(held, part)
    ensures Part(held + {l}, [Release(l)] + part + [Acquire(l)])
  {
    forall rest | Disciplined(held + {l}, rest) ensures Disciplined(held + {l}, [Release(l)] + part + [Acquire(l)] + rest) {
      var after := [Acquire(l)] + rest;
      assert after[1..] == rest;
      assert held + {l} - {l} == held;
      assert Disciplined(held, after);
      var all := [Release(l)] + part + [Acquire(l)] + rest;
      assert all[1..] == part + after;
    }
  }

  lemma {:induction false} CallbackPart(held: set<Lock>, e: nat, m: nat)
    requires forall h :: h in held ==> Rank(h) < 2
    ensures Part(held + {Lock(Engine, e)}, CallbackSteps(e, m))
  {
    var c, b := Lock(Callback, e), Lock(Body, m);
    PartNone(held + {c} + {b});
    PartUnder(held + {c}, b, []);
    PartUnder(held, c, [Acquire(b)] + [] + [Release(b)]);
    PartBetween(held, Lock(Engine, e), [Acquire(c)] + ([Acquire(b)] + [] + [Release(b)]) + [Release(c)]);
    hide Part;
    assert [Release(Lock(Engine, e))] + ([Acquire(c)] + ([Acquire(b)] + [] + [Release(b)]) + [Release(c)]) + [Acquire(Lock(Engine, e))]
        == CallbackSteps(e, m);
  }

  lemma {:induction false} CallbacksPart(held: set<Lock>, e: nat, m: nat, n: nat)
    requires forall h :: h in held ==> Rank(h) < 2
    ensures Part(held + {Lock(Engine, e)}, Callbacks(e, m, n))
  {
    hide Part;
    if n == 0 {
      PartNone(held + {Lock(Engine, e)});
    } else {
      CallbackPart(held, e, m);
      CallbacksPart(held, e, m, n - 1);
      PartThen(held + {Lock(Engine, e)}, CallbackSteps(e, m), Callbacks(e, m, n - 1));
    }
  }

  lemma LockedPart(held: set<Lock>, e: nat, m: nat, n: nat)
    requires forall h :: h in held ==> Rank(h) < 2
    ensures Part(held, Locked(e, m, n))
  {
    hide Part;
    CallbacksPart(held, e, m, n);
    PartUnder(held, Lock(Engine, e), Callbacks(e, m, n));
  }

  lemma {:induction false} StaysPart(held: set<Lock>, e: nat, m: nat, stays: seq<nat>)
    requires forall h :: h in held ==> Rank(h) < 2
    ensures Part(held, Stays(e, m, stays))
    decreases |stays|
  {
    hide Part;
    if stays == [] {
      PartNone(held);
    } else {
      LockedPart(held, e, m, stays[0]);
      StaysPart(held, e, m, stays[1..]);
      PartThen(held, Locked(e, m, stays[0]), Stays(e, m, stays[1..]));
    }
  }

  lemma ModemCallPart(held: set<Lock>, e: nat)
    requires forall h :: h in held ==> Rank(h) < 4
    ensures Part(held, ModemCall(e))
  {
    var d, g := Lock(Modem, e), Lock(Engine, e);
    PartNone(held + {d} + {g});
    PartUnder(held + {d}, g, []);
    PartUnder(held, d, [Acquire(g)] + [] + [Release(g)]);
    hide Part;
    assert [Acquire(d)] + ([Acquire(g)] + [] + [Release(g)]) + [Release(d)] == ModemCall(e);
  }

  lemma AcquireFirst(held: set<Lock>, l: Lock, rest: seq<Action>)
    requires (forall h :: h in held ==> Rank(h) < Rank(l)) && Disciplined(held + {l}, rest)
    ensures Disciplined(held, [Acquire(l)] + rest)
  {
    assert ([Acquire(l)] + rest)[1..] == rest;
  }

  lemma ReleaseFirst(held: set<Lock>, l: Lock, rest: seq<Action>)
    requires l !in held && Disciplined(held, rest)
    ensures Disciplined(held + {l}, [Release(l)] + rest)
  {
    assert ([Release(l)] + rest)[1..] == rest && held + {l} - {l} == held;
  }

  lemma TryFirst(held: set<Lock>, l: Lock, otherwise: seq<Action>, rest: seq<Action>)
    requires l !in held && Disciplined(held + {l}, rest) && Disciplined(held, otherwise)
    ensures Disciplined(held, [Try(l, otherwise)] + rest)
  {
    assert ([Try(l, otherwise)] + rest)[1..] == rest;
  }

  /** From the callback lock down to the modem's. */
  lemma HoldingAll(b: Lock, d: Lock, c: Lock, g: Lock, rest: seq<Action>)
    requires Disciplined({b}, rest) && b.kind == Body && d.kind == Modem && c.kind == Callback && g.kind == Engine
    ensures Disciplined({b} + {d} + {c}, [Acquire(g), Release(g), Release(c), Release(d)] + rest)
  {
    var all := {b} + {d} + {c};
    assert forall l :: l in all ==> Rank(l) < Rank(g);
    assert d !in {b} && c !in {b} + {d};
    hide Disciplined;
    ReleaseFirst({b}, d, rest);
    var s3 := [Release(d)] + rest;
    ReleaseFirst({b} + {d}, c, s3);
    var s2 := [Release(c)] + s3;
    ReleaseFirst(all, g, s2);
    AcquireFirst(all, g, [Release(g)] + s2);
    assert [Acquire(g)] + ([Release(g)] + s2) == [Acquire(g), Release(g), Release(c), Release(d)] + rest;
  }

  lemma TryingAll(b: Lock, d: Lock, c: Lock, rest: seq<Action>)
    requires b.kind == Body && d.kind == Modem && c.kind == Callback && Disciplined({b} + {d} + {c}, rest)
    ensures Disciplined({}, [Acquire(b), Acquire(d), Try(c, [Release(d), Release(b)])] + rest)
  {
    assert {} + {b} == {b} && d !in {b} && c !in {b} + {d};
    var end := [Release(b)];
    ReleaseFirst({}, b, []);
    assert end + [] == end;
    hide Disciplined;
    ReleaseFirst({b}, d, end);
    var gave := [Release(d)] + end;
    TryFirst({b} + {d}, c, gave, rest);
    var s3 := [Try(c, gave)] + rest;
    AcquireFirst({b}, d, s3);
    AcquireFirst({}, b, [Acquire(d)] + s3);
    assert gave == [Release(d), Release(b)];
    assert [Acquire(b)] + ([Acquire(d)] + s3) == [Acquire(b), Acquire(d), Try(c, gave)] + rest;
  }

  /** Under the modem's lock, an engine's callback lock is only tried, and given up with the engine's modem lock if it is taken. */
  lemma {:induction false} TryPart(e: nat, m: nat, last: seq<Action>)
    requires Part({Lock(Body, m)}, last)
    ensures Disciplined({}, TrySteps(e, m) + last + [Release(Lock(Body, m))])
  {
    var b, d, c, g := Lock(Body, m), Lock(Modem, e), Lock(Callback, e), Lock(Engine, e);
    var end := [Release(b)];
    ReleaseFirst({}, b, []);
    assert end + [] == end && {} + {b} == {b};
    assert Disciplined({b}, last + end);
    hide Disciplined, Part;
    HoldingAll(b, d, c, g, last + end);
    var rest := [Acquire(g), Release(g), Release(c), Release(d)] + (last + end);
    TryingAll(b, d, c, rest);
    assert TrySteps(e, m) + last + end == [Acquire(b), Acquire(d), Try(c, [Release(d), Release(b)])] + rest;
  }

  /** Every operation keeps the order. */
  lemma {:induction false} AllDisciplined(op: Operation)
    ensures Disciplined({}, Steps(op))
  {
    hide Part, Disciplined;
    match op
    case EngineCall(e, m, n) => LockedPart({}, e, m, n); PartEnd(Locked(e, m, n));
    case StreamCall(e, m, s, stays) =>
      var l := Lock(Stream, s);
      assert forall h :: h in {} + {l} ==> Rank(h) < 2;
      StaysPart({} + {l}, e, m, stays);
      PartUnder({}, l, Stays(e, m, stays));
      PartEnd([Acquire(l)] + Stays(e, m, stays) + [Release(l)]);
    case BodyCall(e, m) =>
      var l := Lock(Body, m);
      ModemCallPart({} + {l}, e);
      PartUnder({}, l, ModemCall(e));
      PartEnd([Acquire(l)] + ModemCall(e) + [Release(l)]);
    case Attach(e, m) =>
      ModemCallPart({Lock(Body, m)}, e);
      TryPart(e, m, ModemCall(e));
    case Detach(e, m) =>
      PartNone({Lock(Body, m)});
      TryPart(e, m, []);
      assert TrySteps(e, m) + [] == TrySteps(e, m);
    case StatePost(e, m, n) =>
      var l := Lock(Body, m);
      PartNone({} + {l});
      PartUnder({}, l, []);
      var stay := [Acquire(l)] + [] + [Release(l)];
      LockedPart({}, e, m, n);
      PartThen({}, stay, Locked(e, m, n));
      PartThen({}, stay + Locked(e, m, n), stay);
      PartEnd(stay + Locked(e, m, n) + stay);
      assert stay + Locked(e, m, n) + stay == Steps(op);
  }

  // ------------------------------------------------------------- threads

  datatype Thread = Thread(held: set<Lock>, rest: seq<Action>)

  type Threads = seq<Thread>

  /** Some other thread has the lock. */
  predicate Taken(ts: Threads, t: nat, l: Lock) { exists u :: 0 <= u < |ts| && u != t && l in ts[u].held }

  datatype Event = Begin(thread: nat, op: Operation) | Go(thread: nat)

  /** A thread takes its next step if it can; one with nothing to do may begin an operation. */
  function Step(ts: Threads, e: Event): Threads {
    if e.thread >= |ts| then ts
    else
      var t := ts[e.thread];
      match e
      case Begin(i, op) => if t.rest == [] then ts[i := t.(rest := Steps(op))] else ts
      case Go(i) =>
        if t.rest == [] then ts
        else
          match t.rest[0]
          case Acquire(l) => if Taken(ts, i, l) then ts else ts[i := Thread(t.held + {l}, t.rest[1..])]
          case Try(l, otherwise) =>
            ts[i := if Taken(ts, i, l) then t.(rest := otherwise) else Thread(t.held + {l}, t.rest[1..])]
          case Release(l) => ts[i := Thread(t.held - {l}, t.rest[1..])]
  }

  function Run(n: nat, events: seq<Event>): Threads {
    if events == [] then seq(n, _ => Thread({}, [])) else Step(Run(n, events[..|events| - 1]), events[|events| - 1])
  }

  /** Every thread keeps the order, and no lock has two holders. */
  predicate Sound(ts: Threads) {
    && (forall t :: 0 <= t < |ts| ==> Disciplined(ts[t].held, ts[t].rest))
    && (forall t, u :: 0 <= t < u < |ts| ==> ts[t].held !! ts[u].held)
  }

  lemma StepSound(ts: Threads, e: Event)
    requires Sound(ts)
    ensures Sound(Step(ts, e)) && |Step(ts, e)| == |ts|
  {
    if e.thread < |ts| {
      var t := ts[e.thread];
      assert Disciplined(t.held, t.rest);
      if e.Begin? && t.rest == [] { AllDisciplined(e.op); }
      hide Steps;
    }
  }

  lemma {:induction false} AlwaysSound(n: nat, events: seq<Event>)
    ensures Sound(Run(n, events)) && |Run(n, events)| == n
    decreases |events|
  {
    if events == [] {
      assert Disciplined({}, []);
    } else {
      hide Step, Sound;
      AlwaysSound(n, events[..|events| - 1]);
      StepSound(Run(n, events[..|events| - 1]), events[|events| - 1]);
    }
  }

  /** Thread `t` is blocked on a lock that thread `u` holds. */
  predicate WaitsFor(ts: Threads, t: nat, u: nat) {
    t < |ts| && u < |ts| && t != u && ts[t].rest != [] && ts[t].rest[0].Acquire? && ts[t].rest[0].lock in ts[u].held
  }

  /** In every run no two threads hold the same lock. */
  lemma {:induction false} MutualExclusion(n: nat, events: seq<Event>, t: nat, u: nat)
    requires t < n && u < n && t != u
    ensures var ts := Run(n, events); |ts| == n && ts[t].held !! ts[u].held
  {
    AlwaysSound(n, events);
    hide Run, Disciplined;
  }

  /** In every run a thread between two operations holds no lock, and may begin any. */
  lemma {:induction false} NoneBetween(n: nat, events: seq<Event>, t: nat, op: Operation)
    requires t < |Run(n, events)| && Run(n, events)[t].rest == []
    ensures var ts1 := Run(n, events + [Begin(t, op)]); t < |ts1| && ts1[t] == Thread({}, Steps(op))
    ensures Run(n, events)[t].held == {}
  {
    AlwaysSound(n, events);
    assert (events + [Begin(t, op)])[..|events|] == events;
    hide Run, Steps;
    assert Disciplined(Run(n, events)[t].held, Run(n, events)[t].rest);
  }

  /** Who waits for a waiting thread waits for a lower lock. */

  lemma WaitsUp(ts: Threads, t: nat, u: nat, v: nat)
    requires Sound(ts) && WaitsFor(ts, t, u) && WaitsFor(ts, u, v)
    ensures Rank(ts[t].rest[0].lock) < Rank(ts[u].rest[0].lock)
  {
    assert Disciplined(ts[u].held, ts[u].rest);
  }

  /** A chain of waiting threads, each for the next. */
  predicate WaitChain(ts: Threads, chain: seq<nat>) {
    forall i :: 0 <= i < |chain| - 1 ==> WaitsFor(ts, chain[i], chain[i + 1])
  }

  lemma {:induction false} ChainUp(ts: Threads, chain: seq<nat>, i: nat)
    requires Sound(ts) && WaitChain(ts, chain) && 0 < i < |chain| - 1
    ensures chain[0] < |ts| && ts[chain[0]].rest != [] && ts[chain[0]].rest[0].Acquire?
    ensures chain[i] < |ts| && ts[chain[i]].rest != [] && ts[chain[i]].rest[0].Acquire?
    ensures Rank(ts[chain[0]].rest[0].lock) < Rank(ts[chain[i]].rest[0].lock)
    decreases i
  {
    assert WaitsFor(ts, chain[i - 1], chain[i]) && WaitsFor(ts, chain[i], chain[i + 1]);
    WaitsUp(ts, chain[i - 1], chain[i], chain[i + 1]);
    if i > 1 { ChainUp(ts, chain, i - 1); }
  }

  /** In every run of any number of threads, no thread ever waits, over others or not, for itself. */
  lemma {:induction false} NoCircularWait(n: nat, events: seq<Event>, chain: seq<nat>)
    requires |chain| >= 2 && WaitChain(Run(n, events), chain)
    ensures chain[0] != chain[|chain| - 1]
  {
    var ts := Run(n, events);
    AlwaysSound(n, events);
    hide Run;
    var k := |chain| - 1;
    assert WaitsFor(ts, chain[k - 1], chain[k]);
    if chain[0] == chain[k] {
      var longer := chain + [chain[1]];
      assert WaitsFor(ts, chain[0], chain[1]);
      forall i | 0 <= i < |longer| - 1 ensures WaitsFor(ts, longer[i], longer[i + 1]) {
        if i < k { assert WaitsFor(ts, chain[i], chain[i + 1]); }
      }
      ChainUp(ts, longer, k);
    }
  }

  /** The steps a thread may still take. */
  function Work(rest: seq<Action>): nat
    decreases rest
  {
    if rest == [] then 0
    else
      var after := Work(rest[1..]);
      match rest[0]
      case Try(_, otherwise) => 1 + (if Work(otherwise) > after then Work(otherwise) else after)
      case _ => 1 + after
  }

  /** The next step of thread `t` is one step less to take, and no other thread is touched. */
  predicate Advances(ts: Threads, t: nat) {
    && t < |ts| && |Step(ts, Go(t))| == |ts|
    && Work(Step(ts, Go(t))[t].rest) < Work(ts[t].rest)
    && (forall u :: 0 <= u < |ts| && u != t ==> Step(ts, Go(t))[u] == ts[u])
  }

  /** And as long as any thread has something to do, one of them can take a step. */
  lemma {:induction false} SomeoneCanGo(ts: Threads, t: nat) returns (u: nat)
    requires Sound(ts) && t < |ts| && ts[t].rest != []
    ensures Advances(ts, u)
    decreases if ts[t].rest[0].Acquire? then 5 - Rank(ts[t].rest[0].lock) else 6
  {
    var a := ts[t].rest[0];
    if a.Acquire? && Taken(ts, t, a.lock) {
      var v :| 0 <= v < |ts| && v != t && a.lock in ts[v].held;
      assert Disciplined(ts[v].held, ts[v].rest);
      if ts[v].rest[0].Acquire? {
        WaitingHigher(ts, t, v);
        u := SomeoneCanGo(ts, v);
      } else {
        u := v;
        GoMoves(ts, v);
      }
    } else {
      u := t;
      GoMoves(ts, t);
    }
  }

  lemma WaitingHigher(ts: Threads, t: nat, v: nat)
    requires Sound(ts) && WaitsFor(ts, t, v) && ts[v].rest != [] && ts[v].rest[0].Acquire?
    ensures Rank(ts[t].rest[0].lock) < Rank(ts[v].rest[0].lock)
  {
    assert Disciplined(ts[v].held, ts[v].rest);
  }

  /** A thread that is not blocked leaves something behind it with its step. */
  lemma GoMoves(ts: Threads, t: nat)
    requires t < |ts| && ts[t].rest != []
    requires ts[t].rest[0].Acquire? ==> !Taken(ts, t, ts[t].rest[0].lock)
    ensures Advances(ts, t)
  {
    hide Taken;
    var t1 := Step(ts, Go(t))[t];
    match ts[t].rest[0]
    case Try(l, otherwise) => assert t1.rest == otherwise || t1.rest == ts[t].rest[1..];
    case _ => assert t1.rest == ts[t].rest[1..];
  }
}
