/** Deduplication over whole runs: when an id is marked twice, at most once, exactly once. */
module Once {
  import opened Text
  import opened Model
  import opened State
  import Control
  import opened Server
  import opened Delivery

  // ----- When an id is marked twice -----

  ghost predicate LookedUp(p: Pipeline, capacity: nat, moves: seq<Move>, id: string)
    decreases moves
  {
    moves != [] && Enabled(p, moves[0]) &&
    (LooksUp(p, moves[0], id) || LookedUp(Next(p, capacity, moves[0]), capacity, moves[1..], id))
  }

  /** Some mark forgets the id, and some call looks it up after that. */
  ghost predicate Relapses(p: Pipeline, capacity: nat, moves: seq<Move>, id: string)
    decreases moves
  {
    moves != [] && Enabled(p, moves[0]) &&
    var q := Next(p, capacity, moves[0]);
    (Forgets(p, moves[0], id) && LookedUp(q, capacity, moves[1..], id)) || Relapses(q, capacity, moves[1..], id)
  }

  lemma {:induction false} RelapseIsLookup(p: Pipeline, capacity: nat, moves: seq<Move>, id: string)
    requires Relapses(p, capacity, moves, id)
    ensures LookedUp(p, capacity, moves, id)
    decreases moves
  {
    hide Next, Enabled, LooksUp, Forgets;
    var q := Next(p, capacity, moves[0]);
    if Relapses(q, capacity, moves[1..], id) {
      RelapseIsLookup(q, capacity, moves[1..], id);
    }
  }

  /** Marks are never taken back; an id that is not remembered is marked if and only if it is
      looked up. */
  lemma {:induction false} MarkedIfLookedUp(p: Pipeline, capacity: nat, moves: seq<Move>, id: string)
    requires IsRun(p, capacity, moves, CrashFree)
    ensures Times(After(p, capacity, moves).marks, id) >= Times(p.marks, id)
    ensures id !in p.store.seen ==>
      (Times(After(p, capacity, moves).marks, id) > Times(p.marks, id) <==> LookedUp(p, capacity, moves, id))
    decreases moves
  {
    hide Next, Enabled, LooksUp, Forgets, Times;
    if moves != [] {
      StepSeen(p, capacity, moves[0], id);
      MarkedIfLookedUp(Next(p, capacity, moves[0]), capacity, moves[1..], id);
    }
  }

  lemma {:induction false} MarkedAgain(p: Pipeline, capacity: nat, moves: seq<Move>, id: string)
    requires IsRun(p, capacity, moves, CrashFree) && id in p.store.seen
    ensures Times(After(p, capacity, moves).marks, id) > Times(p.marks, id) <==> Relapses(p, capacity, moves, id)
    decreases moves
  {
    hide Next, Enabled, LooksUp, Forgets, Times;
    if moves != [] {
      var q := Next(p, capacity, moves[0]);
      StepSeen(p, capacity, moves[0], id);
      if id in q.store.seen {
        MarkedAgain(q, capacity, moves[1..], id);
        if Forgets(p, moves[0], id) { ForgettingIsNoLookup(p, moves[0], id); }
      } else {
        MarkedIfLookedUp(q, capacity, moves[1..], id);
        if Relapses(q, capacity, moves[1..], id) { RelapseIsLookup(q, capacity, moves[1..], id); }
      }
    }
  }

  lemma ForgettingIsNoLookup(p: Pipeline, m: Move, id: string)
    requires Forgets(p, m, id)
    ensures !LooksUp(p, m, id)
  {
  }

  lemma {:induction false} MarkedTwice(p: Pipeline, capacity: nat, moves: seq<Move>, id: string)
    requires IsRun(p, capacity, moves, CrashFree) && id !in p.store.seen
    ensures Times(After(p, capacity, moves).marks, id) > Times(p.marks, id) + 1 <==> Relapses(p, capacity, moves, id)
    decreases moves
  {
    hide Next, Enabled, LooksUp, Times;
    if moves != [] {
      var q := Next(p, capacity, moves[0]);
      StepSeen(p, capacity, moves[0], id);
      if id in q.store.seen {
        MarkedAgain(q, capacity, moves[1..], id);
      } else {
        MarkedTwice(q, capacity, moves[1..], id);
      }
    }
  }

  /** How often an id has been new, counting the store at the start. */
  function TimesNew(p: Pipeline, disk: Snapshot, id: string): nat {
    Times(p.marks, id) + if id in disk.seen then 1 else 0
  }

  /** Over every run without a crash, an id is new twice if and only if some mark forgets it
      and some call looks it up after that. */
  lemma NewTwiceExactly(clock: Time, disk: Snapshot, capacity: nat, moves: seq<Move>, id: string)
    requires IsRun(Start(clock, disk), capacity, moves, CrashFree)
    ensures TimesNew(After(Start(clock, disk), capacity, moves), disk, id) >= 2
       <==> Relapses(Start(clock, disk), capacity, moves, id)
  {
    hide IsRun, After, Relapses;
    var p := Start(clock, disk);
    if id in disk.seen {
      MarkedAgain(p, capacity, moves, id);
    } else {
      MarkedTwice(p, capacity, moves, id);
    }
  }

  // ----- What a call has been through -----

  /** What a call has been through is marked or known, and a confirmed call is finished. */
  ghost predicate Covered(p: Pipeline, known: set<string>) {
    && (forall id :: id in p.store.seen || id in p.disk.seen ==> id in p.marks || id in known)
    && forall c :: 0 <= c < |p.calls| ==> CallCovered(p.calls[c], p.marks, known)
  }

  ghost predicate CallCovered(c: Call, marks: seq<string>, known: set<string>) {
    && c.pos <= |c.batch|
    && (c.confirmed ==> Finished(c))
    && (c.held.Some? ==> c.pos < |c.batch| && c.batch[c.pos].id == c.held.value && c.held.value in marks)
    && forall j :: 0 <= j < c.pos && WellNamed(c.batch[j]) ==> c.batch[j].id in marks || c.batch[j].id in known
  }

  lemma VisitCovered(p: Pipeline, c: nat, known: set<string>)
    requires Covered(p, known) && Enabled(p, Visit(c))
    ensures Covered(Visited(p, c), known)
  {
    hide MarkSeen;
    var call := p.calls[c];
    var o := call.batch[call.pos];
    var q := Visited(p, c);
    OldIsNotNew(p.store.seen, o.id, call.now);
    if WellNamed(o) && o.id !in p.store.seen {
      forall k | k in q.store.seen ensures k in q.marks || k in known {
        MarkSeenKeeps(p.store.seen, o.id, call.now, k);
      }
      assert q.marks == p.marks + [o.id];
      assert o.id in q.marks;
      forall i | 0 <= i < |q.calls| ensures CallCovered(q.calls[i], q.marks, known) {
        assert CallCovered(p.calls[i], p.marks, known);
      }
    }
  }

  lemma StepCovered(p: Pipeline, capacity: nat, m: Move, known: set<string>)
    requires Covered(p, known) && Enabled(p, m)
    ensures Covered(Next(p, capacity, m), known)
  {
    hide Visited, QueueIds, HeldIds;
    match m
    case Visit(c) => VisitCovered(p, c, known);
    case _ =>
  }

  lemma {:induction false} RunCovered(p: Pipeline, capacity: nat, moves: seq<Move>, known: set<string>)
    requires Covered(p, known)
    ensures Covered(After(p, capacity, moves), known)
    decreases moves
  {
    hide Next, Covered, Enabled;
    if moves != [] && Enabled(p, moves[0]) {
      StepCovered(p, capacity, moves[0], known);
      RunCovered(Next(p, capacity, moves[0]), capacity, moves[1..], known);
    }
  }

  lemma {:induction false} NothingLost(p: Pipeline, capacity: nat, moves: seq<Move>)
    requires p.lost == [] && IsRun(p, capacity, moves, CrashFree)
    ensures After(p, capacity, moves).lost == []
    decreases moves
  {
    hide MarkSeen;
    if moves != [] {
      NothingLost(Next(p, capacity, moves[0]), capacity, moves[1..]);
    }
  }

  // ----- At most once, exactly once -----

  /** Over every crash-free run with concurrent calls, lost requests, lost replies and
      retries, an id that is not looked up after being forgotten is dispatched at most once,
      and never if it was dropped or known before. */
  lemma AtMostOnce(clock: Time, disk: Snapshot, capacity: nat, moves: seq<Move>, id: string)
    requires IsRun(Start(clock, disk), capacity, moves, CrashFree)
    requires !Relapses(Start(clock, disk), capacity, moves, id)
    ensures var p := After(Start(clock, disk), capacity, moves);
      Times(p.dispatched, id) <= (if id in p.dropped || id in disk.seen then 0 else 1)
  {
    hide IsRun, After, Relapses;
    var p := After(Start(clock, disk), capacity, moves);
    NewTwiceExactly(clock, disk, capacity, moves, id);
    Conservation(Start(clock, disk), capacity, moves, id);
    TimesIn(p.dropped, id);
  }

  /** The named observation `j` of the confirmed call `c`, which was not known before, while
      the bus is empty and no call holds an id. */
  ghost predicate Delivered(p: Pipeline, disk: Snapshot, c: nat, j: nat) {
    && p.queue == [] && HeldIds(p.calls) == []
    && c < |p.calls| && p.calls[c].confirmed && j < |p.calls[c].batch|
    && WellNamed(p.calls[c].batch[j]) && p.calls[c].batch[j].id !in disk.seen
  }

  // ----- A full bus -----

  /** A call publishes the id while the bus is full. */
  predicate Overflows(p: Pipeline, capacity: nat, m: Move, id: string) {
    m.Publish? && Enabled(p, m) && p.calls[m.c].held == Some(id) && |p.queue| >= capacity
  }

  ghost predicate Overflowed(p: Pipeline, capacity: nat, moves: seq<Move>, id: string)
    decreases moves
  {
    moves != [] && Enabled(p, moves[0]) &&
    (Overflows(p, capacity, moves[0], id) || Overflowed(Next(p, capacity, moves[0]), capacity, moves[1..], id))
  }

  lemma StepDropped(p: Pipeline, capacity: nat, m: Move, id: string)
    requires Enabled(p, m)
    ensures id in Next(p, capacity, m).dropped <==> id in p.dropped || Overflows(p, capacity, m, id)
  {
    hide MarkSeen, QueueIds, HeldIds;
    if m.Publish? {
      assert forall k :: k in p.dropped + [p.calls[m.c].held.value] <==> k in p.dropped || k == p.calls[m.c].held.value;
    }
  }

  /** Over every run, crashes included, an id has been dropped if and only if some call
      published it while the bus was full. */
  lemma {:induction false} DroppedExactly(p: Pipeline, capacity: nat, moves: seq<Move>, id: string)
    ensures id in After(p, capacity, moves).dropped <==> id in p.dropped || Overflowed(p, capacity, moves, id)
    decreases moves
  {
    hide Next, Enabled, Overflows;
    if moves != [] && Enabled(p, moves[0]) {
      StepDropped(p, capacity, moves[0], id);
      DroppedExactly(Next(p, capacity, moves[0]), capacity, moves[1..], id);
    }
  }

  /** In such a run, once the bus has drained, every observation with an id and a type in a
      confirmed batch, unless known from before the start, has been dispatched exactly once
      if and only if no call published it while the bus was full, and not at all otherwise. */
  lemma ExactlyOnce(clock: Time, disk: Snapshot, capacity: nat, moves: seq<Move>, c: nat, j: nat)
    requires IsRun(Start(clock, disk), capacity, moves, CrashFree)
    requires Delivered(After(Start(clock, disk), capacity, moves), disk, c, j)
    requires !Relapses(Start(clock, disk), capacity, moves,
                       After(Start(clock, disk), capacity, moves).calls[c].batch[j].id)
    ensures var p := After(Start(clock, disk), capacity, moves);
      var id := p.calls[c].batch[j].id;
      && (Times(p.dispatched, id) == 1 <==> !Overflowed(Start(clock, disk), capacity, moves, id))
      && (Times(p.dispatched, id) == 0 <==> Overflowed(Start(clock, disk), capacity, moves, id))
      && (id in p.dropped <==> Overflowed(Start(clock, disk), capacity, moves, id))
  {
    hide Next, Enabled, IsRun, After, Relapses, Overflowed;
    var p := After(Start(clock, disk), capacity, moves);
    var id := p.calls[c].batch[j].id;
    NewTwiceExactly(clock, disk, capacity, moves, id);
    RunCovered(Start(clock, disk), capacity, moves, disk.seen.Keys);
    Conservation(Start(clock, disk), capacity, moves, id);
    NothingLost(Start(clock, disk), capacity, moves);
    DroppedExactly(Start(clock, disk), capacity, moves, id);
    assert CallCovered(p.calls[c], p.marks, disk.seen.Keys);
    TimesIn(p.dropped, id);
    TimesIn(p.marks, id);
    TimesIn(p.dispatched, id);
  }

  /** No crash, and the bus has room at every publish of an observation. */
  function NeverFull(capacity: nat): (Pipeline, Move) -> bool {
    (p: Pipeline, m: Move) => !m.Crash? && (m.Publish? ==> |p.queue| < capacity)
  }

  lemma {:induction false} NeverOverflows(p: Pipeline, capacity: nat, moves: seq<Move>, id: string)
    requires IsRun(p, capacity, moves, NeverFull(capacity))
    ensures IsRun(p, capacity, moves, CrashFree) && !Overflowed(p, capacity, moves, id)
    decreases moves
  {
    hide MarkSeen;
    if moves != [] {
      NeverOverflows(Next(p, capacity, moves[0]), capacity, moves[1..], id);
    }
  }

  /** If the bus never fills, every such observation is dispatched exactly once. */
  lemma ExactlyOnceWithRoom(clock: Time, disk: Snapshot, capacity: nat, moves: seq<Move>, c: nat, j: nat)
    requires IsRun(Start(clock, disk), capacity, moves, NeverFull(capacity))
    requires Delivered(After(Start(clock, disk), capacity, moves), disk, c, j)
    requires !Relapses(Start(clock, disk), capacity, moves,
                       After(Start(clock, disk), capacity, moves).calls[c].batch[j].id)
    ensures var p := After(Start(clock, disk), capacity, moves);
      Times(p.dispatched, p.calls[c].batch[j].id) == 1
  {
    hide IsRun, After, Relapses, NeverFull, Overflowed;
    var p := After(Start(clock, disk), capacity, moves);
    NeverOverflows(Start(clock, disk), capacity, moves, p.calls[c].batch[j].id);
    ExactlyOnce(clock, disk, capacity, moves, c, j);
  }

  // ----- A run that fails -----

  function Single(id: string): seq<Observation> { [Observation(id, "t", 0, Control.Unreadable)] }

  function Others(n: nat): seq<Item> { seq(n, _ => Other) }

  function Filling(n: nat): seq<Move> { seq(n, _ => ModulePublishes) }

  function Draining(n: nat): seq<Move> { seq(n, _ => Dispatch) }

  lemma {:induction false} Filled(p: Pipeline, capacity: nat, n: nat)
    requires |p.queue| + n <= capacity
    ensures IsRun(p, capacity, Filling(n), CrashFree)
    ensures After(p, capacity, Filling(n)) == p.(queue := p.queue + Others(n))
    decreases n
  {
    if n == 0 {
      assert p.queue + Others(0) == p.queue;
    } else {
      assert Filling(n)[1..] == Filling(n - 1);
      Filled(Next(p, capacity, ModulePublishes), capacity, n - 1);
      assert p.queue + [Other] + Others(n - 1) == p.queue + Others(n);
    }
  }

  lemma {:induction false} Drained(p: Pipeline, capacity: nat, n: nat, rest: seq<Item>)
    requires p.current.None? && p.queue == Others(n) + rest
    ensures IsRun(p, capacity, Draining(n), CrashFree)
    ensures After(p, capacity, Draining(n)) == p.(queue := rest)
    decreases n
  {
    if n == 0 {
      assert p.queue == rest;
    } else {
      assert Draining(n)[1..] == Draining(n - 1);
      assert p.queue[1..] == Others(n - 1) + rest;
      Drained(Next(p, capacity, Dispatch), capacity, n - 1, rest);
    }
  }

  function Sending(x: string, y: string): seq<Move> {
    [Arrive(Single(x) + Single(y)), Visit(0), Publish(0), Visit(0), Publish(0), Confirm(0)]
  }

  function Resending(y: string): seq<Move> { [Dispatch, Complete, Arrive(Single(y)), Visit(1), Confirm(1)] }

  /** The bus is filled up to one place, takes `x` and drops `y`, is drained, and `y` is sent
      again. */
  function OverflowMoves(capacity: nat, x: string, y: string): seq<Move>
    requires capacity > 0
  {
    Filling(capacity - 1) + (Sending(x, y) + (Draining(capacity - 1) + Resending(y)))
  }

  /** The second observation of the batch is marked and dropped. */
  lemma SecondDropped(p: Pipeline, capacity: nat, x: string, y: string, call: Call)
    requires y != "" && |p.queue| == capacity && y !in p.store.seen
    requires call == Call(call.now, Single(x) + Single(y), 1, None, false) && p.calls == [call]
    ensures IsRun(p, capacity, Sending(x, y)[3..], CrashFree)
    ensures var q := After(p, capacity, Sending(x, y)[3..]);
      && q.queue == p.queue && q.current == p.current && q.dispatched == p.dispatched
      && q.dropped == p.dropped + [y] && y in q.store.seen
      && q.calls == [call.(pos := 2, confirmed := true)]
  {
    hide IsRun, After, MarkSeen, QueueIds, HeldIds;
    var ms := Sending(x, y);
    OldIsNotNew(p.store.seen, y, call.now);
    MarkSeenKeeps(p.store.seen, y, call.now, y);
    var p4 := Next(p, capacity, ms[3]);
    assert p4.calls == [call.(held := Some(y))];
    var p5 := Next(p4, capacity, ms[4]);
    assert p5.calls == [call.(pos := 2)];
    Ended(Next(p5, capacity, ms[5]), capacity, CrashFree);
    Onward(p5, capacity, ms[5..], CrashFree);
    Onward(p4, capacity, ms[4..], CrashFree);
    Onward(p, capacity, ms[3..], CrashFree);
  }

  lemma Sent(p: Pipeline, capacity: nat, x: string, y: string)
    requires x != "" && y != "" && x != y && |p.queue| + 1 == capacity
    requires p.calls == [] && p.store.seen == map[]
    ensures IsRun(p, capacity, Sending(x, y), CrashFree)
    ensures var q := After(p, capacity, Sending(x, y));
      && q.queue == p.queue + [Obs(x)] && q.current == p.current && q.dispatched == p.dispatched
      && q.dropped == p.dropped + [y] && y in q.store.seen
      && q.calls == [Call(p.clock, Single(x) + Single(y), 2, None, true)]
  {
    hide IsRun, After, MarkSeen, QueueIds, HeldIds;
    var ms := Sending(x, y);
    var call := Call(p.clock, Single(x) + Single(y), 0, None, false);
    var p1 := Next(p, capacity, ms[0]);
    assert p1.calls == [call];
    OldIsNotNew(map[], x, p.clock);
    MarkSeenKeeps(map[], x, p.clock, y);
    var p2 := Next(p1, capacity, ms[1]);
    assert p2.calls == [call.(held := Some(x))];
    var p3 := Next(p2, capacity, ms[2]);
    assert p3.calls == [call.(pos := 1)];
    SecondDropped(p3, capacity, x, y, call.(pos := 1));
    Onward(p2, capacity, ms[2..], CrashFree);
    Onward(p1, capacity, ms[1..], CrashFree);
    Onward(p, capacity, ms, CrashFree);
  }

  lemma Resent(p: Pipeline, capacity: nat, x: string, y: string, first: Call)
    requires y != "" && y in p.store.seen && p.current.None? && p.queue == [Obs(x)] && p.calls == [first]
    ensures IsRun(p, capacity, Resending(y), CrashFree)
    ensures var q := After(p, capacity, Resending(y));
      && q.queue == [] && q.current.None? && q.dispatched == p.dispatched + [x] && q.dropped == p.dropped
      && q.calls == [first, Call(p.clock, Single(y), 1, None, true)]
  {
    hide IsRun, After, MarkSeen, QueueIds, HeldIds;
    var ms := Resending(y);
    var p1 := Next(p, capacity, ms[0]);
    var p2 := Next(p1, capacity, ms[1]);
    var p3 := Next(p2, capacity, ms[2]);
    assert p3.calls == [first, Call(p.clock, Single(y), 0, None, false)];
    OldIsNotNew(p3.store.seen, y, p.clock);
    var p4 := Next(p3, capacity, ms[3]);
    assert p4.calls == [first, Call(p.clock, Single(y), 1, None, false)];
    Ended(Next(p4, capacity, ms[4]), capacity, CrashFree);
    Onward(p4, capacity, ms[4..], CrashFree);
    Onward(p3, capacity, ms[3..], CrashFree);
    Onward(p2, capacity, ms[2..], CrashFree);
    Onward(p1, capacity, ms[1..], CrashFree);
    Onward(p, capacity, ms, CrashFree);
  }

  /** For every capacity there is a run without a crash in which both requests are confirmed
      and the bus drains, and yet `y` is never dispatched: the bus was full when it was first
      published, and sending it again is a duplicate. */
  lemma FullBusLoses(clock: Time, capacity: nat, x: string, y: string)
    requires capacity > 0 && x != "" && y != "" && x != y
    ensures IsRun(Start(clock, Snapshot(map[], {}, {})), capacity, OverflowMoves(capacity, x, y), CrashFree)
    ensures var p := After(Start(clock, Snapshot(map[], {}, {})), capacity, OverflowMoves(capacity, x, y));
      && p.queue == [] && p.current.None? && |p.calls| == 2
      && (forall c :: 0 <= c < 2 ==> p.calls[c].confirmed && Carries(p.calls[c].batch, y))
      && p.dispatched == [x] && p.dropped == [y]
  {
    hide IsRun, After, Sending, Resending, Filling, Draining, Others;
    var n := capacity - 1;
    var p0 := Start(clock, Snapshot(map[], {}, {}));
    Filled(p0, capacity, n);
    var p1 := After(p0, capacity, Filling(n));
    OthersLength(n);
    Sent(p1, capacity, x, y);
    var p2 := After(p1, capacity, Sending(x, y));
    Drained(p2, capacity, n, [Obs(x)]);
    var p3 := After(p2, capacity, Draining(n));
    Resent(p3, capacity, x, y, p2.calls[0]);
    Joined(p2, capacity, Draining(n), Resending(y), CrashFree);
    Joined(p1, capacity, Sending(x, y), Draining(n) + Resending(y), CrashFree);
    Joined(p0, capacity, Filling(n), Sending(x, y) + (Draining(n) + Resending(y)), CrashFree);
    assert (Single(x) + Single(y))[1].id == y && Single(y)[0].id == y;
  }

  lemma OthersLength(n: nat)
    ensures |Others(n)| == n && [] + Others(n) == Others(n)
  {
  }

  // ----- Retries within 24 hours -----

  /** A lookup of an id that was new before finds it. */
  ghost predicate Finds(p: Pipeline, m: Move, id: string) {
    LooksUp(p, m, id) && id in p.first ==> id in p.store.seen
  }

  ghost predicate AlwaysFinds(p: Pipeline, capacity: nat, moves: seq<Move>, id: string)
    decreases moves
  {
    moves == [] || !Enabled(p, moves[0]) ||
    (Finds(p, moves[0], id) && AlwaysFinds(Next(p, capacity, moves[0]), capacity, moves[1..], id))
  }

  lemma StepFirst(p: Pipeline, capacity: nat, m: Move, id: string)
    requires Enabled(p, m) && !m.Crash?
    ensures id in Next(p, capacity, m).first <==> id in p.first || (LooksUp(p, m, id) && id !in p.store.seen)
    ensures id in p.first ==> Next(p, capacity, m).first[id] == p.first[id]
  {
    hide MarkSeen;
    if m.Visit? {
      OldIsNotNew(p.store.seen, p.calls[m.c].batch[p.calls[m.c].pos].id, p.calls[m.c].now);
    }
  }

  lemma {:induction false} GoneForGood(p: Pipeline, capacity: nat, moves: seq<Move>, id: string)
    requires IsRun(p, capacity, moves, CrashFree) && AlwaysFinds(p, capacity, moves, id)
    requires id in p.first && id !in p.store.seen
    ensures !LookedUp(p, capacity, moves, id)
    decreases moves
  {
    hide Next, Enabled, LooksUp, Forgets, Times;
    if moves != [] {
      StepSeen(p, capacity, moves[0], id);
      StepFirst(p, capacity, moves[0], id);
      GoneForGood(Next(p, capacity, moves[0]), capacity, moves[1..], id);
    }
  }

  lemma {:induction false} FindingIsNoRelapse(p: Pipeline, capacity: nat, moves: seq<Move>, id: string)
    requires IsRun(p, capacity, moves, CrashFree) && AlwaysFinds(p, capacity, moves, id)
    requires id in p.store.seen ==> id in p.first
    ensures !Relapses(p, capacity, moves, id)
    decreases moves
  {
    hide Next, Enabled, LooksUp, Times;
    if moves != [] {
      var q := Next(p, capacity, moves[0]);
      StepSeen(p, capacity, moves[0], id);
      StepFirst(p, capacity, moves[0], id);
      FindingIsNoRelapse(q, capacity, moves[1..], id);
      if Forgets(p, moves[0], id) {
        ForgettingIsNoLookup(p, moves[0], id);
        GoneForGood(q, capacity, moves[1..], id);
      }
    }
  }

  /** No crash, and an id is looked up again only within 24 hours of its first mark. */
  predicate Timely(p: Pipeline, m: Move) {
    !m.Crash? &&
    forall id :: id in p.first && LooksUp(p, m, id) ==> p.clock <= p.first[id] + DAY
  }

  ghost predicate TimelyKept(p: Pipeline, id: string) {
    && (id in p.store.seen ==> id in p.first && p.store.seen[id] == p.first[id])
    && (id in p.first && p.clock <= p.first[id] + DAY ==> id in p.store.seen)
    && (forall c :: 0 <= c < |p.calls| ==> p.calls[c].now <= p.clock)
  }

  lemma TimelyStep(p: Pipeline, capacity: nat, m: Move, id: string)
    requires TimelyKept(p, id) && Enabled(p, m) && Timely(p, m)
    ensures TimelyKept(Next(p, capacity, m), id) && Finds(p, m, id)
  {
    hide MarkSeen, QueueIds, HeldIds;
    var q := Next(p, capacity, m);
    StepSeen(p, capacity, m, id);
    StepFirst(p, capacity, m, id);
    if m.Visit? && LooksUp(p, m, id) && id !in p.store.seen {
      MarkSeenKeeps(p.store.seen, id, p.calls[m.c].now, id);
    }
  }

  lemma {:induction false} TimelyRun(p: Pipeline, capacity: nat, moves: seq<Move>, id: string)
    requires TimelyKept(p, id) && IsRun(p, capacity, moves, Timely)
    ensures IsRun(p, capacity, moves, CrashFree) && AlwaysFinds(p, capacity, moves, id)
    decreases moves
  {
    hide Next, Enabled, TimelyKept, Finds;
    if moves != [] {
      TimelyStep(p, capacity, moves[0], id);
      TimelyRun(Next(p, capacity, moves[0]), capacity, moves[1..], id);
    }
  }

  /** If every repeated lookup happens within 24 hours of the first mark, nothing is new twice. */
  lemma TimelySuffices(clock: Time, disk: Snapshot, capacity: nat, moves: seq<Move>, id: string)
    requires IsRun(Start(clock, disk), capacity, moves, Timely)
    ensures IsRun(Start(clock, disk), capacity, moves, CrashFree) && !Relapses(Start(clock, disk), capacity, moves, id)
  {
    TimelyRun(Start(clock, disk), capacity, moves, id);
    FindingIsNoRelapse(Start(clock, disk), capacity, moves, id);
  }

  /** No crash, ids are looked up in the order in which their requests arrived, and a retry
      arrives within 24 hours of the first mark. */
  predicate Prompt(p: Pipeline, m: Move) {
    !m.Crash? &&
    (m.Visit? && Enabled(p, m) ==>
       p.last <= p.calls[m.c].now &&
       forall id :: id in p.first && LooksUp(p, m, id) ==> p.calls[m.c].now <= p.first[id] + DAY)
  }

  ghost predicate PromptKept(p: Pipeline, id: string) {
    && (id in p.store.seen ==> id in p.first && p.store.seen[id] == p.first[id])
    && (id in p.first && id !in p.store.seen ==> p.last > p.first[id] + DAY)
  }

  lemma PromptStep(p: Pipeline, capacity: nat, m: Move, id: string)
    requires PromptKept(p, id) && Enabled(p, m) && Prompt(p, m)
    ensures PromptKept(Next(p, capacity, m), id) && Finds(p, m, id)
  {
    hide MarkSeen, QueueIds, HeldIds;
    var q := Next(p, capacity, m);
    StepSeen(p, capacity, m, id);
    StepFirst(p, capacity, m, id);
    if m.Visit? {
      OldIsNotNew(p.store.seen, p.calls[m.c].batch[p.calls[m.c].pos].id, p.calls[m.c].now);
      if LooksUp(p, m, id) && id !in p.store.seen {
        MarkSeenKeeps(p.store.seen, id, p.calls[m.c].now, id);
      }
    }
  }

  lemma {:induction false} PromptRun(p: Pipeline, capacity: nat, moves: seq<Move>, id: string)
    requires PromptKept(p, id) && IsRun(p, capacity, moves, Prompt)
    ensures IsRun(p, capacity, moves, CrashFree) && AlwaysFinds(p, capacity, moves, id)
    decreases moves
  {
    hide Next, Enabled, PromptKept, Finds;
    if moves != [] {
      PromptStep(p, capacity, moves[0], id);
      PromptRun(Next(p, capacity, moves[0]), capacity, moves[1..], id);
    }
  }

  /** While lookups keep the order of arrival, it is enough that every retry arrives within 24
      hours of the first mark. */
  lemma ArrivalSuffices(clock: Time, disk: Snapshot, capacity: nat, moves: seq<Move>, id: string)
    requires IsRun(Start(clock, disk), capacity, moves, Prompt)
    ensures IsRun(Start(clock, disk), capacity, moves, CrashFree) && !Relapses(Start(clock, disk), capacity, moves, id)
  {
    PromptRun(Start(clock, disk), capacity, moves, id);
    FindingIsNoRelapse(Start(clock, disk), capacity, moves, id);
  }

  /** The promise of ingest: while lookups keep the order of arrival and retries arrive within
      24 hours, an observation is dispatched at most once, and once the bus has drained a
      confirmed one has been dispatched exactly once unless a full bus dropped it. */
  lemma PromptlyOnce(clock: Time, disk: Snapshot, capacity: nat, moves: seq<Move>, id: string, c: nat, j: nat)
    requires IsRun(Start(clock, disk), capacity, moves, Prompt)
    ensures var p := After(Start(clock, disk), capacity, moves);
      && Times(p.dispatched, id) <= (if id in p.dropped || id in disk.seen then 0 else 1)
      && (Delivered(p, disk, c, j) ==>
            var key := p.calls[c].batch[j].id;
            Times(p.dispatched, key) == if Overflowed(Start(clock, disk), capacity, moves, key) then 0 else 1)
  {
    hide IsRun, After, Prompt, Relapses, Overflowed;
    var p := After(Start(clock, disk), capacity, moves);
    ArrivalSuffices(clock, disk, capacity, moves, id);
    AtMostOnce(clock, disk, capacity, moves, id);
    if Delivered(p, disk, c, j) {
      ArrivalSuffices(clock, disk, capacity, moves, p.calls[c].batch[j].id);
      ExactlyOnce(clock, disk, capacity, moves, c, j);
    }
  }

  // ----- Arrival alone is not enough -----

  ghost predicate IsNumber(id: string, n: nat) { exists k: nat :: k < n && id == Dec(k) }

  /** `n` ids, the numbers below `n`, all marked at one time. */
  ghost function Many(n: nat, at: Time): (seen: map<string, Time>)
    ensures |seen| == n
    ensures forall id :: id in seen ==> seen[id] == at && IsNumber(id, n)
    ensures forall k: nat :: k < n ==> Dec(k) in seen
  {
    if n == 0 then map[]
    else
      var rest := Many(n - 1, at);
      NewNumber(n - 1, rest.Keys);
      assert rest[Dec(n - 1) := at].Keys == rest.Keys + {Dec(n - 1)};
      rest[Dec(n - 1) := at]
  }

  lemma NewNumber(n: nat, ids: set<string>)
    requires forall id :: id in ids ==> IsNumber(id, n)
    ensures Dec(n) !in ids
  {
    if Dec(n) in ids {
      var k: nat :| k < n && Dec(n) == Dec(k);
      ReadDec(n, "");
      ReadDec(k, "");
    }
  }

  /** A store with 200000 ids or more, "7" among them and "y" not, all marked at one time. */
  ghost predicate FullOfOld(disk: Snapshot, at: Time) {
    && |disk.seen| >= DEDUP_LIMIT && "7" in disk.seen && "y" !in disk.seen
    && forall id :: id in disk.seen ==> disk.seen[id] == at
  }

  lemma FullStoreExists(at: Time) returns (disk: Snapshot)
    ensures FullOfOld(disk, at)
  {
    hide Many;
    disk := Snapshot(Many(DEDUP_LIMIT, at), {}, {});
    assert Dec(7) == "7";
    if "y" in disk.seen {
      var k: nat :| "y" == Dec(k);
      DecIsDigits(k);
    }
  }

  function LateMoves(): seq<Move> {
    [Tick(DAY), Arrive(Single("7")), Tick(1), Arrive(Single("y")), Visit(1), Visit(0)]
  }

  /** The state after the first four of these moves. */
  function BothArrived(disk: Snapshot, at: Time): Pipeline {
    Start(at, disk).(clock := at + DAY + 1, calls := [Call(at + DAY, Single("7"), 0, None, false),
                                                      Call(at + DAY + 1, Single("y"), 0, None, false)])
  }

  lemma LateArrivals(disk: Snapshot, at: Time, capacity: nat)
    requires IsRun(BothArrived(disk, at), capacity, LateMoves()[4..], CrashFree)
    ensures IsRun(Start(at, disk), capacity, LateMoves(), CrashFree)
    ensures After(Start(at, disk), capacity, LateMoves()) == After(BothArrived(disk, at), capacity, LateMoves()[4..])
  {
    hide IsRun, After;
    var ms := LateMoves();
    var p0 := Start(at, disk);
    var p1 := Next(p0, capacity, ms[0]);
    var p2 := Next(p1, capacity, ms[1]);
    var p3 := Next(p2, capacity, ms[2]);
    assert p2.calls == [Call(at + DAY, Single("7"), 0, None, false)];
    assert Next(p3, capacity, ms[3]).calls == BothArrived(disk, at).calls;
    Onward(p3, capacity, ms[3..], CrashFree);
    Onward(p2, capacity, ms[2..], CrashFree);
    Onward(p1, capacity, ms[1..], CrashFree);
    Onward(p0, capacity, ms, CrashFree);
  }

  /** Why lookups must keep the order of arrival: a retry arrives exactly 24 hours after the
      first mark, another request arrives one nanosecond later, and its mark forgets the id
      before the retry is looked up. The retry counts as new. */
  lemma ArrivalNotEnough(disk: Snapshot, at: Time, capacity: nat)
    requires FullOfOld(disk, at)
    ensures IsRun(Start(at, disk), capacity, LateMoves(), CrashFree)
    ensures var p := After(Start(at, disk), capacity, LateMoves());
      |p.calls| == 2 && p.calls[0].now == disk.seen["7"] + DAY && TimesNew(p, disk, "7") == 2
  {
    hide IsRun, After, MarkSeen, Times;
    var ms := LateMoves();
    var p4 := BothArrived(disk, at);
    var p5 := Next(p4, capacity, Visit(1));
    MarkSeenKeeps(disk.seen, "y", at + DAY + 1, "7");
    StepSeen(p4, capacity, Visit(1), "7");
    assert "7" !in p5.store.seen && p5.calls[0] == p4.calls[0];
    StepSeen(p5, capacity, Visit(0), "7");
    Ended(Next(p5, capacity, Visit(0)), capacity, CrashFree);
    Onward(p5, capacity, ms[5..], CrashFree);
    Onward(p4, capacity, ms[4..], CrashFree);
    LateArrivals(disk, at, capacity);
    One("7", "7");
  }
}
