/** Delivery: concurrent ingest calls, the ids they remember, the bounded bus, its dispatch
    loop, snapshots and crashes, as one transition system. */
module Delivery {
  import opened Text
  import opened Model
  import opened State
  import opened Control
  import opened EventBus
  import opened Server

  // ----- States and moves -----

  /** An ingest request being handled: the clock read on arrival, how many observations are
      done, an id that is marked but not yet published, and whether the sender has its reply. */
  datatype Call = Call(now: Time, batch: seq<Observation>, pos: nat, held: Option<string>, confirmed: bool)

  /** The bus carries observations and the events that the modules publish. */
  datatype Item = Obs(id: string) | Other

  /** What one snapshot holds: remembered ids, the observations of which any effect is in the
      store, and those whose effect is complete. */
  datatype Snapshot = Snapshot(seen: map<string, Time>, traces: set<string>, effects: set<string>)

  /** `marks`, `dispatched` and `dropped` list ids in the order in which those things happened,
      `lost` lists the ids that a crash found on the bus or held by a call, `first` says when
      an id was marked first, and `last` is the time of the latest mark. `current` is the
      observation whose handler is running. */
  datatype Pipeline = Pipeline(
    clock: Time, store: Snapshot, disk: Snapshot, calls: seq<Call>, queue: seq<Item>, current: Option<string>,
    marks: seq<string>, dispatched: seq<string>, dropped: seq<string>, lost: seq<string>,
    first: map<string, Time>, last: Time)

  datatype Move =
    | Tick(elapsed: nat)
    | Arrive(batch: seq<Observation>)
    | Visit(c: nat)
    | Publish(c: nat)
    | Confirm(c: nat)
    | ModulePublishes
    | Dispatch
    | Touch
    | Complete
    | Flush
    | Crash

  function Start(clock: Time, disk: Snapshot): Pipeline {
    Pipeline(clock, disk, disk, [], [], None, [], [], [], [], disk.seen, clock)
  }

  predicate Finished(c: Call) { c.held.None? && c.pos == |c.batch| }

  /** A lost request is one that never arrives, a lost reply one that is never confirmed. */
  predicate Enabled(p: Pipeline, m: Move) {
    match m
    case Visit(c) => c < |p.calls| && p.calls[c].held.None? && p.calls[c].pos < |p.calls[c].batch|
    case Publish(c) => c < |p.calls| && p.calls[c].held.Some? && p.calls[c].pos < |p.calls[c].batch|
    case Confirm(c) => c < |p.calls| && Finished(p.calls[c])
    case Dispatch => p.queue != [] && p.current.None?
    case Touch => p.current.Some?
    case Complete => p.current.Some?
    case _ => true
  }

  function Visited(p: Pipeline, c: nat): Pipeline
    requires Enabled(p, Visit(c))
  {
    var call := p.calls[c];
    var o := call.batch[call.pos];
    var (isNew, seen) := MarkSeen(p.store.seen, o.id, call.now);
    if WellNamed(o) && isNew then
      p.(calls := p.calls[c := call.(held := Some(o.id))], store := p.store.(seen := seen), marks := p.marks + [o.id],
         first := if o.id in p.first then p.first else p.first[o.id := call.now], last := call.now)
    else
      p.(calls := p.calls[c := call.(pos := call.pos + 1)])
  }

  function Published(p: Pipeline, capacity: nat, c: nat): Pipeline
    requires Enabled(p, Publish(c))
  {
    var call := p.calls[c];
    p.(calls := p.calls[c := call.(held := None, pos := call.pos + 1)],
       queue := Enqueued(p.queue, capacity, Obs(call.held.value)),
       dropped := if |p.queue| < capacity then p.dropped else p.dropped + [call.held.value])
  }

  /** The loop takes the head of the bus and starts its handler. */
  function Dispatched(p: Pipeline): Pipeline
    requires Enabled(p, Dispatch)
  {
    var q := p.(queue := p.queue[1..]);
    if p.queue[0].Other? then q
    else q.(dispatched := p.dispatched + [p.queue[0].id], current := Some(p.queue[0].id))
  }

  /** A store call of the running handler, after which others may follow. */
  function Touched(p: Pipeline): Pipeline
    requires Enabled(p, Touch)
  {
    p.(store := p.store.(traces := p.store.traces + {p.current.value}))
  }

  /** Its last store call. */
  function Completed(p: Pipeline): Pipeline
    requires Enabled(p, Complete)
  {
    var id := p.current.value;
    p.(store := p.store.(traces := p.store.traces + {id}, effects := p.store.effects + {id}), current := None)
  }

  function Next(p: Pipeline, capacity: nat, m: Move): Pipeline
    requires Enabled(p, m)
  {
    match m
    case Tick(elapsed) => p.(clock := p.clock + elapsed)
    case Arrive(batch) => p.(calls := p.calls + [Call(p.clock, batch, 0, None, false)])
    case Visit(c) => Visited(p, c)
    case Publish(c) => Published(p, capacity, c)
    case Confirm(c) => p.(calls := p.calls[c := p.calls[c].(confirmed := true)])
    case ModulePublishes => p.(queue := Enqueued(p.queue, capacity, Other))
    case Dispatch => Dispatched(p)
    case Touch => Touched(p)
    case Complete => Completed(p)
    case Flush => p.(disk := p.store)
    case Crash => p.(store := p.disk, calls := [], queue := [], current := None,
                     lost := p.lost + (QueueIds(p.queue) + HeldIds(p.calls)))
  }

  /** Moves that are possible one after the other, each of a kind that `allowed` admits. */
  ghost predicate IsRun(p: Pipeline, capacity: nat, moves: seq<Move>, allowed: (Pipeline, Move) -> bool)
    decreases moves
  {
    moves == [] ||
    (Enabled(p, moves[0]) && allowed(p, moves[0]) && IsRun(Next(p, capacity, moves[0]), capacity, moves[1..], allowed))
  }

  /** The state after a run; a move that is not possible ends it. */
  function After(p: Pipeline, capacity: nat, moves: seq<Move>): Pipeline
    decreases moves
  {
    if moves == [] || !Enabled(p, moves[0]) then p else After(Next(p, capacity, moves[0]), capacity, moves[1..])
  }

  // ----- Replaying runs -----

  /** The first move of a run, and the rest of it. */
  lemma Onward(p: Pipeline, capacity: nat, moves: seq<Move>, allowed: (Pipeline, Move) -> bool)
    requires moves != [] && Enabled(p, moves[0]) && allowed(p, moves[0])
    requires IsRun(Next(p, capacity, moves[0]), capacity, moves[1..], allowed)
    ensures IsRun(p, capacity, moves, allowed)
    ensures After(p, capacity, moves) == After(Next(p, capacity, moves[0]), capacity, moves[1..])
  {
  }

  lemma Ended(p: Pipeline, capacity: nat, allowed: (Pipeline, Move) -> bool)
    ensures IsRun(p, capacity, [], allowed) && After(p, capacity, []) == p
  {
  }

  lemma {:induction false} Joined(p: Pipeline, capacity: nat, a: seq<Move>, b: seq<Move>,
                                  allowed: (Pipeline, Move) -> bool)
    requires IsRun(p, capacity, a, allowed) && IsRun(After(p, capacity, a), capacity, b, allowed)
    ensures IsRun(p, capacity, a + b, allowed)
    ensures After(p, capacity, a + b) == After(After(p, capacity, a), capacity, b)
    decreases a
  {
    hide Next, Enabled;
    if a == [] {
      assert a + b == b;
    } else {
      assert (a + b)[1..] == a[1..] + b;
      Joined(Next(p, capacity, a[0]), capacity, a[1..], b, allowed);
    }
  }

  // ----- Counting ids -----

  function QueueIds(queue: seq<Item>): seq<string> {
    if queue == [] then [] else (if queue[0].Obs? then [queue[0].id] else []) + QueueIds(queue[1..])
  }

  lemma {:induction false} QueueIdsSnoc(queue: seq<Item>, x: Item)
    ensures QueueIds(queue + [x]) == QueueIds(queue) + if x.Obs? then [x.id] else []
  {
    if queue == [] {
      assert [x][1..] == [] && [] + [x] == [x];
    } else {
      assert (queue + [x])[1..] == queue[1..] + [x];
      QueueIdsSnoc(queue[1..], x);
      Assoc(if queue[0].Obs? then [queue[0].id] else [], QueueIds(queue[1..]), if x.Obs? then [x.id] else []);
    }
  }

  function Held(c: Call): seq<string> { if c.held.Some? then [c.held.value] else [] }

  function HeldIds(calls: seq<Call>): seq<string> {
    if calls == [] then [] else Held(calls[0]) + HeldIds(calls[1..])
  }

  function Times(ids: seq<string>, id: string): nat {
    if ids == [] then 0 else (if ids[0] == id then 1 else 0) + Times(ids[1..], id)
  }

  lemma {:induction false} TimesAppend(a: seq<string>, b: seq<string>, id: string)
    ensures Times(a + b, id) == Times(a, id) + Times(b, id)
  {
    if a == [] {
      assert a + b == b;
    } else {
      assert (a + b)[1..] == a[1..] + b;
      TimesAppend(a[1..], b, id);
    }
  }

  lemma {:induction false} HeldAppend(calls: seq<Call>, c: Call)
    ensures HeldIds(calls + [c]) == HeldIds(calls) + Held(c)
  {
    if calls == [] {
      assert [c][1..] == [] && [] + [c] == [c];
    } else {
      assert (calls + [c])[1..] == calls[1..] + [c];
      HeldAppend(calls[1..], c);
      Assoc(Held(calls[0]), HeldIds(calls[1..]), Held(c));
    }
  }

  lemma {:induction false} HeldUpdate(calls: seq<Call>, i: nat, c: Call, id: string)
    requires i < |calls|
    ensures Times(HeldIds(calls[i := c]), id) + Times(Held(calls[i]), id)
         == Times(HeldIds(calls), id) + Times(Held(c), id)
  {
    hide Times, Held;
    TimesAppend(Held(calls[0]), HeldIds(calls[1..]), id);
    TimesAppend(Held(calls[i := c][0]), HeldIds(calls[i := c][1..]), id);
    if i == 0 {
      assert calls[i := c][1..] == calls[1..];
    } else {
      assert calls[i := c][1..] == calls[1..][i - 1 := c];
      HeldUpdate(calls[1..], i - 1, c, id);
    }
  }

  // ----- Conservation, in every run -----

  /** Each time an id was marked it was dispatched, is on the bus, is held by a call, was
      dropped by a full bus, or was lost to a crash: exactly one of these. */
  ghost predicate Balanced(p: Pipeline, id: string) {
    Times(p.marks, id) ==
    Times(p.dispatched, id) + Times(QueueIds(p.queue), id) + Times(HeldIds(p.calls), id) + Times(p.dropped, id) +
    Times(p.lost, id)
  }

  lemma One(id: string, other: string)
    ensures Times([other], id) == (if other == id then 1 else 0) && Times([], id) == 0
  {
    assert [other][1..] == [];
  }

  lemma VisitBalanced(p: Pipeline, c: nat, id: string)
    requires Balanced(p, id) && Enabled(p, Visit(c))
    ensures Balanced(Visited(p, c), id)
  {
    hide MarkSeen, HeldIds, QueueIds, Times;
    var o := p.calls[c].batch[p.calls[c].pos];
    HeldUpdate(p.calls, c, Visited(p, c).calls[c], id);
    TimesAppend(p.marks, [o.id], id);
    One(id, o.id);
  }

  lemma PublishBalanced(p: Pipeline, capacity: nat, c: nat, id: string)
    requires Balanced(p, id) && Enabled(p, Publish(c))
    ensures Balanced(Published(p, capacity, c), id)
  {
    hide HeldIds, QueueIds, Times;
    var x := p.calls[c].held.value;
    HeldUpdate(p.calls, c, Published(p, capacity, c).calls[c], id);
    QueueIdsSnoc(p.queue, Obs(x));
    TimesAppend(QueueIds(p.queue), [x], id);
    TimesAppend(p.dropped, [x], id);
    One(id, x);
  }

  lemma DispatchBalanced(p: Pipeline, id: string)
    requires Balanced(p, id) && Enabled(p, Dispatch)
    ensures Balanced(Dispatched(p), id)
  {
    hide HeldIds, Times;
    if p.queue[0].Obs? {
      TimesAppend(p.dispatched, [p.queue[0].id], id);
      TimesAppend([p.queue[0].id], QueueIds(p.queue[1..]), id);
    } else {
      assert [] + QueueIds(p.queue[1..]) == QueueIds(p.queue[1..]);
    }
  }

  lemma CrashBalanced(p: Pipeline, id: string)
    requires Balanced(p, id)
    ensures Balanced(Next(p, 0, Crash), id)
  {
    TimesAppend(p.lost, QueueIds(p.queue) + HeldIds(p.calls), id);
    TimesAppend(QueueIds(p.queue), HeldIds(p.calls), id);
  }

  lemma StepBalanced(p: Pipeline, capacity: nat, m: Move, id: string)
    requires Balanced(p, id) && Enabled(p, m)
    ensures Balanced(Next(p, capacity, m), id)
  {
    hide HeldIds, QueueIds, Visited, Published, Dispatched, Times;
    match m
    case Arrive(batch) =>
      HeldAppend(p.calls, Call(p.clock, batch, 0, None, false));
      TimesAppend(HeldIds(p.calls), [], id);
      One(id, id);
    case Visit(c) => VisitBalanced(p, c, id);
    case Publish(c) => PublishBalanced(p, capacity, c, id);
    case Confirm(c) => HeldUpdate(p.calls, c, p.calls[c].(confirmed := true), id);
    case ModulePublishes =>
      QueueIdsSnoc(p.queue, Other);
      TimesAppend(QueueIds(p.queue), [], id);
      One(id, id);
    case Dispatch => DispatchBalanced(p, id);
    case Crash => CrashBalanced(p, id);
    case _ =>
  }

  lemma {:induction false} Conservation(p: Pipeline, capacity: nat, moves: seq<Move>, id: string)
    requires Balanced(p, id)
    ensures Balanced(After(p, capacity, moves), id)
    decreases moves
  {
    hide Next, Balanced, Enabled;
    if moves != [] && Enabled(p, moves[0]) {
      StepBalanced(p, capacity, moves[0], id);
      Conservation(Next(p, capacity, moves[0]), capacity, moves[1..], id);
    }
  }

  lemma {:induction false} TimesIn(ids: seq<string>, id: string)
    ensures Times(ids, id) > 0 <==> id in ids
  {
    if ids != [] {
      TimesIn(ids[1..], id);
      assert ids == [ids[0]] + ids[1..];
    }
  }

  lemma OldIsNotNew(seen: map<string, Time>, id: string, at: Time)
    ensures MarkSeen(seen, id, at).0 <==> id !in seen
  {
  }

  // ----- Lookups and forgetting -----

  predicate Carries(os: seq<Observation>, id: string) {
    exists i :: 0 <= i < |os| && WellNamed(os[i]) && os[i].id == id
  }

  /** A call looks the id up. */
  predicate LooksUp(p: Pipeline, m: Move, id: string) {
    m.Visit? && Enabled(p, m) &&
    var o := p.calls[m.c].batch[p.calls[m.c].pos];
    WellNamed(o) && o.id == id
  }

  /** A call marks a new id while 200000 or more are remembered, and pruning takes this one,
      which was marked more than 24 hours before the call arrived. */
  predicate Forgets(p: Pipeline, m: Move, id: string) {
    m.Visit? && Enabled(p, m) &&
    var o := p.calls[m.c].batch[p.calls[m.c].pos];
    && WellNamed(o) && o.id !in p.store.seen
    && |p.store.seen| >= DEDUP_LIMIT && id in p.store.seen && p.store.seen[id] < p.calls[m.c].now - DAY
  }

  predicate CrashFree(p: Pipeline, m: Move) { !m.Crash? }

  /** Without crashes an id is remembered from its lookup until a mark forgets it, and it is
      marked exactly when it is looked up and not remembered. */
  lemma StepSeen(p: Pipeline, capacity: nat, m: Move, id: string)
    requires Enabled(p, m) && !m.Crash?
    ensures var q := Next(p, capacity, m);
      && (id in q.store.seen <==> LooksUp(p, m, id) || (id in p.store.seen && !Forgets(p, m, id)))
      && Times(q.marks, id) == Times(p.marks, id) + (if LooksUp(p, m, id) && id !in p.store.seen then 1 else 0)
      && (id in p.store.seen && id in q.store.seen ==> q.store.seen[id] == p.store.seen[id])
  {
    hide MarkSeen, Times;
    if m.Visit? {
      var call := p.calls[m.c];
      var o := call.batch[call.pos];
      OldIsNotNew(p.store.seen, o.id, call.now);
      if WellNamed(o) && o.id !in p.store.seen {
        MarkSeenKeeps(p.store.seen, o.id, call.now, id);
        TimesAppend(p.marks, [o.id], id);
        One(id, o.id);
      }
    }
  }
}
