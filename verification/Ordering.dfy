/** The order of deliveries, and the ingest loop as moves of one call. */
module Ordering {
  import opened Text
  import opened Model
  import opened State
  import Control
  import opened EventBus
  import opened Server
  import opened Delivery
  import opened Once

  // ----- Order -----

  /** No crash, a request arrives only when the handling of the one before it has ended, and
      a retry arrives within 24 hours of the first mark of its ids. */
  predicate Serial(p: Pipeline, m: Move) {
    && !m.Crash?
    && (m.Arrive? ==> forall c :: 0 <= c < |p.calls| ==> Finished(p.calls[c]))
    && (m.Visit? && Enabled(p, m) ==>
          forall id :: id in p.first && LooksUp(p, m, id) ==> p.calls[m.c].now <= p.first[id] + DAY)
  }

  /** The ids not known before, without repetitions, in the order of their first occurrence. */
  function Firsts(ids: seq<string>, known: set<string>): seq<string> {
    if ids == [] then []
    else
      var id := ids[|ids| - 1];
      var before := ids[..|ids| - 1];
      Firsts(before, known) + if id in before || id in known then [] else [id]
  }

  lemma {:induction false} FirstsSnoc(ids: seq<string>, id: string, known: set<string>)
    ensures Firsts(ids + [id], known) == Firsts(ids, known) + if id in ids || id in known then [] else [id]
  {
    assert (ids + [id])[..|ids|] == ids;
  }

  lemma {:induction false} FirstsIn(ids: seq<string>, known: set<string>, id: string)
    ensures id in Firsts(ids, known) <==> id in ids && id !in known
  {
    if ids != [] {
      FirstsIn(ids[..|ids| - 1], known, id);
      assert ids == ids[..|ids| - 1] + [ids[|ids| - 1]];
    }
  }

  /** The ids that ingest looks up: those of observations with an id and a type. */
  function Ids(os: seq<Observation>): seq<string> {
    if os == [] then []
    else
      var o := os[|os| - 1];
      Ids(os[..|os| - 1]) + if WellNamed(o) then [o.id] else []
  }

  lemma IdsNext(os: seq<Observation>, n: nat)
    requires n < |os|
    ensures Ids(os[..n + 1]) == Ids(os[..n]) + if WellNamed(os[n]) then [os[n].id] else []
  {
    assert os[..n + 1][..n] == os[..n];
  }

  /** The part of its batch that a call has looked up. */
  function Part(c: Call): seq<Observation> {
    if c.pos >= |c.batch| then c.batch else if c.held.Some? then c.batch[..c.pos + 1] else c.batch[..c.pos]
  }

  /** The ids looked up so far, call by call. */
  function Looked(calls: seq<Call>): seq<string> {
    if calls == [] then [] else Looked(calls[..|calls| - 1]) + Ids(Part(calls[|calls| - 1]))
  }

  /** Only the latest call is still being handled; the ids marked are the first occurrences
      among those looked up; and if nothing was dropped, they leave in that order. */
  ghost predicate InOrder(p: Pipeline, known: set<string>) {
    && (forall i :: 0 <= i < |p.calls| - 1 ==> Finished(p.calls[i]))
    && (forall i :: 0 <= i < |p.calls| ==> HoldsCurrent(p.calls[i]))
    && p.marks == Firsts(Looked(p.calls), known)
    && (p.dropped == [] ==> (p.dispatched + QueueIds(p.queue)) + HeldLast(p.calls) == p.marks)
  }

  /** Marks are in order of time, and an id is known to be first seen exactly if it was marked
      or known before. */
  ghost predicate InTime(p: Pipeline, known: set<string>) {
    && p.last <= p.clock
    && (p.calls != [] ==> p.last <= p.calls[|p.calls| - 1].now <= p.clock)
    && (forall id :: id in p.first <==> id in p.marks || id in known)
    && (forall id :: PromptKept(p, id))
  }

  lemma SerialIsPrompt(p: Pipeline, m: Move, known: set<string>)
    requires InOrder(p, known) && InTime(p, known) && Enabled(p, m) && Serial(p, m)
    ensures Prompt(p, m)
  {
    hide LooksUp, Looked, Firsts, PromptKept;
  }

  lemma StepInTime(p: Pipeline, capacity: nat, m: Move, known: set<string>)
    requires InOrder(p, known) && InTime(p, known) && Enabled(p, m) && Serial(p, m)
    ensures InTime(Next(p, capacity, m), known)
  {
    SerialIsPrompt(p, m, known);
    hide Serial, Prompt, Looked, Firsts, QueueIds, HeldIds, MarkSeen, LooksUp, PromptKept;
    var q := Next(p, capacity, m);
    forall id ensures PromptKept(q, id) {
      PromptStep(p, capacity, m, id);
    }
    forall id ensures id in q.first <==> id in q.marks || id in known {
      StepFirst(p, capacity, m, id);
      MarksGrow(p, capacity, m, id);
    }
    if m.Visit? {
      OldIsNotNew(p.store.seen, p.calls[m.c].batch[p.calls[m.c].pos].id, p.calls[m.c].now);
    }
  }

  lemma MarksGrow(p: Pipeline, capacity: nat, m: Move, id: string)
    requires Enabled(p, m)
    ensures id in Next(p, capacity, m).marks <==> id in p.marks || (LooksUp(p, m, id) && id !in p.store.seen)
  {
    hide MarkSeen;
    if m.Visit? {
      var o := p.calls[m.c].batch[p.calls[m.c].pos];
      OldIsNotNew(p.store.seen, o.id, p.calls[m.c].now);
      assert forall k :: k in p.marks + [o.id] <==> k in p.marks || k == o.id;
    }
  }

  /** In such a run the store remembers exactly the ids that were seen before, as far as they
      are looked up. */
  lemma SerialFinds(p: Pipeline, c: nat, known: set<string>)
    requires InOrder(p, known) && InTime(p, known) && Enabled(p, Visit(c)) && Serial(p, Visit(c))
    ensures var o := p.calls[c].batch[p.calls[c].pos];
      WellNamed(o) ==> (o.id in p.store.seen <==> o.id in p.marks || o.id in known)
  {
    SerialIsPrompt(p, Visit(c), known);
    hide MarkSeen, Looked, Firsts, Ids, QueueIds, Serial;
    var o := p.calls[c].batch[p.calls[c].pos];
    if WellNamed(o) {
      PromptStep(p, 0, Visit(c), o.id);
      assert PromptKept(p, o.id);
    }
  }

  predicate IsNamed(o: Observation, id: string) { WellNamed(o) && o.id == id }

  predicate HoldsCurrent(c: Call) {
    && c.pos <= |c.batch|
    && (c.held.Some? ==> c.pos < |c.batch| && IsNamed(c.batch[c.pos], c.held.value))
  }

  function HeldLast(calls: seq<Call>): seq<string> { if calls == [] then [] else Held(calls[|calls| - 1]) }

  /** Only the latest call changes, and its part of the batch grows by `more`. */
  lemma LookedUpdate(calls: seq<Call>, c: Call, more: seq<string>)
    requires calls != [] && Ids(Part(c)) == Ids(Part(calls[|calls| - 1])) + more
    ensures Looked(calls[|calls| - 1 := c]) == Looked(calls) + more
  {
    var n := |calls| - 1;
    assert calls[n := c][..n] == calls[..n];
    Assoc(Looked(calls[..n]), Ids(Part(calls[n])), more);
  }

  lemma VisitLooked(p: Pipeline, c: nat)
    requires Enabled(p, Visit(c)) && c == |p.calls| - 1
    ensures var o := p.calls[c].batch[p.calls[c].pos];
      Looked(Visited(p, c).calls) == Looked(p.calls) + if WellNamed(o) then [o.id] else []
  {
    hide MarkSeen, Looked, Ids;
    var call := p.calls[c];
    var o := call.batch[call.pos];
    var q := Visited(p, c);
    OldIsNotNew(p.store.seen, o.id, call.now);
    IdsNext(call.batch, call.pos);
    assert call.batch[..|call.batch|] == call.batch;
    assert Part(call) == call.batch[..call.pos] && Part(q.calls[c]) == call.batch[..call.pos + 1];
    LookedUpdate(p.calls, q.calls[c], if WellNamed(o) then [o.id] else []);
  }

  lemma VisitInOrder(p: Pipeline, c: nat, known: set<string>)
    requires InOrder(p, known) && InTime(p, known) && Enabled(p, Visit(c)) && Serial(p, Visit(c))
    ensures InOrder(Visited(p, c), known)
  {
    hide MarkSeen, Looked, Firsts, Ids, QueueIds, Times, Serial, InTime, LooksUp, Part;
    assert c == |p.calls| - 1;
    SerialFinds(p, c, known);
    VisitLooked(p, c);
    var call := p.calls[c];
    var o := call.batch[call.pos];
    OldIsNotNew(p.store.seen, o.id, call.now);
    FirstsSnoc(Looked(p.calls), o.id, known);
    FirstsIn(Looked(p.calls), known, o.id);
    assert Looked(p.calls) + [] == Looked(p.calls) && p.marks + [] == p.marks;
  }

  lemma PublishInOrder(p: Pipeline, capacity: nat, c: nat, known: set<string>)
    requires InOrder(p, known) && Enabled(p, Publish(c))
    ensures InOrder(Published(p, capacity, c), known)
  {
    hide Looked, Firsts, Ids, QueueIds;
    var call := p.calls[c];
    var q := Published(p, capacity, c);
    assert c == |p.calls| - 1;
    assert Part(call) == Part(q.calls[c]) by {
      assert call.batch[..|call.batch|] == call.batch;
    }
    assert Ids(Part(call)) + [] == Ids(Part(call)) && Looked(p.calls) + [] == Looked(p.calls);
    LookedUpdate(p.calls, q.calls[c], []);
    QueueIdsSnoc(p.queue, Obs(call.held.value));
    Assoc(p.dispatched, QueueIds(p.queue), [call.held.value]);
    assert QueueIds(p.queue) + [] == QueueIds(p.queue);
    assert (p.dispatched + QueueIds(q.queue)) + [] == p.dispatched + QueueIds(q.queue);
  }

  lemma DispatchInOrder(p: Pipeline, known: set<string>)
    requires InOrder(p, known) && Enabled(p, Dispatch)
    ensures InOrder(Dispatched(p), known)
  {
    hide Looked, Firsts, Ids;
    if p.queue[0].Obs? {
      Assoc(p.dispatched, [p.queue[0].id], QueueIds(p.queue[1..]));
    } else {
      assert [] + QueueIds(p.queue[1..]) == QueueIds(p.queue[1..]);
    }
  }

  lemma ArriveInOrder(p: Pipeline, batch: seq<Observation>, known: set<string>)
    requires InOrder(p, known) && Serial(p, Arrive(batch))
    ensures InOrder(Next(p, 0, Arrive(batch)), known)
  {
    hide Firsts, QueueIds, LooksUp, Looked;
    NewCallLooked(p.calls, Call(p.clock, batch, 0, None, false));
    hide Part;
    if p.calls != [] {
      assert Finished(p.calls[|p.calls| - 1]);
    }
  }

  /** A request that has just arrived has looked nothing up. */
  lemma NewCallLooked(calls: seq<Call>, c: Call)
    requires c.pos == 0 && c.held.None?
    ensures Looked(calls + [c]) == Looked(calls)
  {
    assert (calls + [c])[..|calls|] == calls;
    assert Part(c) == [];
    assert Looked(calls) + [] == Looked(calls);
  }

  lemma StepInOrder(p: Pipeline, capacity: nat, m: Move, known: set<string>)
    requires InOrder(p, known) && InTime(p, known) && Enabled(p, m) && Serial(p, m)
    ensures InOrder(Next(p, capacity, m), known)
  {
    hide Looked, Firsts, Ids, QueueIds, Visited, Published, Dispatched, Times, InTime, LooksUp;
    match m
    case Arrive(batch) => ArriveInOrder(p, batch, known);
    case Visit(c) => VisitInOrder(p, c, known);
    case Publish(c) => PublishInOrder(p, capacity, c, known);
    case Confirm(c) =>
      assert Ids(Part(p.calls[c])) + [] == Ids(Part(p.calls[c])) && Looked(p.calls) + [] == Looked(p.calls);
      ConfirmLooked(p.calls, c);
    case ModulePublishes =>
      QueueIdsSnoc(p.queue, Other);
      assert QueueIds(p.queue) + [] == QueueIds(p.queue);
    case Dispatch => DispatchInOrder(p, known);
    case _ =>
  }

  lemma SamePart(c: Call)
    ensures Part(c.(confirmed := true)) == Part(c)
  {
  }

  lemma {:induction false} ConfirmLooked(calls: seq<Call>, c: nat)
    requires c < |calls|
    ensures Looked(calls[c := calls[c].(confirmed := true)]) == Looked(calls)
  {
    hide Ids, Part;
    var n := |calls| - 1;
    var d := calls[c].(confirmed := true);
    SamePart(calls[c]);
    if c < n {
      assert calls[c := d][..n] == calls[..n][c := d] && calls[c := d][n] == calls[n];
      ConfirmLooked(calls[..n], c);
    } else {
      assert calls[c := d][..n] == calls[..n];
    }
  }

  lemma {:induction false} RunInOrder(p: Pipeline, capacity: nat, moves: seq<Move>, known: set<string>)
    requires InOrder(p, known) && InTime(p, known) && IsRun(p, capacity, moves, Serial)
    ensures InOrder(After(p, capacity, moves), known)
    decreases moves
  {
    hide Next, InOrder, InTime, Serial, Enabled;
    if moves != [] {
      StepInOrder(p, capacity, moves[0], known);
      StepInTime(p, capacity, moves[0], known);
      RunInOrder(Next(p, capacity, moves[0]), capacity, moves[1..], known);
    }
  }

  /** When requests are handled one at a time, retries arrive within 24 hours and nothing is
      dropped, a drained bus has dispatched exactly the ids that were new, once each, in the
      order of the requests and of the observations in them. */
  lemma OrderKept(clock: Time, disk: Snapshot, capacity: nat, moves: seq<Move>)
    requires IsRun(Start(clock, disk), capacity, moves, Serial)
    requires var p := After(Start(clock, disk), capacity, moves);
      p.queue == [] && p.dropped == [] && forall c :: 0 <= c < |p.calls| ==> Finished(p.calls[c])
    ensures var p := After(Start(clock, disk), capacity, moves);
      p.dispatched == Firsts(Looked(p.calls), disk.seen.Keys)
  {
    hide Next, Enabled, Serial, IsRun, After;
    var p := After(Start(clock, disk), capacity, moves);
    RunInOrder(Start(clock, disk), capacity, moves, disk.seen.Keys);
    assert (p.dispatched + []) + [] == p.dispatched;
  }

  // ----- One call at a time is the ingest loop -----

  /** The bus seen as ids: events whose type starts with "observation." carry one. */
  function Items(events: seq<Control.Event>): seq<Item> {
    if events == [] then []
    else Items(events[..|events| - 1]) + [ItemOf(events[|events| - 1])]
  }

  function ItemOf(ev: Control.Event): Item { if "observation." <= ev.eventType then Obs(ev.id) else Other }

  lemma {:induction false} ItemsSnoc(events: seq<Control.Event>, ev: Control.Event)
    ensures Items(events + [ev]) == Items(events) + [ItemOf(ev)]
    ensures |Items(events)| == |events|
  {
    assert (events + [ev])[..|events|] == events;
    if events != [] {
      ItemsSnoc(events[..|events| - 1], ev);
    }
  }

  /** A call handles its next observation while nothing else happens. */
  function Attended(p: Pipeline, capacity: nat, c: nat): Pipeline
    requires Enabled(p, Visit(c))
  {
    var v := Visited(p, c);
    if v.calls[c].held.Some? then Published(v, capacity, c) else v
  }

  /** A call handles the rest of its batch while nothing else happens. */
  function Handled(p: Pipeline, capacity: nat, c: nat): Pipeline
    requires c < |p.calls| && p.calls[c].held.None? && p.calls[c].pos <= |p.calls[c].batch|
    decreases |p.calls[c].batch| - p.calls[c].pos
  {
    if p.calls[c].pos == |p.calls[c].batch| then p
    else Handled(Attended(p, capacity, c), capacity, c)
  }

  predicate Agrees(p: Pipeline, s: IngestState) { p.store.seen == s.seen && p.queue == Items(s.queue) }

  lemma OneAgrees(p: Pipeline, s: IngestState, capacity: nat, c: nat, source: string, hostId: string)
    requires Agrees(p, s) && Enabled(p, Visit(c))
    ensures var call := p.calls[c];
      var q := Attended(p, capacity, c);
      && Agrees(q, Accept(s, capacity, call.batch[call.pos], source, hostId, call.now))
      && q.calls == p.calls[c := call.(pos := call.pos + 1)]
  {
    hide MarkSeen, Items;
    var call := p.calls[c];
    var o := call.batch[call.pos];
    ItemsSnoc(s.queue, EventOf(o, source, hostId, call.now));
    OldIsNotNew(p.store.seen, o.id, call.now);
  }

  /** The moves of one undisturbed call remember and publish what the ingest loop does. */
  lemma {:induction false} CallIsIngest(p: Pipeline, s: IngestState, capacity: nat, c: nat, source: string,
                                        hostId: string)
    requires c < |p.calls| && p.calls[c].held.None? && p.calls[c].pos <= |p.calls[c].batch|
    requires Agrees(p, s)
    ensures var call := p.calls[c];
      Agrees(Handled(p, capacity, c), AcceptAll(s, capacity, call.batch[call.pos..], source, hostId, call.now))
    decreases |p.calls[c].batch| - p.calls[c].pos
  {
    hide Agrees, Accept, Attended;
    var call := p.calls[c];
    if call.pos < |call.batch| {
      OneAgrees(p, s, capacity, c, source, hostId);
      var q := Attended(p, capacity, c);
      assert call.batch[call.pos..][1..] == call.batch[call.pos + 1..];
      CallIsIngest(q, Accept(s, capacity, call.batch[call.pos], source, hostId, call.now), capacity, c, source, hostId);
    }
  }
}
