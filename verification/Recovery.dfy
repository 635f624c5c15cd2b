/** Crashes: which effects a store holds, and what a crash loses for good. */
module Recovery {
  import opened Text
  import opened Model
  import opened State
  import Control
  import opened EventBus
  import opened Server
  import opened Delivery

  // ----- Effects -----

  /** Crashes are allowed; no mark forgets this id. */
  function Keeping(id: string): (Pipeline, Move) -> bool {
    (p: Pipeline, m: Move) => !Forgets(p, m, id)
  }

  /** Held by a call or on the bus. */
  function Waiting(p: Pipeline, id: string): nat { Times(QueueIds(p.queue), id) + Times(HeldIds(p.calls), id) }

  /** Waiting, or in the handler that is running. */
  function InFlight(p: Pipeline, id: string): nat { Waiting(p, id) + if p.current == Some(id) then 1 else 0 }

  /** A snapshot with any effect of an observation remembers its id. */
  ghost predicate Consistent(s: Snapshot, id: string) {
    && (id in s.effects ==> id in s.traces)
    && (id in s.traces ==> id in s.seen)
  }

  /** Memory and disk are consistent; an observation on its way is on its way only once, is
      remembered, and is not complete; while it waits it has left no trace. */
  ghost predicate Sound(p: Pipeline, id: string) {
    && Consistent(p.store, id) && Consistent(p.disk, id)
    && InFlight(p, id) <= 1
    && (InFlight(p, id) == 1 ==> id in p.store.seen && id !in p.store.effects)
    && (Waiting(p, id) == 1 ==> id !in p.store.traces)
  }

  lemma VisitSound(p: Pipeline, c: nat, id: string)
    requires Sound(p, id) && Enabled(p, Visit(c)) && !Forgets(p, Visit(c), id)
    ensures Sound(Visited(p, c), id)
  {
    hide MarkSeen, HeldIds, QueueIds, Times;
    var o := p.calls[c].batch[p.calls[c].pos];
    HeldUpdate(p.calls, c, Visited(p, c).calls[c], id);
    One(id, o.id);
    OldIsNotNew(p.store.seen, o.id, p.calls[c].now);
    if WellNamed(o) && o.id !in p.store.seen {
      MarkSeenKeeps(p.store.seen, o.id, p.calls[c].now, id);
    }
  }

  lemma PublishSound(p: Pipeline, capacity: nat, c: nat, id: string)
    requires Sound(p, id) && Enabled(p, Publish(c))
    ensures Sound(Published(p, capacity, c), id)
  {
    hide HeldIds, QueueIds, Times;
    var x := p.calls[c].held.value;
    HeldUpdate(p.calls, c, Published(p, capacity, c).calls[c], id);
    QueueIdsSnoc(p.queue, Obs(x));
    TimesAppend(QueueIds(p.queue), [x], id);
    One(id, x);
  }

  lemma DispatchSound(p: Pipeline, id: string)
    requires Sound(p, id) && Enabled(p, Dispatch)
    ensures Sound(Dispatched(p), id)
    ensures p.queue[0] == Obs(id) ==> id !in p.store.traces
  {
    hide HeldIds;
    if p.queue[0].Obs? {
      TimesAppend([p.queue[0].id], QueueIds(p.queue[1..]), id);
      One(id, p.queue[0].id);
    } else {
      assert [] + QueueIds(p.queue[1..]) == QueueIds(p.queue[1..]);
    }
  }

  lemma StepSound(p: Pipeline, capacity: nat, m: Move, id: string)
    requires Sound(p, id) && Enabled(p, m) && !Forgets(p, m, id)
    ensures Sound(Next(p, capacity, m), id)
  {
    hide HeldIds, QueueIds, Visited, Published, Dispatched, Times;
    match m
    case Arrive(batch) =>
      HeldAppend(p.calls, Call(p.clock, batch, 0, None, false));
      TimesAppend(HeldIds(p.calls), [], id);
      One(id, id);
    case Visit(c) => VisitSound(p, c, id);
    case Publish(c) => PublishSound(p, capacity, c, id);
    case Confirm(c) => HeldUpdate(p.calls, c, p.calls[c].(confirmed := true), id);
    case ModulePublishes =>
      QueueIdsSnoc(p.queue, Other);
      TimesAppend(QueueIds(p.queue), [], id);
      One(id, id);
    case Dispatch => DispatchSound(p, id);
    case Touch =>
    case Complete =>
    case Crash =>
      NothingInFlight(p, capacity, id);
    case _ =>
  }

  lemma NothingInFlight(p: Pipeline, capacity: nat, id: string)
    ensures InFlight(Next(p, capacity, Crash), id) == 0
  {
  }

  lemma {:induction false} RunSound(p: Pipeline, capacity: nat, moves: seq<Move>, id: string)
    requires Sound(p, id) && IsRun(p, capacity, moves, Keeping(id))
    ensures Sound(After(p, capacity, moves), id)
    decreases moves
  {
    hide Next, Sound, Enabled, Forgets;
    if moves != [] {
      StepSound(p, capacity, moves[0], id);
      RunSound(Next(p, capacity, moves[0]), capacity, moves[1..], id);
    }
  }

  /** Over every run with crashes at any point in which an id is not forgotten, also in the
      middle of a handler, every snapshot that contains any effect of its observation also
      remembers the id, and the dispatch loop never hands the observation to its handler when
      the store already contains any effect of it. */
  lemma EffectsOnce(clock: Time, disk: Snapshot, capacity: nat, moves: seq<Move>, id: string)
    requires Consistent(disk, id)
    requires IsRun(Start(clock, disk), capacity, moves, Keeping(id))
    ensures var p := After(Start(clock, disk), capacity, moves);
      && Consistent(p.store, id) && Consistent(p.disk, id)
      && (p.current.None? && p.queue != [] && p.queue[0] == Obs(id) ==> id !in p.store.traces)
  {
    hide IsRun, After, Keeping;
    var p := After(Start(clock, disk), capacity, moves);
    RunSound(Start(clock, disk), capacity, moves, id);
    if p.current.None? && p.queue != [] && p.queue[0] == Obs(id) {
      DispatchSound(p, id);
    }
  }

  // ----- Lost for good -----

  /** Whatever happens from here on, retries and further crashes included, the effect is never
      complete, unless a mark forgets the id. */
  ghost predicate LostForGood(p: Pipeline, capacity: nat, id: string) {
    forall moves :: IsRun(p, capacity, moves, Keeping(id)) ==> id !in After(p, capacity, moves).store.effects
  }

  /** Remembered, without complete effect, and not on its way, in memory and on disk. */
  ghost predicate Doomed(p: Pipeline, id: string) {
    && id in p.store.seen && id !in p.store.effects
    && id in p.disk.seen && id !in p.disk.effects
    && InFlight(p, id) == 0
  }

  lemma VisitDoomed(p: Pipeline, c: nat, id: string)
    requires Doomed(p, id) && Enabled(p, Visit(c)) && !Forgets(p, Visit(c), id)
    ensures Doomed(Visited(p, c), id)
  {
    hide MarkSeen, HeldIds, QueueIds, Times;
    var o := p.calls[c].batch[p.calls[c].pos];
    HeldUpdate(p.calls, c, Visited(p, c).calls[c], id);
    One(id, o.id);
    OldIsNotNew(p.store.seen, o.id, p.calls[c].now);
    if WellNamed(o) && o.id !in p.store.seen {
      MarkSeenKeeps(p.store.seen, o.id, p.calls[c].now, id);
    }
  }

  /** Publishing moves an id from a call to the bus or drops it. */
  lemma PublishFlight(p: Pipeline, capacity: nat, c: nat, id: string)
    requires Enabled(p, Publish(c))
    ensures InFlight(Published(p, capacity, c), id) <= InFlight(p, id)
  {
    hide HeldIds, QueueIds, Times;
    var x := p.calls[c].held.value;
    HeldUpdate(p.calls, c, Published(p, capacity, c).calls[c], id);
    QueueIdsSnoc(p.queue, Obs(x));
    TimesAppend(QueueIds(p.queue), [x], id);
    One(id, x);
  }

  /** Dispatching moves an id from the bus to its handler. */
  lemma DispatchFlight(p: Pipeline, id: string)
    requires Enabled(p, Dispatch)
    ensures InFlight(Dispatched(p), id) == InFlight(p, id)
  {
    hide HeldIds;
    if p.queue[0].Obs? {
      TimesAppend([p.queue[0].id], QueueIds(p.queue[1..]), id);
      One(id, p.queue[0].id);
    } else {
      assert [] + QueueIds(p.queue[1..]) == QueueIds(p.queue[1..]);
    }
  }

  /** A handler adds the effect of its own observation only. */
  lemma CompleteFlight(p: Pipeline, id: string)
    requires Enabled(p, Complete) && InFlight(p, id) == 0
    ensures InFlight(Completed(p), id) == 0
    ensures id in Completed(p).store.effects <==> id in p.store.effects
    ensures Completed(p).store.seen == p.store.seen && Completed(p).disk == p.disk && Completed(p).calls == p.calls
  {
    hide HeldIds, QueueIds, Times;
  }

  /** The other moves put nothing on its way. */
  lemma OtherFlight(p: Pipeline, capacity: nat, m: Move, id: string)
    requires Enabled(p, m) && !m.Visit? && !m.Publish? && !m.Dispatch? && !m.Complete?
    ensures InFlight(Next(p, capacity, m), id) <= InFlight(p, id)
  {
    hide HeldIds, QueueIds, Times;
    match m
    case Arrive(batch) =>
      HeldAppend(p.calls, Call(p.clock, batch, 0, None, false));
      TimesAppend(HeldIds(p.calls), [], id);
      One(id, id);
    case Confirm(c) => HeldUpdate(p.calls, c, p.calls[c].(confirmed := true), id);
    case ModulePublishes =>
      QueueIdsSnoc(p.queue, Other);
      TimesAppend(QueueIds(p.queue), [], id);
      One(id, id);
    case Crash => NothingInFlight(p, capacity, id);
    case _ =>
  }

  lemma StepDoomed(p: Pipeline, capacity: nat, m: Move, id: string)
    requires Doomed(p, id) && Enabled(p, m) && !Forgets(p, m, id)
    ensures Doomed(Next(p, capacity, m), id)
  {
    hide InFlight, Visited, Published, Dispatched, Completed, MarkSeen;
    match m
    case Visit(c) => VisitDoomed(p, c, id);
    case Publish(c) => PublishFlight(p, capacity, c, id); PublishStores(p, capacity, c);
    case Dispatch => DispatchFlight(p, id); DispatchStores(p);
    case Complete => CompleteFlight(p, id);
    case _ => OtherFlight(p, capacity, m, id);
  }

  lemma PublishStores(p: Pipeline, capacity: nat, c: nat)
    requires Enabled(p, Publish(c))
    ensures Published(p, capacity, c).store == p.store && Published(p, capacity, c).disk == p.disk
  {
  }

  lemma DispatchStores(p: Pipeline)
    requires Enabled(p, Dispatch)
    ensures Dispatched(p).store == p.store && Dispatched(p).disk == p.disk && Dispatched(p).calls == p.calls
  {
  }

  lemma {:induction false} RunDoomed(p: Pipeline, capacity: nat, moves: seq<Move>, id: string)
    requires Doomed(p, id) && IsRun(p, capacity, moves, Keeping(id))
    ensures Doomed(After(p, capacity, moves), id)
    decreases moves
  {
    hide Next, Doomed, Enabled, Forgets;
    if moves != [] {
      StepDoomed(p, capacity, moves[0], id);
      RunDoomed(Next(p, capacity, moves[0]), capacity, moves[1..], id);
    }
  }

  lemma DoomedIsLost(p: Pipeline, capacity: nat, id: string)
    requires Doomed(p, id)
    ensures LostForGood(p, capacity, id)
  {
    hide IsRun, After, Keeping;
    forall moves | IsRun(p, capacity, moves, Keeping(id)) ensures id !in After(p, capacity, moves).store.effects {
      RunDoomed(p, capacity, moves, id);
    }
  }

  function Carrying(id: string): seq<Observation> { [Observation(id, "t", 0, Control.Unreadable)] }

  function Redelivering(id: string): seq<Move> { [Arrive(Carrying(id)), Visit(0), Publish(0), Dispatch, Complete] }

  /** One more request delivers an observation that is not remembered. */
  lemma Redelivered(p: Pipeline, capacity: nat, id: string)
    requires id != "" && capacity > 0 && id !in p.store.seen
    requires p.calls == [] && p.queue == [] && p.current.None?
    ensures IsRun(p, capacity, Redelivering(id), Keeping(id))
    ensures id in After(p, capacity, Redelivering(id)).store.effects
  {
    hide MarkSeen, IsRun, After, QueueIds, HeldIds;
    var ms := Redelivering(id);
    var p1 := Next(p, capacity, ms[0]);
    assert p1.calls == [Call(p.clock, Carrying(id), 0, None, false)];
    OldIsNotNew(p1.store.seen, id, p.clock);
    var p2 := Next(p1, capacity, ms[1]);
    var p3 := Next(p2, capacity, ms[2]);
    assert p3.queue == [Obs(id)];
    var p4 := Next(p3, capacity, ms[3]);
    Ended(Next(p4, capacity, ms[4]), capacity, Keeping(id));
    Onward(p4, capacity, ms[4..], Keeping(id));
    Onward(p3, capacity, ms[3..], Keeping(id));
    Onward(p2, capacity, ms[2..], Keeping(id));
    Onward(p1, capacity, ms[1..], Keeping(id));
    Onward(p, capacity, ms, Keeping(id));
  }

  /** A crash loses an observation for good, or leaves it half handled for good, if and only if
      the snapshot remembers its id without holding its complete effect: every retry is then a
      duplicate. */
  lemma LostForGoodExactly(p: Pipeline, capacity: nat, id: string)
    requires id != "" && capacity > 0
    ensures LostForGood(Next(p, capacity, Crash), capacity, id) <==> id in p.disk.seen && id !in p.disk.effects
  {
    var q := Next(p, capacity, Crash);
    NothingInFlight(p, capacity, id);
    Ended(q, capacity, Keeping(id));
    hide IsRun, After, Keeping, InFlight;
    if id in p.disk.seen && id !in p.disk.effects {
      DoomedIsLost(q, capacity, id);
    } else if id !in p.disk.seen {
      Redelivered(q, capacity, id);
    }
  }

  /** A clean shutdown stops the dispatch loop, flushes and ends: it loses for good exactly the
      observations that are remembered and not complete yet, such as all those on the bus. */
  lemma ShutdownLoses(p: Pipeline, capacity: nat, id: string)
    requires id != "" && capacity > 0
    ensures LostForGood(Next(Next(p, capacity, Flush), capacity, Crash), capacity, id)
       <==> id in p.store.seen && id !in p.store.effects
    ensures Sound(p, id) && InFlight(p, id) > 0 ==>
      LostForGood(Next(Next(p, capacity, Flush), capacity, Crash), capacity, id)
  {
    hide LostForGood, InFlight;
    LostForGoodExactly(Next(p, capacity, Flush), capacity, id);
  }

  // ----- Lost unless retried -----

  /** No request carries the id. */
  function Unretried(id: string): (Pipeline, Move) -> bool {
    (p: Pipeline, m: Move) => m.Arrive? ==> !Carries(m.batch, id)
  }

  ghost predicate LostUnlessRetried(p: Pipeline, capacity: nat, id: string) {
    forall moves :: IsRun(p, capacity, moves, Unretried(id)) ==> id !in After(p, capacity, moves).store.effects
  }

  ghost predicate Absent(p: Pipeline, id: string) {
    && id !in p.store.effects && id !in p.disk.effects && InFlight(p, id) == 0
    && forall c :: 0 <= c < |p.calls| ==> !Carries(p.calls[c].batch, id)
  }

  lemma VisitAbsent(p: Pipeline, c: nat, id: string)
    requires Absent(p, id) && Enabled(p, Visit(c))
    ensures Absent(Visited(p, c), id)
  {
    hide MarkSeen, HeldIds, QueueIds, Times;
    var o := p.calls[c].batch[p.calls[c].pos];
    assert !Carries(p.calls[c].batch, id);
    HeldUpdate(p.calls, c, Visited(p, c).calls[c], id);
    One(id, o.id);
  }

  lemma PublishBatches(p: Pipeline, capacity: nat, c: nat, id: string)
    requires Enabled(p, Publish(c)) && forall i :: 0 <= i < |p.calls| ==> !Carries(p.calls[i].batch, id)
    ensures var calls := Published(p, capacity, c).calls;
      forall i :: 0 <= i < |calls| ==> !Carries(calls[i].batch, id)
  {
    hide Carries;
  }

  lemma StepAbsent(p: Pipeline, capacity: nat, m: Move, id: string)
    requires Absent(p, id) && Enabled(p, m) && (m.Arrive? ==> !Carries(m.batch, id))
    ensures Absent(Next(p, capacity, m), id)
  {
    hide InFlight, Visited, Published, Dispatched, Completed, MarkSeen, Carries;
    match m
    case Visit(c) => VisitAbsent(p, c, id);
    case Publish(c) =>
      PublishFlight(p, capacity, c, id);
      PublishStores(p, capacity, c);
      PublishBatches(p, capacity, c, id);
    case Dispatch => DispatchFlight(p, id); DispatchStores(p);
    case Complete => CompleteFlight(p, id);
    case _ => OtherFlight(p, capacity, m, id);
  }

  lemma {:induction false} RunAbsent(p: Pipeline, capacity: nat, moves: seq<Move>, id: string)
    requires Absent(p, id) && IsRun(p, capacity, moves, Unretried(id))
    ensures Absent(After(p, capacity, moves), id)
    decreases moves
  {
    hide Next, Absent, Enabled, Carries;
    if moves != [] {
      StepAbsent(p, capacity, moves[0], id);
      RunAbsent(Next(p, capacity, moves[0]), capacity, moves[1..], id);
    }
  }

  /** Without a retry, a crash loses an observation if and only if the snapshot lacks its
      effect, confirmed or not. */
  lemma LostUnlessRetriedExactly(p: Pipeline, capacity: nat, id: string)
    ensures LostUnlessRetried(Next(p, capacity, Crash), capacity, id) <==> id !in p.disk.effects
  {
    var q := Next(p, capacity, Crash);
    NothingInFlight(p, capacity, id);
    hide InFlight;
    assert IsRun(q, capacity, [], Unretried(id)) && After(q, capacity, []) == q;
    hide IsRun, After, Unretried;
    if id !in p.disk.effects {
      forall moves | IsRun(q, capacity, moves, Unretried(id)) ensures id !in After(q, capacity, moves).store.effects {
        RunAbsent(q, capacity, moves, id);
      }
    }
  }

  // ----- Witnesses -----

  function Nothing(): Snapshot { Snapshot(map[], {}, {}) }

  function Confirming(id: string): seq<Move> { [Arrive(Carrying(id)), Visit(0), Publish(0), Confirm(0), Crash] }

  function Reconfirming(id: string): seq<Move> {
    [Arrive(Carrying(id)), Visit(0), Flush, Crash, Arrive(Carrying(id)), Visit(0), Confirm(0)]
  }

  lemma LostWhileQueued(p: Pipeline, capacity: nat, id: string)
    requires p.queue == [Obs(id)] && p.calls == [Call(p.clock, Carrying(id), 1, None, false)]
    ensures IsRun(p, capacity, Confirming(id)[3..], Keeping(id))
    ensures var q := After(p, capacity, Confirming(id)[3..]);
      q.lost == p.lost + [id] && q.dispatched == p.dispatched && q.store == p.disk
  {
    hide MarkSeen, IsRun, After;
    var ms := Confirming(id);
    var p4 := Next(p, capacity, ms[3]);
    assert QueueIds([Obs(id)]) == [id] by {
      assert [Obs(id)][1..] == [];
    }
    assert p4.calls == [Call(p.clock, Carrying(id), 1, None, true)] && HeldIds(p4.calls) == [] by {
      assert p4.calls[1..] == [];
    }
    assert [id] + [] == [id];
    Ended(Next(p4, capacity, Crash), capacity, Keeping(id));
    Onward(p4, capacity, ms[4..], Keeping(id));
    Onward(p, capacity, ms[3..], Keeping(id));
  }

  /** A confirmed observation can be lost: the reply does not wait for a flush. */
  lemma ConfirmedThenLost(id: string, capacity: nat)
    requires id != "" && capacity > 0
    ensures IsRun(Start(0, Nothing()), capacity, Confirming(id), Keeping(id))
    ensures var q := After(Start(0, Nothing()), capacity, Confirming(id));
      q.lost == [id] && q.dispatched == [] && q.store == Nothing()
  {
    hide MarkSeen, IsRun, After, QueueIds, HeldIds;
    var ms := Confirming(id);
    var p0 := Start(0, Nothing());
    var p1 := Next(p0, capacity, ms[0]);
    assert p1.calls == [Call(0, Carrying(id), 0, None, false)];
    OldIsNotNew(p1.store.seen, id, 0);
    var p2 := Next(p1, capacity, ms[1]);
    assert p2.calls == [Call(0, Carrying(id), 0, Some(id), false)];
    var p3 := Next(p2, capacity, ms[2]);
    assert p3.calls == [Call(0, Carrying(id), 1, None, false)];
    LostWhileQueued(p3, capacity, id);
    Onward(p2, capacity, ms[2..], Keeping(id));
    Onward(p1, capacity, ms[1..], Keeping(id));
    Onward(p0, capacity, ms, Keeping(id));
  }

  /** A retry of a doomed observation is confirmed as a duplicate. */
  lemma RetryConfirmed(p: Pipeline, capacity: nat, id: string)
    requires Doomed(p, id) && id != "" && p.calls == []
    ensures IsRun(p, capacity, Reconfirming(id)[4..], Keeping(id))
    ensures var q := After(p, capacity, Reconfirming(id)[4..]);
      && |q.calls| == 1 && q.calls[0].confirmed && q.calls[0].batch == Carrying(id)
      && q.dispatched == p.dispatched && Doomed(q, id)
  {
    hide IsRun, After, MarkSeen, Doomed;
    DoomedIsSeen(p, id);
    var p1 := Next(p, capacity, Arrive(Carrying(id)));
    assert p1.calls == [Call(p.clock, Carrying(id), 0, None, false)];
    OldIsNotNew(p1.store.seen, id, p.clock);
    var p2 := Next(p1, capacity, Visit(0));
    assert p2.calls == [Call(p.clock, Carrying(id), 1, None, false)];
    var p3 := Next(p2, capacity, Confirm(0));
    assert p3.calls == [Call(p.clock, Carrying(id), 1, None, true)];
    StepDoomed(p, capacity, Arrive(Carrying(id)), id);
    StepDoomed(p1, capacity, Visit(0), id);
    StepDoomed(p2, capacity, Confirm(0), id);
    Ended(p3, capacity, Keeping(id));
    var ms := Reconfirming(id)[4..];
    Onward(p2, capacity, ms[2..], Keeping(id));
    Onward(p1, capacity, ms[1..], Keeping(id));
    Onward(p, capacity, ms, Keeping(id));
  }

  lemma DoomedIsSeen(p: Pipeline, id: string)
    requires Doomed(p, id)
    ensures id in p.store.seen
  {
  }

  /** Worse, a retry does not always help: if the mark was flushed before the crash and the
      effect was not, the retry is confirmed as a duplicate and the observation is lost for
      good. */
  lemma ConfirmedThenLostForGood(id: string, capacity: nat)
    requires id != "" && capacity > 0
    ensures IsRun(Start(0, Nothing()), capacity, Reconfirming(id), Keeping(id))
    ensures var q := After(Start(0, Nothing()), capacity, Reconfirming(id));
      && |q.calls| == 1 && q.calls[0].confirmed && q.calls[0].batch == Carrying(id)
      && q.dispatched == [] && LostForGood(q, capacity, id)
  {
    hide IsRun, After, MarkSeen, LostForGood;
    var p0 := Start(0, Nothing());
    var p1 := Next(p0, capacity, Arrive(Carrying(id)));
    assert p1.calls == [Call(0, Carrying(id), 0, None, false)];
    OldIsNotNew(map[], id, 0);
    MarkSeenKeeps(map[], id, 0, id);
    var p2 := Next(p1, capacity, Visit(0));
    var p3 := Next(p2, capacity, Flush);
    var p4 := Next(p3, capacity, Crash);
    NothingInFlight(p3, capacity, id);
    assert Doomed(p4, id);
    hide Doomed;
    RetryConfirmed(p4, capacity, id);
    var ms := Reconfirming(id);
    Onward(p3, capacity, ms[3..], Keeping(id));
    Onward(p2, capacity, ms[2..], Keeping(id));
    Onward(p1, capacity, ms[1..], Keeping(id));
    Onward(p0, capacity, ms, Keeping(id));
    DoomedIsLost(After(p0, capacity, ms), capacity, id);
  }
}
