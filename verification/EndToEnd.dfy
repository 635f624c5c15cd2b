/** From an agent's spool to the dispatch loop. */
module EndToEnd {
  import opened Text
  import opened Model
  import opened State
  import opened Server
  import opened Delivery
  import opened Once
  import opened Spool

  /** Every request of the agent that was confirmed is a confirmed call of the control plane. */
  ghost predicate Served(attempts: seq<Attempt>, p: Pipeline) {
    forall i :: 0 <= i < |attempts| && attempts[i].outcome == Confirmed ==> ServedBy(attempts[i].batch, p)
  }

  ghost predicate ServedBy(b: Batch, p: Pipeline) {
    exists c :: 0 <= c < |p.calls| && p.calls[c].confirmed && p.calls[c].batch == b.observations
  }

  lemma {:induction false} AckedWasConfirmed(attempts: seq<Attempt>, b: Batch)
    requires b in AckedBatches(attempts)
    ensures exists i :: 0 <= i < |attempts| && attempts[i] == Attempt(b, Confirmed)
  {
    if b in AckedBatches(attempts[1..]) {
      AckedWasConfirmed(attempts[1..], b);
      var i :| 0 <= i < |attempts[1..]| && attempts[1..][i] == Attempt(b, Confirmed);
      assert attempts[i + 1] == Attempt(b, Confirmed);
    }
  }

  lemma {:induction false} FateListed(hist: seq<Entry>, fates: seq<Fate>, f: Fate, i: nat)
    requires i < |fates| <= |hist| && fates[i] == f
    ensures hist[i].batch in WithFate(hist, fates, f)
  {
    if i > 0 {
      FateListed(hist[1..], fates[1..], f, i - 1);
    }
  }

  /** An acknowledged batch of the spool is a confirmed call. */
  lemma AcknowledgedWasServed(attempts: seq<Attempt>, hist: seq<Entry>, fates: seq<Fate>, p: Pipeline, i: nat)
    requires i < |fates| <= |hist| && fates[i] == Acknowledged
    requires Reconciled(attempts, hist, fates) && Served(attempts, p)
    ensures ServedBy(hist[i].batch, p)
  {
    FateListed(hist, fates, Acknowledged, i);
    AckedWasConfirmed(attempts, hist[i].batch);
  }

  /** End to end: in every reachable state of an agent whose requests went to the control
      plane, once the bus has drained, each named observation of each acknowledged batch has
      been dispatched exactly once, or was published to a full bus and has not been. */
  lemma AcknowledgedIsDispatched(attempts: seq<Attempt>, hist: seq<Entry>, fates: seq<Fate>, i: nat, j: nat,
                                 clock: Time, disk: Snapshot, capacity: nat, moves: seq<Move>)
    requires i < |fates| <= |hist| && fates[i] == Acknowledged && Reconciled(attempts, hist, fates)
    requires j < |hist[i].batch.observations| && WellNamed(hist[i].batch.observations[j])
    requires IsRun(Start(clock, disk), capacity, moves, CrashFree)
    requires Served(attempts, After(Start(clock, disk), capacity, moves))
    requires After(Start(clock, disk), capacity, moves).queue == []
    requires HeldIds(After(Start(clock, disk), capacity, moves).calls) == []
    requires !Relapses(Start(clock, disk), capacity, moves, hist[i].batch.observations[j].id)
    requires hist[i].batch.observations[j].id !in disk.seen
    ensures var p := After(Start(clock, disk), capacity, moves);
      var id := hist[i].batch.observations[j].id;
      Times(p.dispatched, id) == if Overflowed(Start(clock, disk), capacity, moves, id) then 0 else 1
  {
    hide IsRun, After, Relapses, Reconciled, Served, Overflowed;
    var p := After(Start(clock, disk), capacity, moves);
    AcknowledgedWasServed(attempts, hist, fates, p, i);
    var c :| 0 <= c < |p.calls| && p.calls[c].confirmed && p.calls[c].batch == hist[i].batch.observations;
    ExactlyOnce(clock, disk, capacity, moves, c, j);
  }

  // ----- An agent and the control plane together -----

  /** The agent's records, the call that handles its outstanding request, and the pipeline. */
  datatype Joint = Joint(hist: seq<Entry>, fates: seq<Fate>, attempts: seq<Attempt>, waiting: Option<nat>, p: Pipeline)

  /** Moves of the pipeline, also those that serve other agents, and moves of this agent: a
      batch is enqueued, trimmed or dropped; a request is lost, or arrives and is given up, or
      is answered. */
  datatype JointMove =
    | Plane(move: Move)
    | Enqueued(entry: Entry)
    | Settles(fate: Fate)
    | Loses
    | Sends
    | GivesUp
    | Answers

  predicate JointEnabled(a: Joint, m: JointMove) {
    match m
    case Plane(move) => Enabled(a.p, move) && !move.Crash?
    case Enqueued(_) => true
    case Settles(fate) => a.waiting.None? && |a.fates| < |a.hist| && fate != Acknowledged
    case Loses => a.waiting.None? && |a.fates| < |a.hist|
    case Sends => a.waiting.None? && |a.fates| < |a.hist|
    case GivesUp => a.waiting.Some? && |a.fates| < |a.hist|
    case Answers => a.waiting.Some? && |a.fates| < |a.hist| && Enabled(a.p, Confirm(a.waiting.value))
  }

  /** What a move of the agent is for the pipeline. */
  function Planes(a: Joint, m: JointMove): seq<Move>
    requires JointEnabled(a, m)
  {
    match m
    case Plane(move) => [move]
    case Sends => [Arrive(a.hist[|a.fates|].batch.observations)]
    case Answers => [Confirm(a.waiting.value)]
    case _ => []
  }

  function JointNext(a: Joint, capacity: nat, m: JointMove): Joint
    requires JointEnabled(a, m)
  {
    var q := if Planes(a, m) == [] then a.p else Next(a.p, capacity, Planes(a, m)[0]);
    match m
    case Plane(_) => a.(p := q)
    case Enqueued(entry) => a.(hist := a.hist + [entry])
    case Settles(fate) => a.(fates := a.fates + [fate])
    case Loses => a.(attempts := a.attempts + [Attempt(a.hist[|a.fates|].batch, NotReceived)])
    case Sends => a.(waiting := Some(|a.p.calls|), p := q)
    case GivesUp => a.(waiting := None, attempts := a.attempts + [Attempt(a.hist[|a.fates|].batch, ReplyLost)])
    case Answers =>
      a.(waiting := None, p := q, attempts := a.attempts + [Attempt(a.hist[|a.fates|].batch, Confirmed)],
         fates := a.fates + [Acknowledged])
  }

  /** The records agree, confirmed requests are confirmed calls, and the outstanding request is
      the oldest pending batch. */
  ghost predicate JointOk(a: Joint) {
    && |a.fates| <= |a.hist|
    && Reconciled(a.attempts, a.hist, a.fates)
    && Served(a.attempts, a.p)
    && (a.waiting.Some? ==>
          && |a.fates| < |a.hist| && a.waiting.value < |a.p.calls|
          && a.p.calls[a.waiting.value].batch == a.hist[|a.fates|].batch.observations)
  }

  /** Without a crash calls keep their batches and their confirmations. */
  lemma CallsStay(p: Pipeline, capacity: nat, m: Move, c: nat)
    requires Enabled(p, m) && !m.Crash? && c < |p.calls|
    ensures var q := Next(p, capacity, m);
      c < |q.calls| && q.calls[c].batch == p.calls[c].batch && (p.calls[c].confirmed ==> q.calls[c].confirmed)
  {
    hide MarkSeen;
  }

  lemma StillServed(attempts: seq<Attempt>, p: Pipeline, capacity: nat, m: Move)
    requires Served(attempts, p) && Enabled(p, m) && !m.Crash?
    ensures Served(attempts, Next(p, capacity, m))
  {
    hide Next;
    var q := Next(p, capacity, m);
    forall i | 0 <= i < |attempts| && attempts[i].outcome == Confirmed ensures ServedBy(attempts[i].batch, q) {
      var c :| 0 <= c < |p.calls| && p.calls[c].confirmed && p.calls[c].batch == attempts[i].batch.observations;
      CallsStay(p, capacity, m, c);
    }
  }

  lemma OneMoreServed(attempts: seq<Attempt>, a: Attempt, p: Pipeline)
    requires Served(attempts, p) && (a.outcome == Confirmed ==> ServedBy(a.batch, p))
    ensures Served(attempts + [a], p)
  {
    hide ServedBy;
  }

  lemma JointStep(a: Joint, capacity: nat, m: JointMove)
    requires JointOk(a) && JointEnabled(a, m)
    ensures JointOk(JointNext(a, capacity, m))
  {
    hide Reconciled, Served, Next, ServedBy;
    match m
    case Plane(move) =>
      StillServed(a.attempts, a.p, capacity, move);
      if a.waiting.Some? { CallsStay(a.p, capacity, move, a.waiting.value); }
    case Enqueued(entry) => StillReconciled(a.attempts, a.hist, entry, a.fates);
    case Settles(fate) => Settled(a.attempts, a.hist, a.fates, fate);
    case Loses =>
      Answered(a.attempts, a.hist, a.fates, NotReceived);
      OneMoreServed(a.attempts, Attempt(a.hist[|a.fates|].batch, NotReceived), a.p);
    case Sends =>
      StillServed(a.attempts, a.p, capacity, Planes(a, m)[0]);
      NewCall(a.p, capacity, a.hist[|a.fates|].batch.observations);
    case GivesUp =>
      Answered(a.attempts, a.hist, a.fates, ReplyLost);
      OneMoreServed(a.attempts, Attempt(a.hist[|a.fates|].batch, ReplyLost), a.p);
    case Answers =>
      Answered(a.attempts, a.hist, a.fates, Confirmed);
      StillServed(a.attempts, a.p, capacity, Confirm(a.waiting.value));
      NowConfirmed(a.p, capacity, a.waiting.value, a.hist[|a.fates|].batch);
      OneMoreServed(a.attempts, Attempt(a.hist[|a.fates|].batch, Confirmed),
                    Next(a.p, capacity, Confirm(a.waiting.value)));
  }

  lemma StillReconciled(attempts: seq<Attempt>, hist: seq<Entry>, e: Entry, fates: seq<Fate>)
    requires |fates| <= |hist| && Reconciled(attempts, hist, fates)
    ensures Reconciled(attempts, hist + [e], fates)
  {
    WithFatePrefix(hist, [e], fates, Acknowledged);
  }

  lemma NewCall(p: Pipeline, capacity: nat, batch: seq<Observation>)
    ensures var q := Next(p, capacity, Arrive(batch));
      |q.calls| == |p.calls| + 1 && q.calls[|p.calls|].batch == batch
  {
  }

  lemma NowConfirmed(p: Pipeline, capacity: nat, c: nat, b: Batch)
    requires Enabled(p, Confirm(c)) && p.calls[c].batch == b.observations
    ensures ServedBy(b, Next(p, capacity, Confirm(c)))
  {
    assert Next(p, capacity, Confirm(c)).calls[c].confirmed;
  }

  predicate JointRun(a: Joint, capacity: nat, moves: seq<JointMove>)
    decreases moves
  {
    moves == [] || (JointEnabled(a, moves[0]) && JointRun(JointNext(a, capacity, moves[0]), capacity, moves[1..]))
  }

  function JointAfter(a: Joint, capacity: nat, moves: seq<JointMove>): Joint
    requires JointRun(a, capacity, moves)
    decreases moves
  {
    if moves == [] then a else JointAfter(JointNext(a, capacity, moves[0]), capacity, moves[1..])
  }

  function PlaneMoves(a: Joint, capacity: nat, moves: seq<JointMove>): seq<Move>
    requires JointRun(a, capacity, moves)
    decreases moves
  {
    if moves == [] then []
    else Planes(a, moves[0]) + PlaneMoves(JointNext(a, capacity, moves[0]), capacity, moves[1..])
  }

  /** Every run of an agent with the control plane keeps the records, and is a crash-free run
      of the pipeline. */
  lemma {:induction false} JointRuns(a: Joint, capacity: nat, moves: seq<JointMove>)
    requires JointOk(a) && JointRun(a, capacity, moves)
    ensures JointOk(JointAfter(a, capacity, moves))
    ensures IsRun(a.p, capacity, PlaneMoves(a, capacity, moves), CrashFree)
    ensures JointAfter(a, capacity, moves).p == After(a.p, capacity, PlaneMoves(a, capacity, moves))
    decreases moves
  {
    hide JointOk, Next, Reconciled, Served;
    if moves != [] {
      var b := JointNext(a, capacity, moves[0]);
      JointStep(a, capacity, moves[0]);
      JointRuns(b, capacity, moves[1..]);
      var one, rest := Planes(a, moves[0]), PlaneMoves(b, capacity, moves[1..]);
      if one == [] {
        assert one + rest == rest;
      } else {
        assert one == [one[0]] && (one + rest)[0] == one[0] && (one + rest)[1..] == rest;
        Onward(a.p, capacity, one + rest, CrashFree);
      }
    }
  }

  function JointStart(clock: Time, disk: Snapshot): Joint { Joint([], [], [], None, Start(clock, disk)) }

  /** Over every such run, once the bus has drained, each named observation of each batch that
      the agent counts as acknowledged has been dispatched exactly once, unless a call
      published it while the bus was full. */
  lemma AgentToDispatch(clock: Time, disk: Snapshot, capacity: nat, moves: seq<JointMove>, i: nat, j: nat)
    requires JointRun(JointStart(clock, disk), capacity, moves)
    requires var a := JointAfter(JointStart(clock, disk), capacity, moves);
      && a.p.queue == [] && HeldIds(a.p.calls) == []
      && i < |a.fates| <= |a.hist| && a.fates[i] == Acknowledged
      && j < |a.hist[i].batch.observations| && WellNamed(a.hist[i].batch.observations[j])
      && a.hist[i].batch.observations[j].id !in disk.seen
      && !Relapses(Start(clock, disk), capacity, PlaneMoves(JointStart(clock, disk), capacity, moves),
                   a.hist[i].batch.observations[j].id)
    ensures var a := JointAfter(JointStart(clock, disk), capacity, moves);
      var id := a.hist[i].batch.observations[j].id;
      var served := PlaneMoves(JointStart(clock, disk), capacity, moves);
      Times(a.p.dispatched, id) == if Overflowed(Start(clock, disk), capacity, served, id) then 0 else 1
  {
    hide IsRun, After, Relapses, Reconciled, Served, Overflowed, JointRun, JointAfter, PlaneMoves;
    StartOk(clock, disk);
    JointRuns(JointStart(clock, disk), capacity, moves);
    var a := JointAfter(JointStart(clock, disk), capacity, moves);
    AcknowledgedIsDispatched(a.attempts, a.hist, a.fates, i, j, clock, disk, capacity,
                             PlaneMoves(JointStart(clock, disk), capacity, moves));
  }

  lemma StartOk(clock: Time, disk: Snapshot)
    ensures JointOk(JointStart(clock, disk))
  {
  }
}
