/** The delivery pipeline on top of a snapshot file that is written in stages: a crash in the
    middle of a flush, or in the middle of a handler, is no worse than a crash between moves. */
module Snapshots {
  import opened Text
  import opened Delivery
  import opened Recovery
  import Durability

  datatype Both = Both(p: Pipeline, m: Durability.Machine<Snapshot>)

  /** A move of the pipeline, or a stage of a flush, or a crash. */
  datatype Deed = Act(move: Move) | Write(step: Durability.Step<Snapshot>)

  /** Memory and file of the machine are store and disk of the pipeline. */
  ghost predicate Linked(b: Both) {
    && Durability.Inv(b.m, Nothing())
    && b.m.mem == b.p.store
    && Durability.Reopened(b.m, Nothing()) == b.p.disk
  }

  /** A flush in progress holds the lock that a change of the store needs; nothing else waits. */
  predicate Possible(b: Both, capacity: nat, x: Deed) {
    match x
    case Act(move) =>
      && Enabled(b.p, move) && !move.Flush? && !move.Crash?
      && (Next(b.p, capacity, move).store != b.p.store ==> b.m.stage == Durability.Idle)
    case Write(step) => !step.Mutate? && Durability.Enabled(b.m, step)
  }

  ghost function Done(b: Both, capacity: nat, x: Deed): Both
    requires Linked(b) && Possible(b, capacity, x)
  {
    match x
    case Act(move) =>
      var q := Next(b.p, capacity, move);
      Both(q, if q.store == b.p.store then b.m else Durability.Next(b.m, Nothing(), Durability.Mutate(q.store)))
    case Write(step) =>
      Both(if step.Rename? then Next(b.p, capacity, Flush) else if step.Crash? then Next(b.p, capacity, Crash) else b.p,
           Durability.Next(b.m, Nothing(), step))
  }

  lemma StepLinked(b: Both, capacity: nat, x: Deed)
    requires Linked(b) && Possible(b, capacity, x)
    ensures Linked(Done(b, capacity, x))
  {
    hide Next;
    match x
    case Act(move) => DiskStays(b.p, capacity, move);
    case Write(step) => FlushAndCrash(b.p, capacity);
  }

  lemma FlushAndCrash(p: Pipeline, capacity: nat)
    ensures Next(p, capacity, Flush).store == p.store && Next(p, capacity, Flush).disk == p.store
    ensures Next(p, capacity, Crash).store == p.disk && Next(p, capacity, Crash).disk == p.disk
  {
  }

  lemma DiskStays(p: Pipeline, capacity: nat, m: Move)
    requires Enabled(p, m) && !m.Flush? && !m.Crash?
    ensures Next(p, capacity, m).disk == p.disk
  {
  }

  ghost predicate IsDone(b: Both, capacity: nat, deeds: seq<Deed>, id: string)
    decreases deeds
  {
    deeds == [] ||
    (Linked(b) && Possible(b, capacity, deeds[0]) && (deeds[0].Act? ==> !Forgets(b.p, deeds[0].move, id))
     && IsDone(Done(b, capacity, deeds[0]), capacity, deeds[1..], id))
  }

  ghost function AllDone(b: Both, capacity: nat, deeds: seq<Deed>, id: string): Both
    requires IsDone(b, capacity, deeds, id)
    decreases deeds
  {
    if deeds == [] then b else AllDone(Done(b, capacity, deeds[0]), capacity, deeds[1..], id)
  }

  /** The moves of the pipeline that deeds amount to: a flush happens when the new file is
      renamed over the old one. */
  function Moves(deeds: seq<Deed>): seq<Move> {
    if deeds == [] then []
    else
      (match deeds[0]
       case Act(move) => [move]
       case Write(step) => if step.Rename? then [Flush] else if step.Crash? then [Crash] else [])
      + Moves(deeds[1..])
  }

  /** Every run with staged flushes, and with crashes at any point of them, is a run of the
      pipeline with flushes in one move. */
  lemma {:induction false} FlushesRefine(b: Both, capacity: nat, deeds: seq<Deed>, id: string)
    requires Linked(b) && IsDone(b, capacity, deeds, id)
    ensures IsRun(b.p, capacity, Moves(deeds), Keeping(id))
    ensures AllDone(b, capacity, deeds, id).p == After(b.p, capacity, Moves(deeds))
    ensures Linked(AllDone(b, capacity, deeds, id))
    decreases deeds
  {
    hide Next, Durability.Next, Linked, Forgets;
    if deeds != [] {
      var c := Done(b, capacity, deeds[0]);
      StepLinked(b, capacity, deeds[0]);
      FlushesRefine(c, capacity, deeds[1..], id);
      var rest := Moves(deeds[1..]);
      match deeds[0]
      case Act(move) => OneMore(b.p, capacity, move, rest, id);
      case Write(step) =>
        NeverForget(b.p, id);
        if step.Rename? {
          OneMore(b.p, capacity, Flush, rest, id);
        } else if step.Crash? {
          OneMore(b.p, capacity, Crash, rest, id);
        } else {
          assert [] + rest == rest;
        }
    }
  }

  lemma OneMore(p: Pipeline, capacity: nat, m: Move, rest: seq<Move>, id: string)
    requires Enabled(p, m) && !Forgets(p, m, id) && IsRun(Next(p, capacity, m), capacity, rest, Keeping(id))
    ensures IsRun(p, capacity, [m] + rest, Keeping(id))
    ensures After(p, capacity, [m] + rest) == After(Next(p, capacity, m), capacity, rest)
  {
    assert ([m] + rest)[1..] == rest;
    Onward(p, capacity, [m] + rest, Keeping(id));
  }

  lemma NeverForget(p: Pipeline, id: string)
    ensures !Forgets(p, Flush, id) && !Forgets(p, Crash, id)
  {
  }

  /** A crash at any point of any run, inside a flush or a handler, reopens to a snapshot in
      which an observation with any effect is remembered; and it loses an observation for
      good if and only if that snapshot remembers it without its complete effect. */
  lemma CrashAnywhere(clock: int, capacity: nat, deeds: seq<Deed>, id: string)
    requires id != "" && capacity > 0
    requires IsDone(Both(Start(clock, Nothing()), Durability.Start(Nothing())), capacity, deeds, id)
    ensures var b := AllDone(Both(Start(clock, Nothing()), Durability.Start(Nothing())), capacity, deeds, id);
      var file := Durability.Reopened(b.m, Nothing());
      && Consistent(file, id)
      && (LostForGood(Next(b.p, capacity, Crash), capacity, id) <==> id in file.seen && id !in file.effects)
  {
    hide IsRun, After, IsDone, AllDone, LostForGood, Durability.IsRun, Moves;
    var start := Both(Start(clock, Nothing()), Durability.Start(Nothing()));
    var b := AllDone(start, capacity, deeds, id);
    FlushesRefine(start, capacity, deeds, id);
    EffectsOnce(clock, Nothing(), capacity, Moves(deeds), id);
    LostForGoodExactly(b.p, capacity, id);
  }
}
