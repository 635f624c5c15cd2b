/** Snapshots: what a crash at any point leaves behind. The store is any value `T` that
    mutations replace; Flush writes a temporary file, renames it over the snapshot, and
    only then clears the dirty flag, all under the store's lock. */
module Durability {
  import opened Text

  /** The temporary file: absent, cut off in the middle, or complete. */
  datatype Tmp<T> = NoTmp | Cut | Whole(content: T)

  datatype Stage = Idle | Writing | Written | Renamed

  /** `log` holds the store after each mutation that survives (first the empty store),
      `saved` says which of them the snapshot file holds, and `flushed` which of them the
      last completed Flush wrote. */
  datatype Machine<T> = Machine(
    mem: T, dirty: bool, file: Option<T>, tmp: Tmp<T>, stage: Stage,
    log: seq<T>, saved: nat, flushed: nat)

  datatype Step<T> = Mutate(value: T) | BeginFlush | WriteFails | WriteEnds | RenameFails | Rename | ClearDirty | Crash

  /** A mutation waits for the lock that a flush in progress holds; a crash waits for nothing. */
  predicate Enabled<T>(m: Machine<T>, s: Step<T>) {
    match s
    case Mutate(_) => m.stage == Idle
    case BeginFlush => m.stage == Idle && m.dirty
    case WriteFails => m.stage == Writing
    case WriteEnds => m.stage == Writing
    case RenameFails => m.stage == Written
    case Rename => m.stage == Written && m.tmp.Whole?
    case ClearDirty => m.stage == Renamed
    case Crash => true
  }

  /** Open: the snapshot if there is one, otherwise an empty store. */
  function Reopened<T>(m: Machine<T>, empty: T): T {
    if m.file.Some? then m.file.value else empty
  }

  function Next<T>(m: Machine<T>, empty: T, s: Step<T>): Machine<T>
    requires Enabled(m, s) && |m.log| > 0 && m.saved < |m.log|
  {
    match s
    case Mutate(value) => m.(mem := value, dirty := true, log := m.log + [value])
    case BeginFlush => m.(tmp := Cut, stage := Writing)
    case WriteFails => m.(stage := Idle)
    case WriteEnds => m.(tmp := Whole(m.mem), stage := Written)
    case RenameFails => m.(stage := Idle)
    case Rename => m.(file := Some(m.tmp.content), tmp := NoTmp, stage := Renamed, saved := |m.log| - 1)
    case ClearDirty => m.(dirty := false, stage := Idle, flushed := |m.log| - 1)
    case Crash => m.(mem := Reopened(m, empty), dirty := false, stage := Idle, log := m.log[..m.saved + 1])
  }

  function Start<T>(empty: T): Machine<T> {
    Machine(empty, false, None, NoTmp, Idle, [empty], 0, 0)
  }

  ghost predicate Inv<T>(m: Machine<T>, empty: T) {
    && |m.log| > 0 && m.log[0] == empty && m.mem == m.log[|m.log| - 1]
    && m.flushed <= m.saved < |m.log|
    && (if m.file.Some? then m.file.value == m.log[m.saved] else m.saved == 0)
    && (!m.dirty ==> m.saved == |m.log| - 1 && m.stage == Idle)
    && (m.stage == Written && m.tmp.Whole? ==> m.tmp.content == m.mem)
    && (m.stage == Renamed ==> m.saved == |m.log| - 1)
  }

  ghost predicate IsRun<T>(m: Machine<T>, empty: T, steps: seq<Step<T>>)
    decreases steps
  {
    steps == [] ||
    (Enabled(m, steps[0]) && |m.log| > 0 && m.saved < |m.log| && IsRun(Next(m, empty, steps[0]), empty, steps[1..]))
  }

  ghost function After<T>(m: Machine<T>, empty: T, steps: seq<Step<T>>): Machine<T>
    requires IsRun(m, empty, steps)
    decreases steps
  {
    if steps == [] then m else After(Next(m, empty, steps[0]), empty, steps[1..])
  }

  lemma StepKeepsInv<T>(m: Machine<T>, empty: T, s: Step<T>)
    requires Inv(m, empty) && Enabled(m, s)
    ensures Inv(Next(m, empty, s), empty)
  {
  }

  lemma {:induction false} RunKeepsInv<T>(m: Machine<T>, empty: T, steps: seq<Step<T>>)
    requires Inv(m, empty) && IsRun(m, empty, steps)
    ensures Inv(After(m, empty, steps), empty)
    decreases steps
  {
    if steps != [] {
      StepKeepsInv(m, empty, steps[0]);
      RunKeepsInv(Next(m, empty, steps[0]), empty, steps[1..]);
    }
  }

  /** A crash at any point of any run, also in the middle of a flush, reopens to the state
      after some prefix of the mutations that is no older than the last completed flush;
      while the store is not dirty, reopening gives the store in memory. */
  lemma CrashRecovers<T>(empty: T, steps: seq<Step<T>>)
    requires IsRun(Start(empty), empty, steps)
    ensures var m := After(Start(empty), empty, steps);
      && m.flushed <= m.saved < |m.log|
      && Reopened(m, empty) == m.log[m.saved]
      && (!m.dirty ==> Reopened(m, empty) == m.mem)
  {
    RunKeepsInv(Start(empty), empty, steps);
  }

  /** The steps of a flush that nothing goes wrong with. */
  function Flushing<T>(): seq<Step<T>> { [BeginFlush, WriteEnds, Rename, ClearDirty] }

  lemma NextRun<T>(m: Machine<T>, empty: T, steps: seq<Step<T>>)
    requires steps != [] && Enabled(m, steps[0]) && |m.log| > 0 && m.saved < |m.log|
    requires IsRun(Next(m, empty, steps[0]), empty, steps[1..])
    ensures IsRun(m, empty, steps) && After(m, empty, steps) == After(Next(m, empty, steps[0]), empty, steps[1..])
  {
  }

  lemma RunOver<T>(m: Machine<T>, empty: T)
    ensures IsRun(m, empty, []) && After(m, empty, []) == m
  {
  }

  /** A flush can always begin while the store is dirty, and unless something goes wrong it ends with
      the store in memory on disk and not dirty. */
  lemma FlushCompletes<T>(m: Machine<T>, empty: T)
    requires Inv(m, empty) && m.stage == Idle && m.dirty
    ensures IsRun(m, empty, Flushing())
    ensures var n := After(m, empty, Flushing());
      n.file == Some(m.mem) && n.mem == m.mem && !n.dirty && n.stage == Idle && n.flushed == |m.log| - 1
  {
    var steps: seq<Step<T>> := Flushing();
    var m1 := Next(m, empty, BeginFlush);
    var m2 := Next(m1, empty, WriteEnds);
    var m3 := Next(m2, empty, Rename);
    var m4 := Next(m3, empty, ClearDirty);
    hide IsRun, After;
    RunOver(m4, empty);
    assert steps[1..][1..][1..][1..] == [] && steps[1..][1..][1..][0] == ClearDirty;
    assert steps[1..][1..][0] == Rename && steps[1..][0] == WriteEnds;
    NextRun(m3, empty, steps[1..][1..][1..]);
    NextRun(m2, empty, steps[1..][1..]);
    NextRun(m1, empty, steps[1..]);
    NextRun(m, empty, steps);
  }
}
