/** The agent's on-disk spool and its flush loop. */
module Spool {
  import opened Text
  import opened Sorting
  import opened Model
  import opened State
  import opened Server
  import Store

  // ----- File names -----

  /** fmt.Sprintf("%d-%09d.json", UnixNano, number of observations). */
  function Name(ts: nat, n: nat): string {
    Dec(ts) + ("-" + (Pad(n, 9) + ".json"))
  }

  /** Timestamps of 19 digits: 2001 to 2262, where 64-bit nanoseconds end. */
  predicate WideTime(ts: nat) { Pow10(18) <= ts < Pow10(19) }

  /** A name tells the time and the size of its batch. */
  lemma NameReads(ts: nat, n: nat)
    ensures ReadDigits(Name(ts, n), 0) == (ts, "-" + (Pad(n, 9) + ".json"))
    ensures ReadDigits(Pad(n, 9) + ".json", 0) == (n, ".json")
  {
    ReadDec(ts, "-" + (Pad(n, 9) + ".json"));
    ReadPad(n, 9, ".json");
  }

  lemma {:induction false} StrLessExtend(u: string, v: string, x: string, y: string)
    requires |u| == |v| && StrLess(u, v)
    ensures StrLess(u + x, v + y)
  {
    assert (u + x)[1..] == u[1..] + x && (v + y)[1..] == v[1..] + y;
    if u[0] == v[0] {
      StrLessExtend(u[1..], v[1..], x, y);
    }
  }

  lemma {:induction false} StrLessSamePrefix(p: string, x: string, y: string)
    requires StrLess(x, y)
    ensures StrLess(p + x, p + y)
  {
    if p == "" {
      assert p + x == x && p + y == y;
    } else {
      assert (p + x)[1..] == p[1..] + x && (p + y)[1..] == p[1..] + y;
      StrLessSamePrefix(p[1..], x, y);
    }
  }

  lemma {:induction false} DecOrder(a: nat, b: nat)
    requires a < b && |Dec(a)| == |Dec(b)|
    ensures StrLess(Dec(a), Dec(b))
  {
    if b >= 10 {
      DecIsDigits(a / 10);
      DecIsDigits(b / 10);
      if a / 10 < b / 10 {
        DecOrder(a / 10, b / 10);
        StrLessExtend(Dec(a / 10), Dec(b / 10), [Digit(a % 10)], [Digit(b % 10)]);
      } else {
        StrLessSamePrefix(Dec(a / 10), [Digit(a % 10)], [Digit(b % 10)]);
      }
    } else {
      DecIsDigits(a);
    }
  }

  lemma WideDigits(ts: nat)
    requires WideTime(ts)
    ensures |Dec(ts)| == 19
  {
    DecWidth(ts, 18);
    DecWidth(ts, 19);
  }

  /** Sorting names as strings is sorting batches by time. */
  lemma NamesChronological(a: nat, b: nat, n: nat, m: nat)
    requires a < b && WideTime(a) && WideTime(b)
    ensures StrLess(Name(a, n), Name(b, m))
  {
    WideDigits(a);
    WideDigits(b);
    DecOrder(a, b);
    StrLessExtend(Dec(a), Dec(b), "-" + (Pad(n, 9) + ".json"), "-" + (Pad(m, 9) + ".json"));
  }

  /** Why the width matters: across a change of width the order is reversed. */
  lemma NarrowNamesReversed()
    ensures StrLess(Name(10, 1), Name(9, 1))
  {
    assert Dec(10) == Dec(1) + [Digit(0)];
    assert Name(10, 1)[0] == '1' && Name(9, 1)[0] == '9';
  }

  // ----- Batches and their fates -----

  /** What became of an enqueued batch that is no longer pending. */
  datatype Fate = Acknowledged | TrimmedAway | DroppedCorrupt

  datatype Entry = Entry(ts: nat, batch: Batch)

  function NameOf(e: Entry): string { Name(e.ts, |e.batch.observations|) }

  /** A spool file: a batch, or bytes that do not parse. */
  datatype File = Intact(batch: Batch) | Damaged

  function Repeat(f: Fate, n: nat): seq<Fate> { seq(n, _ => f) }

  lemma RepeatNone(before: seq<Fate>, f: Fate)
    ensures before + Repeat(f, 0) == before
  {
  }

  lemma RepeatSnoc(before: seq<Fate>, f: Fate, n: nat)
    ensures before + Repeat(f, n) + [f] == before + Repeat(f, n + 1)
  {
  }

  /** The batches with a given fate, in the order in which they were enqueued. */
  function WithFate(hist: seq<Entry>, fates: seq<Fate>, f: Fate): seq<Batch>
    requires |fates| <= |hist|
  {
    if fates == [] then []
    else (if fates[0] == f then [hist[0].batch] else []) + WithFate(hist[1..], fates[1..], f)
  }

  lemma {:induction false} WithFateSnoc(hist: seq<Entry>, fates: seq<Fate>, g: Fate, f: Fate)
    requires |fates| < |hist|
    ensures WithFate(hist, fates + [g], f) == WithFate(hist, fates, f) + if g == f then [hist[|fates|].batch] else []
  {
    if fates == [] {
      assert [g][1..] == [] && ([] + [g]) == [g];
    } else {
      assert (fates + [g])[1..] == fates[1..] + [g];
      WithFateSnoc(hist[1..], fates[1..], g, f);
      var head := if fates[0] == f then [hist[0].batch] else [];
      Assoc(head, WithFate(hist[1..], fates[1..], f), if g == f then [hist[|fates|].batch] else []);
    }
  }

  lemma {:induction false} WithFatePrefix(hist: seq<Entry>, more: seq<Entry>, fates: seq<Fate>, f: Fate)
    requires |fates| <= |hist|
    ensures WithFate(hist + more, fates, f) == WithFate(hist, fates, f)
  {
    if fates != [] {
      assert (hist + more)[1..] == hist[1..] + more;
      WithFatePrefix(hist[1..], more, fates[1..], f);
    }
  }

  lemma {:induction false} WithFateRepeat(hist: seq<Entry>, fates: seq<Fate>, n: nat, f: Fate)
    requires |fates| + n <= |hist| && f != TrimmedAway
    ensures WithFate(hist, fates + Repeat(TrimmedAway, n), f) == WithFate(hist, fates, f)
  {
    if n == 0 {
      assert fates + Repeat(TrimmedAway, 0) == fates;
    } else {
      WithFateRepeat(hist, fates, n - 1, f);
      assert fates + Repeat(TrimmedAway, n) == (fates + Repeat(TrimmedAway, n - 1)) + [TrimmedAway];
      WithFateSnoc(hist, fates + Repeat(TrimmedAway, n - 1), TrimmedAway, f);
    }
  }

  function NamesOf(es: seq<Entry>): (r: seq<string>)
    ensures |r| == |es|
  {
    seq(|es|, i requires 0 <= i < |es| => NameOf(es[i]))
  }

  ghost predicate Chronological(hist: seq<Entry>) {
    && (forall i :: 0 <= i < |hist| ==> WideTime(hist[i].ts))
    && forall i, j :: 0 <= i < j < |hist| ==> hist[i].ts < hist[j].ts
  }

  lemma NamesIncrease(hist: seq<Entry>, k: nat)
    requires Chronological(hist) && k <= |hist|
    ensures Increasing(StrLess, NamesOf(hist[k..]))
  {
    var es := hist[k..];
    forall i, j | 0 <= i < j < |es| ensures StrLess(NamesOf(es)[i], NamesOf(es)[j]) {
      NamesChronological(es[i].ts, es[j].ts, |es[i].batch.observations|, |es[j].batch.observations|);
    }
  }

  // ----- The spool -----

  /** Pending files are exactly the batches without a fate, which are the newest ones, and
      they read as their batch unless they were damaged. */
  ghost predicate FilesOk(dir: map<string, File>, hist: seq<Entry>, k: nat, damaged: set<string>)
    requires k <= |hist|
  {
    && dir.Keys == (set n | n in NamesOf(hist[k..]))
    && forall i :: k <= i < |hist| ==> FileOk(dir, hist[i], damaged)
  }

  ghost predicate FileOk(dir: map<string, File>, e: Entry, damaged: set<string>) {
    NameOf(e) in dir && dir[NameOf(e)] == if NameOf(e) in damaged then Damaged else Intact(e.batch)
  }

  /** Dropped as corrupt exactly if damaged; a batch trimmed away was never read. */
  ghost predicate FateOk(e: Entry, f: Fate, damaged: set<string>) {
    f == TrimmedAway || (f == DroppedCorrupt <==> NameOf(e) in damaged)
  }

  ghost predicate FatesOk(hist: seq<Entry>, fates: seq<Fate>, damaged: set<string>) {
    |fates| <= |hist| && forall i :: 0 <= i < |fates| ==> FateOk(hist[i], fates[i], damaged)
  }

  function Excess(n: int): nat { if n > 0 then n else 0 }

  lemma TakeFiles(dir: map<string, File>, hist: seq<Entry>, k: nat, damaged: set<string>)
    requires Chronological(hist) && k < |hist| && FilesOk(dir, hist, k, damaged)
    ensures FilesOk(dir - {NameOf(hist[k])}, hist, k + 1, damaged)
    ensures NamesOf(hist[k..]) == [NameOf(hist[k])] + NamesOf(hist[k + 1..])
  {
    HeadOnly(hist, k);
    hide NameOf, Chronological;
    var names := NamesOf(hist[k + 1..]);
    hide NamesOf;
    var rest := dir - {NameOf(hist[k])};
    forall i | k < i < |hist| ensures FileOk(rest, hist[i], damaged) {
      assert FileOk(dir, hist[i], damaged);
    }
  }

  lemma AddFile(dir: map<string, File>, hist: seq<Entry>, k: nat, damaged: set<string>, e: Entry)
    requires k <= |hist| && FilesOk(dir, hist, k, damaged) && NameOf(e) !in damaged
    requires NamesOf((hist + [e])[k..]) == NamesOf(hist[k..]) + [NameOf(e)]
    requires forall i :: 0 <= i < |hist| ==> NameOf(hist[i]) != NameOf(e)
    ensures FilesOk(dir[NameOf(e) := Intact(e.batch)], hist + [e], k, damaged)
  {
    hide NameOf, NamesOf;
    var more := dir[NameOf(e) := Intact(e.batch)];
    forall i | k <= i < |hist| ensures FileOk(more, hist[i], damaged) {
      assert FileOk(dir, hist[i], damaged);
    }
    assert forall n :: n in NamesOf((hist + [e])[k..]) <==> n in NamesOf(hist[k..]) || n == NameOf(e);
  }

  lemma DamageFile(dir: map<string, File>, hist: seq<Entry>, fates: seq<Fate>, damaged: set<string>, name: string)
    requires Chronological(hist) && FatesOk(hist, fates, damaged) && FilesOk(dir, hist, |fates|, damaged) && name in dir
    ensures FilesOk(dir[name := Damaged], hist, |fates|, damaged + {name})
    ensures FatesOk(hist, fates, damaged + {name})
    ensures name in NamesOf(hist)
  {
    hide NameOf, Chronological;
    assert name in NamesOf(hist[|fates|..]);
    var j :| |fates| <= j < |hist| && NameOf(hist[j]) == name;
    assert NamesOf(hist)[j] == name;
    hide NamesOf;
    forall i | 0 <= i < |fates| ensures FateOk(hist[i], fates[i], damaged + {name}) {
      HeadOnly(hist, i);
      assert FateOk(hist[i], fates[i], damaged);
    }
    forall i | |fates| <= i < |hist| ensures FileOk(dir[name := Damaged], hist[i], damaged + {name}) {
      assert FileOk(dir, hist[i], damaged);
    }
  }

  class Spool {
    /** The names ending in ".json" that do not start with a dot. */
    var dir: map<string, File>
    const maxN: nat
    /** Everything ever enqueued, what became of the batches before the pending ones, and the
        names of all files that were ever damaged. */
    ghost var hist: seq<Entry>
    ghost var fates: seq<Fate>
    ghost var damaged: set<string>

    ghost predicate Valid()
      reads this
    {
      && maxN > 0
      && Chronological(hist)
      && FatesOk(hist, fates, damaged)
      && FilesOk(dir, hist, |fates|, damaged)
      && forall n :: n in damaged ==> n in NamesOf(hist)
    }

    constructor (maxN: int)
      ensures Valid() && hist == [] && fates == [] && damaged == {}
      ensures this.maxN == if maxN <= 0 then 1000 else maxN
    {
      this.maxN := if maxN <= 0 then 1000 else maxN;
      dir, hist, fates, damaged := map[], [], [], {};
    }

    /** The queue in order: exactly the batches without a fate, oldest first. */
    method Pending() returns (names: seq<string>)
      requires Valid()
      ensures names == NamesOf(hist[|fates|..])
    {
      names := Store.ListKeys(dir.Keys);
      PendingSorted();
    }

    lemma PendingSorted()
      requires Valid()
      ensures SortedKeys(dir.Keys) == NamesOf(hist[|fates|..])
    {
      SortedKeysIs(dir.Keys);
      NamesIncrease(hist, |fates|);
      StrLessTotal();
      IncreasingUnique(StrLess, SortedKeys(dir.Keys), NamesOf(hist[|fates|..]));
    }

    method Load(name: string) returns (b: Option<Batch>)
      ensures b == if name in dir && dir[name].Intact? then Some(dir[name].batch) else None
    {
      if name in dir && dir[name].Intact? {
        return Some(dir[name].batch);
      }
      return None;
    }

    /** The oldest pending name heads the listing, and its file reads as its batch unless it
        was damaged. */
    lemma Oldest(names: seq<string>)
      requires Valid() && names == NamesOf(hist[|fates|..]) && names != []
      ensures |fates| < |hist| && names[0] == NameOf(hist[|fates|])
      ensures FileOk(dir, hist[|fates|], damaged)
    {
      assert |names| == |hist[|fates|..]|;
    }

    /** Any file may be removed; a missing one is an error, and the disk may refuse. */
    method Remove(name: string, fails: bool) returns (ok: bool)
      modifies this`dir
      ensures ok <==> name in old(dir) && !fails
      ensures dir == if ok then old(dir) - {name} else old(dir)
    {
      if name !in dir || fails {
        return false;
      }
      dir := dir - {name};
      return true;
    }

    /** Removes the oldest pending batch for a reason that fits its file. */
    method RemoveOldest(name: string, ghost why: Fate)
      requires Valid() && |fates| < |hist| && name == NameOf(hist[|fates|]) && FateOk(hist[|fates|], why, damaged)
      modifies this`dir, this`fates
      ensures Valid() && fates == old(fates) + [why]
      ensures dir == old(dir) - {name}
      ensures |fates| <= |hist| && NamesOf(hist[old(|fates|)..]) == [name] + NamesOf(hist[|fates|..])
    {
      hide FilesOk, Chronological, NameOf, NamesOf, FateOk;
      TakeFiles(dir, hist, |fates|, damaged);
      var ok := Remove(name, false);
      assert !ok ==> dir - {name} == dir;
      fates := fates + [why];
    }

    method Trim()
      requires Valid()
      modifies this`dir, this`fates
      ensures Valid()
      ensures fates == old(fates) + Repeat(TrimmedAway, Excess(|hist| - |old(fates)| - maxN))
    {
      hide *;
      var names := Pending();
      ghost var before := fates;
      ghost var removed := 0;
      ghost var pending := |names|;
      RepeatNone(before, TrimmedAway);
      PendingCount();
      while |names| > maxN
        invariant Valid()
        invariant |fates| <= |hist| && names == NamesOf(hist[|fates|..])
        invariant 0 <= removed && |names| == pending - removed
        invariant fates == before + Repeat(TrimmedAway, removed)
        invariant removed > 0 ==> |names| >= maxN
        decreases |names|
      {
        Oldest(names);
        RepeatSnoc(before, TrimmedAway, removed);
        TrimFits(hist[|fates|], damaged);
        RemoveOldest(names[0], TrimmedAway);
        DropFirst([names[0]], NamesOf(hist[|fates|..]));
        names := names[1..];
        removed := removed + 1;
      }
      ExcessIs(pending - maxN, removed);
    }

    lemma PendingCount()
      requires Valid()
      ensures maxN > 0 && |fates| <= |hist| && |NamesOf(hist[|fates|..])| == |hist| - |fates|
    {
    }

    /** A batch is written under a temporary name and renamed; either can fail. */
    method Enqueue(b: Batch, ts: nat, fails: bool) returns (ok: bool)
      requires Valid() && WideTime(ts)
      requires forall i :: 0 <= i < |hist| ==> hist[i].ts < ts
      modifies this`dir, this`hist, this`fates
      ensures Valid()
      ensures ok <==> !fails
      ensures !ok ==> dir == old(dir) && hist == old(hist) && fates == old(fates)
      ensures ok ==> hist == old(hist) + [Entry(ts, b)] && |hist| - |fates| <= maxN
      ensures ok ==> fates == old(fates) + Repeat(TrimmedAway, Excess(|hist| - |old(fates)| - maxN))
    {
      if fails {
        return false;
      }
      ghost var e := Entry(ts, b);
      Appended(hist, |fates|, e);
      NotDamaged(hist, damaged, e);
      AddFile(dir, hist, |fates|, damaged, e);
      hide FilesOk, Chronological, NameOf, FateOk, Repeat;
      dir := dir[Name(ts, |b.observations|) := Intact(b)];
      hist := hist + [e];
      assert Valid() by {
        hide NamesOf, Name;
        NameOfEntry(ts, b);
        StillNamed(old(hist), e, damaged);
      }
      Trim();
      return true;
    }

    /** The disk may damage any pending file. */
    method Damage(name: string)
      requires Valid() && name in dir
      modifies this`dir, this`damaged
      ensures Valid() && dir == old(dir)[name := Damaged] && damaged == old(damaged) + {name}
    {
      DamageFile(dir, hist, fates, damaged, name);
      hide FilesOk, Chronological, NameOf, NamesOf, FatesOk;
      dir := dir[name := Damaged];
      damaged := damaged + {name};
    }
  }

  lemma TrimFits(e: Entry, damaged: set<string>)
    ensures FateOk(e, TrimmedAway, damaged)
  {
  }

  lemma ExcessIs(n: int, removed: nat)
    requires n <= removed && (removed > 0 ==> n >= removed)
    ensures Excess(n) == removed
  {
  }

  lemma NameOfEntry(ts: nat, b: Batch)
    ensures NameOf(Entry(ts, b)) == Name(ts, |b.observations|)
  {
  }

  lemma NotDamaged(hist: seq<Entry>, damaged: set<string>, e: Entry)
    requires forall i :: 0 <= i < |hist| ==> NameOf(hist[i]) != NameOf(e)
    requires forall n :: n in damaged ==> n in NamesOf(hist)
    ensures NameOf(e) !in damaged
  {
    hide NameOf;
  }

  lemma StillNamed(hist: seq<Entry>, e: Entry, damaged: set<string>)
    requires forall n :: n in damaged ==> n in NamesOf(hist)
    ensures forall n :: n in damaged ==> n in NamesOf(hist + [e])
  {
    hide NameOf;
    forall n | n in damaged ensures n in NamesOf(hist + [e]) {
      var i :| 0 <= i < |NamesOf(hist)| && NamesOf(hist)[i] == n;
      assert NamesOf(hist + [e])[i] == n;
    }
  }

  /** The name of the oldest pending batch differs from the names of the others. */
  lemma HeadOnly(hist: seq<Entry>, k: nat)
    requires Chronological(hist) && k < |hist|
    ensures NamesOf(hist[k..]) == [NameOf(hist[k])] + NamesOf(hist[k + 1..])
    ensures NameOf(hist[k]) !in NamesOf(hist[k + 1..])
    ensures forall i :: k < i < |hist| ==> NameOf(hist[i]) != NameOf(hist[k])
  {
    NamesIncrease(hist, k);
    StrLessTotal();
    var names := NamesOf(hist[k..]);
    assert names == [NameOf(hist[k])] + NamesOf(hist[k + 1..]);
    forall i | k < i < |hist| ensures NameOf(hist[i]) != NameOf(hist[k]) {
      assert names[i - k] == NameOf(hist[i]) && StrLess(names[0], names[i - k]);
    }
  }

  lemma Appended(hist: seq<Entry>, k: nat, e: Entry)
    requires Chronological(hist) && k <= |hist| && WideTime(e.ts)
    requires forall i :: 0 <= i < |hist| ==> hist[i].ts < e.ts
    ensures Chronological(hist + [e])
    ensures NamesOf((hist + [e])[k..]) == NamesOf(hist[k..]) + [NameOf(e)]
    ensures forall i :: 0 <= i < |hist| ==> NameOf(hist[i]) != NameOf(e)
  {
    assert (hist + [e])[k..] == hist[k..] + [e];
    forall i | 0 <= i < |hist| ensures NameOf(hist[i]) != NameOf(e) {
      NamesChronological(hist[i].ts, e.ts, |hist[i].batch.observations|, |e.batch.observations|);
      StrLessIrreflexive(NameOf(e));
    }
  }

  // ----- The agent -----

  /** A POST is lost on the way, handled with the reply lost, or acknowledged. */
  datatype Outcome = NotReceived | ReplyLost | Confirmed

  datatype Attempt = Attempt(batch: Batch, outcome: Outcome)

  /** The batches that the control plane acknowledged, in the order of the attempts. */
  function AckedBatches(attempts: seq<Attempt>): seq<Batch> {
    if attempts == [] then []
    else (if attempts[0].outcome == Confirmed then [attempts[0].batch] else []) + AckedBatches(attempts[1..])
  }

  lemma {:induction false} AckedSnoc(attempts: seq<Attempt>, a: Attempt)
    ensures AckedBatches(attempts + [a]) == AckedBatches(attempts) + if a.outcome == Confirmed then [a.batch] else []
  {
    if attempts == [] {
      assert [a][1..] == [] && [] + [a] == [a];
    } else {
      assert (attempts + [a])[1..] == attempts[1..] + [a];
      AckedSnoc(attempts[1..], a);
      var head := if attempts[0].outcome == Confirmed then [attempts[0].batch] else [];
      Assoc(head, AckedBatches(attempts[1..]), if a.outcome == Confirmed then [a.batch] else []);
    }
  }

  ghost predicate Reconciled(attempts: seq<Attempt>, hist: seq<Entry>, fates: seq<Fate>)
    requires |fates| <= |hist|
  {
    AckedBatches(attempts) == WithFate(hist, fates, Acknowledged)
  }

  /** A batch dropped without being shipped. */
  lemma Settled(attempts: seq<Attempt>, hist: seq<Entry>, fates: seq<Fate>, g: Fate)
    requires |fates| < |hist| && Reconciled(attempts, hist, fates) && g != Acknowledged
    ensures Reconciled(attempts, hist, fates + [g])
  {
    WithFateSnoc(hist, fates, g, Acknowledged);
  }

  /** A batch shipped with a given outcome. */
  lemma Answered(attempts: seq<Attempt>, hist: seq<Entry>, fates: seq<Fate>, outcome: Outcome)
    requires |fates| < |hist| && Reconciled(attempts, hist, fates)
    ensures var more := attempts + [Attempt(hist[|fates|].batch, outcome)];
      if outcome == Confirmed then Reconciled(more, hist, fates + [Acknowledged]) else Reconciled(more, hist, fates)
  {
    AckedSnoc(attempts, Attempt(hist[|fates|].batch, outcome));
    WithFateSnoc(hist, fates, Acknowledged, Acknowledged);
  }

  /** One confirmed request for each batch whose file is not damaged, in order. */
  function Confirmations(es: seq<Entry>, damaged: set<string>): seq<Attempt> {
    if es == [] then []
    else
      var e := es[|es| - 1];
      Confirmations(es[..|es| - 1], damaged) + if NameOf(e) in damaged then [] else [Attempt(e.batch, Confirmed)]
  }

  /** What a flush makes of a batch that it gets past. */
  function Settlement(e: Entry, damaged: set<string>): Fate {
    if NameOf(e) in damaged then DroppedCorrupt else Acknowledged
  }

  /** A flush that started at batch `k` has reached batch |fates|: damaged batches were
      dropped, all others were shipped and confirmed, and nothing else was sent. */
  ghost predicate Progress(hist: seq<Entry>, damaged: set<string>, network: nat -> Outcome, k: nat, fates: seq<Fate>,
                           sent: seq<Attempt>)
  {
    && k <= |fates| <= |hist|
    && (forall i :: k <= i < |fates| ==> fates[i] == Settlement(hist[i], damaged))
    && (forall i :: k <= i < |fates| && NameOf(hist[i]) !in damaged ==> network(i - k) == Confirmed)
    && sent == Confirmations(hist[k..|fates|], damaged)
  }

  /** The outcome of a flush: it goes on to the end, or up to the first batch whose request
      is not confirmed, which is the last one sent. */
  ghost predicate FlushedTo(hist: seq<Entry>, damaged: set<string>, network: nat -> Outcome, k: nat, fates: seq<Fate>,
                            sent: seq<Attempt>)
  {
    if |fates| >= |hist| then Progress(hist, damaged, network, k, fates, sent)
    else
      && sent != []
      && Progress(hist, damaged, network, k, fates, sent[..|sent| - 1])
      && NameOf(hist[|fates|]) !in damaged
      && network(|fates| - k) != Confirmed
      && sent[|sent| - 1] == Attempt(hist[|fates|].batch, network(|fates| - k))
  }

  lemma ProgressStart(hist: seq<Entry>, damaged: set<string>, network: nat -> Outcome, fates: seq<Fate>)
    requires |fates| <= |hist|
    ensures Progress(hist, damaged, network, |fates|, fates, [])
  {
  }

  lemma ProgressOn(hist: seq<Entry>, damaged: set<string>, network: nat -> Outcome, k: nat, fates: seq<Fate>,
                   sent: seq<Attempt>)
    requires Progress(hist, damaged, network, k, fates, sent) && |fates| < |hist|
    ensures var e := hist[|fates|];
      if NameOf(e) in damaged then Progress(hist, damaged, network, k, fates + [DroppedCorrupt], sent)
      else if network(|fates| - k) == Confirmed then
        Progress(hist, damaged, network, k, fates + [Acknowledged], sent + [Attempt(e.batch, Confirmed)])
      else FlushedTo(hist, damaged, network, k, fates, sent + [Attempt(e.batch, network(|fates| - k))])
  {
    hide NameOf;
    var n := |fates|;
    assert hist[k..n + 1][..n - k] == hist[k..n] && hist[k..n + 1][n - k] == hist[n];
    assert sent + [] == sent;
    assert (sent + [Attempt(hist[n].batch, network(n - k))])[..|sent|] == sent;
  }

  lemma ProgressEnd(hist: seq<Entry>, damaged: set<string>, network: nat -> Outcome, k: nat, fates: seq<Fate>,
                    sent: seq<Attempt>)
    requires Progress(hist, damaged, network, k, fates, sent) && |fates| == |hist|
    ensures FlushedTo(hist, damaged, network, k, fates, sent)
  {
  }

  /** The observations of the collectors that succeeded, in order. */
  function Gathered(collected: seq<Option<seq<Observation>>>): seq<Observation> {
    if collected == [] then []
    else (if collected[0].Some? then collected[0].value else []) + Gathered(collected[1..])
  }

  method Gather(collected: seq<Option<seq<Observation>>>) returns (observations: seq<Observation>)
    ensures observations == Gathered(collected)
  {
    observations := [];
    for i := 0 to |collected|
      invariant observations + Gathered(collected[i..]) == Gathered(collected)
    {
      assert collected[i..][1..] == collected[i + 1..];
      if collected[i].Some? {
        Assoc(observations, collected[i].value, Gathered(collected[i + 1..]));
        observations := observations + collected[i].value;
      }
    }
    assert collected[|collected|..] == [] && observations + [] == observations;
  }

  lemma FileReads(dir: map<string, File>, e: Entry, damaged: set<string>)
    requires FileOk(dir, e, damaged)
    ensures var name := NameOf(e);
      && name in dir
      && (if name in damaged then dir[name].Damaged? else dir[name] == Intact(e.batch))
    ensures FateOk(e, if NameOf(e) in damaged then DroppedCorrupt else Acknowledged, damaged)
  {
  }

  lemma AllPending(hist: seq<Entry>, fates: seq<Fate>, names: seq<string>)
    requires |fates| <= |hist| && names[|names|..] == NamesOf(hist[|fates|..])
    ensures |fates| == |hist|
  {
    assert |NamesOf(hist[|fates|..])| == 0;
  }

  lemma DroppedAreDamaged(dir: map<string, File>, hist: seq<Entry>, damaged: set<string>, network: nat -> Outcome,
                          k: nat, fates: seq<Fate>, sent: seq<Attempt>)
    requires k <= |hist| && FilesOk(dir, hist, k, damaged) && FlushedTo(hist, damaged, network, k, fates, sent)
    ensures k <= |fates| <= |hist|
    ensures forall i :: k <= i < |fates| ==>
      NameOf(hist[i]) in dir && (fates[i] == DroppedCorrupt <==> dir[NameOf(hist[i])].Damaged?)
  {
    hide NameOf;
    forall i | k <= i < |fates|
      ensures NameOf(hist[i]) in dir && (fates[i] == DroppedCorrupt <==> dir[NameOf(hist[i])].Damaged?)
    {
      assert FileOk(dir, hist[i], damaged);
    }
  }

  class Agent {
    const spool: Spool
    const agentId: string
    const agentVersion: string
    const host: HostInfo
    /** Every request sent so far, with its outcome. */
    ghost var attempts: seq<Attempt>

    /** Acknowledged batches are those the spool records so, in the order of enqueueing. */
    ghost predicate Valid()
      reads this, spool
    {
      spool.Valid() && Reconciled(attempts, spool.hist, spool.fates)
    }

    constructor (spool: Spool, agentId: string, agentVersion: string, host: HostInfo)
      requires spool.Valid() && spool.hist == []
      ensures Valid() && this.spool == spool && attempts == []
    {
      this.spool := spool;
      this.agentId, this.agentVersion, this.host := agentId, agentVersion, host;
      attempts := [];
    }

    /** Ships pending batches oldest first and stops at the first failure. `network` gives the
        outcome of each request. Exactly the damaged files are dropped. */
    method FlushSpool(network: nat -> Outcome)
      requires Valid()
      modifies this`attempts, spool`dir, spool`fates
      ensures Valid() && spool.hist == old(spool.hist) && old(spool.fates) <= spool.fates
      ensures old(attempts) <= attempts
      ensures FlushedTo(spool.hist, spool.damaged, network, |old(spool.fates)|, spool.fates,
                        attempts[|old(attempts)|..])
      ensures forall i :: |old(spool.fates)| <= i < |spool.fates| ==> NameOf(spool.hist[i]) in old(spool.dir)
      ensures forall i :: |old(spool.fates)| <= i < |spool.fates| ==>
        (spool.fates[i] == DroppedCorrupt <==> old(spool.dir)[NameOf(spool.hist[i])].Damaged?)
    {
      hide *;
      Opened();
      var names := spool.Pending();
      ghost var start, sent := |spool.fates|, [];
      ProgressStart(spool.hist, spool.damaged, network, spool.fates);
      for i := 0 to |names|
        invariant spool.hist == old(spool.hist) && |spool.fates| <= |spool.hist|
        invariant spool.Valid() && Reconciled(attempts, spool.hist, spool.fates)
        invariant old(spool.fates) <= spool.fates && |spool.fates| == start + i
        invariant names[i..] == NamesOf(spool.hist[|spool.fates|..])
        invariant Progress(spool.hist, spool.damaged, network, start, spool.fates, sent)
        invariant attempts == old(attempts) + sent
      {
        ghost var fates := spool.fates;
        ghost var e := spool.hist[|fates|];
        spool.Oldest(names[i..]);
        FileReads(spool.dir, e, spool.damaged);
        ProgressOn(spool.hist, spool.damaged, network, start, fates, sent);
        var loaded := spool.Load(names[i]);
        if loaded.None? {
          Settled(attempts, spool.hist, fates, DroppedCorrupt);
          spool.RemoveOldest(names[i], DroppedCorrupt);
        } else {
          var outcome := network(i);
          Answered(attempts, spool.hist, fates, outcome);
          attempts := attempts + [Attempt(loaded.value, outcome)];
          sent := sent + [Attempt(loaded.value, outcome)];
          if outcome != Confirmed {
            Closed();
            assert attempts == old(attempts) + sent;
            DropFirst(old(attempts), sent);
            DroppedAreDamaged(old(spool.dir), spool.hist, spool.damaged, network, start, spool.fates, sent);
            return;
          }
          spool.RemoveOldest(names[i], Acknowledged);
        }
        DropFirst([names[i]], NamesOf(spool.hist[|spool.fates|..]));
      }
      AllPending(spool.hist, spool.fates, names);
      ProgressEnd(spool.hist, spool.damaged, network, start, spool.fates, sent);
      DropFirst(old(attempts), sent);
      Closed();
      DroppedAreDamaged(old(spool.dir), spool.hist, spool.damaged, network, start, spool.fates, sent);
    }

    lemma Opened()
      requires Valid()
      ensures spool.Valid() && |spool.fates| <= |spool.hist| && Reconciled(attempts, spool.hist, spool.fates)
      ensures FilesOk(spool.dir, spool.hist, |spool.fates|, spool.damaged)
    {
    }

    lemma Closed()
      requires spool.Valid() && |spool.fates| <= |spool.hist| && Reconciled(attempts, spool.hist, spool.fates)
      ensures Valid()
    {
    }

    /** One cycle: what the collectors found is spooled, then the spool is flushed. `None` is
        a collector that failed. */
    method ScanAndShip(collected: seq<Option<seq<Observation>>>, ts: nat, enqueueFails: bool, network: nat -> Outcome)
      requires Valid() && WideTime(ts)
      requires forall i :: 0 <= i < |spool.hist| ==> spool.hist[i].ts < ts
      modifies this`attempts, spool`dir, spool`hist, spool`fates
      ensures Valid() && old(attempts) <= attempts
      ensures spool.hist == old(spool.hist) +
        if Gathered(collected) == [] || enqueueFails then []
        else [Entry(ts, Batch(agentId, agentVersion, host, Gathered(collected)))]
      ensures |spool.hist| > |old(spool.hist)| ==> |spool.hist| - |spool.fates| <= spool.maxN
      ensures var added := |spool.hist| > |old(spool.hist)|;
        var trimmed := if added then Excess(|spool.hist| - |old(spool.fates)| - spool.maxN) else 0;
        && old(spool.fates) + Repeat(TrimmedAway, trimmed) <= spool.fates
        && FlushedTo(spool.hist, spool.damaged, network, |old(spool.fates)| + trimmed, spool.fates,
                     attempts[|old(attempts)|..])
    {
      hide *;
      var observations := Gather(collected);
      ghost var hist, fates := spool.hist, spool.fates;
      RepeatNone(fates, TrimmedAway);
      Opened();
      if |observations| > 0 {
        var b := Batch(agentId, agentVersion, host, observations);
        var ok := spool.Enqueue(b, ts, enqueueFails);
        if ok {
          spool.PendingCount();
          RepeatLength(fates, Excess(|spool.hist| - |fates| - spool.maxN));
          Trimmed(attempts, hist, Entry(ts, b), fates, Excess(|spool.hist| - |fates| - spool.maxN));
        }
        Closed();
      }
      ghost var middle := spool.fates;
      FlushSpool(network);
      RepeatLength(fates, |middle| - |fates|);
    }
  }

  lemma RepeatLength(before: seq<Fate>, n: int)
    ensures n >= 0 ==> |before + Repeat(TrimmedAway, n)| == |before| + n
  {
  }

  /** Enqueueing and trimming acknowledge nothing. */
  lemma Trimmed(attempts: seq<Attempt>, hist: seq<Entry>, e: Entry, fates: seq<Fate>, n: nat)
    requires |fates| + n <= |hist| + 1 && |fates| <= |hist| && Reconciled(attempts, hist, fates)
    ensures |fates + Repeat(TrimmedAway, n)| == |fates| + n
    ensures Reconciled(attempts, hist + [e], fates + Repeat(TrimmedAway, n))
  {
    WithFatePrefix(hist, [e], fates, Acknowledged);
    WithFateRepeat(hist + [e], fates, n, Acknowledged);
  }
}
