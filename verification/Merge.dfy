/** The merge rules of UpsertInstance and what any sequence of observations of one
    instance adds up to. */
module Merge {
  import opened Text
  import opened Sorting
  import opened Model

  // ----- List unions -----

  /** First occurrences only, leaving out what is in `seen`. */
  function Dedup<T(==)>(s: seq<T>, seen: set<T>): seq<T> {
    if s == [] then []
    else if s[0] in seen then Dedup(s[1..], seen)
    else [s[0]] + Dedup(s[1..], seen + {s[0]})
  }

  function UnionInts(a: seq<int>, b: seq<int>): seq<int> {
    Sort(IntLess, Dedup(a + b, {}))
  }

  /** The empty string never becomes an element. */
  function UnionStrs(a: seq<string>, b: seq<string>): seq<string> {
    Sort(StrLess, Dedup(a + b, {""}))
  }

  method UnionIntsLoop(a: seq<int>, b: seq<int>) returns (out: seq<int>)
    ensures out == UnionInts(a, b)
  {
    var seen: set<int> := {};
    out := [];
    var all := a + b;
    for i := 0 to |all|
      invariant out + Dedup(all[i..], seen) == Dedup(all, {})
    {
      var v := all[i];
      assert all[i..][1..] == all[i + 1..];
      if v !in seen {
        Assoc(out, [v], Dedup(all[i + 1..], seen + {v}));
        seen := seen + {v};
        out := out + [v];
      }
    }
    assert all[|all|..] == [] && out + [] == out;
    out := Sort(IntLess, out);
  }

  method UnionStrsLoop(a: seq<string>, b: seq<string>) returns (out: seq<string>)
    ensures out == UnionStrs(a, b)
  {
    var seen: set<string> := {};
    out := [];
    var all := a + b;
    assert seen + {""} == {""};
    for i := 0 to |all|
      invariant out + Dedup(all[i..], seen + {""}) == Dedup(all, {""})
    {
      var v := all[i];
      assert all[i..][1..] == all[i + 1..];
      if v != "" && v !in seen {
        assert seen + {""} + {v} == seen + {v} + {""};
        Assoc(out, [v], Dedup(all[i + 1..], seen + {v} + {""}));
        seen := seen + {v};
        out := out + [v];
      }
    }
    assert all[|all|..] == [] && out + [] == out;
    out := Sort(StrLess, out);
  }

  function Elems<T>(s: seq<T>): set<T> { set x | x in s }

  lemma {:induction false} DedupIs<T(!new)>(s: seq<T>, seen: set<T>)
    ensures Distinct(Dedup(s, seen))
    ensures forall x :: x in Dedup(s, seen) <==> x in s && x !in seen
  {
    if s != [] {
      assert s == [s[0]] + s[1..];
      DedupIs(s[1..], seen);
      DedupIs(s[1..], seen + {s[0]});
    }
  }

  lemma UnionIntsIs(a: seq<int>, b: seq<int>)
    ensures Increasing(IntLess, UnionInts(a, b))
    ensures Elems(UnionInts(a, b)) == Elems(a) + Elems(b)
  {
    IntLessTotal();
    DedupIs(a + b, {});
    SortIncreasing(IntLess, Dedup(a + b, {}));
  }

  lemma UnionStrsIs(a: seq<string>, b: seq<string>)
    ensures Increasing(StrLess, UnionStrs(a, b))
    ensures Elems(UnionStrs(a, b)) == Elems(a) + Elems(b) - {""}
  {
    StrLessTotal();
    DedupIs(a + b, {""});
    SortIncreasing(StrLess, Dedup(a + b, {""}));
  }

  lemma IntsByElems(a: seq<int>, b: seq<int>)
    requires Increasing(IntLess, a) && Increasing(IntLess, b) && Elems(a) == Elems(b)
    ensures a == b
  {
    IntLessTotal();
    forall x ensures x in a <==> x in b { assert x in Elems(a) <==> x in Elems(b); }
    IncreasingUnique(IntLess, a, b);
  }

  lemma StrsByElems(a: seq<string>, b: seq<string>)
    requires Increasing(StrLess, a) && Increasing(StrLess, b) && Elems(a) == Elems(b)
    ensures a == b
  {
    StrLessTotal();
    forall x ensures x in a <==> x in b { assert x in Elems(a) <==> x in Elems(b); }
    IncreasingUnique(StrLess, a, b);
  }

  // ----- Instances -----

  function MaxExposure(a: Exposure, b: Exposure): Exposure {
    if ExposureRank(b) > ExposureRank(a) then b else a
  }

  /** What the store keeps of the first observation. */
  function Created(x: Instance): Instance {
    if x.firstSeen == ZERO_TIME then x.(firstSeen := x.lastSeen) else x
  }

  function OrElse(new_: string, old_: string): string { if new_ != "" then new_ else old_ }

  /** What a later observation changes. The whitelist flag, the identity and the first-seen
      time are not merged. */
  function Merged(e: Instance, x: Instance): Instance {
    e.(lastSeen := x.lastSeen,
       version := OrElse(x.version, e.version),
       status := OrElse(x.status, e.status),
       exposure := if x.exposure != UnknownExposure && x.exposure != NoExposure then MaxExposure(e.exposure, x.exposure)
                   else e.exposure,
       dbType := OrElse(x.dbType, e.dbType),
       queueMode := x.queueMode || e.queueMode,
       owner := OrElse(x.owner, e.owner),
       image := OrElse(x.image, e.image),
       runMode := OrElse(x.runMode, e.runMode),
       ports := UnionInts(e.ports, x.ports),
       publicPorts := UnionInts(e.publicPorts, x.publicPorts),
       secretEnvKeys := UnionStrs(e.secretEnvKeys, x.secretEnvKeys),
       detectedBy := UnionStrs(e.detectedBy, x.detectedBy),
       confidence := if x.confidence > e.confidence then x.confidence else e.confidence)
  }

  /** The stored instance after upserts of `xs`, in order, into a store without it. */
  function AfterUpserts(xs: seq<Instance>): Instance
    requires xs != []
  {
    if |xs| == 1 then Created(xs[0])
    else Merged(AfterUpserts(xs[..|xs| - 1]), xs[|xs| - 1])
  }

  ghost predicate IsGreatestRank(r: nat, xs: seq<Instance>) {
    && (exists x :: x in xs && ExposureRank(x.exposure) == r)
    && (forall x :: x in xs ==> ExposureRank(x.exposure) <= r)
  }

  ghost predicate IsGreatestConfidence(c: real, xs: seq<Instance>) {
    && (exists x :: x in xs && x.confidence == c)
    && (forall x :: x in xs ==> x.confidence <= c)
  }

  ghost function AllPorts(xs: seq<Instance>): set<int> { set x, p | x in xs && p in x.ports :: p }

  ghost function AllPublicPorts(xs: seq<Instance>): set<int> { set x, p | x in xs && p in x.publicPorts :: p }

  ghost function AllKeys(xs: seq<Instance>): set<string> { set x, k | x in xs && k in x.secretEnvKeys :: k }

  ghost function AllDetectors(xs: seq<Instance>): set<string> { set x, k | x in xs && k in x.detectedBy :: k }

  /** The extremes and the flag of a stored instance. */
  ghost predicate Extremes(e: Instance, xs: seq<Instance>) {
    && IsGreatestRank(ExposureRank(e.exposure), xs)
    && IsGreatestConfidence(e.confidence, xs)
    && (e.queueMode <==> exists x :: x in xs && x.queueMode)
  }

  ghost predicate Unions(e: Instance, xs: seq<Instance>) {
    && Elems(e.ports) == AllPorts(xs)
    && Elems(e.publicPorts) == AllPublicPorts(xs)
    && Elems(e.secretEnvKeys) - {""} == AllKeys(xs) - {""}
    && Elems(e.detectedBy) - {""} == AllDetectors(xs) - {""}
  }

  ghost predicate Canonical(e: Instance) {
    && Increasing(IntLess, e.ports) && Increasing(IntLess, e.publicPorts)
    && Increasing(StrLess, e.secretEnvKeys) && Increasing(StrLess, e.detectedBy)
    && "" !in e.secretEnvKeys && "" !in e.detectedBy
  }

  ghost predicate SameOrigin(e: Instance, x: Instance) {
    && e.id == x.id && e.hostId == x.hostId && e.engine == x.engine && e.identity == x.identity
    && e.ownerIsIT == x.ownerIsIT && e.firstSeen == x.firstSeen
    && e.whitelisted == x.whitelisted && e.whitelistReason == x.whitelistReason
  }

  lemma MergedIsCanonical(e: Instance, x: Instance)
    ensures Canonical(Merged(e, x))
  {
    hide UnionInts, UnionStrs;
    UnionIntsIs(e.ports, x.ports);
    UnionIntsIs(e.publicPorts, x.publicPorts);
    UnionStrsIs(e.secretEnvKeys, x.secretEnvKeys);
    UnionStrsIs(e.detectedBy, x.detectedBy);
    NotInElems(UnionStrs(e.secretEnvKeys, x.secretEnvKeys));
    NotInElems(UnionStrs(e.detectedBy, x.detectedBy));
  }

  lemma NotInElems(s: seq<string>)
    ensures "" in s <==> "" in Elems(s)
  {
  }

  lemma MergeExtremes(e: Instance, ys: seq<Instance>, x: Instance)
    requires Extremes(e, ys)
    ensures Extremes(Merged(e, x), ys + [x])
  {
    hide UnionInts, UnionStrs;
    var xs := ys + [x];
    assert forall y :: y in xs <==> y in ys || y == x;
    var m := Merged(e, x);
    var was, seen := ExposureRank(e.exposure), ExposureRank(x.exposure);
    assert ExposureRank(m.exposure) == if seen > was then seen else was;
    var r :| r in ys && ExposureRank(r.exposure) == ExposureRank(e.exposure);
    var c :| c in ys && c.confidence == e.confidence;
    assert r in xs && c in xs && x in xs;
  }

  lemma MergeUnions(e: Instance, ys: seq<Instance>, x: Instance)
    requires Unions(e, ys)
    ensures Unions(Merged(e, x), ys + [x])
  {
    hide UnionInts, UnionStrs;
    var xs := ys + [x];
    UnionIntsIs(e.ports, x.ports);
    UnionIntsIs(e.publicPorts, x.publicPorts);
    UnionStrsIs(e.secretEnvKeys, x.secretEnvKeys);
    UnionStrsIs(e.detectedBy, x.detectedBy);
    AllSnoc(ys, x);
    MinusBlank(Elems(e.secretEnvKeys), AllKeys(ys), Elems(x.secretEnvKeys));
    MinusBlank(Elems(e.detectedBy), AllDetectors(ys), Elems(x.detectedBy));
  }

  lemma MinusBlank(a: set<string>, b: set<string>, c: set<string>)
    requires a - {""} == b - {""}
    ensures (a + c - {""}) - {""} == (b + c) - {""}
  {
    forall k ensures k in (a + c - {""}) - {""} <==> k in (b + c) - {""} {
      assert k in a - {""} <==> k in b - {""};
    }
  }

  lemma AllSnoc(ys: seq<Instance>, x: Instance)
    ensures AllPorts(ys + [x]) == AllPorts(ys) + Elems(x.ports)
    ensures AllPublicPorts(ys + [x]) == AllPublicPorts(ys) + Elems(x.publicPorts)
    ensures AllKeys(ys + [x]) == AllKeys(ys) + Elems(x.secretEnvKeys)
    ensures AllDetectors(ys + [x]) == AllDetectors(ys) + Elems(x.detectedBy)
  {
    var xs := ys + [x];
    forall y ensures y in xs <==> y in ys || y == x {}
    forall p ensures p in AllPorts(xs) <==> p in AllPorts(ys) + Elems(x.ports) {
      if p in AllPorts(xs) { var y :| y in xs && p in y.ports; }
      if p in x.ports { assert x in xs; }
      if p in AllPorts(ys) { var y :| y in ys && p in y.ports; assert y in xs; }
    }
    forall p ensures p in AllPublicPorts(xs) <==> p in AllPublicPorts(ys) + Elems(x.publicPorts) {
      if p in AllPublicPorts(xs) { var y :| y in xs && p in y.publicPorts; }
      if p in x.publicPorts { assert x in xs; }
      if p in AllPublicPorts(ys) { var y :| y in ys && p in y.publicPorts; assert y in xs; }
    }
  }

  /** Whatever the order and the repetitions: exposure and confidence are the maxima, queue
      mode is the disjunction, the lists are the unions, the origin is that of the first
      observation, and from the second observation on the lists are sorted without
      duplicates or empty names. */
  lemma {:induction false} UpsertsAddUp(xs: seq<Instance>)
    requires xs != []
    ensures Extremes(AfterUpserts(xs), xs)
    ensures Unions(AfterUpserts(xs), xs)
    ensures SameOrigin(AfterUpserts(xs),
                       xs[0].(firstSeen := if xs[0].firstSeen != ZERO_TIME then xs[0].firstSeen else xs[0].lastSeen))
    ensures AfterUpserts(xs).lastSeen == xs[|xs| - 1].lastSeen
    ensures |xs| >= 2 ==> Canonical(AfterUpserts(xs))
  {
    if |xs| == 1 {
      var x := xs[0];
      assert xs == [] + [x];
      AllSnoc([], x);
      assert x in xs;
    } else {
      var ys, x := xs[..|xs| - 1], xs[|xs| - 1];
      assert xs == ys + [x];
      UpsertsAddUp(ys);
      hide UnionInts, UnionStrs;
      MergeExtremes(AfterUpserts(ys), ys, x);
      MergeUnions(AfterUpserts(ys), ys, x);
      MergedIsCanonical(AfterUpserts(ys), x);
    }
  }

  // ----- The latest texts -----

  /** The last value that is not empty, or "" if all are. */
  ghost predicate IsLatest(v: string, xs: seq<Instance>, text: Instance -> string) {
    if v == "" then forall i :: 0 <= i < |xs| ==> text(xs[i]) == ""
    else exists i :: 0 <= i < |xs| && text(xs[i]) == v && forall j :: i < j < |xs| ==> text(xs[j]) == ""
  }

  ghost predicate LatestTexts(e: Instance, xs: seq<Instance>) {
    && IsLatest(e.version, xs, (x: Instance) => x.version)
    && IsLatest(e.status, xs, (x: Instance) => x.status)
    && IsLatest(e.dbType, xs, (x: Instance) => x.dbType)
    && IsLatest(e.owner, xs, (x: Instance) => x.owner)
    && IsLatest(e.image, xs, (x: Instance) => x.image)
    && IsLatest(e.runMode, xs, (x: Instance) => x.runMode)
  }

  lemma LatestSnoc(v: string, ys: seq<Instance>, x: Instance, text: Instance -> string)
    requires IsLatest(v, ys, text)
    ensures IsLatest(OrElse(text(x), v), ys + [x], text)
  {
    var xs := ys + [x];
    if text(x) != "" {
      assert text(xs[|ys|]) == text(x);
    } else if v != "" {
      var i :| 0 <= i < |ys| && text(ys[i]) == v && forall j :: i < j < |ys| ==> text(ys[j]) == "";
      assert text(xs[i]) == v;
    }
  }

  lemma LatestOne(x: Instance, text: Instance -> string)
    ensures IsLatest(text(x), [x], text)
  {
    assert text([x][0]) == text(x);
  }

  /** After any sequence of observations each descriptive text of an instance is the latest that
      was not empty. */
  lemma {:induction false} UpsertsKeepLatest(xs: seq<Instance>)
    requires xs != []
    ensures LatestTexts(AfterUpserts(xs), xs)
  {
    hide IsLatest, OrElse, UnionInts, UnionStrs;
    if |xs| == 1 {
      var x := xs[0];
      assert xs == [x];
      LatestOne(x, (y: Instance) => y.version);
      LatestOne(x, (y: Instance) => y.status);
      LatestOne(x, (y: Instance) => y.dbType);
      LatestOne(x, (y: Instance) => y.owner);
      LatestOne(x, (y: Instance) => y.image);
      LatestOne(x, (y: Instance) => y.runMode);
    } else {
      var ys, x := xs[..|xs| - 1], xs[|xs| - 1];
      assert xs == ys + [x];
      UpsertsKeepLatest(ys);
      var e := AfterUpserts(ys);
      LatestSnoc(e.version, ys, x, (y: Instance) => y.version);
      LatestSnoc(e.status, ys, x, (y: Instance) => y.status);
      LatestSnoc(e.dbType, ys, x, (y: Instance) => y.dbType);
      LatestSnoc(e.owner, ys, x, (y: Instance) => y.owner);
      LatestSnoc(e.image, ys, x, (y: Instance) => y.image);
      LatestSnoc(e.runMode, ys, x, (y: Instance) => y.runMode);
    }
  }

  ghost predicate Seen(xs: seq<Instance>, exposure: Exposure) {
    exists x :: x in xs && x.exposure == exposure
  }

  /** An instance counts as public once it was seen in public, and otherwise as reachable from the
      local network, or from its host, once it was seen so. */
  lemma {:induction false} WidestExposure(xs: seq<Instance>)
    requires xs != []
    ensures var e := AfterUpserts(xs);
      && (e.exposure == Public <==> Seen(xs, Public))
      && (e.exposure == Lan <==> Seen(xs, Lan) && !Seen(xs, Public))
      && (e.exposure == Localhost <==> Seen(xs, Localhost) && !Seen(xs, Lan) && !Seen(xs, Public))
      && (e.exposure in {NoExposure, UnknownExposure} ==> e.exposure == xs[0].exposure)
  {
    hide OrElse, UnionInts, UnionStrs, Seen;
    var ys, x := xs[..|xs| - 1], xs[|xs| - 1];
    assert xs == ys + [x];
    SeenSnoc(ys, x, Public);
    SeenSnoc(ys, x, Lan);
    SeenSnoc(ys, x, Localhost);
    if |xs| == 1 {
      assert !Seen([], Public) && !Seen([], Lan) && !Seen([], Localhost) by { NothingSeen(); }
    } else {
      WidestExposure(ys);
    }
  }

  lemma NothingSeen()
    ensures forall exposure :: !Seen([], exposure)
  {
  }

  lemma SeenSnoc(ys: seq<Instance>, x: Instance, exposure: Exposure)
    ensures Seen(ys + [x], exposure) <==> Seen(ys, exposure) || x.exposure == exposure
  {
    var xs := ys + [x];
    forall y ensures y in xs <==> y in ys || y == x {}
  }

  lemma ExtremesAgree(d: Instance, e: Instance, xs: seq<Instance>, ys: seq<Instance>)
    requires Elems(xs) == Elems(ys) && Extremes(d, xs) && Extremes(e, ys)
    ensures ExposureRank(d.exposure) == ExposureRank(e.exposure)
    ensures d.confidence == e.confidence && d.queueMode == e.queueMode
  {
    assert forall x :: x in xs <==> x in Elems(xs);
    assert forall y :: y in ys <==> y in Elems(ys);
  }

  lemma UnionsAgree(d: Instance, e: Instance, xs: seq<Instance>, ys: seq<Instance>)
    requires Elems(xs) == Elems(ys) && Unions(d, xs) && Unions(e, ys)
    ensures Elems(d.ports) == Elems(e.ports) && Elems(d.publicPorts) == Elems(e.publicPorts)
    ensures Elems(d.secretEnvKeys) - {""} == Elems(e.secretEnvKeys) - {""}
    ensures Elems(d.detectedBy) - {""} == Elems(e.detectedBy) - {""}
  {
    forall x ensures x in xs <==> x in ys { assert x in Elems(xs) <==> x in Elems(ys); }
    assert AllPorts(xs) == AllPorts(ys);
    assert AllPublicPorts(xs) == AllPublicPorts(ys);
    assert AllKeys(xs) == AllKeys(ys);
    assert AllDetectors(xs) == AllDetectors(ys);
  }

  /** Reordering or repeating observations changes none of the accumulated fields; with at
      least two observations on each side the stored lists are identical. */
  lemma OrderIrrelevant(xs: seq<Instance>, ys: seq<Instance>)
    requires xs != [] && ys != [] && Elems(xs) == Elems(ys)
    ensures var d, e := AfterUpserts(xs), AfterUpserts(ys);
      && ExposureRank(d.exposure) == ExposureRank(e.exposure)
      && d.confidence == e.confidence && d.queueMode == e.queueMode
      && Elems(d.ports) == Elems(e.ports) && Elems(d.publicPorts) == Elems(e.publicPorts)
      && (|xs| >= 2 && |ys| >= 2 ==>
            d.ports == e.ports && d.publicPorts == e.publicPorts
            && d.secretEnvKeys == e.secretEnvKeys && d.detectedBy == e.detectedBy)
  {
    hide AfterUpserts;
    var d, e := AfterUpserts(xs), AfterUpserts(ys);
    UpsertsAddUp(xs);
    UpsertsAddUp(ys);
    ExtremesAgree(d, e, xs, ys);
    UnionsAgree(d, e, xs, ys);
    if |xs| >= 2 && |ys| >= 2 {
      CanonicalAgree(d, e);
    }
  }

  lemma CanonicalAgree(d: Instance, e: Instance)
    requires Canonical(d) && Canonical(e)
    requires Elems(d.ports) == Elems(e.ports) && Elems(d.publicPorts) == Elems(e.publicPorts)
    requires Elems(d.secretEnvKeys) - {""} == Elems(e.secretEnvKeys) - {""}
    requires Elems(d.detectedBy) - {""} == Elems(e.detectedBy) - {""}
    ensures d.ports == e.ports && d.publicPorts == e.publicPorts
    ensures d.secretEnvKeys == e.secretEnvKeys && d.detectedBy == e.detectedBy
  {
    IntsByElems(d.ports, e.ports);
    IntsByElems(d.publicPorts, e.publicPorts);
    assert Elems(d.secretEnvKeys) == Elems(d.secretEnvKeys) - {""};
    assert Elems(e.secretEnvKeys) == Elems(e.secretEnvKeys) - {""};
    StrsByElems(d.secretEnvKeys, e.secretEnvKeys);
    assert Elems(d.detectedBy) == Elems(d.detectedBy) - {""} && Elems(e.detectedBy) == Elems(e.detectedBy) - {""};
    StrsByElems(d.detectedBy, e.detectedBy);
  }

  /** Two stored instances that differ at most in the order and repetition of their lists. */
  ghost predicate UpToLists(d: Instance, e: Instance) {
    && e == d.(ports := e.ports, publicPorts := e.publicPorts, secretEnvKeys := e.secretEnvKeys,
               detectedBy := e.detectedBy)
    && Elems(d.ports) == Elems(e.ports) && Elems(d.publicPorts) == Elems(e.publicPorts)
    && Elems(d.secretEnvKeys) - {""} == Elems(e.secretEnvKeys) - {""}
    && Elems(d.detectedBy) - {""} == Elems(e.detectedBy) - {""}
  }

  /** A repeated observation changes the stored instance at most in its list order, and a
      second repetition changes nothing. */
  lemma MergeTwice(e: Instance, x: Instance)
    ensures Merged(Merged(e, x), x) == Merged(e, x)
    ensures UpToLists(Created(x), Merged(Created(x), x))
  {
    hide UnionInts, UnionStrs;
    var m := Merged(e, x);
    var m2 := Merged(m, x);
    UnionIntsIs(e.ports, x.ports);
    UnionIntsIs(e.publicPorts, x.publicPorts);
    UnionStrsIs(e.secretEnvKeys, x.secretEnvKeys);
    UnionStrsIs(e.detectedBy, x.detectedBy);
    UnionIntsIs(m.ports, x.ports);
    UnionIntsIs(m.publicPorts, x.publicPorts);
    UnionStrsIs(m.secretEnvKeys, x.secretEnvKeys);
    UnionStrsIs(m.detectedBy, x.detectedBy);
    IntsByElems(m2.ports, m.ports);
    IntsByElems(m2.publicPorts, m.publicPorts);
    StrsByElems(m2.secretEnvKeys, m.secretEnvKeys);
    StrsByElems(m2.detectedBy, m.detectedBy);
    CreatedThenMerged(x);
  }

  lemma CreatedThenMerged(x: Instance)
    ensures UpToLists(Created(x), Merged(Created(x), x))
  {
    hide UnionInts, UnionStrs;
    UnionIntsIs(x.ports, x.ports);
    UnionIntsIs(x.publicPorts, x.publicPorts);
    UnionStrsIs(x.secretEnvKeys, x.secretEnvKeys);
    UnionStrsIs(x.detectedBy, x.detectedBy);
  }

  /** Two readings of one observation: the lists have the same elements, in any order and with
      any repetitions; the whitelist fields do not matter. */
  ghost predicate SameReading(x: Instance, y: Instance) {
    && y == x.(ports := y.ports, publicPorts := y.publicPorts, secretEnvKeys := y.secretEnvKeys,
               detectedBy := y.detectedBy, whitelisted := y.whitelisted, whitelistReason := y.whitelistReason)
    && Elems(x.ports) == Elems(y.ports) && Elems(x.publicPorts) == Elems(y.publicPorts)
    && Elems(x.secretEnvKeys) == Elems(y.secretEnvKeys) && Elems(x.detectedBy) == Elems(y.detectedBy)
  }

  /** Two readings of one observation merge to the same instance. */
  lemma MergeReading(e: Instance, x: Instance, y: Instance)
    requires SameReading(x, y)
    ensures Merged(e, x) == Merged(e, y)
  {
    hide UnionInts, UnionStrs;
    UnionIntsIs(e.ports, x.ports);
    UnionIntsIs(e.ports, y.ports);
    IntsByElems(UnionInts(e.ports, x.ports), UnionInts(e.ports, y.ports));
    UnionIntsIs(e.publicPorts, x.publicPorts);
    UnionIntsIs(e.publicPorts, y.publicPorts);
    IntsByElems(UnionInts(e.publicPorts, x.publicPorts), UnionInts(e.publicPorts, y.publicPorts));
    UnionStrsIs(e.secretEnvKeys, x.secretEnvKeys);
    UnionStrsIs(e.secretEnvKeys, y.secretEnvKeys);
    StrsByElems(UnionStrs(e.secretEnvKeys, x.secretEnvKeys), UnionStrs(e.secretEnvKeys, y.secretEnvKeys));
    UnionStrsIs(e.detectedBy, x.detectedBy);
    UnionStrsIs(e.detectedBy, y.detectedBy);
    StrsByElems(UnionStrs(e.detectedBy, x.detectedBy), UnionStrs(e.detectedBy, y.detectedBy));
  }
}
