/** Dotted version comparison and the vulnerability feed. */
module Versions {
  import opened Text

  // ----- Parsing -----

  /** unicode.IsSpace. */
  predicate IsSpace(c: char) {
    var n := c as int;
    9 <= n <= 13 || n == 32 || n == 0x85 || n == 0xA0 || n == 0x1680 || 0x2000 <= n <= 0x200A
    || n == 0x2028 || n == 0x2029 || n == 0x202F || n == 0x205F || n == 0x3000
  }

  function TrimSpace(s: string): string
    decreases |s|
  {
    if s != "" && IsSpace(s[0]) then TrimSpace(s[1..])
    else if s != "" && IsSpace(s[|s| - 1]) then TrimSpace(s[..|s| - 1])
    else s
  }

  function TrimV(s: string): string { if "v" <= s then s[1..] else s }

  predicate IsSeparator(c: char) { c == '.' || c == '-' || c == '+' }

  /** The length of the longest prefix without separators. */
  function FieldLength(s: string): (n: nat)
    ensures n <= |s|
  {
    if s == "" || IsSeparator(s[0]) then 0 else 1 + FieldLength(s[1..])
  }

  /** strings.FieldsFunc: maximal nonempty pieces between separators. */
  function Fields(s: string): seq<string>
    decreases |s|
  {
    if s == "" then []
    else if IsSeparator(s[0]) then Fields(s[1..])
    else [s[..FieldLength(s)]] + Fields(s[FieldLength(s)..])
  }

  /** Arithmetic on a 64-bit int. */
  function Wrap64(n: int): int {
    (n + 0x8000_0000_0000_0000) % 0x1_0000_0000_0000_0000 - 0x8000_0000_0000_0000
  }

  /** The leading digits of a field as a number, continuing from `n`. */
  function LeadingNumber(field: string, n: int): int {
    if field == "" || !IsDigit(field[0]) then n
    else LeadingNumber(field[1..], Wrap64(n * 10 + DigitValue(field[0])))
  }

  function Numbers(fields: seq<string>): seq<int> {
    if fields == [] then [] else [LeadingNumber(fields[0], 0)] + Numbers(fields[1..])
  }

  function Parsed(v: string): seq<int> {
    Numbers(Fields(TrimV(TrimSpace(v))))
  }

  method SplitVer(v: string) returns (out: seq<int>)
    ensures out == Parsed(v)
  {
    var fields := Fields(TrimV(TrimSpace(v)));
    out := [];
    for k := 0 to |fields|
      invariant out + Numbers(fields[k..]) == Numbers(fields)
    {
      var f, n := fields[k], 0;
      for i := 0 to |f|
        invariant LeadingNumber(f[i..], n) == LeadingNumber(f, 0)
      {
        if f[i] < '0' || f[i] > '9' {
          break;
        }
        assert f[i..][1..] == f[i + 1..];
        n := Wrap64(n * 10 + DigitValue(f[i]));
      }
      assert n == LeadingNumber(f, 0);
      assert fields[k..][1..] == fields[k + 1..];
      Assoc(out, [n], Numbers(fields[k + 1..]));
      out := out + [n];
    }
    assert fields[|fields|..] == [];
  }

  // ----- Order -----

  /** Component `i` of a version; missing components are 0. */
  function At(p: seq<int>, i: nat): int { if i < |p| then p[i] else 0 }

  ghost predicate SameUpTo(p: seq<int>, q: seq<int>, n: nat) {
    forall i: nat :: i < n ==> At(p, i) == At(q, i)
  }

  /** The first component that differs decides. */
  ghost predicate LessAt(p: seq<int>, q: seq<int>, i: nat) {
    SameUpTo(p, q, i) && At(p, i) < At(q, i)
  }

  ghost predicate Less(p: seq<int>, q: seq<int>) {
    exists i: nat :: LessAt(p, q, i)
  }

  ghost predicate Equal(p: seq<int>, q: seq<int>) {
    forall i: nat :: At(p, i) == At(q, i)
  }

  ghost predicate Compares(p: seq<int>, q: seq<int>, c: int) {
    && c in {-1, 0, 1}
    && (c == -1 <==> Less(p, q))
    && (c == 0 <==> Equal(p, q))
    && (c == 1 <==> Less(q, p))
  }

  lemma LessExcludes(p: seq<int>, q: seq<int>)
    requires Less(p, q)
    ensures !Equal(p, q) && !Less(q, p)
  {
    var i: nat :| LessAt(p, q, i);
    if j: nat :| LessAt(q, p, j) {
      assert false;
    }
  }

  method CompareVersions(a: string, b: string) returns (c: int)
    ensures Compares(Parsed(a), Parsed(b), c)
  {
    var pa := SplitVer(a);
    var pb := SplitVer(b);
    var i := 0;
    while i < |pa| || i < |pb|
      invariant i >= 0
      invariant SameUpTo(pa, pb, i)
      decreases |pa| + |pb| - i
    {
      var x, y := 0, 0;
      if i < |pa| { x := pa[i]; }
      if i < |pb| { y := pb[i]; }
      if x != y {
        if x < y {
          assert LessAt(pa, pb, i);
          LessExcludes(pa, pb);
          return -1;
        }
        assert LessAt(pb, pa, i);
        LessExcludes(pb, pa);
        return 1;
      }
      i := i + 1;
    }
    assert Equal(pa, pb);
    if Less(pa, pb) { LessExcludes(pa, pb); }
    if Less(pb, pa) { LessExcludes(pb, pa); }
    return 0;
  }

  /** The sign of a comparison flips with its arguments, and comparison is transitive. */
  lemma TotalPreorder(p: seq<int>, q: seq<int>, r: seq<int>, pq: int, qp: int, qr: int, pr: int)
    requires Compares(p, q, pq) && Compares(q, p, qp) && Compares(q, r, qr) && Compares(p, r, pr)
    ensures pq == -qp
    ensures pq <= 0 && qr <= 0 ==> pr <= 0
    ensures pq <= 0 && qr <= 0 && (pq < 0 || qr < 0) ==> pr < 0
  {
    if Equal(p, q) {
      assert Equal(q, p);
    }
    if pq <= 0 && qr <= 0 {
      ChainLess(p, q, r);
    }
  }

  lemma ChainLess(p: seq<int>, q: seq<int>, r: seq<int>)
    requires Less(p, q) || Equal(p, q)
    requires Less(q, r) || Equal(q, r)
    ensures Less(p, r) || (Equal(p, q) && Equal(q, r))
  {
    if Less(p, q) && Less(q, r) {
      var i: nat :| LessAt(p, q, i);
      var j: nat :| LessAt(q, r, j);
      assert LessAt(p, r, if i < j then i else j);
    } else if Less(p, q) {
      var i: nat :| LessAt(p, q, i);
      assert LessAt(p, r, i);
    } else if Less(q, r) {
      var j: nat :| LessAt(q, r, j);
      assert LessAt(p, r, j);
    }
  }

  function DropZeros(p: seq<int>): seq<int> {
    if p != [] && p[|p| - 1] == 0 then DropZeros(p[..|p| - 1]) else p
  }

  lemma {:induction false} DropZerosEqual(p: seq<int>)
    ensures Equal(p, DropZeros(p))
    ensures DropZeros(p) != [] ==> DropZeros(p)[|DropZeros(p)| - 1] != 0
  {
    if p != [] && p[|p| - 1] == 0 {
      DropZerosEqual(p[..|p| - 1]);
      forall i: nat ensures At(p, i) == At(p[..|p| - 1], i) {}
      forall i: nat ensures At(p, i) == At(DropZeros(p), i) {
        assert At(p[..|p| - 1], i) == At(DropZeros(p[..|p| - 1]), i);
      }
    }
  }

  /** Two versions are equal exactly when their parsed lists agree without trailing zeros. */
  lemma EqualExactly(p: seq<int>, q: seq<int>)
    ensures Equal(p, q) <==> DropZeros(p) == DropZeros(q)
  {
    var a, b := DropZeros(p), DropZeros(q);
    DropZerosEqual(p);
    DropZerosEqual(q);
    if Equal(p, q) {
      forall i: nat ensures At(a, i) == At(b, i) {
        assert At(a, i) == At(p, i) == At(q, i) == At(b, i);
      }
      assert |a| > 0 ==> At(b, |a| - 1) == a[|a| - 1];
      assert |b| > 0 ==> At(a, |b| - 1) == b[|b| - 1];
      assert |a| == |b|;
      forall i | 0 <= i < |a| ensures a[i] == b[i] {
        assert At(a, i) == At(b, i);
      }
    }
    if a == b {
      forall i: nat ensures At(p, i) == At(q, i) {
        assert At(a, i) == At(p, i) && At(b, i) == At(q, i);
      }
    }
  }

  // ----- Vulnerability feed -----

  datatype VulnRule = VulnRule(engine: string, maxVersion: string, advisory: string)

  ghost predicate Affects(v: VulnRule, engine: string, version: string) {
    version != "" && v.engine == engine && Less(Parsed(version), Parsed(v.maxVersion))
  }

  /** The advisory of the first rule that affects the version, or "". */
  ghost function FirstAdvisory(vulns: seq<VulnRule>, engine: string, version: string): string {
    if vulns == [] then ""
    else if Affects(vulns[0], engine, version) then vulns[0].advisory
    else FirstAdvisory(vulns[1..], engine, version)
  }

  method MatchVuln(vulns: seq<VulnRule>, engine: string, version: string) returns (advisory: string)
    ensures advisory == FirstAdvisory(vulns, engine, version)
  {
    if version == "" {
      NoVersion(vulns, engine);
      return "";
    }
    for k := 0 to |vulns|
      invariant FirstAdvisory(vulns[k..], engine, version) == FirstAdvisory(vulns, engine, version)
    {
      var v := vulns[k];
      assert vulns[k..][1..] == vulns[k + 1..];
      if v.engine == engine {
        var c := CompareVersions(version, v.maxVersion);
        if c < 0 {
          return v.advisory;
        }
      }
    }
    assert vulns[|vulns|..] == [];
    return "";
  }

  lemma {:induction false} NoVersion(vulns: seq<VulnRule>, engine: string)
    ensures FirstAdvisory(vulns, engine, "") == ""
  {
    if vulns != [] { NoVersion(vulns[1..], engine); }
  }

  /** The first rule that affects the version decides. */
  ghost predicate Decides(vulns: seq<VulnRule>, engine: string, version: string, i: nat) {
    i < |vulns| && Affects(vulns[i], engine, version) && forall j :: 0 <= j < i ==> !Affects(vulns[j], engine, version)
  }

  lemma {:induction false} FirstAdvisoryExactly(vulns: seq<VulnRule>, engine: string, version: string, i: nat)
    ensures Decides(vulns, engine, version, i) ==> FirstAdvisory(vulns, engine, version) == vulns[i].advisory
    ensures (forall j :: 0 <= j < |vulns| ==> !Affects(vulns[j], engine, version)) ==>
      FirstAdvisory(vulns, engine, version) == ""
  {
    hide Affects;
    if vulns != [] {
      if i > 0 {
        FirstAdvisoryExactly(vulns[1..], engine, version, i - 1);
        assert forall j :: 0 <= j < |vulns[1..]| ==> vulns[1..][j] == vulns[j + 1];
      } else {
        FirstAdvisoryExactly(vulns[1..], engine, version, 0);
      }
    }
  }

  /** The versions a rule affects are downward closed. */
  lemma DownwardClosed(v: VulnRule, engine: string, older: string, newer: string)
    requires Affects(v, engine, newer) && older != ""
    requires Less(Parsed(older), Parsed(newer)) || Equal(Parsed(older), Parsed(newer))
    ensures Affects(v, engine, older)
  {
    ChainLess(Parsed(older), Parsed(newer), Parsed(v.maxVersion));
    LessExcludes(Parsed(newer), Parsed(v.maxVersion));
  }
}
