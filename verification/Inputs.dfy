/** What a finding is computed from: the rows stored for its instance, and what each row adds. */
module Inputs {
  import opened Text
  import opened Sorting
  import opened Model
  import opened Merge
  import opened Versions
  import opened VersionTexts
  import opened Risk
  import opened State
  import opened Control
  import opened Lifecycle

  // ----- The rows of an instance -----

  lemma RowsHave<V(!new)>(m: map<string, V>, keys: set<string>, v: V)
    requires forall k :: k in keys ==> k in m
    ensures (forall k :: k in SortedKeys(keys) <==> k in keys)
    ensures v in Rows(m, SortedKeys(keys)) <==> exists k :: k in keys && m[k] == v
  {
    SortedKeysIs(keys);
    hide SortedKeys;
    var listing := SortedKeys(keys);
    if k :| k in keys && m[k] == v {
      var i :| 0 <= i < |listing| && listing[i] == k;
      assert Rows(m, listing)[i] == v;
    }
  }

  /** The rows listed for an instance are those that are stored and name it. */
  lemma RowsOfInstance(d: Data, id: string)
    ensures forall r :: r in EdgesOf(d, id) <==> r.instanceId == id && exists k :: k in d.reach && d.reach[k] == r
    ensures forall c :: c in CredsOf(d, id) <==> c.instanceId == id && exists k :: k in d.creds && d.creds[k] == c
    ensures forall w :: w in WorkflowsOf(d, id) <==>
      w.instanceId == id && exists k :: k in d.workflows && d.workflows[k] == w
  {
    hide SortedKeys;
    forall r ensures r in EdgesOf(d, id) <==> r.instanceId == id && exists k :: k in d.reach && d.reach[k] == r {
      RowsHave(d.reach, (set k | k in d.reach && d.reach[k].instanceId == id), r);
    }
    forall c ensures c in CredsOf(d, id) <==> c.instanceId == id && exists k :: k in d.creds && d.creds[k] == c {
      RowsHave(d.creds, (set k | k in d.creds && d.creds[k].instanceId == id), c);
    }
    forall w
      ensures w in WorkflowsOf(d, id) <==> w.instanceId == id && exists k :: k in d.workflows && d.workflows[k] == w
    {
      RowsHave(d.workflows, (set k | k in d.workflows && d.workflows[k].instanceId == id), w);
    }
  }

  /** What the engine is given for an instance. */
  ghost function InputOf(d: Data, x: Instance): Input {
    Input(x, EdgesOf(d, x.id), CredsOf(d, x.id), WorkflowsOf(d, x.id))
  }

  lemma StoredCategory(d: Data, id: string, c: string)
    ensures c in Categories(EdgesOf(d, id)) <==>
      exists k :: k in d.reach && d.reach[k].instanceId == id && d.reach[k].targetCategory == c
  {
    RowsOfInstance(d, id);
    hide EdgesOf;
    if k :| k in d.reach && d.reach[k].instanceId == id && d.reach[k].targetCategory == c {
      assert d.reach[k] in EdgesOf(d, id);
    }
  }

  lemma NewSum(w: Weights, a: seq<Reachability>, b: seq<Reachability>, c: string)
    requires Categories(b) == Categories(a) + {c}
    ensures CategorySum(w, NewCategories(b, {})) ==
      CategorySum(w, NewCategories(a, {})) + if c in Categories(a) then 0.0 else CategoryWeight(w, c)
  {
    NewCategoriesAre(a, {});
    NewCategoriesAre(b, {});
    var x, y := NewCategories(a, {}), NewCategories(b, {});
    hide NewCategories, CategoryWeight;
    if c in Categories(a) {
      CategorySumMonotone(w, x, y);
    } else {
      WithoutIs(w, y, c);
      CategorySumMonotone(w, x, Without(y, c));
    }
  }

  /** A further edge adds the weight of its category to the base score of its instance, if no edge
      of that instance has the category yet, and nothing otherwise. */
  lemma EdgeCounts(d: Data, w: Weights, x: Instance, r: Reachability)
    requires r.id !in d.reach
    ensures BaseScore(w, InputOf(d.(reach := d.reach[r.id := r]), x)) == BaseScore(w, InputOf(d, x)) +
      if r.instanceId == x.id && r.targetCategory !in Categories(EdgesOf(d, x.id))
      then CategoryWeight(w, r.targetCategory) else 0.0
  {
    var d1 := d.(reach := d.reach[r.id := r]);
    var a, b := EdgesOf(d, x.id), EdgesOf(d1, x.id);
    forall c ensures c in Categories(b) <==>
        c in Categories(a) || (r.instanceId == x.id && c == r.targetCategory)
    {
      StoredCategory(d, x.id, c);
      StoredCategory(d1, x.id, c);
      if k :| k in d.reach && d.reach[k].instanceId == x.id && d.reach[k].targetCategory == c {
        assert d1.reach[k] == d.reach[k];
      }
      if r.instanceId == x.id && c == r.targetCategory {
        assert d1.reach[r.id] == r;
      }
    }
    hide EdgesOf, CategoryWeight, Webhooks, Categories;
    if r.instanceId == x.id {
      assert Categories(b) == Categories(a) + {r.targetCategory};
      NewSum(w, a, b, r.targetCategory);
    } else {
      assert Categories(b) == Categories(a);
      NewCategoriesAre(a, {});
      NewCategoriesAre(b, {});
      CategorySumMonotone(w, NewCategories(a, {}), NewCategories(b, {}));
    }
  }

  lemma NonemptyByMember<T>(s: seq<T>)
    ensures s != [] <==> exists v :: v in s
  {
    if s != [] { assert s[0] in s; }
  }

  /** A further credential counts if it is the first sign of one for its instance. */
  lemma CredentialCounts(d: Data, w: Weights, x: Instance, c: CredentialRef)
    requires c.id !in d.creds
    ensures BaseScore(w, InputOf(d.(creds := d.creds[c.id := c]), x)) == BaseScore(w, InputOf(d, x)) +
      if c.instanceId == x.id && x.secretEnvKeys == [] && CredsOf(d, x.id) == [] then w.credentialPresent else 0.0
  {
    var d1 := d.(creds := d.creds[c.id := c]);
    var a, b := CredsOf(d, x.id), CredsOf(d1, x.id);
    RowsOfInstance(d, x.id);
    RowsOfInstance(d1, x.id);
    assert EdgesOf(d1, x.id) == EdgesOf(d, x.id) && WorkflowsOf(d1, x.id) == WorkflowsOf(d, x.id);
    hide EdgesOf, CredsOf, WorkflowsOf;
    NonemptyByMember(a);
    NonemptyByMember(b);
    if v :| v in a {
      var k :| k in d.creds && d.creds[k] == v;
      assert d1.creds[k] == v && v in b;
    }
    if c.instanceId == x.id { assert d1.creds[c.id] == c && c in b; }
    hide CategorySum, NewCategories, ExposureWeight, WebhookWeight;
  }

  lemma {:induction false} WebhooksPositive(ws: seq<Workflow>)
    ensures Webhooks(ws) > 0 <==> exists w :: w in ws && w.webhookTriggers != []
  {
    if ws != [] {
      WebhooksPositive(ws[1..]);
      assert ws == [ws[0]] + ws[1..];
    }
  }

  /** A further workflow counts if it has the first webhook of its instance, unless only the host
      itself reaches it. */
  lemma WorkflowCounts(d: Data, w: Weights, x: Instance, f: Workflow)
    requires f.id !in d.workflows
    ensures BaseScore(w, InputOf(d.(workflows := d.workflows[f.id := f]), x)) == BaseScore(w, InputOf(d, x)) +
      if f.instanceId == x.id && f.webhookTriggers != [] && x.exposure != Localhost
         && Webhooks(WorkflowsOf(d, x.id)) == 0
      then w.webhookExposed else 0.0
  {
    var d1 := d.(workflows := d.workflows[f.id := f]);
    var a, b := WorkflowsOf(d, x.id), WorkflowsOf(d1, x.id);
    RowsOfInstance(d, x.id);
    RowsOfInstance(d1, x.id);
    assert EdgesOf(d1, x.id) == EdgesOf(d, x.id) && CredsOf(d1, x.id) == CredsOf(d, x.id);
    WebhooksPositive(a);
    WebhooksPositive(b);
    hide EdgesOf, CredsOf, WorkflowsOf, Webhooks;
    if v :| v in a && v.webhookTriggers != [] {
      var k :| k in d.workflows && d.workflows[k] == v;
      assert d1.workflows[k] == v && v in b;
    }
    if f.instanceId == x.id { assert d1.workflows[f.id] == f && f in b; }
    hide CategorySum, NewCategories, ExposureWeight, CredentialWeight;
  }

  /** An owner outside IT multiplies the score; an unknown one, root, or one from IT leaves it. */
  lemma OwnerCounts(e: Engine, in_: Input, owner: string, fromIT: bool)
    ensures var owned := in_.(inst := in_.inst.(owner := owner, ownerIsIT := fromIT));
      var unknown := in_.(inst := in_.inst.(owner := "", ownerIsIT := false));
      RawScore(e, owned) ==
        RawScore(e, unknown) * if fromIT || owner == "" || owner == "root" then 1.0 else e.w.nonITOwnerMultiplier
  {
    var owned := in_.(inst := in_.inst.(owner := owner, ownerIsIT := fromIT));
    var unknown := in_.(inst := in_.inst.(owner := "", ownerIsIT := false));
    SameBase(e.w, owned, unknown);
    assert Outdated(e, owned.inst) == Outdated(e, unknown.inst);
    hide BaseScore, Outdated;
    var base := BaseScore(e.w, owned);
    var multiplier := if NonITOwner(owned.inst) then e.w.nonITOwnerMultiplier else 1.0;
    var outdated := if Outdated(e, owned.inst) then e.w.outdatedMultiplier else 1.0;
    assert RawScore(e, unknown) == base * outdated;
    assert RawScore(e, owned) == base * multiplier * outdated;
    Swapped(base, multiplier, outdated);
  }

  lemma SameBase(w: Weights, a: Input, b: Input)
    requires b == a.(inst := b.inst) && b.inst == a.inst.(owner := b.inst.owner, ownerIsIT := b.inst.ownerIsIT)
    ensures BaseScore(w, a) == BaseScore(w, b)
  {
    hide CategorySum, NewCategories, Webhooks;
  }

  lemma Swapped(x: real, y: real, z: real)
    ensures x * y * z == x * z * y
  {
  }

  // ----- Findings -----

  /** The one finding of an instance after a rescore: whitelisted with nothing to report, or with
      the score, severity and factors that the engine gives for the stored rows. */
  ghost predicate Reports(d: Data, e: Engine, x: Instance, f: Finding) {
    if x.whitelisted then f.status == Whitelisted && f.severity == Info && f.score == 0.0
    else
      var res := ScoreOf(e, InputOf(d, x));
      && f.status != Whitelisted && f.severity == res.severity && f.score == res.score
      && f.factors == SortFactors(res.factors)
  }

  lemma RescoreReports(d: Data, e: Engine, id: string, now: Time)
    requires KeysMatch(d) && id in d.instances
    ensures var (d1, fid) := (Rescore(d, e, id, now).0, FindingId(id));
      && d1 == d.(findings := d1.findings)
      && d1.findings.Keys == d.findings.Keys + {fid}
      && Reports(d, e, d.instances[id], d1.findings[fid])
      && (forall k :: k in d.findings && k != fid ==> d1.findings[k] == d.findings[k])
      && d1.findings[fid].title == "Теневой инстанс " + d.instances[id].engine + ": " + d.instances[id].identity
      && (fid !in d.findings ==>
            d1.findings[fid].instanceId == id && d1.findings[fid].hostId == d.instances[id].hostId)
  {
    hide ScoreOf, SortFactors, EdgesOf, CredsOf, WorkflowsOf, FindingId, FindingEvent;
  }

  lemma {:induction false} EdgeStored(rs: seq<Reachability>, i: nat)
    requires i < |rs| && rs[i].targetSystem != ""
    requires forall j :: i < j < |rs| ==> rs[j].id != rs[i].id
    ensures rs[i].id in EdgeTable(rs) && EdgeTable(rs)[rs[i].id] == rs[i]
  {
    if i > 0 {
      EdgeStored(rs[1..], i - 1);
    } else {
      EdgeKeys(rs[1..], rs[0].id);
    }
  }

  lemma {:induction false} EdgeKeys(rs: seq<Reachability>, k: string)
    requires forall j :: 0 <= j < |rs| ==> rs[j].id != k
    ensures k !in EdgeTable(rs)
  {
    if rs != [] { EdgeKeys(rs[1..], k); }
  }

  lemma {:induction false} CredStored(cs: seq<CredentialRef>, i: nat)
    requires i < |cs| && forall j :: i < j < |cs| ==> cs[j].id != cs[i].id
    ensures cs[i].id in CredTable(cs) && CredTable(cs)[cs[i].id] == cs[i]
  {
    if i > 0 {
      CredStored(cs[1..], i - 1);
    } else {
      CredKeys(cs[1..], cs[0].id);
    }
  }

  lemma {:induction false} CredKeys(cs: seq<CredentialRef>, k: string)
    requires forall j :: 0 <= j < |cs| ==> cs[j].id != k
    ensures k !in CredTable(cs)
  {
    if cs != [] { CredKeys(cs[1..], k); }
  }

  /** The last edge of its id, among those with a target. */
  ghost predicate LastEdge(edges: seq<Reachability>, i: nat)
    requires i < |edges|
  {
    edges[i].targetSystem != "" && forall j :: i < j < |edges| ==> edges[j].id != edges[i].id
  }

  ghost predicate LastCred(creds: seq<CredentialRef>, i: nat)
    requires i < |creds|
  {
    forall j :: i < j < |creds| ==> creds[j].id != creds[i].id
  }

  ghost predicate EdgesStored(d: Data, edges: seq<Reachability>) {
    forall i :: 0 <= i < |edges| && LastEdge(edges, i) ==> edges[i].id in d.reach && d.reach[edges[i].id] == edges[i]
  }

  ghost predicate CredsStored(d: Data, creds: seq<CredentialRef>) {
    forall i :: 0 <= i < |creds| && LastCred(creds, i) ==> creds[i].id in d.creds && d.creds[creds[i].id] == creds[i]
  }

  lemma RowsJoin(d: Data, edges: seq<Reachability>, creds: seq<CredentialRef>)
    ensures var d1 := d.(reach := d.reach + EdgeTable(edges), creds := d.creds + CredTable(creds));
      EdgesStored(d1, edges) && CredsStored(d1, creds)
  {
    EdgesJoin(edges);
    CredsJoin(creds);
    hide EdgeTable, CredTable, LastEdge, LastCred;
  }

  lemma EdgesJoin(edges: seq<Reachability>)
    ensures forall i :: 0 <= i < |edges| && LastEdge(edges, i) ==>
      edges[i].id in EdgeTable(edges) && EdgeTable(edges)[edges[i].id] == edges[i]
  {
    hide EdgeTable;
    forall i | 0 <= i < |edges| && LastEdge(edges, i) {
      EdgeStored(edges, i);
    }
  }

  lemma CredsJoin(creds: seq<CredentialRef>)
    ensures forall i :: 0 <= i < |creds| && LastCred(creds, i) ==>
      creds[i].id in CredTable(creds) && CredTable(creds)[creds[i].id] == creds[i]
  {
    hide CredTable;
    forall i | 0 <= i < |creds| && LastCred(creds, i) {
      CredStored(creds, i);
    }
  }

  /** What a detected instance leaves behind: its edges and credentials, the instance itself, on the
      whitelist if a rule matched or it was before, and its finding, computed from what is now
      stored; no other instance or finding changes. */
  lemma DetectedOutcome(d: Data, e: Engine, x: Instance, edges: seq<Reachability>, creds: seq<CredentialRef>,
                        verdict: Option<WhitelistRule>, now: Time)
    requires KeysMatch(d)
    ensures var d1 := HandlePlan(d, e, Detected(x, edges, creds), verdict, now).0;
      && EdgesStored(d1, edges) && CredsStored(d1, creds)
      && d1.instances.Keys == d.instances.Keys + {x.id}
      && (d1.instances[x.id].whitelisted <==>
            if x.id in d.instances then d.instances[x.id].whitelisted else verdict.Some? || x.whitelisted)
      && (x.id !in d.instances && verdict.Some? ==> d1.instances[x.id].whitelistReason == verdict.value.reason)
      && d1.findings.Keys == d.findings.Keys + {FindingId(x.id)}
      && Reports(d1, e, d1.instances[x.id], d1.findings[FindingId(x.id)])
      && (forall id :: id in d.instances && id != x.id ==> d1.instances[id] == d.instances[id])
      && (forall k :: k in d.findings && k != FindingId(x.id) ==> d1.findings[k] == d.findings[k])
  {
    hide Rescore, EdgeTable, CredTable, FindingId, EdgesStored, CredsStored, Reports, Judged, UpsertInstance;
    var d0 := d.(reach := d.reach + EdgeTable(edges), creds := d.creds + CredTable(creds));
    var d1 := UpsertInstance(d0, Judged(x, verdict));
    var d2 := Rescore(d1, e, x.id, now).0;
    RowsJoin(d, edges, creds);
    JudgedFlag(x, verdict);
    UpsertOutcome(d0, Judged(x, verdict));
    RescoreReports(d1, e, x.id, now);
    SameReports(d1, d2, e, d1.instances[x.id], d2.findings[FindingId(x.id)]);
    SameStored(d0, d1, edges, creds);
    SameStored(d1, d2, edges, creds);
  }

  lemma UpsertOutcome(d: Data, y: Instance)
    requires KeysMatch(d)
    ensures var d1 := UpsertInstance(d, y);
      && d1 == d.(instances := d1.instances) && KeysMatch(d1)
      && d1.instances.Keys == d.instances.Keys + {y.id}
      && (d1.instances[y.id].whitelisted <==>
            if y.id in d.instances then d.instances[y.id].whitelisted else y.whitelisted)
      && (y.id !in d.instances ==> d1.instances[y.id].whitelistReason == y.whitelistReason)
      && (forall id :: id in d.instances && id != y.id ==> d1.instances[id] == d.instances[id])
  {
    if y.id in d.instances { MergedFlag(d.instances[y.id], y); }
    hide Merged;
  }

  lemma JudgedFlag(x: Instance, verdict: Option<WhitelistRule>)
    ensures Judged(x, verdict).id == x.id
    ensures Judged(x, verdict).whitelisted <==> verdict.Some? || x.whitelisted
    ensures verdict.Some? ==> Judged(x, verdict).whitelistReason == verdict.value.reason
  {
  }

  lemma MergedFlag(e: Instance, x: Instance)
    ensures Merged(e, x).whitelisted == e.whitelisted && Merged(e, x).id == e.id
  {
    hide UnionInts, UnionStrs;
  }

  lemma SameStored(d: Data, d1: Data, edges: seq<Reachability>, creds: seq<CredentialRef>)
    requires d1.reach == d.reach && d1.creds == d.creds && EdgesStored(d, edges) && CredsStored(d, creds)
    ensures EdgesStored(d1, edges) && CredsStored(d1, creds)
  {
  }

  lemma SameReports(d: Data, d1: Data, e: Engine, x: Instance, f: Finding)
    requires d1 == d.(findings := d1.findings) && Reports(d, e, x, f)
    ensures Reports(d1, e, x, f)
  {
    hide ScoreOf, SortFactors, EdgesOf, CredsOf, WorkflowsOf;
    SameInput(d, d1, x);
  }

  lemma SameInput(d: Data, d1: Data, x: Instance)
    requires d1 == d.(findings := d1.findings)
    ensures InputOf(d1, x) == InputOf(d, x)
  {
    hide SortedKeys;
  }

  // ----- The scores that the tests of the repository name -----

  /** An instance of which nothing is known but what the test says. */
  function Bare(exposure: Exposure, owner: string, version: string, keys: seq<string>): Instance {
    Instance("", "", "n8n", "", version, "", "", exposure, "", false, owner, false, "", [], [], keys, [], 0.0, 0, 0,
             false, "")
  }

  function To(category: string): Reachability { Reachability("", "", "", category, "", 0) }

  lemma TwoCategories(a: string, b: string)
    requires a != b
    ensures NewCategories([To(a), To(b)], {}) == [a, b]
  {
    assert [To(a), To(b)][1..] == [To(b)] && [To(b)][1..] == [];
    assert {} + {a} == {a} && NewCategories([To(b)], {a}) == [b];
  }

  lemma SumOfTwo(w: Weights, a: string, b: string)
    ensures CategorySum(w, [a, b]) == CategoryWeight(w, a) + CategoryWeight(w, b)
    ensures CategorySum(w, []) == 0.0
  {
    assert [a, b][1..] == [b] && [b][1..] == [];
    assert CategorySum(w, [b]) == CategoryWeight(w, b);
  }

  lemma DefaultCategories()
    ensures var w := DefaultWeights();
      && CategoryWeight(w, "payments") == 35.0 && CategoryWeight(w, "erp_1c") == 30.0
      && CategoryWeight(w, "database") == 28.0 && CategoryWeight(w, "crm") == 20.0
      && CategoryWeight(w, "cloud") == 15.0 && CategoryWeight(w, "messaging") == 8.0
      && CategoryWeight(w, "other") == 5.0 && CategoryWeight(w, "no such category") == 5.0
  {
  }

  /** A public instance with access to payments and 1C, owned by an accountant: 149.5, capped. */
  lemma ProductionAccessIsCritical(vulns: seq<VulnRule>)
    requires vulns == []
    ensures var e := Engine(DefaultWeights(), vulns);
      var x := Bare(Public, "accountant", "1.20.0", ["N8N_ENCRYPTION_KEY"]);
      var in_ := Input(x, [To("payments"), To("erp_1c")], [], []);
      && RawScore(e, in_) == 149.5 && ScoreOf(e, in_).score == 100.0 && ScoreOf(e, in_).severity == Critical
  {
    TwoCategories("payments", "erp_1c");
    SumOfTwo(DefaultWeights(), "payments", "erp_1c");
    DefaultCategories();
    hide CategoryWeight, NewCategories, CategorySum, Factors;
  }

  /** Its factors, in the order in which they are added. */
  lemma ProductionAccessFactors()
    ensures var e := Engine(DefaultWeights(), []);
      var x := Bare(Public, "accountant", "1.20.0", ["N8N_ENCRYPTION_KEY"]);
      Factors(e, Input(x, [To("payments"), To("erp_1c")], [], [])) ==
        [RiskFactor("shadow_instance", 15.0), RiskFactor("prod_access:payments", 35.0),
         RiskFactor("prod_access:erp_1c", 30.0), RiskFactor("exposure_public", 25.0),
         RiskFactor("credential_present", 10.0), RiskFactor("non_it_owner", 34.5)]
  {
    var e := Engine(DefaultWeights(), []);
    var x := Bare(Public, "accountant", "1.20.0", ["N8N_ENCRYPTION_KEY"]);
    var in_ := Input(x, [To("payments"), To("erp_1c")], [], []);
    TwoCategories("payments", "erp_1c");
    SumOfTwo(e.w, "payments", "erp_1c");
    DefaultCategories();
    AddedTwo(e.w, [RiskFactor("shadow_instance", 15.0)], "payments", "erp_1c");
    assert "prod_access:" + "payments" == "prod_access:payments" && "prod_access:" + "erp_1c" == "prod_access:erp_1c";
    hide CategoryWeight, NewCategories, CategorySum, AddCategories;
    assert BaseScore(e.w, in_) == 115.0;
    assert SignalFactors(e.w, in_) ==
      [RiskFactor("shadow_instance", 15.0), RiskFactor("prod_access:payments", 35.0),
       RiskFactor("prod_access:erp_1c", 30.0), RiskFactor("exposure_public", 25.0),
       RiskFactor("credential_present", 10.0)];
    hide BaseScore, SignalFactors;
  }

  lemma AddedTwo(w: Weights, factors: seq<RiskFactor>, a: string, b: string)
    requires CategoryWeight(w, a) != 0.0 && CategoryWeight(w, b) != 0.0
    ensures AddCategories(w, factors, [a, b]) ==
      factors + [RiskFactor("prod_access:" + a, CategoryWeight(w, a)),
                 RiskFactor("prod_access:" + b, CategoryWeight(w, b))]
  {
    hide CategoryWeight;
    assert [a, b][1..] == [b] && [b][1..] == [];
    var f1 := factors + [RiskFactor("prod_access:" + a, CategoryWeight(w, a))];
    assert AddCategories(w, f1, [b]) == f1 + [RiskFactor("prod_access:" + b, CategoryWeight(w, b))];
  }

  /** The base score of an instance of which only the exposure is known. */
  lemma BareBase(exposure: Exposure, owner: string, version: string)
    ensures BaseScore(DefaultWeights(), Input(Bare(exposure, owner, version, []), [], [], [])) ==
      15.0 + ExposureWeight(DefaultWeights(), exposure)
  {
    hide CategoryWeight;
  }

  lemma Tenths(v: real, n: nat)
    requires n as real <= v * 10.0 + 0.5 < n as real + 1.0
    ensures Round1(v) == n as real / 10.0
  {
    assert (v * 10.0 + 0.5).Floor == n;
  }

  /** The score of an instance in the default weights of which only exposure and version count. */
  lemma BareScore(e: Engine, exposure: Exposure, owner: string, version: string, raw: real, n: nat)
    requires e.w == DefaultWeights() && owner in {"", "root"}
    requires var outdated := FirstAdvisory(e.vulns, "n8n", version) != "";
      raw == (15.0 + ExposureWeight(e.w, exposure)) * if outdated then 1.25 else 1.0
    requires raw <= 100.0 && n as real <= raw * 10.0 + 0.5 < n as real + 1.0
    ensures ScoreOf(e, Input(Bare(exposure, owner, version, []), [], [], [])).score == n as real / 10.0
  {
    var in_ := Input(Bare(exposure, owner, version, []), [], [], []);
    BareBase(exposure, owner, version);
    assert !NonITOwner(in_.inst);
    assert Outdated(e, in_.inst) <==> FirstAdvisory(e.vulns, "n8n", version) != "";
    hide BaseScore, FirstAdvisory, ExposureWeight, NonITOwner, Outdated, DefaultWeights;
    assert RawScore(e, in_) == raw by { DefaultOutdated(); }
    hide RawScore, Round1, Factors, SeverityFromScore;
    Tenths(raw, n);
  }

  lemma DefaultOutdated()
    ensures DefaultWeights().outdatedMultiplier == 1.25
    ensures ExposureWeight(DefaultWeights(), Lan) == 12.0 && ExposureWeight(DefaultWeights(), Public) == 25.0
    ensures ExposureWeight(DefaultWeights(), Localhost) == 0.0
  {
  }

  /** In the local network: 27, and 33.8 under a rule that calls the version outdated. */
  lemma OutdatedCostsMore()
    ensures var e := Engine(DefaultWeights(), [VulnRule("n8n", "1.30.0", "CVE-TEST")]);
      && ScoreOf(e, Input(Bare(Lan, "", "1.10.0", []), [], [], [])).score == 33.8
      && ScoreOf(e, Input(Bare(Lan, "", "1.40.0", []), [], [], [])).score == 27.0
  {
    var rule := VulnRule("n8n", "1.30.0", "CVE-TEST");
    var e := Engine(DefaultWeights(), [rule]);
    TestedRule(rule);
    OneRule(rule, "n8n", "1.10.0");
    OneRule(rule, "n8n", "1.40.0");
    DefaultOutdated();
    hide DefaultWeights, Bare, ScoreOf, FirstAdvisory, Affects, ExposureWeight;
    BareScore(e, Lan, "", "1.10.0", 33.75, 338);
    BareScore(e, Lan, "", "1.40.0", 27.0, 270);
  }

  lemma OneRule(rule: VulnRule, engine: string, version: string)
    ensures FirstAdvisory([rule], engine, version) == if Affects(rule, engine, version) then rule.advisory else ""
  {
    hide Affects;
    assert [rule][1..] == [];
  }

  lemma TestedRule(rule: VulnRule)
    requires rule == VulnRule("n8n", "1.30.0", "CVE-TEST")
    ensures Affects(rule, "n8n", "1.10.0") && !Affects(rule, "n8n", "1.40.0")
  {
    SomePrinted();
    assert LessAt([1, 10, 0], [1, 30, 0], 1) && LessAt([1, 30, 0], [1, 40, 0], 1);
    hide Printed, Parsed;
    PrintedOrder([1, 10, 0], [1, 30, 0]);
    PrintedOrder([1, 40, 0], [1, 30, 0]);
    LessExcludes([1, 30, 0], [1, 40, 0]);
  }

  /** Public exposure scores higher than localhost. */
  lemma PublicScoresHigher()
    ensures var e := Engine(DefaultWeights(), []);
      && ScoreOf(e, Input(Bare(Localhost, "root", "", []), [], [], [])).score == 15.0
      && ScoreOf(e, Input(Bare(Public, "root", "", []), [], [], [])).score == 40.0
  {
    var e := Engine(DefaultWeights(), []);
    DefaultOutdated();
    assert FirstAdvisory([], "n8n", "") == "";
    hide DefaultWeights, Bare, ScoreOf, FirstAdvisory, ExposureWeight;
    BareScore(e, Localhost, "root", "", 15.0, 150);
    BareScore(e, Public, "root", "", 40.0, 400);
  }
}
