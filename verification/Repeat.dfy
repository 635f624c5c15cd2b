/** Handling the same observation again. */
module Repeat {
  import opened Text
  import opened Sorting
  import opened Model
  import opened Merge
  import opened Risk
  import opened State
  import opened Control
  import opened Lifecycle

  // ----- Scores -----

  /** Scores do not depend on the order or repetition of an instance's lists, as long as the
      credentials weigh the same. */
  lemma ScoreUpToLists(e: Engine, i: Instance, j: Instance, reach: seq<Reachability>, creds: seq<CredentialRef>,
                       ws: seq<Workflow>)
    requires UpToLists(i, j)
    requires CredentialWeight(e.w, Input(i, reach, creds, ws)) == CredentialWeight(e.w, Input(j, reach, creds, ws))
    ensures ScoreOf(e, Input(i, reach, creds, ws)) == ScoreOf(e, Input(j, reach, creds, ws))
  {
    hide CategorySum, NewCategories, Webhooks, AddCategories, Round1, SeverityFromScore, CredentialWeight;
    var a, b := Input(i, reach, creds, ws), Input(j, reach, creds, ws);
    assert WebhookWeight(e.w, a) == WebhookWeight(e.w, b);
    assert BaseScore(e.w, a) == BaseScore(e.w, b);
    assert SignalFactors(e.w, a) == SignalFactors(e.w, b);
    hide BaseScore, SignalFactors;
    assert Outdated(e, i) == Outdated(e, j) && NonITOwner(i) == NonITOwner(j);
    hide Outdated, NonITOwner;
    assert RawScore(e, a) == RawScore(e, b);
    assert Factors(e, a) == Factors(e, b);
  }

  ghost predicate SameTables(d: Data, d1: Data) {
    d.reach == d1.reach && d.creds == d1.creds && d.workflows == d1.workflows
  }

  /** What the credentials of an instance weigh in a store. */
  ghost function CredWeight(d: Data, e: Engine, x: Instance): real {
    CredentialWeight(e.w, Input(x, EdgesOf(d, x.id), CredsOf(d, x.id), WorkflowsOf(d, x.id)))
  }

  lemma SameRows(d: Data, d1: Data, id: string)
    requires SameTables(d, d1)
    ensures EdgesOf(d, id) == EdgesOf(d1, id) && CredsOf(d, id) == CredsOf(d1, id)
    ensures WorkflowsOf(d, id) == WorkflowsOf(d1, id)
  {
    hide SortedKeys;
  }

  lemma FindingUpToLists(d: Data, d1: Data, e: Engine, i: Instance, j: Instance)
    requires SameTables(d, d1) && UpToLists(i, j) && CredWeight(d, e, i) == CredWeight(d1, e, j)
    ensures FindingFor(d, e, i) == FindingFor(d1, e, j)
  {
    hide ScoreOf, SortFactors, SortedKeys, FindingId, EdgesOf, CredsOf, WorkflowsOf;
    SameRows(d, d1, i.id);
    ScoreUpToLists(e, i, j, EdgesOf(d, i.id), CredsOf(d, i.id), WorkflowsOf(d, i.id));
  }

  /** Otherwise one more factor is reported. */
  lemma OneFactorLess(e: Engine, i: Instance, j: Instance, reach: seq<Reachability>, creds: seq<CredentialRef>,
                      ws: seq<Workflow>)
    requires UpToLists(i, j) && CredentialWeight(e.w, Input(j, reach, creds, ws)) == 0.0
    requires CredentialWeight(e.w, Input(i, reach, creds, ws)) != 0.0
    ensures |Factors(e, Input(i, reach, creds, ws))| == |Factors(e, Input(j, reach, creds, ws))| + 1
  {
    hide CategorySum, NewCategories, Webhooks, AddCategories, CredentialWeight;
    var a, b := Input(i, reach, creds, ws), Input(j, reach, creds, ws);
    assert WebhookWeight(e.w, a) == WebhookWeight(e.w, b);
    assert |SignalFactors(e.w, a)| == |SignalFactors(e.w, b)| + 1;
    hide BaseScore, SignalFactors;
    assert Outdated(e, i) == Outdated(e, j) && NonITOwner(i) == NonITOwner(j);
    hide Outdated, NonITOwner;
  }

  lemma {:induction false} SortKeepsLength(fs: seq<RiskFactor>)
    ensures |SortFactors(fs)| == |fs|
  {
    if fs != [] {
      SortKeepsLength(fs[1..]);
      InsertLength(fs[0], SortFactors(fs[1..]));
    }
  }

  lemma {:induction false} InsertLength(f: RiskFactor, s: seq<RiskFactor>)
    ensures |InsertFactor(f, s)| == |s| + 1
  {
    if s != [] && f.weight < s[0].weight { InsertLength(f, s[1..]); }
  }

  lemma FindingsDiffer(d: Data, d1: Data, e: Engine, i: Instance, j: Instance)
    requires SameTables(d, d1) && UpToLists(i, j) && CredWeight(d, e, i) != 0.0 && CredWeight(d1, e, j) == 0.0
    ensures FindingFor(d, e, i).factors != FindingFor(d1, e, j).factors
  {
    hide SortFactors, SortedKeys, FindingId, EdgesOf, CredsOf, WorkflowsOf, Factors, RawScore, Round1,
         SeverityFromScore;
    SameRows(d, d1, i.id);
    var reach, creds, ws := EdgesOf(d, i.id), CredsOf(d, i.id), WorkflowsOf(d, i.id);
    OneFactorLess(e, i, j, reach, creds, ws);
    SortKeepsLength(Factors(e, Input(i, reach, creds, ws)));
    SortKeepsLength(Factors(e, Input(j, reach, creds, ws)));
  }

  // ----- Findings -----

  /** Publishing a dated finding over itself changes nothing and announces nothing. */
  lemma PublishAgain(d: Data, d1: Data, source: string, f: Finding, now: Time, again: Time)
    requires f.updatedAt != ZERO_TIME
    requires d1.findings == PublishFinding(d, source, f, now).0.findings
    ensures PublishFinding(d1, source, f, again) == (d1, [])
  {
    hide FindingEvent;
    var f1 := f.(source := source);
    var g := FindingAfter(d, f1);
    assert d1.findings[f.id] == g;
    assert FindingAfter(d1, f1) == g by {
      assert StatusAfter(d1, f1) == StatusAfter(d, f1);
    }
    assert d1.findings[f.id := g] == d1.findings;
  }

  /** A published finding is stored with its factors. */
  lemma FactorsStored(d: Data, source: string, f: Finding, now: Time)
    ensures var d1 := PublishFinding(d, source, f, now).0;
      f.id in d1.findings && d1.findings[f.id].factors == f.factors
  {
    hide FindingEvent;
  }

  // ----- Instances -----

  /** Some name is not empty, unless there are no names at all. */
  ghost predicate Named(names: seq<string>) {
    names != [] ==> exists k :: k in names && k != ""
  }

  /** Whether an instance counts as holding credentials survives the first merge exactly if it
      has no names or one that is not empty: merging drops empty names. */
  lemma KeysSurvive(x: Instance, y: Instance)
    requires SameReading(x, y)
    ensures (|x.secretEnvKeys| > 0 <==> |Merged(Created(x), y).secretEnvKeys| > 0) <==> Named(x.secretEnvKeys)
  {
    var u := UnionStrs(x.secretEnvKeys, y.secretEnvKeys);
    UnionStrsIs(x.secretEnvKeys, y.secretEnvKeys);
    assert Merged(Created(x), y).secretEnvKeys == u;
    hide UnionStrs;
    SameEmptiness(x.secretEnvKeys, u);
  }

  lemma SameEmptiness(a: seq<string>, b: seq<string>)
    requires Elems(b) == Elems(a) + Elems(a) - {""}
    ensures (|a| > 0 <==> |b| > 0) <==> Named(a)
  {
    if |b| > 0 { assert b[0] in Elems(b); assert b[0] in Elems(a); }
    if k :| k in a && k != "" { assert k in Elems(b); }
    if |a| > 0 && |b| > 0 { assert b[0] in a && b[0] != ""; }
  }

  /** When the second handling of an observation scores as the first did: the store knew the
      instance, its credential names are not all empty, a credential is recorded for it, or
      credentials weigh nothing. */
  ghost predicate Steady(d: Data, e: Engine, x: Instance) {
    x.id in d.instances || Named(x.secretEnvKeys) || CredsOf(d, x.id) != [] || e.w.credentialPresent == 0.0
  }

  /** What storing two readings of an observation does to the stored instance. */
  lemma UpsertAgain(d: Data, x: Instance, y: Instance)
    requires SameReading(x, y)
    ensures var i := UpsertInstance(d, x).instances[x.id];
      && UpToLists(i, Merged(i, y))
      && (forall z :: SameReading(x, z) ==> Merged(Merged(i, y), z) == Merged(i, y))
      && ((|i.secretEnvKeys| > 0 <==> |Merged(i, y).secretEnvKeys| > 0)
          <==> x.id in d.instances || Named(x.secretEnvKeys))
  {
    hide UnionInts, UnionStrs;
    var i := UpsertInstance(d, x).instances[x.id];
    MergeReading(i, x, y);
    if x.id in d.instances {
      MergeTwice(d.instances[x.id], x);
    } else {
      CreatedThenMerged(x);
      KeysSurvive(x, y);
    }
    forall z | SameReading(x, z) ensures Merged(Merged(i, y), z) == Merged(i, y) {
      MergeReading(Merged(i, y), x, z);
      MergeTwice(i, x);
    }
  }

  /** Two weights of the same instance before and after its lists have been merged. */
  lemma WeightsAgree(d: Data, d1: Data, d2: Data, e: Engine, x: Instance, i: Instance, j: Instance)
    requires SameTables(d, d1) && SameTables(d, d2) && i.id == x.id && j.id == x.id && UpToLists(i, j)
    requires (|i.secretEnvKeys| > 0 <==> |j.secretEnvKeys| > 0) <==> x.id in d.instances || Named(x.secretEnvKeys)
    requires !(x.id in d.instances || Named(x.secretEnvKeys)) ==> j.secretEnvKeys == []
    ensures CredWeight(d1, e, i) == CredWeight(d2, e, j) <==> Steady(d, e, x)
    ensures !Steady(d, e, x) ==> CredWeight(d1, e, i) != 0.0 && CredWeight(d2, e, j) == 0.0
  {
    hide EdgesOf, WorkflowsOf, CredsOf, Named;
    SameRows(d, d1, x.id);
    SameRows(d, d2, x.id);
  }

  // ----- Rescores -----

  lemma Dated(d: Data, e: Engine, x: Instance)
    ensures FindingFor(d, e, x).updatedAt == x.lastSeen
    ensures FindingFor(d, e, x).id == FindingId(x.id)
  {
    hide ScoreOf, SortFactors, FindingId;
  }

  /** Nothing is left of names that are all empty. */
  lemma UnnamedVanish(d: Data, x: Instance, y: Instance)
    requires SameReading(x, y) && x.id !in d.instances && !Named(x.secretEnvKeys)
    ensures Merged(UpsertInstance(d, x).instances[x.id], y).secretEnvKeys == []
  {
    hide UnionInts, UnionStrs;
    KeysSurvive(x, y);
  }

  /** Stores another reading of an instance after a rescore, and rescores: the finding stays
      exactly if the reading is steady, and then nothing is published. */
  lemma RescoreAgain(d: Data, e: Engine, x: Instance, y: Instance, now: Time, again: Time)
    requires KeysMatch(d) && x.lastSeen != ZERO_TIME && SameReading(x, y)
    ensures var d1 := Rescore(UpsertInstance(d, x), e, x.id, now).0;
      var d2 := UpsertInstance(d1, y);
      && SameTables(d, d1)
      && x.id in d1.instances && x.id in d2.instances
      && d2 == d1.(instances := d1.instances[x.id := d2.instances[x.id]])
      && UpToLists(d1.instances[x.id], d2.instances[x.id])
      && (forall z :: SameReading(x, z) ==> Merged(d2.instances[x.id], z) == d2.instances[x.id])
      && (Steady(d, e, x) ==> Rescore(d2, e, x.id, again) == (d2, []))
      && (!Steady(d, e, x) ==> Rescore(d2, e, x.id, again).0.findings != d2.findings)
  {
    hide UnionInts, UnionStrs, FindingFor, FindingEvent, CredWeight, Steady, UpToLists, Named, FindingId,
         PublishFinding;
    var d0 := UpsertInstance(d, x);
    var i := d0.instances[x.id];
    UpsertAgain(d, x, y);
    PublishKeeps(d0, FindingFor(d0, e, i), now);
    var d1 := Rescore(d0, e, x.id, now).0;
    var d2 := UpsertInstance(d1, y);
    var j := d2.instances[x.id];
    UpToListsId(i, j);
    if x.id !in d.instances && !Named(x.secretEnvKeys) { UnnamedVanish(d, x, y); }
    WeightsAgree(d, d0, d2, e, x, i, j);
    Dated(d0, e, i);
    Dated(d2, e, j);
    FactorsStored(d0, DISCOVERY, FindingFor(d0, e, i), now);
    FactorsStored(d2, DISCOVERY, FindingFor(d2, e, j), again);
    if Steady(d, e, x) {
      FindingUpToLists(d0, d2, e, i, j);
      PublishAgain(d0, d2, DISCOVERY, FindingFor(d0, e, i), now, again);
    } else {
      FindingsDiffer(d0, d2, e, i, j);
    }
  }

  lemma PublishKeeps(d: Data, f: Finding, now: Time)
    ensures var d1 := PublishFinding(d, DISCOVERY, f, now).0;
      d1 == d.(findings := d1.findings)
  {
    hide FindingEvent;
  }

  lemma UpToListsId(i: Instance, j: Instance)
    requires UpToLists(i, j)
    ensures i.id == j.id
  {
  }

  /** The same for a third reading, which changes nothing. */
  lemma RescoreThrice(d: Data, e: Engine, x: Instance, y: Instance, z: Instance, t1: Time, t2: Time, t3: Time)
    requires KeysMatch(d) && x.lastSeen != ZERO_TIME && SameReading(x, y) && SameReading(x, z) && Steady(d, e, x)
    ensures var d1 := Rescore(UpsertInstance(d, x), e, x.id, t1).0;
      var (d2, events2) := Rescore(UpsertInstance(d1, y), e, x.id, t2);
      && SameTables(d, d1) && SameTables(d, d2)
      && x.id in d1.instances && x.id in d2.instances
      && events2 == []
      && d2 == d1.(instances := d1.instances[x.id := d2.instances[x.id]])
      && UpToLists(d1.instances[x.id], d2.instances[x.id])
      && Rescore(UpsertInstance(d2, z), e, x.id, t3) == (d2, [])
  {
    hide UnionInts, UnionStrs, FindingFor, FindingEvent, Steady, UpToLists, Merged, PublishFinding;
    var d1 := Rescore(UpsertInstance(d, x), e, x.id, t1).0;
    RescoreAgain(d, e, x, y, t1, t2);
    RescoreAgain(d, e, x, y, t1, t3);
    var d2 := UpsertInstance(d1, y);
    assert Merged(d2.instances[x.id], z) == d2.instances[x.id];
    StoredAgain(d2, z);
  }

  lemma StoredAgain(d: Data, z: Instance)
    requires z.id in d.instances && Merged(d.instances[z.id], z) == d.instances[z.id]
    ensures UpsertInstance(d, z) == d
  {
    hide Merged;
  }

  // ----- Handlers -----

  /** Two readings of one observation as plans: the instances agree up to the order of their
      lists, and the rows fill the tables in the same way. */
  ghost predicate SamePlan(a: Plan, b: Plan) {
    match (a, b)
    case (Ignored, Ignored) => true
    case (Detected(x, es, cs), Detected(y, fs, ds)) =>
      SameReading(x, y) && EdgeTable(es) == EdgeTable(fs) && CredTable(cs) == CredTable(ds)
    case (Inventory(x, ws, es, cs), Inventory(y, vs, fs, ds)) =>
      SameReading(x, y) && WorkflowTable(ws) == WorkflowTable(vs) && EdgeTable(es) == EdgeTable(fs)
      && CredTable(cs) == CredTable(ds)
    case _ => false
  }

  /** The store with the rows of a plan in its tables. */
  ghost function WithRows(d: Data, plan: Plan): Data {
    match plan
    case Ignored => d
    case Detected(_, edges, creds) => d.(reach := d.reach + EdgeTable(edges), creds := d.creds + CredTable(creds))
    case Inventory(_, workflows, edges, creds) =>
      d.(workflows := d.workflows + WorkflowTable(workflows), reach := d.reach + EdgeTable(edges),
         creds := d.creds + CredTable(creds))
  }

  /** The instance that a handler stores. */
  function StoredFor(plan: Plan, verdict: Option<WhitelistRule>): Instance
    requires !plan.Ignored?
  {
    match plan
    case Detected(x, _, _) => Judged(x, verdict)
    case Inventory(x, _, _, _) => x
  }

  /** A handler fills the tables, stores the instance and rescores; only a first detection
      announces an asset. */
  lemma HandlerIs(d: Data, e: Engine, plan: Plan, v: Option<WhitelistRule>, t: Time)
    requires !plan.Ignored?
    ensures var r := Rescore(UpsertInstance(WithRows(d, plan), StoredFor(plan, v)), e, plan.inst.id, t);
      && HandlePlan(d, e, plan, v, t).0 == r.0
      && (plan.inst.id in d.instances ==> HandlePlan(d, e, plan, v, t) == r)
  {
    hide Rescore, Merged, EdgeTable, CredTable, WorkflowTable, AssetEvent;
    var r := Rescore(UpsertInstance(WithRows(d, plan), StoredFor(plan, v)), e, plan.inst.id, t);
    assert [] + r.1 == r.1;
  }

  lemma RowsAgain(d: Data, d1: Data, p1: Plan, p2: Plan)
    requires SamePlan(p1, p2) && SameTables(WithRows(d, p1), d1)
    ensures WithRows(d1, p2) == d1
  {
    hide EdgeTable, CredTable, WorkflowTable;
  }

  lemma SameStored(p1: Plan, p2: Plan, v1: Option<WhitelistRule>, v2: Option<WhitelistRule>)
    requires SamePlan(p1, p2) && !p1.Ignored?
    ensures !p2.Ignored? && p2.inst.id == p1.inst.id
    ensures SameReading(StoredFor(p1, v1), StoredFor(p2, v2))
    ensures StoredFor(p1, v1).id == p1.inst.id && StoredFor(p1, v1).lastSeen == p1.inst.lastSeen
    ensures StoredFor(p1, v1).secretEnvKeys == p1.inst.secretEnvKeys
  {
    hide EdgeTable, CredTable, WorkflowTable;
  }

  lemma RowsKeepKeys(d: Data, plan: Plan)
    ensures WithRows(d, plan).instances == d.instances && WithRows(d, plan).findings == d.findings
  {
    hide EdgeTable, CredTable, WorkflowTable;
  }

  lemma SteadyStored(d: Data, e: Engine, x: Instance, y: Instance)
    requires x.id == y.id && x.secretEnvKeys == y.secretEnvKeys
    ensures Steady(d, e, x) <==> Steady(d, e, y)
  {
    hide CredsOf;
  }

  /** Handling the same observation a second time publishes nothing and changes at most the
      order and repetition of the lists of its instance; a third time changes nothing at
      all. Times, verdicts and the order of the lists may differ from reading to reading. */
  lemma HandleAgain(d: Data, e: Engine, p1: Plan, p2: Plan, p3: Plan, v1: Option<WhitelistRule>,
                    v2: Option<WhitelistRule>, v3: Option<WhitelistRule>, t1: Time, t2: Time, t3: Time)
    requires KeysMatch(d) && SamePlan(p1, p2) && SamePlan(p1, p3)
    requires !p1.Ignored? ==> p1.inst.lastSeen != ZERO_TIME && Steady(WithRows(d, p1), e, p1.inst)
    ensures var d1 := HandlePlan(d, e, p1, v1, t1).0;
      var (d2, events2) := HandlePlan(d1, e, p2, v2, t2);
      && events2 == []
      && HandlePlan(d2, e, p3, v3, t3) == (d2, [])
      && (p1.Ignored? ==> d2 == d1)
      && (!p1.Ignored? ==>
            && p1.inst.id in d1.instances && p1.inst.id in d2.instances
            && d2 == d1.(instances := d1.instances[p1.inst.id := d2.instances[p1.inst.id]])
            && UpToLists(d1.instances[p1.inst.id], d2.instances[p1.inst.id]))
  {
    if !p1.Ignored? {
      hide Rescore, UpsertInstance, UpToLists, HandlePlan, Steady, SameReading, WithRows, StoredFor, SamePlan,
           SameTables;
      var d0 := WithRows(d, p1);
      RowsKeepKeys(d, p1);
      SameStored(p1, p2, v1, v2);
      SameStored(p1, p3, v1, v3);
      SteadyStored(d0, e, p1.inst, StoredFor(p1, v1));
      RescoreThrice(d0, e, StoredFor(p1, v1), StoredFor(p2, v2), StoredFor(p3, v3), t1, t2, t3);
      HandlerIs(d, e, p1, v1, t1);
      var d1 := HandlePlan(d, e, p1, v1, t1).0;
      RowsAgain(d, d1, p1, p2);
      HandlerIs(d1, e, p2, v2, t2);
      var d2 := HandlePlan(d1, e, p2, v2, t2).0;
      RowsAgain(d, d2, p1, p3);
      HandlerIs(d2, e, p3, v3, t3);
    }
  }

  /** The condition is exact: the second handling leaves the findings as they are if and only
      if the observation is steady. */
  lemma HandleAgainExactly(d: Data, e: Engine, p1: Plan, p2: Plan, v1: Option<WhitelistRule>, v2: Option<WhitelistRule>,
                           t1: Time, t2: Time)
    requires KeysMatch(d) && SamePlan(p1, p2) && !p1.Ignored? && p1.inst.lastSeen != ZERO_TIME
    ensures var d1 := HandlePlan(d, e, p1, v1, t1).0;
      HandlePlan(d1, e, p2, v2, t2).0.findings == d1.findings <==> Steady(WithRows(d, p1), e, p1.inst)
  {
    hide Rescore, UpToLists, HandlePlan, Steady, SameReading, WithRows, StoredFor, SamePlan, SameTables, Merged;
    var d0 := WithRows(d, p1);
    RowsKeepKeys(d, p1);
    SameStored(p1, p2, v1, v2);
    SteadyStored(d0, e, p1.inst, StoredFor(p1, v1));
    RescoreAgain(d0, e, StoredFor(p1, v1), StoredFor(p2, v2), t1, t2);
    HandlerIs(d, e, p1, v1, t1);
    var d1 := HandlePlan(d, e, p1, v1, t1).0;
    RowsAgain(d, d1, p1, p2);
    HandlerIs(d1, e, p2, v2, t2);
  }

  /** An input that fails: a first container whose only credential name is empty. */
  lemma EmptyNameFails(e: Engine, x: Instance, t1: Time, t2: Time)
    requires e.w == DefaultWeights() && x.secretEnvKeys == [""] && x.lastSeen != ZERO_TIME
    ensures var plan := Detected(x, [], []);
      var d1 := HandlePlan(NewData(), e, plan, None, t1).0;
      HandlePlan(d1, e, plan, None, t2).0.findings != d1.findings
  {
    hide HandlePlan, CredsOf, SortedKeys;
    var plan := Detected(x, [], []);
    HandleAgainExactly(NewData(), e, plan, plan, None, None, t1, t2);
    NoCreds(WithRows(NewData(), plan), x.id);
  }

  lemma NoCreds(d: Data, id: string)
    requires forall k :: k in d.creds ==> d.creds[k].instanceId != id
    ensures CredsOf(d, id) == []
  {
    var keys := set k | k in d.creds && d.creds[k].instanceId == id;
    assert keys == {};
  }

  // ----- The order of rows -----

  /** Rows with the same identifier are the same. */
  ghost predicate EdgesAgree(es: seq<Reachability>) {
    forall a, b :: a in es && b in es && a.id == b.id ==> a == b
  }

  ghost predicate CredsAgree(cs: seq<CredentialRef>) {
    forall a, b :: a in cs && b in cs && a.id == b.id ==> a == b
  }

  lemma {:induction false} EdgeTableHolds(es: seq<Reachability>, a: Reachability)
    requires EdgesAgree(es) && a in es
    ensures a.id in EdgeTable(es) <==> a.targetSystem != ""
    ensures a.id in EdgeTable(es) ==> EdgeTable(es)[a.id] == a
  {
    assert es == [es[0]] + es[1..];
    EdgeTableKeys(es[1..], a.id);
    if a in es[1..] {
      EdgeTableHolds(es[1..], a);
    }
  }

  lemma {:induction false} EdgeTableKeys(es: seq<Reachability>, k: string)
    ensures k in EdgeTable(es) ==> exists a :: a in es && a.id == k && a.targetSystem != "" && EdgeTable(es)[k] == a
  {
    if es != [] {
      assert es == [es[0]] + es[1..];
      EdgeTableKeys(es[1..], k);
    }
  }

  lemma {:induction false} CredTableHolds(cs: seq<CredentialRef>, a: CredentialRef)
    requires CredsAgree(cs) && a in cs
    ensures a.id in CredTable(cs) && CredTable(cs)[a.id] == a
  {
    assert cs == [cs[0]] + cs[1..];
    CredTableKeys(cs[1..], a.id);
    if a in cs[1..] {
      CredTableHolds(cs[1..], a);
    }
  }

  lemma {:induction false} CredTableKeys(cs: seq<CredentialRef>, k: string)
    ensures k in CredTable(cs) ==> exists a :: a in cs && a.id == k && CredTable(cs)[k] == a
  {
    if cs != [] {
      assert cs == [cs[0]] + cs[1..];
      CredTableKeys(cs[1..], k);
    }
  }

  /** Reading the environment of a container in another order, as ranging over a Go map does,
      gives another reading of the same plan. */
  lemma ReorderedIsSame(x: Instance, y: Instance, es: seq<Reachability>, fs: seq<Reachability>, cs: seq<CredentialRef>,
                        ds: seq<CredentialRef>)
    requires SameReading(x, y) && SameElements(es, fs) && SameElements(cs, ds) && EdgesAgree(es) && CredsAgree(cs)
    ensures SamePlan(Detected(x, es, cs), Detected(y, fs, ds))
  {
    forall k ensures k in EdgeTable(es) <==> k in EdgeTable(fs) {
      EdgeTableKeys(es, k);
      EdgeTableKeys(fs, k);
      if k in EdgeTable(es) { EdgeTableHolds(fs, EdgeTable(es)[k]); }
      if k in EdgeTable(fs) { EdgeTableHolds(es, EdgeTable(fs)[k]); }
    }
    forall k | k in EdgeTable(es) ensures EdgeTable(es)[k] == EdgeTable(fs)[k] {
      EdgeTableKeys(es, k);
      EdgeTableHolds(fs, EdgeTable(es)[k]);
    }
    assert EdgeTable(es) == EdgeTable(fs);
    forall k ensures k in CredTable(cs) <==> k in CredTable(ds) {
      CredTableKeys(cs, k);
      CredTableKeys(ds, k);
      if k in CredTable(cs) { CredTableHolds(ds, CredTable(cs)[k]); }
      if k in CredTable(ds) { CredTableHolds(cs, CredTable(ds)[k]); }
    }
    forall k | k in CredTable(cs) ensures CredTable(cs)[k] == CredTable(ds)[k] {
      CredTableKeys(cs, k);
      CredTableHolds(ds, CredTable(cs)[k]);
    }
    assert CredTable(cs) == CredTable(ds);
  }
}
