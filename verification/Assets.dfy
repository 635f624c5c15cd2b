/** Instances over whole runs: none disappears, none changes its origin, and each is
    announced at most once. */
module Assets {
  import opened Text
  import opened Model
  import opened Merge
  import opened Risk
  import opened State
  import opened Control

  /** How often events announce the instance `id`. */
  function Announced(events: seq<Event>, id: string): nat {
    if events == [] then 0
    else
      (if events[0].payload.NewInstance? && events[0].payload.inst.id == id then 1 else 0)
      + Announced(events[1..], id)
  }

  ghost function RunAnnounced(d: Data, e: Engine, steps: seq<Step>, id: string): nat
    decreases steps
  {
    if steps == [] then 0
    else Announced(Next(d, e, steps[0]).1, id) + RunAnnounced(Next(d, e, steps[0]).0, e, steps[1..], id)
  }

  /** The fields that later observations never change. */
  ghost predicate Kept(d: Data, d1: Data, id: string) {
    id in d.instances ==>
      && id in d1.instances
      && SameOrigin(d1.instances[id].(whitelisted := false, whitelistReason := ""),
                    d.instances[id].(whitelisted := false, whitelistReason := ""))
  }

  lemma {:induction false} AnnouncedAppend(a: seq<Event>, b: seq<Event>, id: string)
    ensures Announced(a + b, id) == Announced(a, id) + Announced(b, id)
  {
    if a == [] {
      assert a + b == b;
    } else {
      assert (a + b)[1..] == a[1..] + b;
      AnnouncedAppend(a[1..], b, id);
    }
  }

  lemma SingleEvent(ev: Event, id: string)
    ensures Announced([ev], id) == if ev.payload.NewInstance? && ev.payload.inst.id == id then 1 else 0
  {
    assert [ev][1..] == [];
  }

  lemma PublishQuiet(d: Data, source: string, f: Finding, now: Time, id: string)
    ensures PublishFinding(d, source, f, now).0.instances == d.instances
    ensures Announced(PublishFinding(d, source, f, now).1, id) == 0
  {
    hide Announced, StableID, TimeText;
    var (d1, events) := PublishFinding(d, source, f, now);
    SingleEvent(FindingEvent(d1.findings[f.id], source), id);
    NoneAnnounced(id);
  }

  lemma NoneAnnounced(id: string)
    ensures Announced([], id) == 0
  {
  }

  lemma RescoreQuiet(d: Data, e: Engine, other: string, now: Time, id: string)
    ensures Rescore(d, e, other, now).0.instances == d.instances
    ensures Announced(Rescore(d, e, other, now).1, id) == 0
  {
    hide PublishFinding, FindingFor, Announced;
    NoneAnnounced(id);
    if other in d.instances {
      PublishQuiet(d, DISCOVERY, FindingFor(d, e, d.instances[other]), now, id);
    }
  }

  lemma UpsertKept(d: Data, x: Instance, id: string)
    ensures Kept(d, UpsertInstance(d, x), id) && x.id in UpsertInstance(d, x).instances
    ensures id in UpsertInstance(d, x).instances <==> id in d.instances || id == x.id
  {
    hide UnionInts, UnionStrs;
  }

  lemma PlanKept(d: Data, e: Engine, plan: Plan, verdict: Option<WhitelistRule>, now: Time, id: string)
    requires forall k :: k in d.instances ==> d.instances[k].id == k
    ensures var (d1, events) := HandlePlan(d, e, plan, verdict, now);
      && Kept(d, d1, id)
      && (forall k :: k in d1.instances ==> d1.instances[k].id == k)
      && Announced(events, id) <= (if id in d.instances then 0 else 1)
      && (Announced(events, id) == 1 ==> id in d1.instances)
  {
    hide Rescore, Merged, EdgeTable, CredTable, WorkflowTable, Announced;
    match plan
    case Ignored => NoneAnnounced(id);
    case Detected(x, edges, creds) =>
      var d0 := d.(reach := d.reach + EdgeTable(edges), creds := d.creds + CredTable(creds));
      var d1 := UpsertInstance(d0, Judged(x, verdict));
      UpsertKept(d0, Judged(x, verdict), id);
      UpsertIds(d0, Judged(x, verdict));
      RescoreQuiet(d1, e, x.id, now, id);
      NoneAnnounced(id);
      SingleEvent(AssetEvent(d1.instances[x.id], now), id);
      AnnouncedAppend(if x.id in d.instances then [] else [AssetEvent(d1.instances[x.id], now)],
                      Rescore(d1, e, x.id, now).1, id);
    case Inventory(x, workflows, edges, creds) =>
      var d1 := UpsertInstance(d, x);
      UpsertKept(d, x, id);
      UpsertIds(d, x);
      RescoreQuiet(d1.(workflows := d1.workflows + WorkflowTable(workflows), reach := d1.reach + EdgeTable(edges),
                       creds := d1.creds + CredTable(creds)), e, x.id, now, id);
  }

  lemma UpsertIds(d: Data, x: Instance)
    requires forall k :: k in d.instances ==> d.instances[k].id == k
    ensures forall k :: k in UpsertInstance(d, x).instances ==> UpsertInstance(d, x).instances[k].id == k
  {
    hide UnionInts, UnionStrs;
  }

  lemma ApplyKept(d: Data, reasons: map<string, string>, now: Time, id: string)
    requires forall k :: k in d.instances ==> d.instances[k].id == k
    ensures Kept(d, ApplyWhitelist(d, reasons, now), id)
    ensures var instances := ApplyWhitelist(d, reasons, now).instances;
      forall k :: k in instances ==> instances[k].id == k
  {
    hide Flagged, FlippedFinding;
  }

  lemma StepKept(d: Data, e: Engine, s: Step, id: string)
    requires forall k :: k in d.instances ==> d.instances[k].id == k
    ensures var (d1, events) := Next(d, e, s);
      && Kept(d, d1, id)
      && (forall k :: k in d1.instances ==> d1.instances[k].id == k)
      && Announced(events, id) <= (if id in d.instances then 0 else 1)
      && (Announced(events, id) == 1 ==> id in d1.instances)
  {
    hide HandlePlan, PublishFinding, Announced, MarkSeen, ApplyWhitelist;
    NoneAnnounced(id);
    match s
    case Handled(plan, verdict, now) => PlanKept(d, e, plan, verdict, now, id);
    case OtherFinding(source, f, now) => PublishQuiet(d, source, f, now, id);
    case RuleAdded(rule, reasons, now) => ApplyKept(d.(whitelist := d.whitelist[rule.id := rule]), reasons, now, id);
    case RuleDeleted(ruleId, reasons, now) => ApplyKept(d.(whitelist := d.whitelist - {ruleId}), reasons, now, id);
    case _ =>
  }

  /** Over every run an instance keeps its identity and first-seen time, and is announced at
      most once, and not at all if the store knew it before. */
  lemma {:induction false} InstancesStay(d: Data, e: Engine, steps: seq<Step>, id: string)
    requires forall k :: k in d.instances ==> d.instances[k].id == k
    requires IsRun(d, e, steps)
    ensures Kept(d, RunFrom(d, e, steps), id)
    ensures RunAnnounced(d, e, steps, id) <= if id in d.instances then 0 else 1
    decreases steps
  {
    hide Next, Enabled, Announced;
    if steps != [] {
      StepKept(d, e, steps[0], id);
      InstancesStay(Next(d, e, steps[0]).0, e, steps[1..], id);
    }
  }
}
