/** What every run of the control plane keeps: finding states, whitelist flags, repeated
    observations and published severities. */
module Lifecycle {
  import opened Text
  import opened Sorting
  import opened Model
  import opened Merge
  import opened Risk
  import opened State
  import opened Control

  // ----- Finding states -----

  ghost predicate KeysMatch(d: Data) {
    && (forall id :: id in d.instances ==> d.instances[id].id == id)
    && (forall id :: id in d.findings ==> d.findings[id].id == id)
  }

  /** An m1 finding has a proper status and an instance, which is flagged if it says so. */
  ghost predicate FindingOk(d: Data, fid: string)
    requires fid in d.findings
  {
    var owner := FindingOwner(fid);
    owner.Some? ==>
      && owner.value in d.instances
      && d.findings[fid].status in {New, Acked, Resolved, Whitelisted}
      && (d.findings[fid].status == Whitelisted ==> d.instances[owner.value].whitelisted)
  }

  ghost predicate Inv(d: Data) {
    KeysMatch(d) && forall fid :: fid in d.findings ==> FindingOk(d, fid)
  }

  /** A finding that agrees with the flag of its instance, as rescore builds it. */
  ghost predicate Agrees(d: Data, f: Finding) {
    match FindingOwner(f.id)
    case None => f.status == Blank
    case Some(id) => id in d.instances && f.status == if d.instances[id].whitelisted then Whitelisted else Blank
  }

  /** What publishing a finding does to the finding `k`. */
  lemma PublishStores(d: Data, source: string, f: Finding, now: Time, k: string)
    requires KeysMatch(d)
    ensures var d1 := PublishFinding(d, source, f, now).0;
      && d1.instances == d.instances
      && (k in d1.findings <==> k in d.findings || k == f.id)
      && (k in d.findings && k != f.id ==> d1.findings[k] == d.findings[k])
      && d1.findings[f.id].id == f.id
      && d1.findings[f.id].severity == f.severity
      && d1.findings[f.id].status == StatusAfter(d, f)
  {
    hide FindingEvent;
  }

  ghost predicate Announces(d: Data, f: Finding) {
    f.id !in d.findings
    || (f.status != Whitelisted && d.findings[f.id].status != Whitelisted && d.findings[f.id].severity != f.severity)
  }

  lemma PublishAnnounces(d: Data, source: string, f: Finding, now: Time)
    ensures var (d1, events) := PublishFinding(d, source, f, now);
      events == if Announces(d, f) then [FindingEvent(d1.findings[f.id], source)] else []
  {
    hide FindingEvent;
  }

  lemma PublishKeepsInv(d: Data, source: string, f: Finding, now: Time)
    requires Inv(d) && Agrees(d, f)
    ensures Inv(PublishFinding(d, source, f, now).0)
  {
    hide FindingOwner, StableID;
    hide FindingEvent;
    var d1 := PublishFinding(d, source, f, now).0;
    assert f.id in d.findings ==> FindingOk(d, f.id);
    forall fid | fid in d1.findings ensures FindingOk(d1, fid) {
      if fid != f.id { assert FindingOk(d, fid); }
    }
  }

  lemma ScoredAgrees(d: Data, e: Engine, id: string)
    requires Inv(d) && id in d.instances
    ensures Agrees(d, FindingFor(d, e, d.instances[id]))
    ensures FindingFor(d, e, d.instances[id]).id == FindingId(id)
  {
    hide ScoreOf, SortFactors, EdgesOf, CredsOf, WorkflowsOf, FindingOwner, FindingId;
    OwnerOfFinding(id);
  }

  lemma RescoreKeepsInv(d: Data, e: Engine, id: string, now: Time)
    requires Inv(d)
    ensures Inv(Rescore(d, e, id, now).0)
  {
    hide FindingFor, FindingOwner, PublishFinding, Agrees;
    if id in d.instances {
      ScoredAgrees(d, e, id);
      PublishKeepsInv(d, DISCOVERY, FindingFor(d, e, d.instances[id]), now);
    }
  }

  lemma UpsertKeepsInv(d: Data, x: Instance)
    requires Inv(d)
    ensures Inv(UpsertInstance(d, x))
  {
    hide FindingOwner, UnionInts, UnionStrs;
    var d1 := UpsertInstance(d, x);
    forall fid | fid in d1.findings ensures FindingOk(d1, fid) {
      assert FindingOk(d, fid);
    }
  }

  lemma TablesKeepInv(d: Data, workflows: map<string, Workflow>, reach: map<string, Reachability>,
                      creds: map<string, CredentialRef>)
    requires Inv(d)
    ensures Inv(d.(workflows := workflows, reach := reach, creds := creds))
  {
    hide FindingOwner;
    var d1 := d.(workflows := workflows, reach := reach, creds := creds);
    forall fid | fid in d1.findings ensures FindingOk(d1, fid) {
      assert FindingOk(d, fid);
    }
  }

  lemma PlanKeepsInv(d: Data, e: Engine, plan: Plan, verdict: Option<WhitelistRule>, now: Time)
    requires Inv(d)
    ensures Inv(HandlePlan(d, e, plan, verdict, now).0)
  {
    hide Inv, Rescore, UpsertInstance, EdgeTable, CredTable, WorkflowTable;
    match plan
    case Ignored =>
    case Detected(x, edges, creds) =>
      var d0 := d.(reach := d.reach + EdgeTable(edges), creds := d.creds + CredTable(creds));
      var x1 := Judged(x, verdict);
      TablesKeepInv(d, d.workflows, d0.reach, d0.creds);
      UpsertKeepsInv(d0, x1);
      RescoreKeepsInv(UpsertInstance(d0, x1), e, x.id, now);
    case Inventory(x, workflows, edges, creds) =>
      var d1 := UpsertInstance(d, x);
      UpsertKeepsInv(d, x);
      TablesKeepInv(d1, d1.workflows + WorkflowTable(workflows), d1.reach + EdgeTable(edges),
                    d1.creds + CredTable(creds));
      RescoreKeepsInv(d1.(workflows := d1.workflows + WorkflowTable(workflows), reach := d1.reach + EdgeTable(edges),
                          creds := d1.creds + CredTable(creds)), e, x.id, now);
  }

  lemma ApplyKeepsInv(d: Data, reasons: map<string, string>, now: Time)
    requires Inv(d)
    ensures Inv(ApplyWhitelist(d, reasons, now))
  {
    hide FindingOwner, Flagged;
    var d1 := ApplyWhitelist(d, reasons, now);
    forall fid | fid in d1.findings ensures FindingOk(d1, fid) {
      assert FindingOk(d, fid);
    }
  }

  lemma SeenHostKeepInv(d: Data, d1: Data)
    requires Inv(d) && d1 == d.(hosts := d1.hosts, seen := d1.seen, whitelist := d1.whitelist)
    ensures Inv(d1)
  {
    hide FindingOwner;
    forall fid | fid in d1.findings ensures FindingOk(d1, fid) {
      assert FindingOk(d, fid);
    }
  }

  lemma StatusKeepsInv(d: Data, id: string, status: FindingStatus, now: Time)
    requires Inv(d) && status in {New, Acked, Resolved}
    ensures Inv(SetStatus(d, id, status, now))
  {
    hide FindingOwner;
    var d1 := SetStatus(d, id, status, now);
    forall fid | fid in d1.findings ensures FindingOk(d1, fid) {
      assert FindingOk(d, fid);
    }
  }

  lemma StepKeepsInv(d: Data, e: Engine, s: Step)
    requires Inv(d) && Enabled(d, s)
    ensures Inv(Next(d, e, s).0)
  {
    hide Inv, HandlePlan, ApplyWhitelist, PublishFinding, SetStatus, FindingOwner, ValidVerdict;
    match s
    case HostSeen(h) => SeenHostKeepInv(d, UpsertHost(d, h));
    case EventMarked(id, at) => SeenHostKeepInv(d, d.(seen := MarkSeen(d.seen, id, at).1));
    case Handled(plan, verdict, now) => PlanKeepsInv(d, e, plan, verdict, now);
    case OtherFinding(source, f, now) => PublishKeepsInv(d, source, f, now);
    case AnalystAction(id, status, now) => StatusKeepsInv(d, id, status, now);
    case RuleAdded(rule, reasons, now) =>
      SeenHostKeepInv(d, d.(whitelist := d.whitelist[rule.id := rule]));
      ApplyKeepsInv(d.(whitelist := d.whitelist[rule.id := rule]), reasons, now);
    case RuleDeleted(id, reasons, now) =>
      SeenHostKeepInv(d, d.(whitelist := d.whitelist - {id}));
      ApplyKeepsInv(d.(whitelist := d.whitelist - {id}), reasons, now);
  }

  lemma {:induction false} RunKeepsInv(d: Data, e: Engine, steps: seq<Step>)
    requires Inv(d) && IsRun(d, e, steps)
    ensures Inv(RunFrom(d, e, steps))
    decreases steps
  {
    hide Inv, Next, Enabled;
    if steps != [] {
      StepKeepsInv(d, e, steps[0]);
      RunKeepsInv(Next(d, e, steps[0]).0, e, steps[1..]);
    }
  }

  /** In every state of every run from an empty store, an m1 finding is new, acked, resolved
      or whitelisted, and whitelisted only while its instance is. */
  lemma StatusesSound(e: Engine, steps: seq<Step>, fid: string, id: string)
    requires IsRun(NewData(), e, steps)
    requires fid in RunFrom(NewData(), e, steps).findings && FindingOwner(fid) == Some(id)
    ensures var d := RunFrom(NewData(), e, steps);
      && id in d.instances
      && d.findings[fid].status in {New, Acked, Resolved, Whitelisted}
      && (d.findings[fid].status == Whitelisted ==> d.instances[id].whitelisted)
  {
    hide FindingOwner;
    RunKeepsInv(NewData(), e, steps);
    assert FindingOk(RunFrom(NewData(), e, steps), fid);
  }

  /** Right after a rescore the status says exactly whether the instance is flagged. */
  lemma RescoreAgrees(d: Data, e: Engine, id: string, now: Time)
    requires Inv(d) && id in d.instances
    ensures var d1 := Rescore(d, e, id, now).0;
      && FindingId(id) in d1.findings
      && (d1.findings[FindingId(id)].status == Whitelisted <==> d1.instances[id].whitelisted)
  {
    ScoredAgrees(d, e, id);
    OwnerOfFinding(id);
    PublishStores(d, DISCOVERY, FindingFor(d, e, d.instances[id]), now, FindingId(id));
    hide FindingFor, FindingOwner, FindingId, PublishFinding;
    var fid := FindingId(id);
    assert fid in d.findings ==> FindingOk(d, fid);
  }

  // ----- Rescans -----

  /** Steps other than whitelist changes and analyst actions on the finding itself. */
  ghost predicate Background(s: Step, fid: string) {
    match s
    case RuleAdded(_, _, _) => false
    case RuleDeleted(_, _, _) => false
    case AnalystAction(id, _, _) => id != fid
    case _ => true
  }

  ghost predicate Settled(d: Data, id: string, status: FindingStatus) {
    && id in d.instances && !d.instances[id].whitelisted
    && FindingId(id) in d.findings && d.findings[FindingId(id)].status == status
  }

  lemma RescoreSettled(d: Data, e: Engine, other: string, now: Time, id: string, status: FindingStatus)
    requires Inv(d) && Settled(d, id, status) && status in {Acked, Resolved}
    ensures Settled(Rescore(d, e, other, now).0, id, status)
  {
    hide FindingFor, FindingOwner, FindingId, PublishFinding;
    if other in d.instances {
      ScoredAgrees(d, e, other);
      OwnerOfFinding(other);
      OwnerOfFinding(id);
      PublishStores(d, DISCOVERY, FindingFor(d, e, d.instances[other]), now, FindingId(id));
    }
  }

  lemma UpsertSettled(d: Data, x: Instance, id: string, status: FindingStatus)
    requires Settled(d, id, status)
    ensures Settled(UpsertInstance(d, x), id, status)
  {
    hide UnionInts, UnionStrs, FindingId;
  }

  lemma PlanSettled(d: Data, e: Engine, plan: Plan, verdict: Option<WhitelistRule>, now: Time, id: string,
                    status: FindingStatus)
    requires Inv(d) && Settled(d, id, status) && status in {Acked, Resolved}
    ensures Settled(HandlePlan(d, e, plan, verdict, now).0, id, status)
  {
    hide Inv, Rescore, UpsertInstance, EdgeTable, CredTable, WorkflowTable;
    match plan
    case Ignored =>
    case Detected(x, edges, creds) =>
      var d0 := d.(reach := d.reach + EdgeTable(edges), creds := d.creds + CredTable(creds));
      var x1 := Judged(x, verdict);
      TablesKeepInv(d, d.workflows, d0.reach, d0.creds);
      UpsertKeepsInv(d0, x1);
      UpsertSettled(d0, x1, id, status);
      RescoreSettled(UpsertInstance(d0, x1), e, x.id, now, id, status);
    case Inventory(x, workflows, edges, creds) =>
      var d1 := UpsertInstance(d, x);
      var d2 := d1.(workflows := d1.workflows + WorkflowTable(workflows), reach := d1.reach + EdgeTable(edges),
                    creds := d1.creds + CredTable(creds));
      UpsertKeepsInv(d, x);
      UpsertSettled(d, x, id, status);
      TablesKeepInv(d1, d2.workflows, d2.reach, d2.creds);
      RescoreSettled(d2, e, x.id, now, id, status);
  }

  lemma OtherSettled(d: Data, source: string, f: Finding, now: Time, id: string, status: FindingStatus)
    requires Settled(d, id, status) && FindingOwner(f.id).None?
    ensures Settled(PublishFinding(d, source, f, now).0, id, status)
  {
    hide FindingOwner, FindingId;
    OwnerOfFinding(id);
  }

  lemma StepSettled(d: Data, e: Engine, s: Step, id: string, status: FindingStatus)
    requires Inv(d) && Enabled(d, s) && Settled(d, id, status) && status in {Acked, Resolved}
    requires Background(s, FindingId(id))
    ensures Settled(Next(d, e, s).0, id, status)
  {
    hide Inv, HandlePlan, PublishFinding, FindingOwner, ValidVerdict, FindingId;
    match s
    case HostSeen(h) =>
    case EventMarked(_, at) =>
    case Handled(plan, verdict, now) => PlanSettled(d, e, plan, verdict, now, id, status);
    case OtherFinding(source, f, now) => OtherSettled(d, source, f, now, id, status);
    case AnalystAction(_, _, now) =>
  }

  /** An acked or resolved finding of an unflagged instance survives any number of rescans,
      of this or other instances, and any other background step. */
  lemma {:induction false} AckSurvives(d: Data, e: Engine, steps: seq<Step>, id: string, status: FindingStatus)
    requires Inv(d) && IsRun(d, e, steps) && Settled(d, id, status) && status in {Acked, Resolved}
    requires forall i :: 0 <= i < |steps| ==> Background(steps[i], FindingId(id))
    ensures Settled(RunFrom(d, e, steps), id, status)
    decreases steps
  {
    hide Inv, Next, Enabled, Settled, Background, FindingId;
    if steps != [] {
      StepKeepsInv(d, e, steps[0]);
      StepSettled(d, e, steps[0], id, status);
      assert forall i :: 0 <= i < |steps[1..]| ==> steps[1..][i] == steps[i + 1];
      AckSurvives(Next(d, e, steps[0]).0, e, steps[1..], id, status);
    }
  }

  // ----- Finer interleaving -----

  /** What rescore may safely write: a whitelisted status for a flagged instance, or a blank
      one over a finding that is not whitelisted. */
  ghost predicate Fresh(d: Data, f: Finding, id: string)
    requires id in d.instances
  {
    if f.status == Whitelisted then d.instances[id].whitelisted
    else !(f.id in d.findings && d.findings[f.id].status == Whitelisted)
  }

  /** A finding as rescore builds it, from an instance read at any earlier time. */
  ghost predicate Rescored(d: Data, f: Finding, id: string) {
    f.id == FindingId(id) && id in d.instances && f.status in {Blank, Whitelisted}
  }

  /** Writing such a finding keeps the finding states sound if and only if it is fresh. */
  lemma WriteExactly(d: Data, source: string, f: Finding, now: Time, id: string)
    requires Inv(d) && Rescored(d, f, id)
    ensures Inv(PublishFinding(d, source, f, now).0) <==> Fresh(d, f, id)
  {
    OwnerOfFinding(id);
    hide FindingOwner, StableID, FindingEvent, FindingId;
    var d1 := PublishFinding(d, source, f, now).0;
    assert f.id in d.findings ==> FindingOk(d, f.id);
    forall fid | fid in d.findings && fid != f.id ensures FindingOk(d1, fid) {
      assert FindingOk(d, fid);
    }
    assert f.id in d1.findings && (Inv(d1) ==> FindingOk(d1, f.id));
  }

  /** rescore with an instance that was read before another goroutine changed the store. */
  ghost function StaleRescore(d: Data, e: Engine, stale: Instance, now: Time): Data {
    PublishFinding(d, DISCOVERY, FindingFor(d, e, stale), now).0
  }

  /** A rescore with a stale read keeps the finding states sound if and only if it read no flag
      that has been removed since, and did not miss one that has reached the finding. */
  lemma StaleRescoreExactly(d: Data, e: Engine, stale: Instance, now: Time)
    requires Inv(d) && stale.id in d.instances
    ensures Inv(StaleRescore(d, e, stale, now)) <==>
      if stale.whitelisted then d.instances[stale.id].whitelisted
      else !(FindingId(stale.id) in d.findings && d.findings[FindingId(stale.id)].status == Whitelisted)
  {
    hide ScoreOf, SortFactors, EdgesOf, CredsOf, WorkflowsOf, FindingId, PublishFinding, Inv;
    WriteExactly(d, DISCOVERY, FindingFor(d, e, stale), now, stale.id);
  }

  /** A rule is deleted between the read and the write of a rescore: the finding says
      whitelisted for an unflagged instance, and the next rescore stores an empty status. */
  lemma StaleRescoreBreaks(d: Data, e: Engine, id: string, now: Time)
    requires Inv(d) && id in d.instances && !d.instances[id].whitelisted && FindingId(id) in d.findings
    ensures var d1 := StaleRescore(d, e, d.instances[id].(whitelisted := true), now);
      && !Inv(d1)
      && Rescore(d1, e, id, now).0.findings[FindingId(id)].status == Blank
  {
    hide ScoreOf, SortFactors, EdgesOf, CredsOf, WorkflowsOf, FindingOwner, FindingId;
    OwnerOfFinding(id);
    var fid := FindingId(id);
    var d1 := StaleRescore(d, e, d.instances[id].(whitelisted := true), now);
    assert d1.findings[fid].status == Whitelisted && !FindingOk(d1, fid);
  }

  /** A rule is added between the read and the write: the empty status is stored at once. */
  lemma StaleRescoreBlanks(d: Data, e: Engine, id: string, now: Time)
    requires Inv(d) && id in d.instances
    requires FindingId(id) in d.findings && d.findings[FindingId(id)].status == Whitelisted
    ensures var d1 := StaleRescore(d, e, d.instances[id].(whitelisted := false), now);
      !Inv(d1) && d1.findings[FindingId(id)].status == Blank
  {
    StaleRescoreExactly(d, e, d.instances[id].(whitelisted := false), now);
    hide ScoreOf, SortFactors, EdgesOf, CredsOf, WorkflowsOf, FindingOwner, FindingId, Inv;
  }

  // ----- The whitelist -----

  ghost predicate FlagsExact(d: Data) {
    forall id :: id in d.instances ==> (d.instances[id].whitelisted <==> Flagged(d, d.instances[id]))
  }

  lemma ApplyExact(d: Data, reasons: map<string, string>, now: Time)
    ensures FlagsExact(ApplyWhitelist(d, reasons, now))
  {
    hide FindingOwner, RuleMatches;
    hide Flagged;
    var d1 := ApplyWhitelist(d, reasons, now);
    forall id | id in d1.instances ensures d1.instances[id].whitelisted <==> Flagged(d1, d1.instances[id]) {
      FlaggedSame(d, d1, d.instances[id], d1.instances[id]);
    }
  }

  lemma FlaggedSame(d: Data, d1: Data, x: Instance, x1: Instance)
    requires d1.whitelist == d.whitelist && d1.hosts == d.hosts
    requires x1 == x.(whitelisted := x1.whitelisted, whitelistReason := x1.whitelistReason)
    ensures Flagged(d1, x1) <==> Flagged(d, x)
  {
    forall r: WhitelistRule, h: Option<Host>
      ensures RuleMatches(r, x1, h) <==> RuleMatches(r, x, h)
    {
    }
    hide RuleMatches;
  }

  /** After every addition or deletion of a rule, an instance is flagged exactly when some
      rule matches it. */
  lemma RuleChangesExact(d: Data, e: Engine, s: Step)
    requires s.RuleAdded? || (s.RuleDeleted? && s.ruleId in d.whitelist)
    ensures FlagsExact(Next(d, e, s).0)
  {
    hide ApplyWhitelist, FlagsExact;
    match s
    case RuleAdded(rule, reasons, now) => ApplyExact(d.(whitelist := d.whitelist[rule.id := rule]), reasons, now);
    case RuleDeleted(id, reasons, now) => ApplyExact(d.(whitelist := d.whitelist - {id}), reasons, now);
  }

  lemma ExactNothing(d: Data, reasons: map<string, string>, now: Time)
    requires FlagsExact(d)
    ensures ApplyWhitelist(d, reasons, now) == d
  {
    hide FindingOwner, Flagged;
  }

  /** Applying the rules twice is applying them once, and a finding changes only when the
      flag of its own instance does. */
  lemma ApplyIdempotent(d: Data, r1: map<string, string>, now1: Time, r2: map<string, string>, now2: Time, id: string)
    ensures ApplyWhitelist(ApplyWhitelist(d, r1, now1), r2, now2) == ApplyWhitelist(d, r1, now1)
    ensures FindingId(id) in d.findings && id in d.instances ==>
      ApplyWhitelist(d, r1, now1).instances[id].whitelisted == d.instances[id].whitelisted ==>
      ApplyWhitelist(d, r1, now1).findings[FindingId(id)] == d.findings[FindingId(id)]
  {
    ApplyExact(d, r1, now1);
    ExactNothing(ApplyWhitelist(d, r1, now1), r2, now2);
    OwnerOfFinding(id);
    hide FindingOwner, Flagged, FindingId;
  }

  // ----- Published severities -----

  function SeverityEvents(events: seq<Event>, fid: string): seq<Severity> {
    if events == [] then []
    else if events[0].payload.FindingPayload? && events[0].payload.finding.id == fid then
      [events[0].payload.finding.severity] + SeverityEvents(events[1..], fid)
    else SeverityEvents(events[1..], fid)
  }

  /** The store that the rescore of a handler reads: the instance and the tables are in place,
      the finding is not written yet. */
  ghost function BeforeRescore(d: Data, plan: Plan, verdict: Option<WhitelistRule>): (r: Data)
    requires !plan.Ignored?
    ensures plan.inst.id in r.instances
  {
    match plan
    case Detected(x, edges, creds) =>
      UpsertInstance(d.(reach := d.reach + EdgeTable(edges), creds := d.creds + CredTable(creds)), Judged(x, verdict))
    case Inventory(x, workflows, edges, creds) =>
      var d1 := UpsertInstance(d, x);
      d1.(workflows := d1.workflows + WorkflowTable(workflows), reach := d1.reach + EdgeTable(edges),
          creds := d1.creds + CredTable(creds))
  }

  /** The severity that the risk engine computes for the instance of a plan. */
  ghost function RescoredSeverity(d: Data, e: Engine, plan: Plan, verdict: Option<WhitelistRule>): Severity
    requires !plan.Ignored?
  {
    var d1 := BeforeRescore(d, plan, verdict);
    FindingFor(d1, e, d1.instances[plan.inst.id]).severity
  }

  /** The severity that a step computes for a finding, if it computes one. */
  ghost function Computed(d: Data, e: Engine, s: Step, fid: string): seq<Severity> {
    match s
    case Handled(plan, verdict, _) =>
      if !plan.Ignored? && FindingId(plan.inst.id) == fid then [RescoredSeverity(d, e, plan, verdict)] else []
    case OtherFinding(_, f, _) => if f.id == fid then [f.severity] else []
    case _ => []
  }

  function SeverityOf(d: Data, fid: string): seq<Severity> {
    if fid in d.findings then [d.findings[fid].severity] else []
  }

  /** Removes consecutive repeats, also of the last element of `before`. */
  function Squeeze(before: seq<Severity>, s: seq<Severity>): seq<Severity>
    decreases |s|
  {
    if s == [] then []
    else if before != [] && before[|before| - 1] == s[0] then Squeeze(before, s[1..])
    else [s[0]] + Squeeze([s[0]], s[1..])
  }

  ghost function RunComputed(d: Data, e: Engine, steps: seq<Step>, fid: string): seq<Severity>
    decreases steps
  {
    if steps == [] then []
    else Computed(d, e, steps[0], fid) + RunComputed(Next(d, e, steps[0]).0, e, steps[1..], fid)
  }

  ghost function RunPublished(d: Data, e: Engine, steps: seq<Step>, fid: string): seq<Severity>
    decreases steps
  {
    if steps == [] then []
    else SeverityEvents(Next(d, e, steps[0]).1, fid) + RunPublished(Next(d, e, steps[0]).0, e, steps[1..], fid)
  }

  ghost predicate NotWhitelisted(d: Data, fid: string) {
    fid in d.findings ==> d.findings[fid].status != Whitelisted
  }

  ghost predicate NeverWhitelisted(d: Data, e: Engine, steps: seq<Step>, fid: string)
    decreases steps
  {
    NotWhitelisted(d, fid) && (steps == [] || NeverWhitelisted(Next(d, e, steps[0]).0, e, steps[1..], fid))
  }

  lemma OneEvent(ev: Event, fid: string)
    ensures SeverityEvents([ev], fid) ==
      if ev.payload.FindingPayload? && ev.payload.finding.id == fid then [ev.payload.finding.severity] else []
  {
    assert [ev][1..] == [];
  }

  lemma EventPayload(f: Finding, source: string)
    ensures FindingEvent(f, source).payload == FindingPayload(f)
  {
  }

  lemma SqueezeOne(before: seq<Severity>, s: Severity)
    ensures Squeeze(before, [s]) == if before != [] && before[|before| - 1] == s then [] else [s]
  {
    assert [s][1..] == [];
  }

  lemma PublishSeverities(d: Data, source: string, f: Finding, now: Time, fid: string)
    requires KeysMatch(d) && NotWhitelisted(d, fid) && NotWhitelisted(PublishFinding(d, source, f, now).0, fid)
    ensures var (d1, events) := PublishFinding(d, source, f, now);
      && SeverityEvents(events, fid) == Squeeze(SeverityOf(d, fid), if f.id == fid then [f.severity] else [])
      && SeverityOf(d1, fid) == if f.id == fid then [f.severity] else SeverityOf(d, fid)
  {
    PublishStores(d, source, f, now, fid);
    PublishAnnounces(d, source, f, now);
    hide PublishFinding, FindingEvent, SeverityEvents, Squeeze;
    EventPayload(PublishFinding(d, source, f, now).0.findings[f.id], source);
    var (d1, events) := PublishFinding(d, source, f, now);
    OneEvent(FindingEvent(d1.findings[f.id], source), fid);
    NoEvents(SeverityOf(d, fid), fid);
    SqueezeOne(SeverityOf(d, fid), f.severity);
  }

  lemma RescoreSeverities(d: Data, e: Engine, id: string, now: Time, fid: string)
    requires Inv(d) && id in d.instances && NotWhitelisted(d, fid) && NotWhitelisted(Rescore(d, e, id, now).0, fid)
    ensures var (d1, events) := Rescore(d, e, id, now);
      var computed := if FindingId(id) == fid then [FindingFor(d, e, d.instances[id]).severity] else [];
      && SeverityEvents(events, fid) == Squeeze(SeverityOf(d, fid), computed)
      && SeverityOf(d1, fid) == if FindingId(id) == fid then computed else SeverityOf(d, fid)
  {
    ScoredAgrees(d, e, id);
    hide PublishFinding, FindingFor, FindingId, SeverityEvents, Squeeze;
    PublishSeverities(d, DISCOVERY, FindingFor(d, e, d.instances[id]), now, fid);
  }

  /** A handler is a rescore of that store, after at most an asset event. */
  lemma PlanIsRescore(d: Data, e: Engine, plan: Plan, verdict: Option<WhitelistRule>, now: Time, fid: string)
    requires Inv(d) && !plan.Ignored?
    ensures var d1 := BeforeRescore(d, plan, verdict);
      && Inv(d1) && d1.findings == d.findings
      && HandlePlan(d, e, plan, verdict, now).0 == Rescore(d1, e, plan.inst.id, now).0
      && SeverityEvents(HandlePlan(d, e, plan, verdict, now).1, fid)
         == SeverityEvents(Rescore(d1, e, plan.inst.id, now).1, fid)
  {
    hide Inv, Rescore, EdgeTable, CredTable, WorkflowTable, Merged, SeverityEvents;
    match plan
    case Detected(x, edges, creds) =>
      var d0 := d.(reach := d.reach + EdgeTable(edges), creds := d.creds + CredTable(creds));
      var d1 := UpsertInstance(d0, Judged(x, verdict));
      TablesKeepInv(d, d.workflows, d0.reach, d0.creds);
      UpsertKeepsInv(d0, Judged(x, verdict));
      if x.id !in d.instances {
        SkipAsset(AssetEvent(d1.instances[x.id], now), Rescore(d1, e, x.id, now).1, fid);
      } else {
        assert [] + Rescore(d1, e, x.id, now).1 == Rescore(d1, e, x.id, now).1;
      }
    case Inventory(x, workflows, edges, creds) =>
      var d1 := UpsertInstance(d, x);
      UpsertKeepsInv(d, x);
      TablesKeepInv(d1, d1.workflows + WorkflowTable(workflows), d1.reach + EdgeTable(edges),
                    d1.creds + CredTable(creds));
  }

  lemma PlanSeverities(d: Data, e: Engine, plan: Plan, verdict: Option<WhitelistRule>, now: Time, fid: string)
    requires Inv(d) && NotWhitelisted(d, fid) && NotWhitelisted(HandlePlan(d, e, plan, verdict, now).0, fid)
    ensures var (d1, events) := HandlePlan(d, e, plan, verdict, now);
      var here := !plan.Ignored? && FindingId(plan.inst.id) == fid;
      var computed := if here then [RescoredSeverity(d, e, plan, verdict)] else [];
      && SeverityEvents(events, fid) == Squeeze(SeverityOf(d, fid), computed)
      && SeverityOf(d1, fid) == if here then computed else SeverityOf(d, fid)
  {
    if plan.Ignored? {
      NoEvents(SeverityOf(d, fid), fid);
    } else {
      hide Inv, Rescore, BeforeRescore, HandlePlan, FindingFor, FindingId, SeverityEvents, Squeeze;
      PlanIsRescore(d, e, plan, verdict, now, fid);
      RescoreSeverities(BeforeRescore(d, plan, verdict), e, plan.inst.id, now, fid);
    }
  }

  lemma NoEvents(before: seq<Severity>, fid: string)
    ensures SeverityEvents([], fid) == Squeeze(before, []) == []
  {
  }

  lemma SkipAsset(ev: Event, events: seq<Event>, fid: string)
    requires !ev.payload.FindingPayload?
    ensures SeverityEvents([ev] + events, fid) == SeverityEvents(events, fid)
  {
    DropFirst([ev], events);
  }

  lemma InvKeys(d: Data)
    requires Inv(d)
    ensures KeysMatch(d)
  {
  }

  lemma ApplySeverity(d: Data, reasons: map<string, string>, now: Time, fid: string)
    ensures SeverityOf(ApplyWhitelist(d, reasons, now), fid) == SeverityOf(d, fid)
  {
    hide FindingOwner, FlipsOn, FlipsOff;
  }

  lemma StepSeverities(d: Data, e: Engine, s: Step, fid: string)
    requires Inv(d) && Enabled(d, s) && NotWhitelisted(d, fid) && NotWhitelisted(Next(d, e, s).0, fid)
    ensures SeverityEvents(Next(d, e, s).1, fid) == Squeeze(SeverityOf(d, fid), Computed(d, e, s, fid))
    ensures var computed := Computed(d, e, s, fid);
      SeverityOf(Next(d, e, s).0, fid) == if computed == [] then SeverityOf(d, fid) else computed
    ensures |Computed(d, e, s, fid)| <= 1
  {
    hide HandlePlan, PublishFinding, ApplyWhitelist, MarkSeen, Inv, FindingId, FindingOwner, SeverityEvents, Squeeze,
         ValidVerdict, RescoredSeverity;
    match s
    case Handled(plan, verdict, now) => PlanSeverities(d, e, plan, verdict, now, fid);
    case OtherFinding(source, f, now) => InvKeys(d); PublishSeverities(d, source, f, now, fid);
    case HostSeen(h) => NoEvents(SeverityOf(d, fid), fid);
    case EventMarked(_, _) => NoEvents(SeverityOf(d, fid), fid);
    case AnalystAction(_, _, _) => NoEvents(SeverityOf(d, fid), fid);
    case RuleAdded(rule, reasons, now) =>
      NoEvents(SeverityOf(d, fid), fid);
      ApplySeverity(d.(whitelist := d.whitelist[rule.id := rule]), reasons, now, fid);
    case RuleDeleted(id, reasons, now) =>
      NoEvents(SeverityOf(d, fid), fid);
      ApplySeverity(d.(whitelist := d.whitelist - {id}), reasons, now, fid);
  }

  lemma SqueezeAppend(before: seq<Severity>, one: seq<Severity>, rest: seq<Severity>)
    requires |one| <= 1
    ensures Squeeze(before, one + rest) == Squeeze(before, one) + Squeeze(if one == [] then before else one, rest)
  {
    if one == [] {
      assert one + rest == rest;
    } else {
      assert one == [one[0]];
      DropFirst(one, rest);
      SqueezeOne(before, one[0]);
      SqueezeSame(before, one, rest);
    }
  }

  lemma {:induction false} SqueezeSame(a: seq<Severity>, b: seq<Severity>, s: seq<Severity>)
    ensures a != [] && b != [] && a[|a| - 1] == b[|b| - 1] ==> Squeeze(a, s) == Squeeze(b, s)
  {
    if s != [] { SqueezeSame(a, b, s[1..]); }
  }

  /** While a finding is never whitelisted, its published severities are its computed
      severities with consecutive repeats removed. */
  lemma {:induction false} PublishedSeverities(d: Data, e: Engine, steps: seq<Step>, fid: string)
    requires Inv(d) && IsRun(d, e, steps) && NeverWhitelisted(d, e, steps, fid)
    ensures RunPublished(d, e, steps, fid) == Squeeze(SeverityOf(d, fid), RunComputed(d, e, steps, fid))
    decreases steps
  {
    hide Inv, Next, Enabled, Computed, SeverityEvents, SeverityOf, NotWhitelisted;
    if steps != [] {
      var d1 := Next(d, e, steps[0]).0;
      StepKeepsInv(d, e, steps[0]);
      StepSeverities(d, e, steps[0], fid);
      PublishedSeverities(d1, e, steps[1..], fid);
      SqueezeAppend(SeverityOf(d, fid), Computed(d, e, steps[0], fid), RunComputed(d1, e, steps[1..], fid));
    }
  }

  /** Whitelisted in the store from some state on, up to the end of a run. */
  ghost predicate AlwaysWhitelisted(d: Data, e: Engine, steps: seq<Step>, fid: string)
    decreases steps
  {
    && fid in d.findings && d.findings[fid].status == Whitelisted
    && (steps == [] || AlwaysWhitelisted(Next(d, e, steps[0]).0, e, steps[1..], fid))
  }

  lemma PublishMuted(d: Data, source: string, f: Finding, now: Time, fid: string)
    requires fid in d.findings && d.findings[fid].status == Whitelisted && KeysMatch(d)
    ensures SeverityEvents(PublishFinding(d, source, f, now).1, fid) == []
  {
    PublishStores(d, source, f, now, f.id);
    PublishAnnounces(d, source, f, now);
    hide PublishFinding, FindingEvent, SeverityEvents, Squeeze;
    var (d1, events) := PublishFinding(d, source, f, now);
    EventPayload(d1.findings[f.id], source);
    OneEvent(FindingEvent(d1.findings[f.id], source), fid);
    NoEvents([], fid);
  }

  lemma StepMuted(d: Data, e: Engine, s: Step, fid: string)
    requires Inv(d) && fid in d.findings && d.findings[fid].status == Whitelisted
    ensures SeverityEvents(Next(d, e, s).1, fid) == []
  {
    hide HandlePlan, PublishFinding, ApplyWhitelist, MarkSeen, Inv, FindingFor, SeverityEvents, Squeeze, BeforeRescore;
    NoEvents([], fid);
    InvKeys(d);
    match s
    case Handled(plan, verdict, now) =>
      if plan.Ignored? {
        IgnoredQuiet(d, e, verdict, now);
      } else {
        PlanIsRescore(d, e, plan, verdict, now, fid);
        var d1 := BeforeRescore(d, plan, verdict);
        InvKeys(d1);
        PublishMuted(d1, DISCOVERY, FindingFor(d1, e, d1.instances[plan.inst.id]), now, fid);
      }
    case OtherFinding(source, f, now) => PublishMuted(d, source, f, now, fid);
    case _ =>
  }

  lemma IgnoredQuiet(d: Data, e: Engine, verdict: Option<WhitelistRule>, now: Time)
    ensures HandlePlan(d, e, Ignored, verdict, now) == (d, [])
  {
  }

  /** Over every run, a finding publishes no event while it stays whitelisted, whatever
      severities are computed for it. */
  lemma {:induction false} WhitelistedIsSilent(d: Data, e: Engine, steps: seq<Step>, fid: string)
    requires Inv(d) && IsRun(d, e, steps) && AlwaysWhitelisted(d, e, steps, fid)
    ensures RunPublished(d, e, steps, fid) == []
    decreases steps
  {
    hide Inv, Next, Enabled, SeverityEvents;
    if steps != [] {
      StepKeepsInv(d, e, steps[0]);
      StepMuted(d, e, steps[0], fid);
      WhitelistedIsSilent(Next(d, e, steps[0]).0, e, steps[1..], fid);
    }
  }
}
