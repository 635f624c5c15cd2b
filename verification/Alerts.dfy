/** From an event on the bus to the channels of the notification manager: no finding appears without
    being announced, and every honeypot access raises an alert. */
module Alerts {
  import opened Text
  import opened Model
  import opened Merge
  import opened State
  import opened Risk
  import opened Control
  import opened Lifecycle
  import opened EventBus
  import opened Notify
  import opened Modules
  import opened Dispatch
  import opened Inputs
  import opened Routing

  // ----- Who creates a finding -----

  /** A step that stores a finding of that identifier. */
  predicate Raises(s: Step, id: string) { s.OtherFinding? && s.f.id == id }

  lemma RescoreCreates(d: Data, e: Engine, instanceId: string, now: Time, id: string)
    requires FindingOwner(id).None? && id !in d.findings
    ensures id !in Rescore(d, e, instanceId, now).0.findings
  {
    hide ScoreOf, SortFactors, EdgesOf, CredsOf, WorkflowsOf, FindingOwner, FindingId, FindingEvent, StatusAfter;
    if instanceId in d.instances { OwnerOfFinding(d.instances[instanceId].id); }
  }

  lemma PlanCreates(d: Data, e: Engine, plan: Plan, verdict: Option<WhitelistRule>, now: Time, id: string)
    requires FindingOwner(id).None? && id !in d.findings
    ensures id !in HandlePlan(d, e, plan, verdict, now).0.findings
  {
    hide Rescore, EdgeTable, CredTable, WorkflowTable, Merged, FindingOwner, AssetEvent;
    match plan
    case Ignored =>
    case Detected(x, edges, creds) => RescoreCreates(BeforeRescore(d, plan, verdict), e, x.id, now, id);
    case Inventory(x, workflows, edges, creds) => RescoreCreates(BeforeRescore(d, plan, verdict), e, x.id, now, id);
  }

  lemma RulesCreate(d: Data, reasons: map<string, string>, now: Time, id: string)
    requires id !in d.findings
    ensures id !in ApplyWhitelist(d, reasons, now).findings
  {
    hide FlippedFinding, FlippedInstance;
  }

  /** A finding that belongs to no instance is created by its own module only. */
  lemma OthersCreateNothing(d: Data, e: Engine, s: Step, id: string)
    requires FindingOwner(id).None? && id !in d.findings && !Raises(s, id)
    ensures id !in Next(d, e, s).0.findings
  {
    hide HandlePlan, FindingOwner, FindingEvent, ApplyWhitelist, MarkSeen, StatusAfter;
    match s
    case Handled(plan, verdict, now) => PlanCreates(d, e, plan, verdict, now, id);
    case RuleAdded(rule, reasons, now) => RulesCreate(d.(whitelist := d.whitelist[rule.id := rule]), reasons, now, id);
    case RuleDeleted(ruleId, reasons, now) => RulesCreate(d.(whitelist := d.whitelist - {ruleId}), reasons, now, id);
    case _ =>
  }

  /** An event that tells of a new critical finding. */
  predicate Alarm(ev: Event, id: string) {
    && ev.eventType == "finding.created" && ev.payload.FindingPayload?
    && ev.payload.finding.id == id && ev.payload.finding.severity == Critical && ev.payload.finding.status == New
  }

  lemma RaisedAlarms(d: Data, e: Engine, s: Step, id: string)
    requires Raises(s, id) && id !in d.findings && s.f.severity == Critical && s.f.status == Blank
    ensures exists ev :: ev in Next(d, e, s).1 && Alarm(ev, id)
  {
    hide StableID, TimeText;
    var (d1, events) := PublishFinding(d, s.source, s.f, s.now);
    assert events == [FindingEvent(d1.findings[id], s.source)];
    assert Alarm(events[0], id);
  }

  /** Over a run that raises a critical finding not stored before, some event tells of it. */
  lemma {:induction false} RunAlarms(d: Data, e: Engine, steps: seq<Step>, id: string, k: nat)
    requires FindingOwner(id).None? && id !in d.findings && k < |steps| && Raises(steps[k], id)
    requires forall s :: s in steps && Raises(s, id) ==> s.f.severity == Critical && s.f.status == Blank
    ensures exists ev :: ev in RunEvents(d, e, steps) && Alarm(ev, id)
    decreases steps
  {
    hide Next, FindingOwner, Alarm;
    if Raises(steps[0], id) {
      assert steps[0] in steps;
      RaisedAlarms(d, e, steps[0], id);
    } else {
      OthersCreateNothing(d, e, steps[0], id);
      RunAlarms(Next(d, e, steps[0]).0, e, steps[1..], id, k - 1);
    }
  }

  // ----- What turns raise -----

  lemma OwnIdentifiers(a: Event, b: Event, now: Time)
    requires a.payload.HoneyAccess? && b.payload.WorkflowError?
    ensures FindingOwner(HoneyFinding(a, now).id).None?
    ensures HoneyFinding(a, now).id != ErrorFinding(b).id
  {
    hide FindingOwner, TimeText;
    var p := [a.payload.honeyId, a.payload.sourceIp, TimeText(now / 1_000_000_000)];
    var q := [b.payload.instanceId, b.payload.workflowId, b.payload.node];
    OtherModulesOwnNothing(HONEYNODES, p);
    StableIDAppend(["finding", HONEYNODES], p);
    StableIDAppend(["finding", SELF_HEALING], q);
    TwoParts("finding", HONEYNODES);
    TwoParts("finding", SELF_HEALING);
    hide StableID;
    assert StableID(["finding", HONEYNODES] + p)[9] == '2';
    assert StableID(["finding", SELF_HEALING] + q)[9] == '3';
  }

  lemma TurnRaises(t: Turn, a: Event, now: Time, s: Step)
    requires a.payload.HoneyAccess? && s in TurnSteps(t) && Raises(s, HoneyFinding(a, now).id)
    ensures s.f.severity == Critical && s.f.status == Blank
  {
    TurnStepsExactly(t);
    hide TurnSteps, StableID, TimeText;
    if t.ev.payload.WorkflowError? { OwnIdentifiers(a, t.ev, now); }
  }

  lemma {:induction false} TurnsRaise(turns: seq<Turn>, a: Event, now: Time, s: Step)
    requires a.payload.HoneyAccess? && s in StepsOf(turns) && Raises(s, HoneyFinding(a, now).id)
    ensures s.f.severity == Critical && s.f.status == Blank
  {
    hide TurnSteps, HoneyFinding;
    var n := |turns| - 1;
    if s in StepsOf(turns[..n]) {
      TurnsRaise(turns[..n], a, now, s);
    } else {
      TurnRaises(turns[n], a, now, s);
    }
  }

  lemma {:induction false} TurnListed(turns: seq<Turn>, i: nat)
    requires i < |turns|
    ensures |EventsOf(turns)| == |turns| && EventsOf(turns)[i] == turns[i].ev
    ensures forall s :: s in TurnSteps(turns[i]) ==> s in StepsOf(turns)
  {
    hide TurnSteps;
    var n := |turns| - 1;
    if n > 0 { TurnListed(turns[..n], if i < n then i else 0); }
  }

  lemma HoneyStep(t: Turn)
    requires t.ev.eventType == "honeynode.access" && t.ev.payload.HoneyAccess?
    ensures TurnSteps(t) == [OtherFinding(HONEYNODES, HoneyFinding(t.ev, t.now), t.now)]
  {
    TurnStepsExactly(t);
    hide TurnSteps, HoneyFinding;
    FirstLetters(t.ev.eventType);
  }

  lemma {:induction false} HeardIs(events: seq<Event>, ev: Event)
    requires ev in events && Match("finding.*", ev.eventType)
    ensures ev in Heard(events)
  {
    hide Match;
    var n := |events| - 1;
    if ev in events[..n] { HeardIs(events[..n], ev); }
  }

  // ----- The theorem -----

  lemma AlarmIsSent(events: seq<Event>, ev: Event, id: string, minSeverity: Severity, channels: nat, channel: nat)
    requires ev in events && Alarm(ev, id) && channel < channels
    ensures Delivery(channel, ev.payload.finding) in Sent(minSeverity, channels, Heard(events))
  {
    PatternFacts(ev.eventType);
    assert "finding.created"[..8] == "finding.";
    HeardIs(events, ev);
    SentExactly(minSeverity, channels, Heard(events), channel, ev.payload.finding);
    assert ev.payload == FindingPayload(ev.payload.finding);
  }

  ghost predicate Alerted(turns: seq<Turn>, id: string, minSeverity: Severity, channels: nat, channel: nat) {
    exists f: Finding :: f.id == id && f.severity == Critical
                         && Delivery(channel, f) in Sent(minSeverity, channels, Heard(EventsOf(turns)))
  }

  /** When the loop has emptied its queue, with room for what handlers publish, every channel has
      received an alert for every honeypot access that was queued, whatever its threshold, unless
      the finding was already there. */
  lemma HoneyAccessAlerts(d: Data, e: Engine, capacity: nat, queue: seq<Event>, turns: seq<Turn>, i: nat,
                          minSeverity: Severity, channels: nat, channel: nat)
    requires IsLoop(d, e, capacity, queue, turns) && Roomy(d, e, capacity, queue, turns)
    requires LoopAt(d, e, capacity, queue, turns).1 == []
    requires i < |queue| && queue[i].eventType == "honeynode.access" && queue[i].payload.HoneyAccess?
    requires channel < channels
    ensures i < |turns| && turns[i].ev == queue[i]
    ensures HoneyFinding(queue[i], turns[i].now).id !in d.findings ==>
      Alerted(turns, HoneyFinding(queue[i], turns[i].now).id, minSeverity, channels, channel)
  {
    hide IsLoop, LoopAt, Roomy, StepsOf, EventsOf, TurnSteps, HoneyFinding, RunEvents, FindingOwner, Alarm, Sent, Heard;
    NothingLost(d, e, capacity, queue, turns);
    var events, steps := EventsOf(turns), StepsOf(turns);
    assert events + [] == events;
    if turns == [] { NoTurns(d, e, capacity, queue); }
    TurnListed(turns, 0);
    TurnListed(turns, i);
    var t := turns[i];
    var id := HoneyFinding(t.ev, t.now).id;
    if id !in d.findings {
      HoneyStep(t);
      var s := OtherFinding(HONEYNODES, HoneyFinding(t.ev, t.now), t.now);
      assert s in TurnSteps(t);
      var k :| 0 <= k < |steps| && steps[k] == s;
      forall s1 | s1 in steps && Raises(s1, id) ensures s1.f.severity == Critical && s1.f.status == Blank {
        TurnsRaise(turns, t.ev, t.now, s1);
      }
      OwnerLess(t.ev, t.now);
      RunAlarms(d, e, steps, id, k);
      var ev :| ev in RunEvents(d, e, steps) && Alarm(ev, id);
      AlarmIsSent(events, ev, id, minSeverity, channels, channel);
      AlarmNames(ev, id);
    }
  }

  lemma OwnerLess(a: Event, now: Time)
    requires a.payload.HoneyAccess?
    ensures FindingOwner(HoneyFinding(a, now).id).None?
  {
    OtherModulesOwnNothing(HONEYNODES, [a.payload.honeyId, a.payload.sourceIp, TimeText(now / 1_000_000_000)]);
  }

  lemma AlarmNames(ev: Event, id: string)
    requires Alarm(ev, id)
    ensures ev.payload.FindingPayload? && ev.payload.finding.id == id && ev.payload.finding.severity == Critical
  {
  }

  // ----- Findings appear with an announcement -----

  predicate TellsOf(ev: Event, id: string) { ev.payload.FindingPayload? && ev.payload.finding.id == id }

  ghost predicate Told(events: seq<Event>, id: string) { exists ev :: ev in events && TellsOf(ev, id) }

  lemma ToldAppend(a: seq<Event>, b: seq<Event>, id: string)
    ensures Told(a + b, id) <==> Told(a, id) || Told(b, id)
  {
    hide TellsOf;
    forall ev ensures ev in a + b <==> ev in a || ev in b {}
  }

  lemma NothingTold(id: string)
    ensures !Told([], id)
  {
  }

  /** A finding that was not there appears exactly if an event tells of it, and none disappears. */
  ghost predicate Appears(d: Data, d1: Data, events: seq<Event>, id: string) {
    if id in d.findings then id in d1.findings else id in d1.findings <==> Told(events, id)
  }

  lemma PublishAppears(d: Data, source: string, f: Finding, now: Time, id: string)
    requires KeysMatch(d)
    ensures Appears(d, PublishFinding(d, source, f, now).0, PublishFinding(d, source, f, now).1, id)
  {
    hide StableID, TimeText;
    var (d1, events) := PublishFinding(d, source, f, now);
    if f.id !in d.findings {
      assert events == [FindingEvent(d1.findings[f.id], source)];
      assert TellsOf(events[0], f.id);
    }
  }

  lemma RescoreAppears(d: Data, e: Engine, instanceId: string, now: Time, id: string)
    requires KeysMatch(d)
    ensures Appears(d, Rescore(d, e, instanceId, now).0, Rescore(d, e, instanceId, now).1, id)
  {
    hide PublishFinding, FindingFor, KeysMatch;
    NothingTold(id);
    if instanceId in d.instances {
      PublishAppears(d, DISCOVERY, FindingFor(d, e, d.instances[instanceId]), now, id);
    }
  }

  lemma AssetTellsNothing(x: Instance, now: Time, events: seq<Event>, id: string)
    ensures Told([AssetEvent(x, now)] + events, id) <==> Told(events, id)
    ensures Told([] + events, id) <==> Told(events, id)
  {
    hide StableID, TimeText;
    ToldAppend([AssetEvent(x, now)], events, id);
    assert [] + events == events;
  }

  lemma BeforeKeys(d: Data, plan: Plan, verdict: Option<WhitelistRule>)
    requires KeysMatch(d) && !plan.Ignored?
    ensures KeysMatch(BeforeRescore(d, plan, verdict)) && BeforeRescore(d, plan, verdict).findings == d.findings
  {
    hide UnionInts, UnionStrs, EdgeTable, CredTable, WorkflowTable;
  }

  lemma PlanAppears(d: Data, e: Engine, plan: Plan, verdict: Option<WhitelistRule>, now: Time, id: string)
    requires KeysMatch(d)
    ensures Appears(d, HandlePlan(d, e, plan, verdict, now).0, HandlePlan(d, e, plan, verdict, now).1, id)
  {
    hide Rescore, EdgeTable, CredTable, WorkflowTable, Merged, AssetEvent, KeysMatch, Told;
    if plan.Ignored? {
      NothingTold(id);
    } else {
      var d1 := BeforeRescore(d, plan, verdict);
      BeforeKeys(d, plan, verdict);
      RescoreAppears(d1, e, plan.inst.id, now, id);
      AssetTellsNothing(d1.instances[plan.inst.id], now, Rescore(d1, e, plan.inst.id, now).1, id);
    }
  }

  lemma StepAppears(d: Data, e: Engine, s: Step, id: string)
    requires KeysMatch(d)
    ensures Appears(d, Next(d, e, s).0, Next(d, e, s).1, id)
  {
    hide HandlePlan, PublishFinding, MarkSeen, FlippedFinding, FlippedInstance, KeysMatch, Told;
    NothingTold(id);
    match s
    case Handled(plan, verdict, now) => PlanAppears(d, e, plan, verdict, now, id);
    case OtherFinding(source, f, now) => PublishAppears(d, source, f, now, id);
    case _ =>
  }

  /** Over every run, a finding that was not there has appeared if and only if an event told of it. */
  lemma {:induction false} FindingsAppearTold(d: Data, e: Engine, steps: seq<Step>, id: string)
    requires Inv(d) && IsRun(d, e, steps)
    ensures Appears(d, RunFrom(d, e, steps), RunEvents(d, e, steps), id)
    decreases steps
  {
    hide Inv, Next, Enabled, Told;
    NothingTold(id);
    if steps != [] {
      var (d1, events) := Next(d, e, steps[0]);
      InvKeys(d);
      StepAppears(d, e, steps[0], id);
      StepKeepsInv(d, e, steps[0]);
      FindingsAppearTold(d1, e, steps[1..], id);
      ToldAppend(events, RunEvents(d1, e, steps[1..]), id);
    }
  }

  lemma DetectedCreates(d: Data, e: Engine, s: Step)
    requires KeysMatch(d) && s.Handled? && s.plan.Detected?
    ensures FindingId(s.plan.inst.id) in Next(d, e, s).0.findings
  {
    hide Reports, EdgesStored, CredsStored, HandlePlan, FindingId;
    DetectedOutcome(d, e, s.plan.inst, s.plan.edges, s.plan.creds, s.verdict, s.now);
  }

  lemma {:induction false} DetectedStays(d: Data, e: Engine, steps: seq<Step>, k: nat)
    requires Inv(d) && IsRun(d, e, steps) && k < |steps| && steps[k].Handled? && steps[k].plan.Detected?
    ensures FindingId(steps[k].plan.inst.id) in RunFrom(d, e, steps).findings
    decreases steps
  {
    hide Inv, Next, Enabled, FindingId, Told;
    var d1 := Next(d, e, steps[0]).0;
    StepKeepsInv(d, e, steps[0]);
    InvKeys(d);
    if k == 0 {
      DetectedCreates(d, e, steps[0]);
      FindingsAppearTold(d1, e, steps[1..], FindingId(steps[0].plan.inst.id));
    } else {
      DetectedStays(d1, e, steps[1..], k - 1);
    }
  }

  /** When the loop has emptied its queue, with room for what handlers publish, every detected
      instance that was queued has its finding, and if it had none before, an event that tells of
      that finding has been dispatched. */
  lemma DetectedIsTold(d: Data, e: Engine, capacity: nat, queue: seq<Event>, turns: seq<Turn>, i: nat, kind: string)
    requires Inv(d) && IsLoop(d, e, capacity, queue, turns) && Roomy(d, e, capacity, queue, turns)
    requires LoopAt(d, e, capacity, queue, turns).1 == []
    requires i < |queue| && queue[i].eventType == "observation." + kind
    requires queue[i].payload.Observed? && queue[i].payload.plan.Detected?
    ensures var id := FindingId(queue[i].payload.plan.inst.id);
      && id in LoopAt(d, e, capacity, queue, turns).0.findings
      && (id !in d.findings ==> Told(EventsOf(turns), id))
  {
    hide Inv, IsLoop, LoopAt, Roomy, StepsOf, EventsOf, RunEvents, RunFrom, IsRun, FindingId, Told;
    var id := FindingId(queue[i].payload.plan.inst.id);
    var steps := StepsOf(turns);
    QueuedAreHandled(d, e, capacity, queue, turns, i, kind);
    var k :| 0 <= k < |steps| && steps[k].Handled? && steps[k].plan == queue[i].payload.plan;
    LoopData(d, e, capacity, queue, turns);
    DetectedStays(d, e, steps, k);
    FindingsAppearTold(d, e, steps, id);
    NothingLost(d, e, capacity, queue, turns);
    ToldAppend(queue, RunEvents(d, e, steps), id);
    assert EventsOf(turns) + [] == EventsOf(turns);
  }
}
