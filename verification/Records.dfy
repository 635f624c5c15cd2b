/** The CEF records of the findings that the control plane publishes. */
module Records {
  import opened Text
  import opened Model
  import opened Merge
  import opened Risk
  import opened State
  import opened Control
  import opened Lifecycle
  import Cef

  predicate IsModule(source: string) { source == DISCOVERY || source == HONEYNODES || source == SELF_HEALING }

  /** Every stored finding carries the name of the module that published it. */
  ghost predicate Signed(d: Data) {
    forall fid :: fid in d.findings ==> IsModule(d.findings[fid].source)
  }

  ghost predicate SignedEvents(events: seq<Event>) {
    forall ev :: ev in events && ev.payload.FindingPayload? ==> IsModule(ev.payload.finding.source)
  }

  lemma PublishSigned(d: Data, source: string, f: Finding, now: Time)
    requires Signed(d) && IsModule(source)
    ensures var (d1, events) := PublishFinding(d, source, f, now);
      Signed(d1) && SignedEvents(events)
  {
    hide IsModule, StableID, TimeText;
  }

  lemma RescoreSigned(d: Data, e: Engine, id: string, now: Time)
    requires Signed(d)
    ensures var (d1, events) := Rescore(d, e, id, now);
      Signed(d1) && SignedEvents(events)
  {
    hide PublishFinding, FindingFor, Signed, SignedEvents;
    if id in d.instances {
      PublishSigned(d, DISCOVERY, FindingFor(d, e, d.instances[id]), now);
    } else {
      NoEventsSigned();
    }
  }

  lemma NoEventsSigned()
    ensures SignedEvents([])
  {
  }

  lemma AssetSigned(x: Instance, now: Time, events: seq<Event>)
    requires SignedEvents(events)
    ensures SignedEvents([AssetEvent(x, now)] + events) && SignedEvents([] + events)
  {
    hide StableID, TimeText, IsModule;
    assert [] + events == events;
  }

  lemma PlanSigned(d: Data, e: Engine, plan: Plan, verdict: Option<WhitelistRule>, now: Time)
    requires Signed(d)
    ensures var (d1, events) := HandlePlan(d, e, plan, verdict, now);
      Signed(d1) && SignedEvents(events)
  {
    hide Rescore, EdgeTable, CredTable, WorkflowTable, Merged, AssetEvent, SignedEvents, IsModule;
    match plan
    case Ignored => NoEventsSigned();
    case Detected(x, edges, creds) =>
      var d1 := BeforeRescore(d, plan, verdict);
      RescoreSigned(d1, e, x.id, now);
      AssetSigned(d1.instances[x.id], now, Rescore(d1, e, x.id, now).1);
    case Inventory(x, workflows, edges, creds) =>
      RescoreSigned(BeforeRescore(d, plan, verdict), e, x.id, now);
  }

  lemma ApplySigned(d: Data, reasons: map<string, string>, now: Time)
    requires Signed(d)
    ensures Signed(ApplyWhitelist(d, reasons, now))
  {
    hide FlipsOn, FlipsOff, FindingOwner, IsModule;
  }

  lemma StepSigned(d: Data, e: Engine, s: Step)
    requires Signed(d) && Enabled(d, s)
    ensures var (d1, events) := Next(d, e, s);
      Signed(d1) && SignedEvents(events)
  {
    hide HandlePlan, PublishFinding, ApplyWhitelist, MarkSeen, FindingOwner, SignedEvents, ValidVerdict;
    NoEventsSigned();
    match s
    case Handled(plan, verdict, now) => PlanSigned(d, e, plan, verdict, now);
    case OtherFinding(source, f, now) => PublishSigned(d, source, f, now);
    case RuleAdded(rule, reasons, now) => ApplySigned(d.(whitelist := d.whitelist[rule.id := rule]), reasons, now);
    case RuleDeleted(id, reasons, now) => ApplySigned(d.(whitelist := d.whitelist - {id}), reasons, now);
    case _ =>
  }

  lemma {:induction false} RunSigned(d: Data, e: Engine, steps: seq<Step>)
    requires Signed(d) && IsRun(d, e, steps)
    ensures Signed(RunFrom(d, e, steps))
    decreases steps
  {
    hide Signed, Next, Enabled;
    if steps != [] {
      StepSigned(d, e, steps[0]);
      RunSigned(Next(d, e, steps[0]).0, e, steps[1..]);
    }
  }

  lemma ModulesSealed(source: string)
    requires IsModule(source)
    ensures Cef.Sealed(source)
  {
    hide Cef.Sealed;
    if source == DISCOVERY {
      Cef.PlainSealed(DISCOVERY);
    } else if source == HONEYNODES {
      Cef.PlainSealed(HONEYNODES);
    } else {
      Cef.PlainSealed(SELF_HEALING);
    }
  }

  /** After any run from an empty store, whatever the next step publishes, the record of every
      finding in its events splits into its eight fields. */
  lemma PublishedRecordsSplit(e: Engine, steps: seq<Step>, s: Step, k: nat, score: string, explanation: string)
    requires IsRun(NewData(), e, steps) && Enabled(RunFrom(NewData(), e, steps), s)
    requires var events := Next(RunFrom(NewData(), e, steps), e, s).1;
      k < |events| && events[k].payload.FindingPayload?
    ensures var f := Next(RunFrom(NewData(), e, steps), e, s).1[k].payload.finding;
      Cef.SplitFields(Cef.FormatCEF(f, score, explanation), 7) == Cef.RecordFields(f, score, explanation)
  {
    hide Next, IsRun, RunFrom, Enabled, Cef.FormatCEF, Cef.SplitFields, Cef.RecordFields, Cef.Sealed, IsModule;
    RunSigned(NewData(), e, steps);
    StepSigned(RunFrom(NewData(), e, steps), e, s);
    var f := Next(RunFrom(NewData(), e, steps), e, s).1[k].payload.finding;
    ModulesSealed(f.source);
    Cef.RecordSplits(f, score, explanation);
  }
}
