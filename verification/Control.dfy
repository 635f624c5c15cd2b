/** The control plane as atomic steps on the store: observation handlers, findings, the
    whitelist and the analyst actions. */
module Control {
  import opened Text
  import opened Sorting
  import opened Model
  import opened Glob
  import opened Merge
  import opened Risk
  import opened State

  // ----- Events -----

  /** An observation reduced to its effects on the store: nothing, one detected instance
      with the edges and credentials its handler records, or an API inventory. */
  datatype Plan =
    | Ignored
    | Detected(inst: Instance, edges: seq<Reachability>, creds: seq<CredentialRef>)
    | Inventory(inst: Instance, workflows: seq<Workflow>, edges: seq<Reachability>, creds: seq<CredentialRef>)

  datatype Payload =
    | Observed(plan: Plan)
    | NewInstance(inst: Instance)
    | FindingPayload(finding: Finding)
    | HoneyAccess(instanceId: string, honeyId: string, sourceIp: string, kind: string)
    | WorkflowError(instanceId: string, workflowId: string, node: string, workflowName: string)
    | Unreadable

  datatype Event = Event(id: string, eventType: string, source: string, hostId: string, time: Time, payload: Payload)

  const DISCOVERY := "m1-discovery"
  const HONEYNODES := "m2-honeynodes"
  const SELF_HEALING := "m3-selfhealing"

  function TimeText(t: Time): string { if t >= 0 then Dec(t) else "-" + Dec(-t) }

  function FindingEvent(f: Finding, source: string): Event {
    Event(StableID(["finding-ev", f.id, TimeText(f.updatedAt)]), "finding.created", source, f.hostId, f.updatedAt,
          FindingPayload(f))
  }

  /** The identifier also covers the serialized payload, which is not part of this model. */
  function AssetEvent(x: Instance, now: Time): Event {
    Event(StableID(["mod-ev", DISCOVERY, "asset.instance.created", TimeText(now)]), "asset.instance.created", DISCOVERY,
          x.hostId, now, NewInstance(x))
  }

  // ----- Findings -----

  /** PublishFinding: the new store and the events published. */
  function PublishFinding(d: Data, source: string, f: Finding, now: Time): (Data, seq<Event>) {
    var f1 := f.(source := source, updatedAt := if f.updatedAt == ZERO_TIME then now else f.updatedAt);
    var (d1, changed) := UpsertFinding(d, f1);
    (d1, if changed then [FindingEvent(d1.findings[f.id], source)] else [])
  }

  /** One stable finding per instance. */
  function FindingId(instanceId: string): string {
    StableID(["finding", DISCOVERY, instanceId])
  }

  ghost function FindingFor(d: Data, e: Engine, x: Instance): Finding {
    var res := ScoreOf(e, Input(x, EdgesOf(d, x.id), CredsOf(d, x.id), WorkflowsOf(d, x.id)));
    var f := Finding(FindingId(x.id), DISCOVERY, x.id, x.hostId,
                     "Теневой инстанс " + x.engine + ": " + x.identity,
                     res.score, res.severity, SortFactors(res.factors), Blank, ZERO_TIME, x.lastSeen);
    if x.whitelisted then f.(status := Whitelisted, severity := Info, score := 0.0) else f
  }

  ghost function Rescore(d: Data, e: Engine, id: string, now: Time): (Data, seq<Event>) {
    if id !in d.instances then (d, [])
    else PublishFinding(d, DISCOVERY, FindingFor(d, e, d.instances[id]), now)
  }

  // ----- Whitelist rules -----

  /** What a rule of a kind compares its pattern with; "" never matches. */
  function Subject(kind: string, x: Instance, host: Option<Host>): string {
    if kind == "host" then (if host.Some? then host.value.hostname else "")
    else if kind == "image" then x.image
    else if kind == "instance" then x.id
    else if kind == "engine" then x.engine
    else if kind == "identity" then x.identity
    else ""
  }

  ghost predicate RuleMatches(r: WhitelistRule, x: Instance, host: Option<Host>) {
    var subject := Subject(r.kind, x, host);
    subject != "" && Denotes(r.pattern, subject)
  }

  ghost predicate Flagged(d: Data, x: Instance) {
    exists k :: k in d.whitelist && RuleMatches(d.whitelist[k], x, HostOf(d, x.hostId))
  }

  /** MatchWhitelist returns an earliest matching rule, if any; between rules of the same
      creation time the order is not determined. */
  ghost predicate ValidVerdict(d: Data, x: Instance, verdict: Option<WhitelistRule>) {
    match verdict
    case None => !Flagged(d, x)
    case Some(r) =>
      && (exists k :: k in d.whitelist && d.whitelist[k] == r)
      && RuleMatches(r, x, HostOf(d, x.hostId))
      && forall k :: k in d.whitelist && RuleMatches(d.whitelist[k], x, HostOf(d, x.hostId)) ==>
           r.createdAt <= d.whitelist[k].createdAt
  }

  /** The instance that owns an m1 finding identifier. */
  function FindingOwner(findingId: string): Option<string> {
    var prefix := StableID(["finding", DISCOVERY]);
    var n := |findingId| - 1;
    if n >= |prefix| && prefix <= findingId && findingId[n] == '\0' then Some(findingId[|prefix|..n]) else None
  }

  lemma OwnerOfFinding(instanceId: string)
    ensures FindingOwner(FindingId(instanceId)) == Some(instanceId)
  {
    var prefix := StableID(["finding", DISCOVERY]);
    assert FindingId(instanceId) == prefix + instanceId + "\0" by { FindingIdIs(instanceId); }
  }

  lemma FindingIdIs(instanceId: string)
    ensures FindingId(instanceId) == StableID(["finding", DISCOVERY]) + instanceId + "\0"
  {
    StableIDAppend(["finding", DISCOVERY], [instanceId]);
    assert ["finding", DISCOVERY] + [instanceId] == ["finding", DISCOVERY, instanceId];
    assert StableID([instanceId]) == instanceId + "\0" + "";
  }

  /** The identifiers of the other modules' findings belong to no instance. */
  lemma OtherModulesOwnNothing(source: string, rest: seq<string>)
    requires source == HONEYNODES || source == SELF_HEALING
    ensures FindingOwner(StableID(["finding", source] + rest)).None?
  {
    StableIDAppend(["finding", source], rest);
    TwoParts("finding", source);
    TwoParts("finding", DISCOVERY);
    var id := StableID(["finding", source] + rest);
    assert id == "finding\0" + (source + "\0" + StableID(rest));
    assert id[|"finding\0"| + 1] == source[1];
    assert StableID(["finding", DISCOVERY])[|"finding\0"| + 1] == '1';
  }

  lemma TwoParts(a: string, b: string)
    ensures StableID([a, b]) == a + "\0" + (b + "\0")
  {
    assert [a, b][1..] == [b] && [b][1..] == [];
    assert StableID([b]) == b + "\0" + "";
  }

  lemma FindingOfOwner(findingId: string)
    requires FindingOwner(findingId).Some?
    ensures findingId == FindingId(FindingOwner(findingId).value)
  {
    var prefix := StableID(["finding", DISCOVERY]);
    var n := |findingId| - 1;
    FindingIdIs(findingId[|prefix|..n]);
    assert findingId == findingId[..|prefix|] + findingId[|prefix|..n] + [findingId[n]];
  }

  // ----- Applying the whitelist -----

  ghost predicate FlipsOn(d: Data, id: string) {
    id in d.instances && Flagged(d, d.instances[id]) && !d.instances[id].whitelisted
  }

  ghost predicate FlipsOff(d: Data, id: string) {
    id in d.instances && !Flagged(d, d.instances[id]) && d.instances[id].whitelisted
  }

  function Reason(reasons: map<string, string>, id: string): string { if id in reasons then reasons[id] else "" }

  ghost function FlippedInstance(d: Data, reasons: map<string, string>, id: string): Instance
    requires id in d.instances
  {
    if FlipsOn(d, id) then d.instances[id].(whitelisted := true, whitelistReason := Reason(reasons, id))
    else if FlipsOff(d, id) then d.instances[id].(whitelisted := false, whitelistReason := "")
    else d.instances[id]
  }

  ghost function FlippedFinding(d: Data, id: string, now: Time): Finding
    requires id in d.findings
  {
    var owner := FindingOwner(id);
    if owner.Some? && FlipsOn(d, owner.value) then d.findings[id].(status := Whitelisted, updatedAt := now)
    else if owner.Some? && FlipsOff(d, owner.value) then d.findings[id].(status := New, updatedAt := now)
    else d.findings[id]
  }

  /** applyWhitelist: every instance is compared with the rules; where its flag is wrong, the
      flag and the status of its finding are set. `reasons` gives the reason of the rule
      found for each newly flagged instance. */
  ghost function ApplyWhitelist(d: Data, reasons: map<string, string>, now: Time): Data {
    d.(instances := map id | id in d.instances :: FlippedInstance(d, reasons, id),
       findings := map id | id in d.findings :: FlippedFinding(d, id, now))
  }

  // ----- Handlers -----

  /** What the handler makes of the verdict on an instance. */
  function Judged(x: Instance, verdict: Option<WhitelistRule>): Instance {
    match verdict case None => x case Some(r) => x.(whitelisted := true, whitelistReason := r.reason)
  }

  ghost function UpsertAndScore(d: Data, e: Engine, x: Instance, verdict: Option<WhitelistRule>, now: Time)
    : (Data, seq<Event>)
  {
    var d1 := UpsertInstance(d, Judged(x, verdict));
    var created := if x.id in d.instances then [] else [AssetEvent(d1.instances[x.id], now)];
    var (d2, scored) := Rescore(d1, e, x.id, now);
    (d2, created + scored)
  }

  ghost function HandlePlan(d: Data, e: Engine, plan: Plan, verdict: Option<WhitelistRule>, now: Time)
    : (Data, seq<Event>)
  {
    match plan
    case Ignored => (d, [])
    case Detected(x, edges, creds) =>
      UpsertAndScore(d.(reach := d.reach + EdgeTable(edges), creds := d.creds + CredTable(creds)), e, x, verdict, now)
    case Inventory(x, workflows, edges, creds) =>
      var d1 := UpsertInstance(d, x);
      Rescore(d1.(workflows := d1.workflows + WorkflowTable(workflows), reach := d1.reach + EdgeTable(edges),
                  creds := d1.creds + CredTable(creds)), e, x.id, now)
  }

  // ----- Steps -----

  datatype Step =
    | HostSeen(h: Host)
    | EventMarked(id: string, at: Time)
    | Handled(plan: Plan, verdict: Option<WhitelistRule>, now: Time)
    | OtherFinding(source: string, f: Finding, now: Time)
    | AnalystAction(findingId: string, status: FindingStatus, now: Time)
    | RuleAdded(rule: WhitelistRule, reasons: map<string, string>, now: Time)
    | RuleDeleted(ruleId: string, reasons: map<string, string>, now: Time)

  /** What handlers and API produce: m2 and m3 findings carry no status and identifiers of
      their own; analysts set new, acked or resolved; the verdict is one that the rules allow. */
  ghost predicate Enabled(d: Data, s: Step) {
    match s
    case Handled(Detected(x, edges, creds), verdict, _) => ValidVerdict(d, x, verdict)
    case OtherFinding(source, f, _) =>
      (source == HONEYNODES || source == SELF_HEALING) && f.status == Blank && FindingOwner(f.id).None?
    case AnalystAction(_, status, _) => status in {New, Acked, Resolved}
    case _ => true
  }

  ghost function Next(d: Data, e: Engine, s: Step): (Data, seq<Event>) {
    match s
    case HostSeen(h) => (UpsertHost(d, h), [])
    case EventMarked(id, at) => (d.(seen := MarkSeen(d.seen, id, at).1), [])
    case Handled(plan, verdict, now) => HandlePlan(d, e, plan, verdict, now)
    case OtherFinding(source, f, now) => PublishFinding(d, source, f, now)
    case AnalystAction(id, status, now) => (SetStatus(d, id, status, now), [])
    case RuleAdded(rule, reasons, now) =>
      (ApplyWhitelist(d.(whitelist := d.whitelist[rule.id := rule]), reasons, now), [])
    case RuleDeleted(id, reasons, now) =>
      (if id in d.whitelist then ApplyWhitelist(d.(whitelist := d.whitelist - {id}), reasons, now) else d, [])
  }

  ghost predicate IsRun(d: Data, e: Engine, steps: seq<Step>)
    decreases steps
  {
    steps == [] || (Enabled(d, steps[0]) && IsRun(Next(d, e, steps[0]).0, e, steps[1..]))
  }

  ghost function RunFrom(d: Data, e: Engine, steps: seq<Step>): Data
    decreases steps
  {
    if steps == [] then d else RunFrom(Next(d, e, steps[0]).0, e, steps[1..])
  }
}
