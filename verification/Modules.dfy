/** The module runtime: the platform API, the modules and the dispatch loop. */
module Modules {
  import opened Text
  import opened Model
  import opened Merge
  import opened Risk
  import opened State
  import opened Control
  import opened Lifecycle
  import opened EventBus
  import Store
  import opened Notify

  // ----- Platform API -----

  class API {
    const store: Store.Store
    const bus: Bus

    constructor (store: Store.Store, bus: Bus)
      ensures this.store == store && this.bus == bus
    {
      this.store := store;
      this.bus := bus;
    }

    method PublishFinding(source: string, f: Finding, now: Time)
      modifies store`d, store`dirty, bus`queue
      ensures store.d == Control.PublishFinding(old(store.d), source, f, now).0
      ensures bus.queue == EnqueuedAll(old(bus.queue), bus.capacity,
                                       Control.PublishFinding(old(store.d), source, f, now).1)
    {
      hide State.UpsertFinding, FindingEvent;
      var f1 := f.(source := source);
      if f1.updatedAt == ZERO_TIME {
        f1 := f1.(updatedAt := now);
      }
      var stored, changed := store.UpsertFinding(f1);
      if !changed {
        return;
      }
      bus.Publish(FindingEvent(stored, source));
    }

    /** The event "asset.instance.created"; no module emits another type of its own. */
    method PublishAsset(x: Instance, now: Time)
      modifies bus`queue
      ensures bus.queue == EnqueuedAll(old(bus.queue), bus.capacity, [AssetEvent(x, now)])
    {
      hide AssetEvent;
      bus.Publish(AssetEvent(x, now));
    }
  }

  // ----- Discovery -----

  class DiscoveryModule {
    const engine: Engine

    constructor (engine: Engine)
      ensures this.engine == engine
    {
      this.engine := engine;
    }

    method Rescore(api: API, id: string, now: Time)
      modifies api.store`d, api.store`dirty, api.bus`queue
      ensures api.store.d == Control.Rescore(old(api.store.d), engine, id, now).0
      ensures api.bus.queue == EnqueuedAll(old(api.bus.queue), api.bus.capacity,
                                           Control.Rescore(old(api.store.d), engine, id, now).1)
    {
      hide Control.PublishFinding, ScoreOf, EdgesOf, CredsOf, WorkflowsOf, EnqueuedAll;
      if id !in api.store.d.instances {
        NothingQueued(api.bus.queue, api.bus.capacity);
        return;
      }
      var x := api.store.d.instances[id];
      var reach := api.store.ReachabilityByInstance(x.id);
      var creds := api.store.CredentialRefsByInstance(x.id);
      var workflows := api.store.WorkflowsByInstance(x.id);
      var res := Score(engine, Input(x, reach, creds, workflows));
      var f := Finding(FindingId(x.id), DISCOVERY, x.id, x.hostId,
                       "Теневой инстанс " + x.engine + ": " + x.identity,
                       res.score, res.severity, SortFactors(res.factors), Blank, ZERO_TIME, x.lastSeen);
      if x.whitelisted {
        f := f.(status := Whitelisted, severity := Info, score := 0.0);
      }
      api.PublishFinding(DISCOVERY, f, now);
    }

    method UpsertAndScore(api: API, x: Instance, now: Time) returns (ghost verdict: Option<WhitelistRule>)
      requires KeysMatch(api.store.d)
      modifies api.store`d, api.store`dirty, api.bus`queue
      ensures ValidVerdict(old(api.store.d), x, verdict)
      ensures api.store.d == Control.UpsertAndScore(old(api.store.d), engine, x, verdict, now).0
      ensures api.bus.queue == EnqueuedAll(old(api.bus.queue), api.bus.capacity,
                                           Control.UpsertAndScore(old(api.store.d), engine, x, verdict, now).1)
    {
      hide ValidVerdict, Control.Rescore, AssetEvent, EnqueuedAll;
      ghost var was, queue := api.store.d, api.bus.queue;
      var host := HostOf(api.store.d, x.hostId);
      var rule := api.store.MatchWhitelist(x, host);
      verdict := rule;
      var x1 := x;
      if rule.Some? {
        x1 := x1.(whitelisted := true, whitelistReason := rule.value.reason);
      }
      var merged, created := api.store.UpsertInstance(x1);
      ghost var d1 := api.store.d;
      if created {
        api.PublishAsset(merged, now);
      } else {
        NothingQueued(queue, api.bus.capacity);
      }
      Rescore(api, merged.id, now);
      ghost var first := if created then [AssetEvent(merged, now)] else [];
      EnqueuedAppend(queue, api.bus.capacity, first, Control.Rescore(d1, engine, x.id, now).1);
    }

    method AddReachability(api: API, edges: seq<Reachability>)
      modifies api.store`d, api.store`dirty
      ensures api.store.d == old(api.store.d).(reach := old(api.store.d).reach + EdgeTable(edges))
    {
      hide EdgeTable;
      ghost var was := api.store.d;
      EdgeTableEnd(was.reach, edges);
      for i := 0 to |edges|
        invariant api.store.d == was.(reach := api.store.d.reach)
        invariant api.store.d.reach + EdgeTable(edges[i..]) == was.reach + EdgeTable(edges)
      {
        EdgeTableStep(api.store.d.reach, edges, i);
        if edges[i].targetSystem != "" {
          api.store.UpsertReachability(edges[i]);
        }
      }
      EdgeTableEnd(api.store.d.reach, edges);
    }

    method AddCredentialRefs(api: API, creds: seq<CredentialRef>)
      modifies api.store`d, api.store`dirty
      ensures api.store.d == old(api.store.d).(creds := old(api.store.d).creds + CredTable(creds))
    {
      hide CredTable;
      ghost var was := api.store.d;
      CredTableEnd(was.creds, creds);
      for i := 0 to |creds|
        invariant api.store.d == was.(creds := api.store.d.creds)
        invariant api.store.d.creds + CredTable(creds[i..]) == was.creds + CredTable(creds)
      {
        CredTableStep(api.store.d.creds, creds, i);
        api.store.UpsertCredentialRef(creds[i]);
      }
      CredTableEnd(api.store.d.creds, creds);
    }

    method AddWorkflows(api: API, workflows: seq<Workflow>)
      modifies api.store`d, api.store`dirty
      ensures api.store.d == old(api.store.d).(workflows := old(api.store.d).workflows + WorkflowTable(workflows))
    {
      hide WorkflowTable;
      ghost var was := api.store.d;
      WorkflowTableEnd(was.workflows, workflows);
      for i := 0 to |workflows|
        invariant api.store.d == was.(workflows := api.store.d.workflows)
        invariant api.store.d.workflows + WorkflowTable(workflows[i..]) == was.workflows + WorkflowTable(workflows)
      {
        WorkflowTableStep(api.store.d.workflows, workflows, i);
        api.store.UpsertWorkflow(workflows[i]);
      }
      WorkflowTableEnd(api.store.d.workflows, workflows);
    }

    method Handle(api: API, plan: Plan, now: Time) returns (ghost verdict: Option<WhitelistRule>)
      requires KeysMatch(api.store.d)
      modifies api.store`d, api.store`dirty, api.bus`queue
      ensures Enabled(old(api.store.d), Handled(plan, verdict, now))
      ensures api.store.d == HandlePlan(old(api.store.d), engine, plan, verdict, now).0
      ensures api.bus.queue == EnqueuedAll(old(api.bus.queue), api.bus.capacity,
                                           HandlePlan(old(api.store.d), engine, plan, verdict, now).1)
    {
      hide Control.UpsertAndScore, Control.Rescore, EdgeTable, CredTable, WorkflowTable, EnqueuedAll, Merged,
           RuleMatches;
      verdict := None;
      match plan
      case Ignored =>
        NothingQueued(api.bus.queue, api.bus.capacity);
      case Detected(x, edges, creds) =>
        ghost var was := api.store.d;
        AddReachability(api, edges);
        AddCredentialRefs(api, creds);
        verdict := UpsertAndScore(api, x, now);
        SameVerdicts(was, was.(reach := was.reach + EdgeTable(edges), creds := was.creds + CredTable(creds)),
                     x, verdict);
      case Inventory(x, workflows, edges, creds) =>
        var merged, _ := api.store.UpsertInstance(x);
        AddCredentialRefs(api, creds);
        AddReachability(api, edges);
        AddWorkflows(api, workflows);
        Rescore(api, x.id, now);
    }
  }

  lemma NothingQueued(queue: seq<Event>, capacity: nat)
    ensures EnqueuedAll(queue, capacity, []) == queue
  {
  }

  lemma EdgeTableStep(m: map<string, Reachability>, rs: seq<Reachability>, i: nat)
    requires i < |rs|
    ensures (if rs[i].targetSystem == "" then m else m[rs[i].id := rs[i]]) + EdgeTable(rs[i + 1..])
         == m + EdgeTable(rs[i..])
  {
    assert rs[i..][1..] == rs[i + 1..];
    MapAssoc(m, map[rs[i].id := rs[i]], EdgeTable(rs[i + 1..]));
  }

  lemma EdgeTableEnd(m: map<string, Reachability>, rs: seq<Reachability>)
    ensures m + EdgeTable(rs[|rs|..]) == m
    ensures m + EdgeTable(rs[0..]) == m + EdgeTable(rs)
  {
    assert rs[0..] == rs;
  }

  lemma CredTableStep(m: map<string, CredentialRef>, cs: seq<CredentialRef>, i: nat)
    requires i < |cs|
    ensures m[cs[i].id := cs[i]] + CredTable(cs[i + 1..]) == m + CredTable(cs[i..])
  {
    assert cs[i..][1..] == cs[i + 1..];
    MapAssoc(m, map[cs[i].id := cs[i]], CredTable(cs[i + 1..]));
  }

  lemma CredTableEnd(m: map<string, CredentialRef>, cs: seq<CredentialRef>)
    ensures m + CredTable(cs[|cs|..]) == m
    ensures m + CredTable(cs[0..]) == m + CredTable(cs)
  {
    assert cs[0..] == cs;
  }

  lemma WorkflowTableStep(m: map<string, Workflow>, ws: seq<Workflow>, i: nat)
    requires i < |ws|
    ensures m[ws[i].id := ws[i]] + WorkflowTable(ws[i + 1..]) == m + WorkflowTable(ws[i..])
  {
    assert ws[i..][1..] == ws[i + 1..];
    MapAssoc(m, map[ws[i].id := ws[i]], WorkflowTable(ws[i + 1..]));
  }

  lemma WorkflowTableEnd(m: map<string, Workflow>, ws: seq<Workflow>)
    ensures m + WorkflowTable(ws[|ws|..]) == m
    ensures m + WorkflowTable(ws[0..]) == m + WorkflowTable(ws)
  {
    assert ws[0..] == ws;
  }

  lemma MapAssoc<V>(m: map<string, V>, one: map<string, V>, rest: map<string, V>)
    ensures (m + one) + rest == m + (one + rest)
  {
  }

  lemma SameVerdicts(d: Data, d1: Data, x: Instance, verdict: Option<WhitelistRule>)
    requires d1.whitelist == d.whitelist && d1.hosts == d.hosts
    ensures ValidVerdict(d1, x, verdict) <==> ValidVerdict(d, x, verdict)
  {
    hide RuleMatches;
  }

  // ----- Registration -----

  function Patterns(m: Subscriber): seq<string> {
    match m
    case Discovery => ["observation.*"]
    case HoneyNodes => ["honeynode.access"]
    case SelfHealing => ["workflow.error"]
    case Autodoc => ["asset.instance.created"]
    case Notifications => ["finding.*"]
  }

  /** The subscriptions that the control plane sets up at start. */
  function DefaultSubs(): seq<Subscription> {
    [Subscription("observation.*", Discovery), Subscription("honeynode.access", HoneyNodes),
     Subscription("workflow.error", SelfHealing), Subscription("asset.instance.created", Autodoc),
     Subscription("finding.*", Notifications)]
  }

  // ----- The measure of the queue -----

  /** How many rounds of dispatch an event can still cause. */
  function Weight(eventType: string): nat {
    if Match("observation.*", eventType) then 3
    else if eventType == "honeynode.access" || eventType == "workflow.error" then 2
    else 1
  }

  function Measure(queue: seq<Event>): nat {
    if queue == [] then 0 else Weight(queue[0].eventType) + Measure(queue[1..])
  }

  /** The most that a handler adds to the measure. */
  function Yield(s: Subscriber): nat {
    match s
    case Discovery => 2
    case HoneyNodes => 1
    case SelfHealing => 1
    case Autodoc => 0
    case Notifications => 0
  }

  function YieldSum(subs: seq<Subscription>, eventType: string): nat {
    if subs == [] then 0
    else (if Match(subs[0].pattern, eventType) then Yield(subs[0].subscriber) else 0) + YieldSum(subs[1..], eventType)
  }

  lemma {:induction false} MeasureSnoc(queue: seq<Event>, ev: Event)
    ensures Measure(queue + [ev]) == Measure(queue) + Weight(ev.eventType)
  {
    if queue == [] {
      assert [ev][1..] == [];
      assert [] + [ev] == [ev];
    } else {
      assert (queue + [ev])[1..] == queue[1..] + [ev];
      MeasureSnoc(queue[1..], ev);
    }
  }

  lemma {:induction false} EnqueuedMeasure(queue: seq<Event>, capacity: nat, events: seq<Event>)
    ensures Measure(EnqueuedAll(queue, capacity, events)) <= Measure(queue) + Measure(events)
    decreases events
  {
    if events != [] {
      MeasureSnoc(queue, events[0]);
      EnqueuedMeasure(Enqueued(queue, capacity, events[0]), capacity, events[1..]);
    }
  }

  lemma FindingWeight(f: Finding, source: string)
    ensures Weight(FindingEvent(f, source).eventType) == 1
  {
    assert "finding.created"[0] == 'f';
  }

  lemma AssetWeight(x: Instance, now: Time)
    ensures Weight(AssetEvent(x, now).eventType) == 1
  {
    assert "asset.instance.created"[0] == 'a';
  }

  lemma PublishMeasure(d: Data, source: string, f: Finding, now: Time)
    ensures Measure(Control.PublishFinding(d, source, f, now).1) <= 1
  {
    hide FindingEvent, Weight;
    var (d1, events) := Control.PublishFinding(d, source, f, now);
    FindingWeight(d1.findings[f.id], source);
    MeasureSnoc([], FindingEvent(d1.findings[f.id], source));
    assert [] + [FindingEvent(d1.findings[f.id], source)] == [FindingEvent(d1.findings[f.id], source)];
  }

  lemma RescoreMeasure(d: Data, e: Engine, id: string, now: Time)
    ensures Measure(Control.Rescore(d, e, id, now).1) <= 1
  {
    hide Control.PublishFinding, FindingFor;
    if id in d.instances {
      PublishMeasure(d, DISCOVERY, FindingFor(d, e, d.instances[id]), now);
    }
  }

  /** An observation yields at most one asset event and one finding event. */
  lemma PlanMeasure(d: Data, e: Engine, plan: Plan, verdict: Option<WhitelistRule>, now: Time)
    ensures Measure(HandlePlan(d, e, plan, verdict, now).1) <= 2
  {
    hide Control.Rescore, State.UpsertInstance, EdgeTable, CredTable, WorkflowTable, AssetEvent, Weight;
    match plan
    case Ignored =>
    case Detected(x, edges, creds) =>
      var d1 := State.UpsertInstance(d.(reach := d.reach + EdgeTable(edges), creds := d.creds + CredTable(creds)),
                                     Judged(x, verdict));
      var scored := Control.Rescore(d1, e, x.id, now).1;
      RescoreMeasure(d1, e, x.id, now);
      if x.id in d.instances {
        assert [] + scored == scored;
      } else {
        UpsertStored(d.(reach := d.reach + EdgeTable(edges), creds := d.creds + CredTable(creds)), Judged(x, verdict));
        AssetWeight(d1.instances[x.id], now);
        DropFirst([AssetEvent(d1.instances[x.id], now)], scored);
      }
    case Inventory(x, workflows, edges, creds) =>
      var d1 := State.UpsertInstance(d, x);
      RescoreMeasure(d1.(workflows := d1.workflows + WorkflowTable(workflows), reach := d1.reach + EdgeTable(edges),
                         creds := d1.creds + CredTable(creds)), e, x.id, now);
  }

  lemma UpsertStored(d: Data, x: Instance)
    ensures x.id in State.UpsertInstance(d, x).instances
  {
  }

  /** With the default subscriptions, an event reaches at most one handler, and what that
      handler adds is less than the weight of the event. */
  lemma OneReceiver(eventType: string)
    ensures |Receivers(DefaultSubs(), eventType)| <= 1
    ensures YieldSum(DefaultSubs(), eventType) < Weight(eventType)
  {
    var subs := DefaultSubs();
    ReceiversOf(subs, eventType);
    PatternFacts(eventType);
    FirstLetters(eventType);
  }

  lemma ReceiversOf(subs: seq<Subscription>, eventType: string)
    requires |subs| == 5
    ensures |Receivers(subs, eventType)| ==
      One(subs[0], eventType) + One(subs[1], eventType) + One(subs[2], eventType) + One(subs[3], eventType)
      + One(subs[4], eventType)
    ensures YieldSum(subs, eventType) ==
      One(subs[0], eventType) * Yield(subs[0].subscriber) + One(subs[1], eventType) * Yield(subs[1].subscriber)
      + One(subs[2], eventType) * Yield(subs[2].subscriber) + One(subs[3], eventType) * Yield(subs[3].subscriber)
      + One(subs[4], eventType) * Yield(subs[4].subscriber)
  {
    hide Match, Yield;
    ReceiverCons(subs, eventType);
    ReceiverCons(subs[1..], eventType);
    ReceiverCons(subs[2..], eventType);
    ReceiverCons(subs[3..], eventType);
    ReceiverCons(subs[4..], eventType);
    assert subs[1..][1..] == subs[2..] && subs[2..][1..] == subs[3..];
    assert subs[3..][1..] == subs[4..] && subs[4..][1..] == [];
  }

  lemma ReceiverCons(subs: seq<Subscription>, eventType: string)
    requires subs != []
    ensures |Receivers(subs, eventType)| == One(subs[0], eventType) + |Receivers(subs[1..], eventType)|
    ensures YieldSum(subs, eventType)
         == One(subs[0], eventType) * Yield(subs[0].subscriber) + YieldSum(subs[1..], eventType)
  {
  }

  function One(s: Subscription, eventType: string): nat { if Match(s.pattern, eventType) then 1 else 0 }

  lemma PatternFacts(eventType: string)
    ensures Match("observation.*", eventType) <==> "observation." <= eventType
    ensures Match("finding.*", eventType) <==> "finding." <= eventType
    ensures Match("honeynode.access", eventType) <==> eventType == "honeynode.access"
    ensures Match("workflow.error", eventType) <==> eventType == "workflow.error"
    ensures Match("asset.instance.created", eventType) <==> eventType == "asset.instance.created"
  {
    assert "observation.*"[..12] == "observation.";
    assert "finding.*"[..8] == "finding.";
    assert "observation." <= eventType ==> eventType[0] == 'o';
    assert "finding." <= eventType ==> eventType[0] == 'f';
  }

  /** Who gets an event: decided by the start of its type or by the whole of it. */
  function Addressee(eventType: string): Option<Subscriber> {
    if "observation." <= eventType then Some(Discovery)
    else if "finding." <= eventType then Some(Notifications)
    else if eventType == "honeynode.access" then Some(HoneyNodes)
    else if eventType == "workflow.error" then Some(SelfHealing)
    else if eventType == "asset.instance.created" then Some(Autodoc)
    else None
  }

  /** The subscriptions of the control plane send each event to its addressee and to nobody
      else. */
  lemma ReceiversExactly(eventType: string)
    ensures Receivers(DefaultSubs(), eventType) ==
      match Addressee(eventType) case None => [] case Some(s) => [s]
  {
    hide Match, Receivers;
    PatternFacts(eventType);
    FirstLetters(eventType);
    var subs := DefaultSubs();
    NoReceivers(eventType);
    ReceiversFrom(subs, 4, eventType);
    ReceiversFrom(subs, 3, eventType);
    ReceiversFrom(subs, 2, eventType);
    ReceiversFrom(subs, 1, eventType);
    ReceiversFrom(subs, 0, eventType);
    assert subs[5..] == [] && subs[0..] == subs;
  }

  lemma NoReceivers(eventType: string)
    ensures Receivers([], eventType) == []
  {
  }

  lemma ReceiversFrom(subs: seq<Subscription>, i: nat, eventType: string)
    requires i < |subs|
    ensures Receivers(subs[i..], eventType) ==
      (if Match(subs[i].pattern, eventType) then [subs[i].subscriber] else []) + Receivers(subs[i + 1..], eventType)
  {
    assert subs[i..][1..] == subs[i + 1..];
  }

  /** The five patterns exclude each other. */
  lemma FirstLetters(eventType: string)
    ensures "observation." <= eventType ==> eventType[0] == 'o'
    ensures "finding." <= eventType ==> eventType[0] == 'f'
    ensures "honeynode.access"[0] == 'h' && "workflow.error"[0] == 'w' && "asset.instance.created"[0] == 'a'
  {
  }
}
