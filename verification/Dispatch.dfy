/** Module registration and the dispatch loop. */
module Dispatch {
  import opened Text
  import opened Model
  import opened State
  import opened Risk
  import opened Control
  import opened Lifecycle
  import opened EventBus
  import opened Notify
  import opened Modules

  lemma {:induction false} RunAppend(d: Data, e: Engine, a: seq<Step>, b: seq<Step>)
    requires IsRun(d, e, a) && IsRun(RunFrom(d, e, a), e, b)
    ensures IsRun(d, e, a + b) && RunFrom(d, e, a + b) == RunFrom(RunFrom(d, e, a), e, b)
    decreases a
  {
    hide Next, Enabled;
    if a == [] {
      assert a + b == b;
    } else {
      assert (a + b)[1..] == a[1..] + b;
      RunAppend(Next(d, e, a[0]).0, e, a[1..], b);
    }
  }

  lemma OneStep(d: Data, e: Engine, s: Step)
    requires Enabled(d, s)
    ensures IsRun(d, e, [s]) && RunFrom(d, e, [s]) == Next(d, e, s).0
  {
    hide Next, Enabled;
    assert [s][1..] == [];
  }

  function HoneyFinding(ev: Event, now: Time): Finding
    requires ev.payload.HoneyAccess?
  {
    var a := ev.payload;
    Finding(StableID(["finding", HONEYNODES] + [a.honeyId, a.sourceIp, TimeText(now / 1_000_000_000)]), HONEYNODES,
            a.instanceId, ev.hostId,
            "Обращение к приманке " + a.honeyId + " (" + a.kind + ") — вероятная компрометация",
            95.0, Critical, [], Blank, ZERO_TIME, now)
  }

  function ErrorFinding(ev: Event): Finding
    requires ev.payload.WorkflowError?
  {
    var a := ev.payload;
    Finding(StableID(["finding", SELF_HEALING] + [a.instanceId, a.workflowId, a.node]), SELF_HEALING,
            a.instanceId, ev.hostId, "Сбой воркфлоу «" + a.workflowName + "» (нода " + a.node + ")",
            40.0, Medium, [], Blank, ZERO_TIME, ev.time)
  }

  /** What a handler does about an event: the steps are fixed by the event, up to the verdict of
      the whitelist rules. */
  function StepsFor(s: Subscriber, ev: Event, verdict: Option<WhitelistRule>, now: Time): seq<Step> {
    match s
    case Discovery => if ev.payload.Observed? then [Handled(ev.payload.plan, verdict, now)] else []
    case HoneyNodes => if ev.payload.HoneyAccess? then [OtherFinding(HONEYNODES, HoneyFinding(ev, now), now)] else []
    case SelfHealing => if ev.payload.WorkflowError? then [OtherFinding(SELF_HEALING, ErrorFinding(ev), now)] else []
    case Autodoc => []
    case Notifications => []
  }

  /** What all subscriptions that match do, in their order. */
  function Reaction(subs: seq<Subscription>, ev: Event, verdict: Option<WhitelistRule>, now: Time): seq<Step> {
    if subs == [] then []
    else
      var sub := subs[|subs| - 1];
      Reaction(subs[..|subs| - 1], ev, verdict, now)
      + if Match(sub.pattern, ev.eventType) then StepsFor(sub.subscriber, ev, verdict, now) else []
  }

  lemma ReactionSnoc(subs: seq<Subscription>, i: nat, ev: Event, verdict: Option<WhitelistRule>, now: Time)
    requires i < |subs|
    ensures Reaction(subs[..i + 1], ev, verdict, now) ==
      Reaction(subs[..i], ev, verdict, now)
      + if Match(subs[i].pattern, ev.eventType) then StepsFor(subs[i].subscriber, ev, verdict, now) else []
  {
    assert subs[..i + 1][..i] == subs[..i];
  }

  /** Only the discovery module consults the rules. */
  lemma OthersNeedNoVerdict(s: Subscriber, ev: Event, v: Option<WhitelistRule>, u: Option<WhitelistRule>, now: Time)
    requires s != Discovery
    ensures StepsFor(s, ev, v, now) == StepsFor(s, ev, u, now)
  {
  }

  /** The events that a run of steps publishes, in order. */
  ghost function RunEvents(d: Data, e: Engine, steps: seq<Step>): seq<Event>
    decreases steps
  {
    if steps == [] then [] else Next(d, e, steps[0]).1 + RunEvents(Next(d, e, steps[0]).0, e, steps[1..])
  }

  lemma {:induction false} RunEventsAppend(d: Data, e: Engine, a: seq<Step>, b: seq<Step>)
    ensures RunEvents(d, e, a + b) == RunEvents(d, e, a) + RunEvents(RunFrom(d, e, a), e, b)
    decreases a
  {
    hide Next, Enabled;
    if a == [] {
      assert a + b == b;
    } else {
      assert (a + b)[1..] == a[1..] + b;
      RunEventsAppend(Next(d, e, a[0]).0, e, a[1..], b);
    }
  }

  lemma OneStepEvents(d: Data, e: Engine, s: Step)
    ensures RunEvents(d, e, [s]) == Next(d, e, s).1 && RunEvents(d, e, []) == []
  {
    hide Next, Enabled;
    assert [s][1..] == [];
    assert Next(d, e, s).1 + [] == Next(d, e, s).1;
  }

  // ----- The loop -----

  /** One turn of the dispatch loop. */
  datatype Turn = Turn(ev: Event, verdict: Option<WhitelistRule>, now: Time)

  function TurnSteps(t: Turn): seq<Step> { Reaction(DefaultSubs(), t.ev, t.verdict, t.now) }

  function StepsOf(turns: seq<Turn>): seq<Step> {
    if turns == [] then [] else StepsOf(turns[..|turns| - 1]) + TurnSteps(turns[|turns| - 1])
  }

  function EventsOf(turns: seq<Turn>): seq<Event> {
    if turns == [] then [] else EventsOf(turns[..|turns| - 1]) + [turns[|turns| - 1].ev]
  }

  /** Store and queue after some turns: each takes the head of the queue, and what its steps
      publish joins the other end, as far as there is room. */
  ghost function LoopAt(d: Data, e: Engine, capacity: nat, queue: seq<Event>, turns: seq<Turn>): (Data, seq<Event>) {
    if turns == [] then (d, queue)
    else
      var (d1, q1) := LoopAt(d, e, capacity, queue, turns[..|turns| - 1]);
      var steps := TurnSteps(turns[|turns| - 1]);
      (RunFrom(d1, e, steps), EnqueuedAll(if q1 == [] then [] else q1[1..], capacity, RunEvents(d1, e, steps)))
  }

  ghost predicate IsLoop(d: Data, e: Engine, capacity: nat, queue: seq<Event>, turns: seq<Turn>) {
    turns == [] ||
    (var before := turns[..|turns| - 1];
     var t := turns[|turns| - 1];
     var (d1, q1) := LoopAt(d, e, capacity, queue, before);
     IsLoop(d, e, capacity, queue, before) && q1 != [] && t.ev == q1[0] && IsRun(d1, e, TurnSteps(t)))
  }

  lemma LoopSnoc(d: Data, e: Engine, capacity: nat, queue: seq<Event>, turns: seq<Turn>, t: Turn)
    requires IsLoop(d, e, capacity, queue, turns)
    requires var (d1, q1) := LoopAt(d, e, capacity, queue, turns);
      q1 != [] && t.ev == q1[0] && IsRun(d1, e, TurnSteps(t))
    ensures var (d1, q1) := LoopAt(d, e, capacity, queue, turns);
      LoopAt(d, e, capacity, queue, turns + [t])
      == (RunFrom(d1, e, TurnSteps(t)), EnqueuedAll(q1[1..], capacity, RunEvents(d1, e, TurnSteps(t))))
    ensures IsLoop(d, e, capacity, queue, turns + [t])
    ensures StepsOf(turns + [t]) == StepsOf(turns) + TurnSteps(t) && EventsOf(turns + [t]) == EventsOf(turns) + [t.ev]
  {
    hide TurnSteps, RunFrom, RunEvents, EnqueuedAll, IsRun;
    assert (turns + [t])[..|turns|] == turns;
  }

  lemma {:induction false} EnqueuedKeeps(queue: seq<Event>, capacity: nat, events: seq<Event>)
    ensures queue <= EnqueuedAll(queue, capacity, events)
    decreases events
  {
    if events != [] { EnqueuedKeeps(Enqueued(queue, capacity, events[0]), capacity, events[1..]); }
  }

  /** First come, first served: the events dispatched, followed by those still queued, start
      with the queue as it was, in its order. */
  lemma {:induction false} FirstComeFirstServed(d: Data, e: Engine, capacity: nat, queue: seq<Event>, turns: seq<Turn>)
    requires IsLoop(d, e, capacity, queue, turns)
    ensures queue <= EventsOf(turns) + LoopAt(d, e, capacity, queue, turns).1
  {
    hide TurnSteps, RunFrom, RunEvents, EnqueuedAll, IsRun;
    if turns != [] {
      var before := turns[..|turns| - 1];
      var t := turns[|turns| - 1];
      var (d1, q1) := LoopAt(d, e, capacity, queue, before);
      FirstComeFirstServed(d, e, capacity, queue, before);
      EnqueuedKeeps(q1[1..], capacity, RunEvents(d1, e, TurnSteps(t)));
      var q2 := EnqueuedAll(q1[1..], capacity, RunEvents(d1, e, TurnSteps(t)));
      assert q1 == [t.ev] + q1[1..];
      PrefixShifts(queue, EventsOf(before), t.ev, q1[1..], q2);
    }
  }

  lemma PrefixShifts(queue: seq<Event>, served: seq<Event>, ev: Event, rest: seq<Event>, more: seq<Event>)
    requires queue <= served + ([ev] + rest) && rest <= more
    ensures queue <= (served + [ev]) + more
  {
    assert served + ([ev] + rest) == (served + [ev]) + rest;
    assert more == rest + more[|rest|..];
    assert (served + [ev]) + more == ((served + [ev]) + rest) + more[|rest|..];
  }

  function SubscriptionsOf(m: Subscriber): seq<Subscription> {
    seq(|Patterns(m)|, i requires 0 <= i < |Patterns(m)| => Subscription(Patterns(m)[i], m))
  }

  /** What an event sends when it reaches the notification manager. */
  function Notified(manager: Manager, ev: Event): seq<Delivery> {
    if Match("finding.*", ev.eventType) then Sent(manager.minSeverity, manager.channels, [ev]) else []
  }

  /** The events that the notification manager is subscribed to, in order. */
  function Heard(events: seq<Event>): seq<Event> {
    if events == [] then []
    else
      var ev := events[|events| - 1];
      Heard(events[..|events| - 1]) + if Match("finding.*", ev.eventType) then [ev] else []
  }

  lemma {:induction false} SentAppend(minSeverity: Severity, channels: nat, a: seq<Event>, b: seq<Event>)
    ensures Sent(minSeverity, channels, a + b) == Sent(minSeverity, channels, a) + Sent(minSeverity, channels, b)
  {
    hide Deliveries;
    if a == [] {
      assert a + b == b;
    } else {
      assert (a + b)[1..] == a[1..] + b;
      SentAppend(minSeverity, channels, a[1..], b);
    }
  }

  lemma HeardSnoc(manager: Manager, events: seq<Event>, ev: Event)
    ensures Sent(manager.minSeverity, manager.channels, Heard(events + [ev]))
         == Sent(manager.minSeverity, manager.channels, Heard(events)) + Notified(manager, ev)
  {
    hide Sent, Match;
    assert (events + [ev])[..|events|] == events;
    assert Heard(events) + [] == Heard(events);
    SentAppend(manager.minSeverity, manager.channels, Heard(events), [ev]);
  }

  // ----- Every event reaches its handler -----

  /** What some handlers do about an event, one after the other. */
  function StepsForAll(rs: seq<Subscriber>, ev: Event, verdict: Option<WhitelistRule>, now: Time): seq<Step> {
    if rs == [] then [] else StepsFor(rs[0], ev, verdict, now) + StepsForAll(rs[1..], ev, verdict, now)
  }

  lemma {:induction false} StepsForAllAppend(a: seq<Subscriber>, b: seq<Subscriber>, ev: Event,
                                             verdict: Option<WhitelistRule>, now: Time)
    ensures StepsForAll(a + b, ev, verdict, now) == StepsForAll(a, ev, verdict, now) + StepsForAll(b, ev, verdict, now)
  {
    hide StepsFor;
    if a == [] {
      assert a + b == b;
    } else {
      assert (a + b)[0] == a[0] && (a + b)[1..] == a[1..] + b;
      StepsForAllAppend(a[1..], b, ev, verdict, now);
      Assoc(StepsFor(a[0], ev, verdict, now), StepsForAll(a[1..], ev, verdict, now), StepsForAll(b, ev, verdict, now));
    }
  }

  lemma OneHandler(s: Subscriber, ev: Event, verdict: Option<WhitelistRule>, now: Time)
    ensures StepsForAll([s], ev, verdict, now) == StepsFor(s, ev, verdict, now)
    ensures StepsForAll([], ev, verdict, now) == []
  {
    hide StepsFor;
    assert [s][1..] == [];
  }

  lemma {:induction false} ReceiversAppend(a: seq<Subscription>, b: seq<Subscription>, eventType: string)
    ensures Receivers(a + b, eventType) == Receivers(a, eventType) + Receivers(b, eventType)
  {
    hide Match;
    if a == [] {
      assert a + b == b;
    } else {
      var first := if Match(a[0].pattern, eventType) then [a[0].subscriber] else [];
      assert (a + b)[0] == a[0] && (a + b)[1..] == a[1..] + b;
      ReceiversAppend(a[1..], b, eventType);
      Assoc(first, Receivers(a[1..], eventType), Receivers(b, eventType));
    }
  }

  lemma OneReceived(sub: Subscription, eventType: string)
    ensures Receivers([sub], eventType) == if Match(sub.pattern, eventType) then [sub.subscriber] else []
  {
    hide Match;
    assert [sub][1..] == [];
  }

  /** The reaction to an event is what its receivers do. */
  lemma {:induction false} ReactionOfReceivers(subs: seq<Subscription>, ev: Event, verdict: Option<WhitelistRule>,
                                               now: Time)
    ensures Reaction(subs, ev, verdict, now) == StepsForAll(Receivers(subs, ev.eventType), ev, verdict, now)
  {
    hide Match, StepsFor, StepsForAll, Receivers;
    if subs == [] {
      NoReceivers(ev.eventType);
      OneHandler(Discovery, ev, verdict, now);
    } else {
      var before, sub := subs[..|subs| - 1], subs[|subs| - 1];
      assert subs == before + [sub];
      ReactionOfReceivers(before, ev, verdict, now);
      ReceiversAppend(before, [sub], ev.eventType);
      OneReceived(sub, ev.eventType);
      OneHandler(sub.subscriber, ev, verdict, now);
      StepsForAllAppend(Receivers(before, ev.eventType), Receivers([sub], ev.eventType), ev, verdict, now);
    }
  }

  /** A turn makes the steps of the addressee of its event, and no others. */
  lemma TurnStepsExactly(t: Turn)
    ensures TurnSteps(t) ==
      match Addressee(t.ev.eventType) case None => [] case Some(s) => StepsFor(s, t.ev, t.verdict, t.now)
  {
    hide Match, StepsFor, StepsForAll, Receivers, Reaction, Addressee, DefaultSubs;
    ReceiversExactly(t.ev.eventType);
    ReactionOfReceivers(DefaultSubs(), t.ev, t.verdict, t.now);
    match Addressee(t.ev.eventType)
    case None => OneHandler(Discovery, t.ev, t.verdict, t.now);
    case Some(s) => OneHandler(s, t.ev, t.verdict, t.now);
  }

  /** The plan that an event asks the discovery module to carry out. */
  function PlanOf(ev: Event): seq<Plan> {
    if "observation." <= ev.eventType && ev.payload.Observed? then [ev.payload.plan] else []
  }

  function PlansOf(events: seq<Event>): seq<Plan> {
    if events == [] then [] else PlanOf(events[0]) + PlansOf(events[1..])
  }

  /** The plans that some steps carry out, in order. */
  function PlansDone(steps: seq<Step>): seq<Plan> {
    if steps == [] then [] else (if steps[0].Handled? then [steps[0].plan] else []) + PlansDone(steps[1..])
  }

  lemma {:induction false} PlansOfAppend(a: seq<Event>, b: seq<Event>)
    ensures PlansOf(a + b) == PlansOf(a) + PlansOf(b)
  {
    if a == [] {
      assert a + b == b;
    } else {
      assert (a + b)[0] == a[0] && (a + b)[1..] == a[1..] + b;
      PlansOfAppend(a[1..], b);
      Assoc(PlanOf(a[0]), PlansOf(a[1..]), PlansOf(b));
    }
  }

  lemma {:induction false} PlansDoneAppend(a: seq<Step>, b: seq<Step>)
    ensures PlansDone(a + b) == PlansDone(a) + PlansDone(b)
  {
    if a == [] {
      assert a + b == b;
    } else {
      var first := if a[0].Handled? then [a[0].plan] else [];
      assert (a + b)[0] == a[0] && (a + b)[1..] == a[1..] + b;
      PlansDoneAppend(a[1..], b);
      Assoc(first, PlansDone(a[1..]), PlansDone(b));
    }
  }

  lemma TurnPlans(t: Turn)
    ensures PlansDone(TurnSteps(t)) == PlansOf([t.ev])
  {
    TurnStepsExactly(t);
    hide TurnSteps, HoneyFinding, ErrorFinding;
    FirstLetters(t.ev.eventType);
    assert [t.ev][1..] == [];
    assert PlansOf([t.ev]) == PlanOf(t.ev);
  }

  /** The dispatch loop carries out exactly the plans of the observations that it dispatches, once
      each and in their order. */
  lemma {:induction false} PlansDoneExactly(turns: seq<Turn>)
    ensures PlansDone(StepsOf(turns)) == PlansOf(EventsOf(turns))
  {
    hide TurnSteps, PlanOf;
    if turns != [] {
      var before, t := turns[..|turns| - 1], turns[|turns| - 1];
      PlansDoneExactly(before);
      TurnPlans(t);
      PlansDoneAppend(StepsOf(before), TurnSteps(t));
      PlansOfAppend(EventsOf(before), [t.ev]);
    }
  }

  lemma {:induction false} PlanListed(events: seq<Event>, i: nat, plan: Plan)
    requires i < |events| && PlanOf(events[i]) == [plan]
    ensures plan in PlansOf(events)
  {
    if i > 0 { PlanListed(events[1..], i - 1, plan); }
  }

  lemma {:induction false} DoneBySomeStep(steps: seq<Step>, plan: Plan) returns (k: nat)
    requires plan in PlansDone(steps)
    ensures k < |steps| && steps[k].Handled? && steps[k].plan == plan
  {
    if steps[0].Handled? && steps[0].plan == plan {
      k := 0;
    } else {
      var j := DoneBySomeStep(steps[1..], plan);
      k := j + 1;
    }
  }

  /** Once a loop has emptied its queue, every observation that was queued has been handled. */
  lemma QueuedAreHandled(d: Data, e: Engine, capacity: nat, queue: seq<Event>, turns: seq<Turn>, i: nat, kind: string)
    requires IsLoop(d, e, capacity, queue, turns) && LoopAt(d, e, capacity, queue, turns).1 == []
    requires i < |queue| && queue[i].eventType == "observation." + kind && queue[i].payload.Observed?
    ensures exists k :: 0 <= k < |StepsOf(turns)| && StepsOf(turns)[k].Handled?
                        && StepsOf(turns)[k].plan == queue[i].payload.plan
  {
    hide IsLoop, LoopAt, TurnSteps;
    FirstComeFirstServed(d, e, capacity, queue, turns);
    assert EventsOf(turns) + [] == EventsOf(turns);
    PlansDoneExactly(turns);
    PlanListed(EventsOf(turns), i, queue[i].payload.plan);
    var k := DoneBySomeStep(StepsOf(turns), queue[i].payload.plan);
  }

  // ----- Nothing is lost on the way -----

  /** In every turn what the handler publishes fits into the queue. */
  ghost predicate Roomy(d: Data, e: Engine, capacity: nat, queue: seq<Event>, turns: seq<Turn>)
    requires IsLoop(d, e, capacity, queue, turns)
  {
    turns == [] ||
    (var before := turns[..|turns| - 1];
     var (d1, q1) := LoopAt(d, e, capacity, queue, before);
     Roomy(d, e, capacity, queue, before)
     && |q1| - 1 + |RunEvents(d1, e, TurnSteps(turns[|turns| - 1]))| <= capacity)
  }

  lemma {:induction false} LoopData(d: Data, e: Engine, capacity: nat, queue: seq<Event>, turns: seq<Turn>)
    requires IsLoop(d, e, capacity, queue, turns)
    ensures IsRun(d, e, StepsOf(turns)) && LoopAt(d, e, capacity, queue, turns).0 == RunFrom(d, e, StepsOf(turns))
  {
    hide TurnSteps, RunFrom, RunEvents, EnqueuedAll, IsRun;
    if turns == [] {
      EmptyRun(d, e);
    } else {
      var before, t := turns[..|turns| - 1], turns[|turns| - 1];
      LoopData(d, e, capacity, queue, before);
      RunAppend(d, e, StepsOf(before), TurnSteps(t));
    }
  }

  lemma MovedAlong(served: seq<Event>, ev: Event, rest: seq<Event>, queue: seq<Event>, old_: seq<Event>,
                   more: seq<Event>)
    requires served + ([ev] + rest) == queue + old_
    ensures (served + [ev]) + (rest + more) == queue + (old_ + more)
  {
    assert (served + [ev]) + (rest + more) == (served + ([ev] + rest)) + more;
    Assoc(queue, old_, more);
  }

  /** With room for what handlers publish, the events dispatched, followed by those still queued,
      are the queue as it was followed by everything published since, in order. */
  lemma {:induction false} NothingLost(d: Data, e: Engine, capacity: nat, queue: seq<Event>, turns: seq<Turn>)
    requires IsLoop(d, e, capacity, queue, turns) && Roomy(d, e, capacity, queue, turns)
    ensures EventsOf(turns) + LoopAt(d, e, capacity, queue, turns).1 == queue + RunEvents(d, e, StepsOf(turns))
  {
    hide TurnSteps, RunFrom, RunEvents, EnqueuedAll, IsRun;
    if turns == [] {
      EmptyRun(d, e);
    } else {
      var before, t := turns[..|turns| - 1], turns[|turns| - 1];
      var (d1, q1) := LoopAt(d, e, capacity, queue, before);
      var published := RunEvents(d1, e, TurnSteps(t));
      NothingLost(d, e, capacity, queue, before);
      LoopData(d, e, capacity, queue, before);
      RunEventsAppend(d, e, StepsOf(before), TurnSteps(t));
      EnqueuedExactly(q1[1..], capacity, published);
      assert q1 == [t.ev] + q1[1..];
      MovedAlong(EventsOf(before), t.ev, q1[1..], queue, RunEvents(d, e, StepsOf(before)), published);
    }
  }

  class Runtime {
    const api: API
    const discovery: DiscoveryModule
    const manager: Manager
    var modules: seq<Subscriber>

    constructor (api: API, discovery: DiscoveryModule, manager: Manager)
      ensures this.api == api && this.discovery == discovery && this.manager == manager && modules == []
    {
      this.api := api;
      this.discovery := discovery;
      this.manager := manager;
      modules := [];
    }

    /** A module of a name already registered is refused. */
    method Register(m: Subscriber) returns (ok: bool)
      modifies this`modules, api.bus`subs
      ensures ok <==> m !in old(modules)
      ensures !ok ==> modules == old(modules) && api.bus.subs == old(api.bus.subs)
      ensures ok ==> modules == old(modules) + [m]
      ensures ok ==> api.bus.subs == old(api.bus.subs) + SubscriptionsOf(m)
    {
      for i := 0 to |modules|
        invariant m !in modules[..i]
      {
        if modules[i] == m {
          return false;
        }
      }
      modules := modules + [m];
      var patterns := Patterns(m);
      ghost var before := api.bus.subs;
      for i := 0 to |patterns|
        invariant modules == old(modules) + [m]
        invariant api.bus.subs == before + seq(i, j requires 0 <= j < i => Subscription(patterns[j], m))
      {
        api.bus.Subscribe(patterns[i], m);
      }
      return true;
    }

    /** What main does: four modules, then the notification manager. */
    method Start()
      requires modules == [] && api.bus.subs == []
      modifies this`modules, api.bus`subs
      ensures api.bus.subs == DefaultSubs()
    {
      var _ := Register(Discovery);
      var _ := Register(HoneyNodes);
      var _ := Register(SelfHealing);
      var _ := Register(Autodoc);
      api.bus.Subscribe("finding.*", Notifications);
    }

    method HandleEvent(s: Subscriber, ev: Event, now: Time) returns (ghost verdict: Option<WhitelistRule>)
      requires Inv(api.store.d)
      modifies api.store`d, api.store`dirty, api.bus`queue, manager`sent
      ensures IsRun(old(api.store.d), discovery.engine, StepsFor(s, ev, verdict, now))
      ensures api.store.d == RunFrom(old(api.store.d), discovery.engine, StepsFor(s, ev, verdict, now))
      ensures api.bus.queue == EnqueuedAll(old(api.bus.queue), api.bus.capacity,
                                           RunEvents(old(api.store.d), discovery.engine, StepsFor(s, ev, verdict, now)))
      ensures Measure(api.bus.queue) <= Measure(old(api.bus.queue)) + Yield(s)
      ensures manager.sent == old(manager.sent) +
        if s.Notifications? then Sent(manager.minSeverity, manager.channels, [ev]) else []
    {
      hide Next, HandlePlan, Control.PublishFinding, Measure, EnqueuedAll, Inv, IsRun, RunFrom, RunEvents;
      ghost var d, queue := api.store.d, api.bus.queue;
      verdict := None;
      EmptyRun(d, discovery.engine);
      NothingQueued(queue, api.bus.capacity);
      match s
      case Discovery =>
        if ev.payload.Observed? {
          InvKeys(d);
          verdict := discovery.Handle(api, ev.payload.plan, now);
          ghost var step := Handled(ev.payload.plan, verdict, now);
          OneStep(d, discovery.engine, step);
          OneStepEvents(d, discovery.engine, step);
          NextHandled(d, discovery.engine, ev.payload.plan, verdict, now);
          PlanMeasure(d, discovery.engine, ev.payload.plan, verdict, now);
          EnqueuedMeasure(queue, api.bus.capacity, HandlePlan(d, discovery.engine, ev.payload.plan, verdict, now).1);
        }
      case HoneyNodes =>
        if ev.payload.HoneyAccess? {
          OtherModulesOwnNothing(HONEYNODES, [ev.payload.honeyId, ev.payload.sourceIp, TimeText(now / 1_000_000_000)]);
          PublishOther(HONEYNODES, HoneyFinding(ev, now), now);
        }
      case SelfHealing =>
        if ev.payload.WorkflowError? {
          OtherModulesOwnNothing(SELF_HEALING, [ev.payload.instanceId, ev.payload.workflowId, ev.payload.node]);
          PublishOther(SELF_HEALING, ErrorFinding(ev), now);
        }
      case Autodoc =>
      case Notifications =>
        SentOne(manager.minSeverity, manager.channels, ev);
        if ev.payload.FindingPayload? {
          manager.Notify(ev.payload.finding);
        }
    }

    method PublishOther(source: string, f: Finding, now: Time)
      requires source == HONEYNODES || source == SELF_HEALING
      requires f.status == Blank && FindingOwner(f.id).None?
      modifies api.store`d, api.store`dirty, api.bus`queue
      ensures IsRun(old(api.store.d), discovery.engine, [OtherFinding(source, f, now)])
      ensures api.store.d == RunFrom(old(api.store.d), discovery.engine, [OtherFinding(source, f, now)])
      ensures api.bus.queue == EnqueuedAll(old(api.bus.queue), api.bus.capacity,
                                           RunEvents(old(api.store.d), discovery.engine,
                                                     [OtherFinding(source, f, now)]))
      ensures Measure(api.bus.queue) <= Measure(old(api.bus.queue)) + 1
    {
      hide Next, Control.PublishFinding, Measure, EnqueuedAll, FindingOwner, IsRun, RunFrom, RunEvents;
      ghost var d, queue := api.store.d, api.bus.queue;
      api.PublishFinding(source, f, now);
      OneStep(d, discovery.engine, OtherFinding(source, f, now));
      OneStepEvents(d, discovery.engine, OtherFinding(source, f, now));
      NextOther(d, discovery.engine, source, f, now);
      PublishMeasure(d, source, f, now);
      EnqueuedMeasure(queue, api.bus.capacity, Control.PublishFinding(d, source, f, now).1);
    }

    /** One turn of the loop: the head of the queue goes to every matching subscription, in
        order. Its steps are the reaction to that event, what they publish joins the queue, and
        the measure of the queue falls. */
    method Dispatch(now: Time) returns (ghost turn: Turn)
      requires api.bus.subs == DefaultSubs() && api.bus.queue != [] && Inv(api.store.d)
      modifies api.store`d, api.store`dirty, api.bus`queue, manager`sent
      ensures turn.ev == old(api.bus.queue)[0] && turn.now == now
      ensures IsRun(old(api.store.d), discovery.engine, TurnSteps(turn))
      ensures api.store.d == RunFrom(old(api.store.d), discovery.engine, TurnSteps(turn))
      ensures api.bus.queue == EnqueuedAll(old(api.bus.queue)[1..], api.bus.capacity,
                                           RunEvents(old(api.store.d), discovery.engine, TurnSteps(turn)))
      ensures Inv(api.store.d)
      ensures Measure(api.bus.queue) < Measure(old(api.bus.queue))
      ensures manager.sent == old(manager.sent) + Notified(manager, turn.ev)
    {
      hide Inv, Next, Enabled, IsRun, RunFrom, RunEvents, Weight, Match, Sent, StepsFor, Reaction, EnqueuedAll;
      var event := api.bus.queue[0];
      ghost var d, e, sent, capacity := api.store.d, discovery.engine, manager.sent, api.bus.capacity;
      api.bus.queue := api.bus.queue[1..];
      var subs := api.bus.subs;
      ghost var queue := api.bus.queue;
      ghost var verdict: Option<WhitelistRule> := None;
      ghost var steps := [];
      EmptyRun(d, e);
      EmptyReaction(event, None, now);
      NothingQueued(queue, capacity);
      OneReceiver(event.eventType);
      ghost var rest := Measure(api.bus.queue);
      assert subs[0..] == subs && subs[..0] == [];
      for i := 0 to |subs|
        invariant Inv(api.store.d)
        invariant steps == Reaction(subs[..i], event, verdict, now) && (i == 0 ==> steps == [])
        invariant IsRun(d, e, steps) && api.store.d == RunFrom(d, e, steps)
        invariant api.bus.queue == EnqueuedAll(queue, capacity, RunEvents(d, e, steps))
        invariant Measure(api.bus.queue) + YieldSum(subs[i..], event.eventType)
               <= rest + YieldSum(subs, event.eventType)
        invariant i < 5 ==> manager.sent == sent
        invariant i == 5 ==> manager.sent == sent + Notified(manager, event)
      {
        assert subs[i..][1..] == subs[i + 1..];
        assert i == 4 ==> subs[i] == Subscription("finding.*", Notifications);
        assert i < 4 ==> !subs[i].subscriber.Notifications?;
        assert i > 0 ==> subs[i].subscriber != Discovery;
        assert i == 0 ==> subs[..i] == [];
        if Match(subs[i].pattern, event.eventType) {
          ghost var v := HandleEvent(subs[i].subscriber, event, now);
          if i == 0 { verdict := v; EmptyReaction(event, v, now); }
          else { OthersNeedNoVerdict(subs[i].subscriber, event, v, verdict, now); }
          ghost var more := StepsFor(subs[i].subscriber, event, v, now);
          RunKeepsInv(RunFrom(d, e, steps), e, more);
          RunAppend(d, e, steps, more);
          RunEventsAppend(d, e, steps, more);
          EnqueuedAppend(queue, capacity, RunEvents(d, e, steps), RunEvents(RunFrom(d, e, steps), e, more));
          ReactionSnoc(subs, i, event, verdict, now);
          steps := steps + more;
        } else {
          ReactionSnoc(subs, i, event, verdict, now);
          assert steps + [] == steps;
        }
      }
      assert subs[5..] == [] && subs[..5] == subs;
      turn := Turn(event, verdict, now);
    }

    /** With no outside publishes the loop empties any queue. Every event that was queued or
        published on the way is dispatched in turn, and its reaction is what happens to the
        store. */
    method RunUntilEmpty(clock: nat -> Time) returns (ghost turns: seq<Turn>)
      requires api.bus.subs == DefaultSubs() && Inv(api.store.d)
      modifies api.store`d, api.store`dirty, api.bus`queue, manager`sent
      ensures IsLoop(old(api.store.d), discovery.engine, api.bus.capacity, old(api.bus.queue), turns)
      ensures LoopAt(old(api.store.d), discovery.engine, api.bus.capacity, old(api.bus.queue), turns)
           == (api.store.d, [])
      ensures api.bus.queue == [] && old(api.bus.queue) <= EventsOf(turns)
      ensures IsRun(old(api.store.d), discovery.engine, StepsOf(turns))
      ensures api.store.d == RunFrom(old(api.store.d), discovery.engine, StepsOf(turns))
      ensures Inv(api.store.d)
      ensures PlansOf(old(api.bus.queue)) <= PlansOf(EventsOf(turns)) == PlansDone(StepsOf(turns))
      ensures forall k :: 0 <= k < |turns| ==> turns[k].now == clock(k)
      ensures manager.sent == old(manager.sent) + Sent(manager.minSeverity, manager.channels, Heard(EventsOf(turns)))
    {
      hide Inv, Next, Enabled, IsRun, RunFrom, RunEvents, Measure, Sent, Notified, Heard, TurnSteps, EnqueuedAll,
           IsLoop, LoopAt, StepsOf, EventsOf;
      ghost var d, e, sent, queue := api.store.d, discovery.engine, manager.sent, api.bus.queue;
      ghost var capacity := api.bus.capacity;
      turns := [];
      NoTurns(d, e, capacity, queue);
      EmptyRun(d, e);
      EmptySent(manager);
      var turn := 0;
      while api.bus.queue != []
        invariant turn == |turns| && Inv(api.store.d)
        invariant IsLoop(d, e, capacity, queue, turns)
        invariant LoopAt(d, e, capacity, queue, turns) == (api.store.d, api.bus.queue)
        invariant IsRun(d, e, StepsOf(turns)) && api.store.d == RunFrom(d, e, StepsOf(turns))
        invariant forall k :: 0 <= k < |turns| ==> turns[k].now == clock(k)
        invariant manager.sent == sent + Sent(manager.minSeverity, manager.channels, Heard(EventsOf(turns)))
        decreases Measure(api.bus.queue)
      {
        ghost var t := Dispatch(clock(turn));
        LoopSnoc(d, e, capacity, queue, turns, t);
        RunAppend(d, e, StepsOf(turns), TurnSteps(t));
        HeardSnoc(manager, EventsOf(turns), t.ev);
        Assoc(sent, Sent(manager.minSeverity, manager.channels, Heard(EventsOf(turns))), Notified(manager, t.ev));
        turns := turns + [t];
        turn := turn + 1;
      }
      FirstComeFirstServed(d, e, capacity, queue, turns);
      assert EventsOf(turns) + [] == EventsOf(turns);
      PlansDoneExactly(turns);
      assert EventsOf(turns) == queue + EventsOf(turns)[|queue|..];
      PlansOfAppend(queue, EventsOf(turns)[|queue|..]);
    }
  }

  lemma EmptyReaction(ev: Event, verdict: Option<WhitelistRule>, now: Time)
    ensures Reaction([], ev, verdict, now) == []
  {
  }

  lemma NoTurns(d: Data, e: Engine, capacity: nat, queue: seq<Event>)
    ensures IsLoop(d, e, capacity, queue, []) && LoopAt(d, e, capacity, queue, []) == (d, queue)
    ensures StepsOf([]) == [] && EventsOf([]) == []
  {
  }

  lemma EmptySent(manager: Manager)
    ensures Sent(manager.minSeverity, manager.channels, Heard([])) == []
  {
  }

  lemma EmptyRun(d: Data, e: Engine)
    ensures IsRun(d, e, []) && RunFrom(d, e, []) == d && RunEvents(d, e, []) == []
  {
  }

  lemma NextHandled(d: Data, e: Engine, plan: Plan, verdict: Option<WhitelistRule>, now: Time)
    ensures Next(d, e, Handled(plan, verdict, now)) == HandlePlan(d, e, plan, verdict, now)
  {
    hide HandlePlan;
  }

  lemma NextOther(d: Data, e: Engine, source: string, f: Finding, now: Time)
    ensures Next(d, e, OtherFinding(source, f, now)) == Control.PublishFinding(d, source, f, now)
  {
    hide Control.PublishFinding;
  }

  lemma SentOne(minSeverity: Severity, channels: nat, ev: Event)
    ensures Sent(minSeverity, channels, [ev]) ==
      if ev.payload.FindingPayload? && Notifies(minSeverity, ev.payload.finding)
      then Deliveries(channels, ev.payload.finding) else []
  {
    assert [ev][1..] == [];
  }
}
