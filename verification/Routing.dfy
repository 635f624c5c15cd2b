/** From an ingested batch to the handlers, and the findings of the smaller modules. */
module Routing {
  import opened Text
  import opened Model
  import opened State
  import opened Risk
  import opened Control
  import opened EventBus
  import opened Notify
  import opened Modules
  import opened Dispatch
  import opened Server

  // ----- From a batch to the bus -----

  predicate Named(o: Observation) { o.id != "" && o.obsType != "" }

  ghost predicate StandsFor(ev: Event, o: Observation, agentId: string, hostId: string, now: Time) {
    && ev.id == o.id && ev.payload == o.data && ev.source == agentId && ev.hostId == hostId
    && ev.time == (if o.time == ZERO_TIME then now else o.time)
    && "observation." <= ev.eventType && ev.eventType[12..] == o.obsType
  }

  /** An observation with id and type whose id is not remembered and not carried by an earlier one. */
  ghost predicate Fresh(seen: map<string, Time>, os: seq<Observation>, i: nat)
    requires i < |os|
  {
    Named(os[i]) && os[i].id !in seen && forall j :: 0 <= j < i ==> os[j].id != os[i].id
  }

  lemma AcceptGrows(s: IngestState, capacity: nat, o: Observation, agentId: string, hostId: string, now: Time)
    ensures var t := Accept(s, capacity, o, agentId, hostId, now);
      && s.queue <= t.queue && |t.queue| <= |s.queue| + 1
      && (forall k :: k in t.seen ==> k in s.seen || k == o.id)
      && (|t.queue| > |s.queue| ==> Named(o) && StandsFor(t.queue[|s.queue|], o, agentId, hostId, now))
      && (Named(o) && o.id !in s.seen && |s.queue| < capacity ==> |t.queue| > |s.queue|)
  {
  }

  /** Every event that a batch adds to the bus stands for one of its named observations. */
  lemma {:induction false} QueuedStandsFor(s: IngestState, capacity: nat, os: seq<Observation>, agentId: string,
                                           hostId: string, now: Time)
    ensures var t := AcceptAll(s, capacity, os, agentId, hostId, now);
      && s.queue <= t.queue
      && forall k :: |s.queue| <= k < |t.queue| ==>
           exists i :: 0 <= i < |os| && Named(os[i]) && StandsFor(t.queue[k], os[i], agentId, hostId, now)
    decreases os
  {
    hide Accept, StandsFor, Named;
    if os != [] {
      var s1 := Accept(s, capacity, os[0], agentId, hostId, now);
      var t := AcceptAll(s, capacity, os, agentId, hostId, now);
      AcceptGrows(s, capacity, os[0], agentId, hostId, now);
      QueuedStandsFor(s1, capacity, os[1..], agentId, hostId, now);
      forall k | |s.queue| <= k < |t.queue|
        ensures exists i :: 0 <= i < |os| && Named(os[i]) && StandsFor(t.queue[k], os[i], agentId, hostId, now)
      {
        if k < |s1.queue| {
          assert t.queue[k] == s1.queue[|s.queue|];
        } else {
          var i :| 0 <= i < |os[1..]| && Named(os[1..][i])
                   && StandsFor(t.queue[k], os[1..][i], agentId, hostId, now);
          assert os[i + 1] == os[1..][i];
        }
      }
    }
  }

  /** With room on the bus, every fresh observation of a batch is on it afterwards. */
  lemma {:induction false} FreshIsQueued(s: IngestState, capacity: nat, os: seq<Observation>, agentId: string,
                                         hostId: string, now: Time, i: nat) returns (k: nat)
    requires i < |os| && Fresh(s.seen, os, i) && |s.queue| + |os| <= capacity
    ensures var t := AcceptAll(s, capacity, os, agentId, hostId, now);
      |s.queue| <= k < |t.queue| && StandsFor(t.queue[k], os[i], agentId, hostId, now)
    decreases os
  {
    hide Accept, StandsFor, Named;
    var s1 := Accept(s, capacity, os[0], agentId, hostId, now);
    AcceptGrows(s, capacity, os[0], agentId, hostId, now);
    QueuedStandsFor(s1, capacity, os[1..], agentId, hostId, now);
    if i == 0 {
      k := |s.queue|;
    } else {
      assert os[0].id != os[i].id;
      k := FreshIsQueued(s1, capacity, os[1..], agentId, hostId, now, i - 1);
    }
  }

  /** With room on the bus, what is counted as accepted is what was added to it. */
  lemma {:induction false} AcceptedAreQueued(s: IngestState, capacity: nat, os: seq<Observation>, agentId: string,
                                             hostId: string, now: Time)
    requires |s.queue| + |os| <= capacity
    ensures var t := AcceptAll(s, capacity, os, agentId, hostId, now);
      t.accepted + |s.queue| == s.accepted + |t.queue|
    decreases os
  {
    if os != [] {
      AcceptedAreQueued(Accept(s, capacity, os[0], agentId, hostId, now), capacity, os[1..], agentId, hostId, now);
    }
  }

  /** Every fresh observation of a batch that fits on the bus is handled by the time the dispatch
      loop has emptied it. */
  lemma IngestedIsHandled(s: IngestState, capacity: nat, os: seq<Observation>, agentId: string, hostId: string,
                          now: Time, i: nat, d: Data, e: Engine, turns: seq<Turn>)
    requires i < |os| && Fresh(s.seen, os, i) && os[i].data.Observed? && |s.queue| + |os| <= capacity
    requires var queue := AcceptAll(s, capacity, os, agentId, hostId, now).queue;
      IsLoop(d, e, capacity, queue, turns) && LoopAt(d, e, capacity, queue, turns).1 == []
    ensures exists k :: 0 <= k < |StepsOf(turns)| && StepsOf(turns)[k].Handled?
                        && StepsOf(turns)[k].plan == os[i].data.plan
  {
    hide AcceptAll, IsLoop, LoopAt, StepsOf;
    var queue := AcceptAll(s, capacity, os, agentId, hostId, now).queue;
    var j := FreshIsQueued(s, capacity, os, agentId, hostId, now, i);
    assert queue[j].eventType == queue[j].eventType[..12] + queue[j].eventType[12..];
    QueuedAreHandled(d, e, capacity, queue, turns, j, os[i].obsType);
  }

  // ----- The host of a batch -----

  /** The stored host is what the request says of it, first seen when the first request came. */
  lemma IngestedHost(d: Data, b: Batch, now: Time)
    ensures var id := HostIdOf(b);
      var d1 := UpsertHost(d, HostRecord(b, now));
      && id in d1.hosts
      && (var h := d1.hosts[id];
          && h.hostname == b.host.hostname && h.os == b.host.os && h.kernel == b.host.kernel && h.ips == b.host.ips
          && h.agentId == b.agentId && h.agentVersion == b.agentVersion && h.lastSeen == now
          && h.firstSeen == (if id in d.hosts then d.hosts[id].firstSeen else now))
  {
    hide StableID;
  }

  /** Two requests are about one host if and only if host name and agent agree. */
  lemma OneHostPerAgent(a: Batch, b: Batch)
    requires NoNul(a.host.hostname) && NoNul(a.agentId) && NoNul(b.host.hostname) && NoNul(b.agentId)
    ensures HostIdOf(a) == HostIdOf(b) <==> a.host.hostname == b.host.hostname && a.agentId == b.agentId
  {
    hide StableID;
    var p, q := ["host", a.host.hostname, a.agentId], ["host", b.host.hostname, b.agentId];
    if StableID(p) == StableID(q) {
      StableIDInjective(p, q);
      assert p[1] == q[1] && p[2] == q[2];
    }
  }

  // ----- The events that the control plane publishes itself -----

  /** A published finding goes to the notification manager, a new instance to autodoc. */
  lemma PublishedGoTo(f: Finding, source: string, x: Instance, now: Time)
    ensures Receivers(DefaultSubs(), FindingEvent(f, source).eventType) == [Notifications]
    ensures var ev := FindingEvent(f, source);
      ev.payload == FindingPayload(f) && ev.hostId == f.hostId && ev.source == source && ev.time == f.updatedAt
    ensures Receivers(DefaultSubs(), AssetEvent(x, now).eventType) == [Autodoc]
    ensures var ev := AssetEvent(x, now);
      ev.payload == NewInstance(x) && ev.hostId == x.hostId && ev.source == DISCOVERY && ev.time == now
  {
    hide StableID, Receivers;
    var a, b := "finding.created", "asset.instance.created";
    assert a[..8] == "finding.";
    FirstLetters(a);
    FirstLetters(b);
    ReceiversExactly(a);
    ReceiversExactly(b);
  }

  // ----- Honeypots and failing workflows -----

  /** A honeypot access reaches every channel, whatever its threshold; a failing workflow those
      with a threshold of medium or below. */
  lemma AlertsAreSent(minSeverity: Severity, access: Event, failure: Event, now: Time)
    requires access.payload.HoneyAccess? && failure.payload.WorkflowError?
    ensures Notifies(minSeverity, HoneyFinding(access, now))
    ensures Notifies(minSeverity, ErrorFinding(failure)) <==> minSeverity !in {High, Critical}
  {
    hide StableID;
  }

  /** Both findings are about the instance of the payload and the host of the event, wait for the
      analyst, and show the severity that their score has. */
  lemma AlertsSay(access: Event, failure: Event, now: Time)
    requires access.payload.HoneyAccess? && failure.payload.WorkflowError?
    ensures var f := HoneyFinding(access, now);
      && f.instanceId == access.payload.instanceId && f.hostId == access.hostId && f.updatedAt == now
      && f.severity == SeverityFromScore(f.score) == Critical && f.status == Blank
    ensures var f := ErrorFinding(failure);
      && f.instanceId == failure.payload.instanceId && f.hostId == failure.hostId && f.updatedAt == failure.time
      && f.severity == SeverityFromScore(f.score) == Medium && f.status == Blank
  {
    hide StableID;
  }

  lemma {:induction false} DecInjective(a: nat, b: nat)
    ensures Dec(a) == Dec(b) ==> a == b
  {
    ReadDec(a, "");
    ReadDec(b, "");
    assert Dec(a) + "" == Dec(a) && Dec(b) + "" == Dec(b);
  }

  lemma TimeTextInjective(a: Time, b: Time)
    ensures NoNul(TimeText(a))
    ensures TimeText(a) == TimeText(b) ==> a == b
  {
    var m, n := if a >= 0 then a else -a, if b >= 0 then b else -b;
    DecIsDigits(m);
    DecIsDigits(n);
    DecInjective(m, n);
    assert a >= 0 ==> IsDigit(TimeText(a)[0]);
    assert b >= 0 ==> IsDigit(TimeText(b)[0]);
    assert a < 0 ==> TimeText(a)[0] == '-' && TimeText(a)[1..] == Dec(m);
    assert b < 0 ==> TimeText(b)[0] == '-' && TimeText(b)[1..] == Dec(n);
  }

  /** Two accesses give one finding exactly when they are to the same honeypot, from the same
      address, and handled within the same second. */
  lemma OneAlertPerSecond(a: Event, b: Event, now: Time, later: Time)
    requires a.payload.HoneyAccess? && b.payload.HoneyAccess?
    requires NoNul(a.payload.honeyId) && NoNul(a.payload.sourceIp)
    requires NoNul(b.payload.honeyId) && NoNul(b.payload.sourceIp)
    ensures HoneyFinding(a, now).id == HoneyFinding(b, later).id <==>
      && a.payload.honeyId == b.payload.honeyId && a.payload.sourceIp == b.payload.sourceIp
      && now / 1_000_000_000 == later / 1_000_000_000
  {
    hide StableID, TimeText;
    var s, t := now / 1_000_000_000, later / 1_000_000_000;
    TimeTextInjective(s, t);
    TimeTextInjective(t, s);
    var p := ["finding", HONEYNODES] + [a.payload.honeyId, a.payload.sourceIp, TimeText(s)];
    var q := ["finding", HONEYNODES] + [b.payload.honeyId, b.payload.sourceIp, TimeText(t)];
    if StableID(p) == StableID(q) {
      StableIDInjective(p, q);
      assert p[2] == q[2] && p[3] == q[3] && p[4] == q[4];
    }
  }

  /** Failures of the same node of the same workflow of the same instance share one finding. */
  lemma OneFindingPerNode(a: Event, b: Event)
    requires a.payload.WorkflowError? && b.payload.WorkflowError?
    requires NoNul(a.payload.instanceId) && NoNul(a.payload.workflowId) && NoNul(a.payload.node)
    requires NoNul(b.payload.instanceId) && NoNul(b.payload.workflowId) && NoNul(b.payload.node)
    ensures ErrorFinding(a).id == ErrorFinding(b).id <==>
      && a.payload.instanceId == b.payload.instanceId && a.payload.workflowId == b.payload.workflowId
      && a.payload.node == b.payload.node
  {
    hide StableID;
    var p := ["finding", SELF_HEALING] + [a.payload.instanceId, a.payload.workflowId, a.payload.node];
    var q := ["finding", SELF_HEALING] + [b.payload.instanceId, b.payload.workflowId, b.payload.node];
    if StableID(p) == StableID(q) {
      StableIDInjective(p, q);
      assert p[2] == q[2] && p[3] == q[3] && p[4] == q[4];
    }
  }
}
