/** The HTTP side: ingest of observation batches, the whitelist and the analyst actions. */
module Server {
  import opened Text
  import opened Model
  import opened State
  import opened Control
  import opened Lifecycle
  import opened EventBus
  import Store

  // ----- Ingest -----

  datatype HostInfo = HostInfo(hostname: string, os: string, kernel: string, ips: seq<string>,
                               labels: Option<map<string, string>>)

  datatype Observation = Observation(id: string, obsType: string, time: Time, data: Payload)

  datatype Batch = Batch(agentId: string, agentVersion: string, host: HostInfo, observations: seq<Observation>)

  datatype IngestState = IngestState(seen: map<string, Time>, queue: seq<Event>, accepted: nat, duplicates: nat)

  function OrNow(t: Time, fallback: Time): Time { if t == ZERO_TIME then fallback else t }

  function EventOf(o: Observation, source: string, hostId: string, now: Time): Event {
    Event(o.id, "observation." + o.obsType, source, hostId, OrNow(o.time, now), o.data)
  }

  predicate WellNamed(o: Observation) { o.id != "" && o.obsType != "" }

  function Accept(s: IngestState, capacity: nat, o: Observation, source: string, hostId: string, now: Time)
    : IngestState
  {
    if !WellNamed(o) then s
    else
      var (isNew, seen) := MarkSeen(s.seen, o.id, now);
      if !isNew then s.(duplicates := s.duplicates + 1)
      else IngestState(seen, Enqueued(s.queue, capacity, EventOf(o, source, hostId, now)), s.accepted + 1, s.duplicates)
  }

  function AcceptAll(s: IngestState, capacity: nat, os: seq<Observation>, source: string, hostId: string, now: Time)
    : IngestState
    decreases os
  {
    if os == [] then s
    else AcceptAll(Accept(s, capacity, os[0], source, hostId, now), capacity, os[1..], source, hostId, now)
  }

  function HostIdOf(b: Batch): string { StableID(["host", b.host.hostname, b.agentId]) }

  function HostRecord(b: Batch, now: Time): Host {
    Host(HostIdOf(b), b.host.hostname, b.host.os, b.host.kernel, b.host.ips, b.host.labels, b.agentId, b.agentVersion,
         ZERO_TIME, now)
  }

  function NamedCount(os: seq<Observation>): nat {
    if os == [] then 0 else (if WellNamed(os[0]) then 1 else 0) + NamedCount(os[1..])
  }

  /** Every observation with an id and a type is counted once, as accepted or duplicate. */
  lemma {:induction false} AllCounted(s: IngestState, capacity: nat, os: seq<Observation>, source: string,
                                      hostId: string, now: Time)
    ensures var t := AcceptAll(s, capacity, os, source, hostId, now);
      t.accepted + t.duplicates == s.accepted + s.duplicates + NamedCount(os)
    decreases os
  {
    if os != [] {
      AllCounted(Accept(s, capacity, os[0], source, hostId, now), capacity, os[1..], source, hostId, now);
    }
  }

  /** No remembered id of `os` is more than 24 hours old. */
  ghost predicate Recent(seen: map<string, Time>, os: seq<Observation>, now: Time) {
    forall i :: 0 <= i < |os| && os[i].id in seen ==> seen[os[i].id] >= now - DAY
  }

  lemma AcceptRemembers(s: IngestState, capacity: nat, o: Observation, source: string, hostId: string, now: Time,
                        k: string)
    requires k in s.seen ==> s.seen[k] >= now - DAY
    ensures var t := Accept(s, capacity, o, source, hostId, now);
      && (k in s.seen || (WellNamed(o) && k == o.id) ==> k in t.seen)
      && (k in t.seen ==> t.seen[k] >= now - DAY)
  {
    if WellNamed(o) && o.id !in s.seen {
      MarkSeenKeeps(s.seen, o.id, now, k);
    }
  }

  /** After a batch every named id of it is remembered, if none was more than 24 hours old. */
  lemma {:induction false} BatchRemembered(s: IngestState, capacity: nat, os: seq<Observation>, source: string,
                                           hostId: string, now: Time, k: string)
    requires k in s.seen ==> s.seen[k] >= now - DAY
    requires k in s.seen || exists i :: 0 <= i < |os| && WellNamed(os[i]) && os[i].id == k
    ensures k in AcceptAll(s, capacity, os, source, hostId, now).seen
    decreases os
  {
    if os != [] {
      var t := Accept(s, capacity, os[0], source, hostId, now);
      AcceptRemembers(s, capacity, os[0], source, hostId, now, k);
      if k !in t.seen {
        var i :| 0 <= i < |os| && WellNamed(os[i]) && os[i].id == k;
        assert i > 0 && os[1..][i - 1] == os[i];
      }
      BatchRemembered(t, capacity, os[1..], source, hostId, now, k);
    }
  }

  lemma {:induction false} AllSeenAcceptsNothing(s: IngestState, capacity: nat, os: seq<Observation>, source: string,
                                                 hostId: string, now: Time)
    requires forall i :: 0 <= i < |os| && WellNamed(os[i]) ==> os[i].id in s.seen
    ensures AcceptAll(s, capacity, os, source, hostId, now) == s.(duplicates := s.duplicates + NamedCount(os))
    decreases os
  {
    if os != [] {
      assert forall i :: 0 <= i < |os[1..]| ==> os[1..][i] == os[i + 1];
      AllSeenAcceptsNothing(Accept(s, capacity, os[0], source, hostId, now), capacity, os[1..], source, hostId, now);
    }
  }

  /** Sending a batch again right after it was ingested accepts nothing and queues nothing. */
  lemma RetryAcceptsNothing(s: IngestState, capacity: nat, os: seq<Observation>, source: string, hostId: string,
                            now: Time, again: Time)
    requires Recent(s.seen, os, now)
    ensures var t := AcceptAll(s, capacity, os, source, hostId, now);
      AcceptAll(t, capacity, os, source, hostId, again) == t.(duplicates := t.duplicates + NamedCount(os))
  {
    hide AcceptAll, NamedCount;
    var t := AcceptAll(s, capacity, os, source, hostId, now);
    forall i | 0 <= i < |os| && WellNamed(os[i]) ensures os[i].id in t.seen {
      BatchRemembered(s, capacity, os, source, hostId, now, os[i].id);
    }
    AllSeenAcceptsNothing(t, capacity, os, source, hostId, again);
  }

  // ----- The server -----

  datatype Reply = Done | BadRequest | NotFound | IngestReply(accepted: nat, duplicates: nat)

  datatype Action = Ack | Resolve | Reopen | OtherAction(name: string)

  ghost predicate ReasonFromRule(d: Data, id: string, reason: string)
    requires id in d.instances
  {
    exists r :: ValidVerdict(d, d.instances[id], Some(r)) && reason == r.reason
  }

  ghost predicate ReasonKnown(d: Data, id: string, reasons: map<string, string>)
    requires id in d.instances
  {
    id in reasons && ReasonFromRule(d, id, reasons[id])
  }

  /** The reasons recorded for newly flagged instances are those of earliest matching rules. */
  ghost predicate ReasonsFromRules(d: Data, reasons: map<string, string>) {
    forall id :: id in d.instances && FlipsOn(d, id) ==> ReasonKnown(d, id, reasons)
  }

  /** The instances and findings after one instance has been visited. */
  ghost function VisitedInstances(d: Data, id: string, reason: string): map<string, Instance>
    requires id in d.instances
  {
    if FlipsOn(d, id) then d.instances[id := d.instances[id].(whitelisted := true, whitelistReason := reason)]
    else if FlipsOff(d, id) then d.instances[id := d.instances[id].(whitelisted := false, whitelistReason := "")]
    else d.instances
  }

  ghost function VisitedFindings(d: Data, id: string, now: Time): map<string, Finding> {
    var fid := FindingId(id);
    if fid !in d.findings then d.findings
    else if FlipsOn(d, id) then d.findings[fid := d.findings[fid].(status := Whitelisted, updatedAt := now)]
    else if FlipsOff(d, id) then d.findings[fid := d.findings[fid].(status := New, updatedAt := now)]
    else d.findings
  }

  class Server {
    const store: Store.Store
    const bus: Bus

    constructor (store: Store.Store, bus: Bus)
      ensures this.store == store && this.bus == bus
    {
      this.store := store;
      this.bus := bus;
    }

    method HandleIngest(b: Batch, now: Time) returns (reply: Reply)
      modifies store`d, store`dirty, bus`queue
      ensures b.agentId == "" || b.host.hostname == "" ==>
        reply == BadRequest && store.d == old(store.d) && bus.queue == old(bus.queue)
      ensures b.agentId != "" && b.host.hostname != "" ==>
        var t := AcceptAll(IngestState(old(store.d).seen, old(bus.queue), 0, 0), bus.capacity, b.observations,
                           b.agentId, HostIdOf(b), now);
        && reply == IngestReply(t.accepted, t.duplicates)
        && store.d == UpsertHost(old(store.d), HostRecord(b, now)).(seen := t.seen)
        && bus.queue == t.queue
    {
      if b.agentId == "" || b.host.hostname == "" {
        return BadRequest;
      }
      hide MarkSeen, HostIdOf;
      var hostId := HostIdOf(b);
      ghost var start := IngestState(store.d.seen, bus.queue, 0, 0);
      ghost var withHost := UpsertHost(store.d, HostRecord(b, now));
      store.UpsertHost(HostRecord(b, now));
      var accepted, duplicates := 0, 0;
      var os := b.observations;
      for i := 0 to |os|
        invariant accepted >= 0 && duplicates >= 0
        invariant store.d == withHost.(seen := store.d.seen)
        invariant AcceptAll(IngestState(store.d.seen, bus.queue, accepted, duplicates), bus.capacity, os[i..],
                            b.agentId, hostId, now)
               == AcceptAll(start, bus.capacity, os, b.agentId, hostId, now)
      {
        var o := os[i];
        assert os[i..][1..] == os[i + 1..];
        if o.id == "" || o.obsType == "" {
          continue;
        }
        var isNew := store.MarkEventSeen(o.id, now);
        if !isNew {
          duplicates := duplicates + 1;
          continue;
        }
        bus.Publish(EventOf(o, b.agentId, hostId, now));
        accepted := accepted + 1;
      }
      assert os[|os|..] == [];
      return IngestReply(accepted, duplicates);
    }

    /** Compares one instance with the rules and corrects its flag and its finding. */
    method Visit(id: string, now: Time) returns (ghost reason: string)
      requires KeysMatch(store.d) && id in store.d.instances
      modifies store`d, store`dirty
      ensures store.d == old(store.d).(instances := VisitedInstances(old(store.d), id, reason),
                                       findings := VisitedFindings(old(store.d), id, now))
      ensures FlipsOn(old(store.d), id) ==> ReasonFromRule(old(store.d), id, reason)
    {
      hide FindingId, Flagged, ValidVerdict;
      ghost var d := store.d;
      var x := store.d.instances[id];
      var host := HostOf(store.d, x.hostId);
      var verdict := store.MatchWhitelist(x, host);
      VerdictSays(d, d, x, verdict);
      reason := "";
      if verdict.Some? && !x.whitelisted {
        reason := verdict.value.reason;
        store.SetInstanceWhitelisted(x.id, true, verdict.value.reason);
        var _ := store.SetFindingStatus(FindingId(x.id), Whitelisted, now);
      } else if verdict.None? && x.whitelisted {
        store.SetInstanceWhitelisted(x.id, false, "");
        var _ := store.SetFindingStatus(FindingId(x.id), New, now);
      }
    }

    /** Re-evaluates all instances against the current rules. */
    method ApplyWhitelist(now: Time) returns (ghost reasons: map<string, string>)
      requires KeysMatch(store.d)
      modifies store`d, store`dirty
      ensures store.d == Control.ApplyWhitelist(old(store.d), reasons, now)
      ensures ReasonsFromRules(old(store.d), reasons)
    {
      hide FindingOwner, FlipsOn, FlipsOff, ReasonFromRule, PartialInstances, PartialFindings, VisitedInstances,
           VisitedFindings, Control.ApplyWhitelist, KeysMatch;
      ghost var was := store.d;
      reasons := map[];
      var rest := store.d.instances.Keys;
      PartialStart(was, now);
      while rest != {}
        invariant rest <= was.instances.Keys
        invariant Partial(was, store.d, reasons, rest, now)
        invariant forall id :: id in was.instances && FlipsOn(was, id) && id !in rest ==> ReasonKnown(was, id, reasons)
        decreases rest
      {
        var id :| id in rest;
        ghost var before := store.d;
        PartialKeys(was, before, reasons, rest, now, id);
        ghost var reason := Visit(id, now);
        if FlipsOn(was, id) { ReasonSame(was, before, id, reason); }
        VisitInstances(was, before, reasons, rest, id, reason);
        VisitFindings(was, before, rest, id, now);
        if FlipsOn(was, id) {
          reasons := reasons[id := reason];
        }
        rest := rest - {id};
      }
      PartialEnd(was, store.d, reasons, now);
    }

    method AddRule(rule: WhitelistRule, now: Time) returns (reply: Reply, ghost step: Option<Step>)
      requires KeysMatch(store.d)
      modifies store`d, store`dirty
      ensures var valid := rule.kind in ["host", "image", "instance", "engine", "identity"] && rule.pattern != "";
        && (reply == if valid then Done else BadRequest)
        && (valid ==> step.Some? && step.value.RuleAdded? && step.value.rule == rule)
        && (!valid ==> step.None? && store.d == old(store.d))
      ensures forall e :: step.Some? ==> store.d == Next(old(store.d), e, step.value).0
    {
      step := None;
      if rule.kind !in ["host", "image", "instance", "engine", "identity"] || rule.pattern == "" {
        return BadRequest, None;
      }
      hide Control.ApplyWhitelist;
      store.AddWhitelistRule(rule);
      ghost var reasons := ApplyWhitelist(now);
      step := Some(RuleAdded(rule, reasons, now));
      reply := Done;
    }

    method DeleteRule(id: string, now: Time) returns (reply: Reply, ghost step: Step)
      requires KeysMatch(store.d)
      modifies store`d, store`dirty
      ensures reply == if id in old(store.d).whitelist then Done else NotFound
      ensures step.RuleDeleted? && step.ruleId == id
      ensures forall e :: store.d == Next(old(store.d), e, step).0
    {
      hide Control.ApplyWhitelist;
      step := RuleDeleted(id, map[], now);
      var ok := store.DeleteWhitelistRule(id);
      if !ok {
        NothingDeleted(store.d.whitelist, id);
        return NotFound, step;
      }
      ghost var reasons := ApplyWhitelist(now);
      step := RuleDeleted(id, reasons, now);
      reply := Done;
    }

    method FindingAction(id: string, action: Action, now: Time) returns (reply: Reply)
      modifies store`d, store`dirty
      ensures var known := !action.OtherAction?;
        && (reply == if !known then BadRequest else if id in old(store.d).findings then Done else NotFound)
        && store.d == if known then SetStatus(old(store.d), id, StatusOf(action), now) else old(store.d)
    {
      if action.OtherAction? {
        return BadRequest;
      }
      var ok := store.SetFindingStatus(id, StatusOf(action), now);
      return if ok then Done else NotFound;
    }
  }

  function StatusOf(action: Action): FindingStatus {
    match action
    case Ack => Acked
    case Resolve => Resolved
    case Reopen => New
    case OtherAction(_) => Blank
  }

  lemma NothingDeleted(m: map<string, WhitelistRule>, id: string)
    ensures id !in m ==> m - {id} == m
  {
  }

  lemma VerdictSays(d: Data, d1: Data, x: Instance, verdict: Option<WhitelistRule>)
    requires d1.whitelist == d.whitelist && d1.hosts == d.hosts && ValidVerdict(d1, x, verdict)
    ensures ValidVerdict(d, x, verdict) && (verdict.Some? <==> Flagged(d, x))
  {
    hide RuleMatches;
  }

  ghost predicate PartialInstances(was: Data, m: map<string, Instance>, reasons: map<string, string>,
                                   rest: set<string>) {
    && m.Keys == was.instances.Keys
    && forall id :: id in was.instances ==>
         m[id] == if id in rest then was.instances[id] else FlippedInstance(was, reasons, id)
  }

  ghost predicate PartialFindings(was: Data, m: map<string, Finding>, rest: set<string>, now: Time) {
    && m.Keys == was.findings.Keys
    && forall fid :: fid in was.findings ==>
         m[fid] == if FindingOwner(fid).Some? && FindingOwner(fid).value in rest then was.findings[fid]
                   else FlippedFinding(was, fid, now)
  }

  /** The store while the instances in `rest` still have to be visited. */
  ghost predicate Partial(was: Data, d: Data, reasons: map<string, string>, rest: set<string>, now: Time) {
    && d == was.(instances := d.instances, findings := d.findings)
    && PartialInstances(was, d.instances, reasons, rest)
    && PartialFindings(was, d.findings, rest, now)
  }

  lemma PartialStart(was: Data, now: Time)
    ensures Partial(was, was, map[], was.instances.Keys, now)
  {
    hide FindingOwner, Flagged;
  }

  lemma PartialEnd(was: Data, d: Data, reasons: map<string, string>, now: Time)
    requires Partial(was, d, reasons, {}, now)
    ensures d == Control.ApplyWhitelist(was, reasons, now)
  {
    hide FindingOwner, FlippedInstance, FlippedFinding;
    var e := Control.ApplyWhitelist(was, reasons, now);
    assert d.instances == e.instances;
    assert d.findings == e.findings;
  }

  /** An instance still to be visited is as it was, and so is what the rules say of it. */
  lemma PartialKeys(was: Data, d: Data, reasons: map<string, string>, rest: set<string>, now: Time, id: string)
    requires KeysMatch(was) && Partial(was, d, reasons, rest, now) && id in rest && rest <= was.instances.Keys
    ensures KeysMatch(d) && id in d.instances && d.instances[id] == was.instances[id]
    ensures FlipsOn(d, id) <==> FlipsOn(was, id)
    ensures FlipsOff(d, id) <==> FlipsOff(was, id)
  {
    hide FindingOwner, Flagged;
    FlaggedSame(was, d, d.instances[id], d.instances[id]);
  }

  lemma ReasonSame(was: Data, d: Data, id: string, reason: string)
    requires d == was.(instances := d.instances, findings := d.findings)
    requires id in d.instances && id in was.instances && d.instances[id] == was.instances[id]
    requires ReasonFromRule(d, id, reason)
    ensures ReasonFromRule(was, id, reason)
  {
    hide RuleMatches;
  }

  lemma VisitInstances(was: Data, before: Data, said: map<string, string>, rest: set<string>, id: string,
                       reason: string)
    requires id in rest && id in was.instances && id in before.instances
    requires PartialInstances(was, before.instances, said, rest)
    requires FlipsOn(before, id) <==> FlipsOn(was, id)
    requires FlipsOff(before, id) <==> FlipsOff(was, id)
    ensures PartialInstances(was, VisitedInstances(before, id, reason),
                             if FlipsOn(was, id) then said[id := reason] else said, rest - {id})
  {
    hide FlipsOn, FlipsOff;
  }

  lemma VisitFindings(was: Data, before: Data, rest: set<string>, id: string, now: Time)
    requires id in rest && PartialFindings(was, before.findings, rest, now)
    requires FlipsOn(before, id) <==> FlipsOn(was, id)
    requires FlipsOff(before, id) <==> FlipsOff(was, id)
    ensures PartialFindings(was, VisitedFindings(before, id, now), rest - {id}, now)
  {
    OwnerOfFinding(id);
    forall fid | fid in was.findings && FindingOwner(fid) == Some(id) ensures fid == FindingId(id) {
      FindingOfOwner(fid);
    }
    hide FlipsOn, FlipsOff, FindingId, FindingOwner;
  }
}
