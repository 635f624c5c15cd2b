/** The store object: maps updated in place under a dirty flag, with a snapshot file that
    is replaced atomically. */
module Store {
  import opened Text
  import opened Sorting
  import opened Model
  import opened Glob
  import opened Merge
  import opened State
  import opened Control

  /** Where a flush can fail: serializing, writing the temporary file, or renaming it. */
  datatype FlushFault = NoFault | MarshalFails | WriteFails | RenameFails

  function RulesByTime(rules: seq<WhitelistRule>, r: WhitelistRule): seq<WhitelistRule> {
    if rules == [] || r.createdAt <= rules[0].createdAt then [r] + rules else [rules[0]] + RulesByTime(rules[1..], r)
  }

  ghost predicate ByTime(rules: seq<WhitelistRule>) {
    forall i, j :: 0 <= i < j < |rules| ==> rules[i].createdAt <= rules[j].createdAt
  }

  lemma {:induction false} RulesByTimeIs(rules: seq<WhitelistRule>, r: WhitelistRule)
    requires ByTime(rules)
    ensures ByTime(RulesByTime(rules, r))
    ensures forall x :: x in RulesByTime(rules, r) <==> x == r || x in rules
  {
    if rules != [] && r.createdAt > rules[0].createdAt {
      RulesByTimeIs(rules[1..], r);
      var t := RulesByTime(rules[1..], r);
      assert rules == [rules[0]] + rules[1..];
      assert forall i :: 0 <= i < |t| ==> t[i] in t;
    }
  }

  method ListKeys(keys: set<string>) returns (listing: seq<string>)
    ensures listing == SortedKeys(keys)
  {
    var rest := keys;
    listing := [];
    while rest != {}
      invariant rest <= keys
      invariant Distinct(listing)
      invariant forall k :: k in listing <==> k in keys && k !in rest
      decreases rest
    {
      var k :| k in rest;
      listing := listing + [k];
      rest := rest - {k};
    }
    SortedListing(keys, listing);
    listing := Sort(StrLess, listing);
  }

  /** The merge of UpsertInstance, field by field. */
  method MergeInstance(e: Instance, x: Instance) returns (m: Instance)
    ensures m == Merged(e, x)
  {
    var ports := UnionIntsLoop(e.ports, x.ports);
    var publicPorts := UnionIntsLoop(e.publicPorts, x.publicPorts);
    var secretEnvKeys := UnionStrsLoop(e.secretEnvKeys, x.secretEnvKeys);
    var detectedBy := UnionStrsLoop(e.detectedBy, x.detectedBy);
    hide UnionInts, UnionStrs, MaxExposure;
    var exposure := e.exposure;
    if x.exposure != UnknownExposure && x.exposure != NoExposure {
      exposure := MaxExposure(e.exposure, x.exposure);
    }
    var confidence := e.confidence;
    if x.confidence > e.confidence {
      confidence := x.confidence;
    }
    m := e.(lastSeen := x.lastSeen,
            version := OrElse(x.version, e.version), status := OrElse(x.status, e.status), exposure := exposure,
            dbType := OrElse(x.dbType, e.dbType), queueMode := x.queueMode || e.queueMode,
            owner := OrElse(x.owner, e.owner), image := OrElse(x.image, e.image),
            runMode := OrElse(x.runMode, e.runMode),
            ports := ports, publicPorts := publicPorts, secretEnvKeys := secretEnvKeys, detectedBy := detectedBy,
            confidence := confidence);
  }

  class Store {
    var d: Data
    var dirty: bool
    /** False for a store without a directory. */
    const durable: bool
    /** The contents of state.json. */
    var disk: Option<Data>

    constructor Open(durable: bool, disk: Option<Data>)
      ensures this.durable == durable && this.disk == disk && !dirty
      ensures d == if durable && disk.Some? then disk.value else NewData()
    {
      this.durable := durable;
      this.disk := disk;
      dirty := false;
      d := if durable && disk.Some? then disk.value else NewData();
    }

    /** The snapshot file and the flag change together or not at all. */
    method Flush(fault: FlushFault) returns (ok: bool)
      modifies this`dirty, this`disk
      ensures ok <==> !durable || !old(dirty) || fault.NoFault?
      ensures durable && ok && old(dirty) ==> disk == Some(d) && !dirty
      ensures !(durable && ok && old(dirty)) ==> disk == old(disk) && dirty == old(dirty)
    {
      if !durable || !dirty {
        return true;
      }
      if fault != NoFault {
        return false;
      }
      disk := Some(d);
      dirty := false;
      return true;
    }

    method MarkEventSeen(id: string, at: Time) returns (isNew: bool)
      modifies this`d, this`dirty
      ensures (isNew, d.seen) == MarkSeen(old(d).seen, id, at)
      ensures d == old(d).(seen := d.seen)
      ensures dirty == (old(dirty) || isNew)
    {
      if id in d.seen {
        return false;
      }
      d := d.(seen := d.seen[id := at]);
      dirty := true;
      if |d.seen| > DEDUP_LIMIT {
        var cutoff := at - DAY;
        ghost var all := d;
        var rest := d.seen.Keys;
        while rest != {}
          invariant rest <= all.seen.Keys
          invariant d == all.(seen := d.seen) && dirty
          invariant d.seen == map k | k in all.seen && (k in rest || all.seen[k] >= cutoff) :: all.seen[k]
          decreases rest
        {
          var k :| k in rest;
          if d.seen[k] < cutoff {
            d := d.(seen := d.seen - {k});
          }
          rest := rest - {k};
        }
        assert d.seen == Pruned(all.seen, cutoff);
      }
      return true;
    }

    method UpsertHost(h: Host)
      modifies this`d, this`dirty
      ensures d == State.UpsertHost(old(d), h) && dirty
    {
      if h.id in d.hosts {
        var existing := d.hosts[h.id];
        existing := existing.(hostname := h.hostname, os := h.os, kernel := h.kernel, ips := h.ips,
                              agentId := h.agentId, agentVersion := h.agentVersion, lastSeen := h.lastSeen);
        if h.labels.Some? {
          existing := existing.(labels := h.labels);
        }
        ghost var was := d;
        d := d.(hosts := d.hosts[h.id := existing]);
        dirty := true;
        assert was.hosts[h.id].id == existing.id;
        HostFields(h, was.hosts[h.id], existing);
        return;
      }
      var cp := h;
      if h.firstSeen == ZERO_TIME {
        cp := h.(firstSeen := h.lastSeen);
      }
      d := d.(hosts := d.hosts[h.id := cp]);
      dirty := true;
    }

    method UpsertInstance(x: Instance) returns (merged: Instance, created: bool)
      modifies this`d, this`dirty
      ensures d == State.UpsertInstance(old(d), x) && dirty
      ensures created <==> x.id !in old(d).instances
      ensures merged == d.instances[x.id]
    {
      hide Merged;
      if x.id !in d.instances {
        var cp := x;
        if x.firstSeen == ZERO_TIME {
          cp := x.(firstSeen := x.lastSeen);
        }
        d := d.(instances := d.instances[x.id := cp]);
        dirty := true;
        return cp, true;
      }
      var existing := d.instances[x.id];
      existing := MergeInstance(existing, x);
      d := d.(instances := d.instances[x.id := existing]);
      dirty := true;
      return existing, false;
    }

    method SetInstanceWhitelisted(id: string, flag: bool, reason: string)
      modifies this`d, this`dirty
      ensures d == SetWhitelisted(old(d), id, flag, reason)
      ensures dirty == (old(dirty) || id in old(d).instances)
    {
      if id in d.instances {
        d := d.(instances := d.instances[id := d.instances[id].(whitelisted := flag, whitelistReason := reason)]);
        dirty := true;
      }
    }

    method UpsertWorkflow(w: Workflow)
      modifies this`d, this`dirty
      ensures d == old(d).(workflows := old(d).workflows[w.id := w]) && dirty
    {
      d := d.(workflows := d.workflows[w.id := w]);
      dirty := true;
    }

    method UpsertCredentialRef(c: CredentialRef)
      modifies this`d, this`dirty
      ensures d == old(d).(creds := old(d).creds[c.id := c]) && dirty
    {
      d := d.(creds := d.creds[c.id := c]);
      dirty := true;
    }

    method UpsertReachability(r: Reachability)
      modifies this`d, this`dirty
      ensures d == old(d).(reach := old(d).reach[r.id := r]) && dirty
    {
      d := d.(reach := d.reach[r.id := r]);
      dirty := true;
    }

    method ReachabilityByInstance(id: string) returns (out: seq<Reachability>)
      ensures out == EdgesOf(d, id)
    {
      var keys := set k | k in d.reach && d.reach[k].instanceId == id;
      var listing := ListKeys(keys);
      SortedKeysIs(keys);
      out := Rows(d.reach, listing);
    }

    method CredentialRefsByInstance(id: string) returns (out: seq<CredentialRef>)
      ensures out == CredsOf(d, id)
    {
      var keys := set k | k in d.creds && d.creds[k].instanceId == id;
      var listing := ListKeys(keys);
      SortedKeysIs(keys);
      out := Rows(d.creds, listing);
    }

    method WorkflowsByInstance(id: string) returns (out: seq<Workflow>)
      ensures out == WorkflowsOf(d, id)
    {
      var keys := set k | k in d.workflows && d.workflows[k].instanceId == id;
      var listing := ListKeys(keys);
      SortedKeysIs(keys);
      out := Rows(d.workflows, listing);
    }

    method UpsertFinding(f: Finding) returns (stored: Finding, changed: bool)
      modifies this`d, this`dirty
      ensures (d, changed) == State.UpsertFinding(old(d), f) && dirty
      ensures stored == d.findings[f.id]
    {
      if f.id !in d.findings {
        var cp := f;
        if f.createdAt == ZERO_TIME { cp := cp.(createdAt := f.updatedAt); }
        if f.status == Blank { cp := cp.(status := New); }
        d := d.(findings := d.findings[f.id := cp]);
        dirty := true;
        return cp, true;
      }
      var existing := d.findings[f.id];
      changed := existing.severity != f.severity;
      existing := existing.(score := f.score, severity := f.severity, title := f.title, factors := f.factors,
                            updatedAt := f.updatedAt);
      if f.status == Whitelisted || existing.status == Whitelisted {
        existing := existing.(status := f.status);
        changed := false;
      }
      d := d.(findings := d.findings[f.id := existing]);
      dirty := true;
      return existing, changed;
    }

    method SetFindingStatus(id: string, status: FindingStatus, now: Time) returns (ok: bool)
      modifies this`d, this`dirty
      ensures ok <==> id in old(d).findings
      ensures d == SetStatus(old(d), id, status, now)
      ensures dirty == (old(dirty) || ok)
    {
      if id !in d.findings {
        return false;
      }
      d := d.(findings := d.findings[id := d.findings[id].(status := status, updatedAt := now)]);
      dirty := true;
      return true;
    }

    method AddWhitelistRule(r: WhitelistRule)
      modifies this`d, this`dirty
      ensures d == old(d).(whitelist := old(d).whitelist[r.id := r]) && dirty
    {
      d := d.(whitelist := d.whitelist[r.id := r]);
      dirty := true;
    }

    method DeleteWhitelistRule(id: string) returns (ok: bool)
      modifies this`d, this`dirty
      ensures ok <==> id in old(d).whitelist
      ensures d == old(d).(whitelist := old(d).whitelist - {id})
      ensures dirty == (old(dirty) || ok)
    {
      if id !in d.whitelist {
        assert d.whitelist - {id} == d.whitelist;
        return false;
      }
      d := d.(whitelist := d.whitelist - {id});
      dirty := true;
      return true;
    }

    method WhitelistRules() returns (out: seq<WhitelistRule>)
      ensures ByTime(out)
      ensures forall r :: r in out <==> exists k :: k in d.whitelist && d.whitelist[k] == r
    {
      out := [];
      var rest := d.whitelist.Keys;
      while rest != {}
        invariant rest <= d.whitelist.Keys
        invariant ByTime(out)
        invariant forall r :: r in out <==> exists k :: k in d.whitelist && k !in rest && d.whitelist[k] == r
        decreases rest
      {
        var k :| k in rest;
        RulesByTimeIs(out, d.whitelist[k]);
        out := RulesByTime(out, d.whitelist[k]);
        rest := rest - {k};
      }
    }

    /** The first matching rule in order of creation. */
    method MatchWhitelist(x: Instance, host: Option<Host>) returns (verdict: Option<WhitelistRule>)
      requires host == HostOf(d, x.hostId)
      ensures ValidVerdict(d, x, verdict)
    {
      var rules := WhitelistRules();
      for i := 0 to |rules|
        invariant forall j :: 0 <= j < i ==> !RuleMatches(rules[j], x, host)
      {
        var r := rules[i];
        var subject := Subject(r.kind, x, host);
        if subject != "" {
          var matched := GlobMatch(r.pattern, subject);
          if matched {
            assert r in rules;
            forall k | k in d.whitelist && RuleMatches(d.whitelist[k], x, host)
              ensures r.createdAt <= d.whitelist[k].createdAt
            {
              assert d.whitelist[k] in rules;
            }
            return Some(r);
          }
        }
      }
      forall k | k in d.whitelist ensures !RuleMatches(d.whitelist[k], x, host) {
        assert d.whitelist[k] in rules;
      }
      return None;
    }
  }

  lemma HostFields(h: Host, old_: Host, stored: Host)
    requires stored == old_.(hostname := h.hostname, os := h.os, kernel := h.kernel, ips := h.ips, agentId := h.agentId,
                             agentVersion := h.agentVersion, lastSeen := h.lastSeen,
                             labels := if h.labels.Some? then h.labels else old_.labels)
    ensures stored == h.(firstSeen := old_.firstSeen, id := old_.id,
                         labels := if h.labels.Some? then h.labels else old_.labels)
  {
  }
}
