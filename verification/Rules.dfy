/** Which instances a whitelist rule covers, and what analysts and rescans do to its findings. */
module Rules {
  import opened Text
  import opened Model
  import opened Glob
  import opened Merge
  import opened Risk
  import opened State
  import opened Control
  import opened Lifecycle
  import opened Server

  // ----- The five kinds of rules -----

  /** What is known of an instance under a kind; nothing under any other kind. */
  ghost predicate Has(kind: string, x: Instance, host: Option<Host>, text: string) {
    || (kind == "host" && host.Some? && host.value.hostname == text)
    || (kind == "image" && x.image == text)
    || (kind == "instance" && x.id == text)
    || (kind == "engine" && x.engine == text)
    || (kind == "identity" && x.identity == text)
  }

  lemma SubjectIs(kind: string, x: Instance, host: Option<Host>, text: string)
    requires text != ""
    ensures Subject(kind, x, host) == text <==> Has(kind, x, host, text)
  {
  }

  /** A rule without wildcards covers the instances that have its pattern as host name, image, id,
      engine or identity, by its kind; one with a star at its end those whose text starts with
      what is before the star. */
  lemma RuleCoversExactly(r: WhitelistRule, p: string, x: Instance, host: Option<Host>)
    requires Literal(p)
    ensures RuleMatches(r.(pattern := p), x, host) <==> p != "" && Has(r.kind, x, host, p)
    ensures RuleMatches(r.(pattern := p + "*"), x, host) <==>
      exists rest :: p + rest != "" && Has(r.kind, x, host, p + rest)
  {
    hide Denotes, Literal, Has, Subject;
    var subject := Subject(r.kind, x, host);
    LiteralDenotes(p, subject);
    if subject != "" {
      SubjectIs(r.kind, x, host, subject);
      if p <= subject { assert subject == p + subject[|p|..]; }
    }
    if p != "" { SubjectIs(r.kind, x, host, p); }
    if rest :| p + rest != "" && Has(r.kind, x, host, p + rest) {
      SubjectIs(r.kind, x, host, p + rest);
      assert p <= p + rest;
    }
  }

  /** A rule by host name covers the instances of the stored hosts of that name. */
  lemma HostRuleExactly(d: Data, x: Instance, r: WhitelistRule)
    requires r.kind == "host" && Literal(r.pattern) && r.pattern != ""
    ensures RuleMatches(r, x, HostOf(d, x.hostId)) <==>
      x.hostId in d.hosts && d.hosts[x.hostId].hostname == r.pattern
  {
    hide Denotes, Literal;
    RuleCoversExactly(r, r.pattern, x, HostOf(d, x.hostId));
    assert r.(pattern := r.pattern) == r;
  }

  // ----- Analysts -----

  /** What each action is for: the status that it gives to a finding. */
  ghost predicate Gives(action: Action, status: FindingStatus) {
    match action
    case Ack => status == Acked
    case Resolve => status == Resolved
    case Reopen => status == New
    case OtherAction(_) => false
  }

  /** An action sets the status and time of one finding and nothing else. The next rescan keeps the
      status, unless the instance is on the whitelist: then the finding is whitelisted again. */
  lemma ActionThenRescan(d: Data, e: Engine, id: string, action: Action, now: Time, later: Time)
    requires Inv(d) && id in d.instances && FindingId(id) in d.findings && !action.OtherAction?
    ensures var d1 := SetStatus(d, FindingId(id), StatusOf(action), now);
      && Gives(action, d1.findings[FindingId(id)].status)
      && d1.findings[FindingId(id)] == d.findings[FindingId(id)].(status := StatusOf(action), updatedAt := now)
      && d1 == d.(findings := d.findings[FindingId(id) := d1.findings[FindingId(id)]])
      && (var after := Rescore(d1, e, id, later).0;
          && FindingId(id) in after.findings
          && (d.instances[id].whitelisted ==> after.findings[FindingId(id)].status == Whitelisted)
          && (!d.instances[id].whitelisted ==> Gives(action, after.findings[FindingId(id)].status)))
  {
    hide FindingId, FindingFor, PublishFinding;
    var d1 := SetStatus(d, FindingId(id), StatusOf(action), now);
    assert KeysMatch(d1);
    var f := FindingFor(d1, e, d1.instances[id]);
    PublishStores(d1, DISCOVERY, f, later, FindingId(id));
    RescoreBuilds(d1, e, id);
  }

  lemma RescoreBuilds(d: Data, e: Engine, id: string)
    requires KeysMatch(d) && id in d.instances
    ensures var f := FindingFor(d, e, d.instances[id]);
      f.id == FindingId(id) && f.status == if d.instances[id].whitelisted then Whitelisted else Blank
  {
    hide ScoreOf, SortFactors, EdgesOf, CredsOf, WorkflowsOf, FindingId;
  }
}
