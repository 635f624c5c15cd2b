/** What any sequence of upserts of one host, or of one finding, adds up to. */
module Upserts {
  import opened Text
  import opened Model
  import opened State

  // ----- Hosts -----

  function HostsUpserted(d: Data, hs: seq<Host>): Data {
    if hs == [] then d else UpsertHost(HostsUpserted(d, hs[..|hs| - 1]), hs[|hs| - 1])
  }

  /** The labels of the last report that had any. */
  ghost predicate LatestLabels(labels: Option<map<string, string>>, hs: seq<Host>) {
    if labels.None? then forall i :: 0 <= i < |hs| ==> hs[i].labels.None?
    else exists i :: 0 <= i < |hs| && hs[i].labels == labels && forall j :: i < j < |hs| ==> hs[j].labels.None?
  }

  lemma LatestLabelsSnoc(labels: Option<map<string, string>>, hs: seq<Host>, h: Host)
    requires LatestLabels(labels, hs)
    ensures LatestLabels(if h.labels.Some? then h.labels else labels, hs + [h])
  {
    var all := hs + [h];
    if h.labels.Some? {
      assert all[|hs|].labels == h.labels;
    } else if labels.Some? {
      var i :| 0 <= i < |hs| && hs[i].labels == labels && forall j :: i < j < |hs| ==> hs[j].labels.None?;
      assert all[i].labels == labels;
    }
  }

  /** A host is as its last report says, but for its first-seen time, which is that of the first
      one, and its labels. */
  ghost predicate HostSoFar(h: Host, hs: seq<Host>)
    requires hs != []
  {
    var first, last := hs[0], hs[|hs| - 1];
    && h == last.(firstSeen := if first.firstSeen != ZERO_TIME then first.firstSeen else first.lastSeen,
                  labels := h.labels)
    && LatestLabels(h.labels, hs)
  }

  lemma {:induction false} HostsAddUp(d: Data, hs: seq<Host>)
    requires hs != [] && hs[0].id !in d.hosts && forall i :: 0 <= i < |hs| ==> hs[i].id == hs[0].id
    ensures hs[0].id in HostsUpserted(d, hs).hosts && HostSoFar(HostsUpserted(d, hs).hosts[hs[0].id], hs)
  {
    hide LatestLabels;
    var n := |hs| - 1;
    assert hs == hs[..n] + [hs[n]];
    if n == 0 {
      assert HostsUpserted(d, hs[..0]) == d;
      NoLabels();
      LatestLabelsSnoc(None, [], hs[0]);
    } else {
      HostsAddUp(d, hs[..n]);
      LatestLabelsSnoc(HostsUpserted(d, hs[..n]).hosts[hs[0].id].labels, hs[..n], hs[n]);
    }
  }

  lemma NoLabels()
    ensures LatestLabels(None, [])
  {
  }

  // ----- Findings -----

  function FindingsUpserted(d: Data, fs: seq<Finding>): Data {
    if fs == [] then d else UpsertFinding(FindingsUpserted(d, fs[..|fs| - 1]), fs[|fs| - 1]).0
  }

  /** The status left by findings that are blank or whitelisted, as rescores build them: new until
      the whitelist first comes in, whitelisted while it holds, blank once it is gone. */
  ghost predicate StatusSoFar(status: FindingStatus, fs: seq<Finding>)
    requires fs != []
  {
    && (status == Whitelisted <==> fs[|fs| - 1].status == Whitelisted)
    && (status == New <==> forall i :: 0 <= i < |fs| ==> fs[i].status == Blank)
    && status in {New, Blank, Whitelisted}
  }

  /** A finding shows the last score, severity, title, factors and time, and the origin and
      creation time of the first. */
  ghost predicate FindingSoFar(f: Finding, fs: seq<Finding>)
    requires fs != []
  {
    var first, last := fs[0], fs[|fs| - 1];
    && f.score == last.score && f.severity == last.severity && f.title == last.title && f.factors == last.factors
    && f.updatedAt == last.updatedAt
    && f.id == first.id && f.source == first.source && f.instanceId == first.instanceId && f.hostId == first.hostId
    && f.createdAt == (if first.createdAt != ZERO_TIME then first.createdAt else first.updatedAt)
    && ((forall i :: 0 <= i < |fs| ==> fs[i].status in {Blank, Whitelisted}) ==> StatusSoFar(f.status, fs))
  }

  lemma {:induction false} FindingsAddUp(d: Data, fs: seq<Finding>)
    requires fs != [] && fs[0].id !in d.findings && forall i :: 0 <= i < |fs| ==> fs[i].id == fs[0].id
    ensures fs[0].id in FindingsUpserted(d, fs).findings && FindingSoFar(FindingsUpserted(d, fs).findings[fs[0].id], fs)
  {
    var n := |fs| - 1;
    assert fs == fs[..n] + [fs[n]];
    if n == 0 {
      assert FindingsUpserted(d, fs[..0]) == d;
    } else {
      FindingsAddUp(d, fs[..n]);
    }
  }
}
