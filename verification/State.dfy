/** The contents of the store as a value, and each store mutation as a function on it. */
module State {
  import opened Text
  import opened Sorting
  import opened Model
  import opened Merge

  datatype Data = Data(
    hosts: map<string, Host>, instances: map<string, Instance>, workflows: map<string, Workflow>,
    creds: map<string, CredentialRef>, reach: map<string, Reachability>, findings: map<string, Finding>,
    whitelist: map<string, WhitelistRule>, seen: map<string, Time>)

  function NewData(): Data {
    Data(map[], map[], map[], map[], map[], map[], map[], map[])
  }

  // ----- Deduplication of events -----

  const DEDUP_LIMIT: nat := 200000

  function Pruned(seen: map<string, Time>, cutoff: Time): map<string, Time> {
    map k | k in seen && seen[k] >= cutoff :: seen[k]
  }

  /** Whether the id is new, and the ids remembered afterwards. */
  function MarkSeen(seen: map<string, Time>, id: string, at: Time): (bool, map<string, Time>) {
    if id in seen then (false, seen)
    else
      var marked := seen[id := at];
      (true, if |marked| > DEDUP_LIMIT then Pruned(marked, at - DAY) else marked)
  }

  /** Pruning forgets exactly the ids more than 24 hours older than the new mark, and only
      when there are more than 200000. */
  lemma MarkSeenKeeps(seen: map<string, Time>, id: string, at: Time, k: string)
    requires id !in seen
    ensures MarkSeen(seen, id, at).0 && id in MarkSeen(seen, id, at).1 && MarkSeen(seen, id, at).1[id] == at
    ensures k in seen ==>
      (k in MarkSeen(seen, id, at).1 <==> |seen| < DEDUP_LIMIT || seen[k] >= at - DAY)
    ensures k in MarkSeen(seen, id, at).1 && k != id ==> k in seen && MarkSeen(seen, id, at).1[k] == seen[k]
  {
    assert seen[id := at].Keys == seen.Keys + {id};
    assert |seen[id := at]| == |seen| + 1;
  }

  // ----- Hosts and instances -----

  function UpsertHost(d: Data, h: Host): Data {
    var stored :=
      if h.id in d.hosts then
        var old_ := d.hosts[h.id];
        h.(firstSeen := old_.firstSeen, id := old_.id, labels := if h.labels.Some? then h.labels else old_.labels)
      else if h.firstSeen == ZERO_TIME then h.(firstSeen := h.lastSeen) else h;
    d.(hosts := d.hosts[h.id := stored])
  }

  function UpsertInstance(d: Data, x: Instance): Data {
    d.(instances := d.instances[x.id := if x.id in d.instances then Merged(d.instances[x.id], x) else Created(x)])
  }

  function SetWhitelisted(d: Data, id: string, flag: bool, reason: string): Data {
    if id in d.instances then
      d.(instances := d.instances[id := d.instances[id].(whitelisted := flag, whitelistReason := reason)])
    else d
  }

  function HostOf(d: Data, hostId: string): Option<Host> {
    if hostId in d.hosts then Some(d.hosts[hostId]) else None
  }

  // ----- Findings -----

  /** The status that a stored finding gets when `f` is stored over it: a whitelisted status
      on either side makes way for the new one, any other stays. */
  function StatusAfter(d: Data, f: Finding): FindingStatus {
    if f.id !in d.findings then (if f.status == Blank then New else f.status)
    else if f.status == Whitelisted || d.findings[f.id].status == Whitelisted then f.status
    else d.findings[f.id].status
  }

  function FindingAfter(d: Data, f: Finding): Finding {
    if f.id !in d.findings then
      f.(createdAt := if f.createdAt == ZERO_TIME then f.updatedAt else f.createdAt, status := StatusAfter(d, f))
    else
      d.findings[f.id].(score := f.score, severity := f.severity, title := f.title, factors := f.factors,
                        updatedAt := f.updatedAt, status := StatusAfter(d, f))
  }

  /** The new store, and whether the finding is new or its severity changed while neither
      the old nor the new status is whitelisted. */
  function UpsertFinding(d: Data, f: Finding): (Data, bool) {
    (d.(findings := d.findings[f.id := FindingAfter(d, f)]),
     f.id !in d.findings
     || (f.status != Whitelisted && d.findings[f.id].status != Whitelisted && d.findings[f.id].severity != f.severity))
  }

  function SetStatus(d: Data, id: string, status: FindingStatus, now: Time): Data {
    if id in d.findings then
      d.(findings := d.findings[id := d.findings[id].(status := status, updatedAt := now)])
    else d
  }

  // ----- Workflows, credentials and edges -----

  function WorkflowTable(ws: seq<Workflow>): map<string, Workflow> {
    if ws == [] then map[] else map[ws[0].id := ws[0]] + WorkflowTable(ws[1..])
  }

  function CredTable(cs: seq<CredentialRef>): map<string, CredentialRef> {
    if cs == [] then map[] else map[cs[0].id := cs[0]] + CredTable(cs[1..])
  }

  /** An edge without a target system is not stored. */
  function EdgeTable(rs: seq<Reachability>): map<string, Reachability> {
    if rs == [] then map[]
    else if rs[0].targetSystem == "" then EdgeTable(rs[1..])
    else map[rs[0].id := rs[0]] + EdgeTable(rs[1..])
  }

  /** The elements of a set in increasing order. */
  ghost function SortedKeys(s: set<string>): seq<string> {
    if s == {} then [] else var k :| k in s; Insert(StrLess, k, SortedKeys(s - {k}))
  }

  lemma {:induction false} SortedKeysIs(s: set<string>)
    ensures Increasing(StrLess, SortedKeys(s))
    ensures forall k :: k in SortedKeys(s) <==> k in s
  {
    if s != {} {
      var k :| k in s && SortedKeys(s) == Insert(StrLess, k, SortedKeys(s - {k}));
      SortedKeysIs(s - {k});
      StrLessTotal();
      InsertIncreasing(StrLess, k, SortedKeys(s - {k}));
    }
  }

  /** Sorting any listing of a set without repetitions gives the same sequence. */
  lemma SortedListing(s: set<string>, listing: seq<string>)
    requires Distinct(listing) && forall k :: k in listing <==> k in s
    ensures Sort(StrLess, listing) == SortedKeys(s)
  {
    SortedKeysIs(s);
    StrLessTotal();
    SortIncreasing(StrLess, listing);
    IncreasingUnique(StrLess, Sort(StrLess, listing), SortedKeys(s));
  }

  ghost function EdgesOf(d: Data, id: string): seq<Reachability> {
    var keys := set k | k in d.reach && d.reach[k].instanceId == id;
    SortedKeysIs(keys);
    Rows(d.reach, SortedKeys(keys))
  }

  ghost function CredsOf(d: Data, id: string): seq<CredentialRef> {
    var keys := set k | k in d.creds && d.creds[k].instanceId == id;
    SortedKeysIs(keys);
    Rows(d.creds, SortedKeys(keys))
  }

  ghost function WorkflowsOf(d: Data, id: string): seq<Workflow> {
    var keys := set k | k in d.workflows && d.workflows[k].instanceId == id;
    SortedKeysIs(keys);
    Rows(d.workflows, SortedKeys(keys))
  }

  function Rows<V>(m: map<string, V>, keys: seq<string>): seq<V>
    requires forall k :: k in keys ==> k in m
  {
    seq(|keys|, i requires 0 <= i < |keys| => m[keys[i]])
  }
}
