/** Handlers and API actions that interleave between their store calls: when the finding
    states stay sound, and when the flags agree with the rules. */
module Interleaving {
  import opened Text
  import opened Model
  import opened Merge
  import opened Risk
  import opened State
  import opened Control
  import opened Lifecycle

  // ----- Store calls -----

  /** The store calls of which handlers and API actions consist. The finding that a rescore
      writes back may have been built from any earlier state. */
  datatype FineStep =
    | Stored(inst: Instance)
    | Recorded(workflows: map<string, Workflow>, reach: map<string, Reachability>, creds: map<string, CredentialRef>)
    | Ruled(hosts: map<string, Host>, whitelist: map<string, WhitelistRule>, seen: map<string, Time>)
    | OtherWritten(source: string, finding: Finding, now: Time)
    | WrittenBack(finding: Finding, id: string, now: Time)
    | FlagSet(id: string, flag: bool, reason: string)
    | StatusSet(fid: string, status: FindingStatus, now: Time)

  ghost predicate FineEnabled(d: Data, s: FineStep) {
    match s
    case OtherWritten(_, f, _) => f.status == Blank && FindingOwner(f.id).None?
    case WrittenBack(f, id, _) => Rescored(d, f, id)
    case StatusSet(fid, status, _) =>
      status in {New, Acked, Resolved} || (status == Whitelisted && FindingOwner(fid).Some?)
    case _ => true
  }

  ghost function FineNext(d: Data, s: FineStep): Data {
    match s
    case Stored(x) => UpsertInstance(d, x)
    case Recorded(workflows, reach, creds) => d.(workflows := workflows, reach := reach, creds := creds)
    case Ruled(hosts, whitelist, seen) => d.(hosts := hosts, whitelist := whitelist, seen := seen)
    case OtherWritten(source, f, now) => PublishFinding(d, source, f, now).0
    case WrittenBack(f, _, now) => PublishFinding(d, DISCOVERY, f, now).0
    case FlagSet(id, flag, reason) => SetWhitelisted(d, id, flag, reason)
    case StatusSet(fid, status, now) => SetStatus(d, fid, status, now)
  }

  ghost predicate FineRun(d: Data, steps: seq<FineStep>)
    decreases steps
  {
    steps == [] || (FineEnabled(d, steps[0]) && FineRun(FineNext(d, steps[0]), steps[1..]))
  }

  ghost function FineAfter(d: Data, steps: seq<FineStep>): Data
    decreases steps
  {
    if steps == [] then d else FineAfter(FineNext(d, steps[0]), steps[1..])
  }

  // ----- Finding states -----

  /** Instances whose flag has been removed while the status of their finding is still to be
      reset: the second of the two calls that removing a rule makes. */
  ghost function Owed(d: Data, pending: set<string>, s: FineStep): set<string> {
    match s
    case FlagSet(id, false, _) => if id in d.instances then pending + {id} else pending
    case StatusSet(fid, status, _) =>
      if status != Whitelisted && FindingOwner(fid).Some? then pending - {FindingOwner(fid).value} else pending
    case _ => pending
  }

  ghost function OwedAfter(d: Data, pending: set<string>, steps: seq<FineStep>): set<string>
    decreases steps
  {
    if steps == [] then pending else OwedAfter(FineNext(d, steps[0]), Owed(d, pending, steps[0]), steps[1..])
  }

  ghost predicate OkBut(d: Data, pending: set<string>, fid: string)
    requires fid in d.findings
  {
    var owner := FindingOwner(fid);
    owner.Some? ==> owner.value in d.instances && (owner.value in pending || FindingOk(d, fid))
  }

  /** The invariant of the atomic steps, but for the instances that are pending. */
  ghost predicate SoundBut(d: Data, pending: set<string>) {
    KeysMatch(d) && forall fid :: fid in d.findings ==> OkBut(d, pending, fid)
  }

  /** With nothing pending it is the invariant itself. */
  lemma NothingPending(d: Data)
    ensures SoundBut(d, {}) <==> Inv(d)
  {
    hide FindingOwner;
    if Inv(d) {
      forall fid | fid in d.findings ensures OkBut(d, {}, fid) {
        assert FindingOk(d, fid);
      }
    }
    if SoundBut(d, {}) {
      forall fid | fid in d.findings ensures FindingOk(d, fid) {
        assert OkBut(d, {}, fid);
      }
    }
  }

  /** What a call may safely write: a fresh finding, and a whitelisted status for an instance
      that is flagged at that moment. */
  ghost predicate Orderly(d: Data, pending: set<string>, s: FineStep) {
    match s
    case WrittenBack(f, id, _) => id in d.instances && (id in pending || Fresh(d, f, id))
    case StatusSet(fid, status, _) =>
      status == Whitelisted && fid in d.findings ==>
        var owner := FindingOwner(fid);
        owner.Some? && owner.value in d.instances && (owner.value in pending || d.instances[owner.value].whitelisted)
    case _ => true
  }

  lemma StoredSound(d: Data, pending: set<string>, x: Instance)
    requires SoundBut(d, pending)
    ensures SoundBut(UpsertInstance(d, x), pending)
  {
    hide FindingOwner, UnionInts, UnionStrs;
    var d1 := UpsertInstance(d, x);
    forall fid | fid in d1.findings ensures OkBut(d1, pending, fid) {
      assert OkBut(d, pending, fid);
    }
  }

  lemma TablesSound(d: Data, pending: set<string>, d1: Data)
    requires SoundBut(d, pending) && d1.instances == d.instances && d1.findings == d.findings
    ensures SoundBut(d1, pending)
  {
    hide FindingOwner;
    forall fid | fid in d1.findings ensures OkBut(d1, pending, fid) {
      assert OkBut(d, pending, fid);
    }
  }

  lemma FlagSound(d: Data, pending: set<string>, id: string, flag: bool, reason: string)
    requires SoundBut(d, pending)
    ensures SoundBut(SetWhitelisted(d, id, flag, reason), Owed(d, pending, FlagSet(id, flag, reason)))
  {
    hide FindingOwner;
    var d1 := SetWhitelisted(d, id, flag, reason);
    var more := Owed(d, pending, FlagSet(id, flag, reason));
    forall fid | fid in d1.findings ensures OkBut(d1, more, fid) {
      assert OkBut(d, pending, fid);
    }
  }

  /** Publishing changes no finding but its own. */
  lemma OthersStay(d: Data, pending: set<string>, source: string, f: Finding, now: Time, fid: string)
    requires SoundBut(d, pending) && fid in d.findings && fid != f.id
    ensures var d1 := PublishFinding(d, source, f, now).0;
      KeysMatch(d1) && fid in d1.findings && OkBut(d1, pending, fid)
  {
    hide FindingOwner, FindingEvent;
    assert OkBut(d, pending, fid);
  }

  lemma WrittenExactly(d: Data, pending: set<string>, f: Finding, id: string, now: Time)
    requires SoundBut(d, pending) && Rescored(d, f, id)
    ensures SoundBut(PublishFinding(d, DISCOVERY, f, now).0, pending) <==> id in pending || Fresh(d, f, id)
  {
    OwnerOfFinding(id);
    PublishStores(d, DISCOVERY, f, now, f.id);
    var d1 := PublishFinding(d, DISCOVERY, f, now).0;
    assert KeysMatch(d1) by { hide FindingOwner, FindingEvent, FindingId; }
    forall fid | fid in d.findings && fid != f.id ensures fid in d1.findings && OkBut(d1, pending, fid) {
      OthersStay(d, pending, DISCOVERY, f, now, fid);
    }
    PublishedKeys(d, f, now);
    hide FindingOwner, FindingEvent, FindingId, PublishFinding, KeysMatch;
    assert f.id in d.findings ==> OkBut(d, pending, f.id);
    assert OkBut(d1, pending, f.id) <==> id in pending || Fresh(d, f, id);
  }

  lemma PublishedKeys(d: Data, f: Finding, now: Time)
    ensures var d1 := PublishFinding(d, DISCOVERY, f, now).0;
      forall fid :: fid in d1.findings <==> fid in d.findings || fid == f.id
  {
    hide FindingEvent;
  }

  lemma OtherSound(d: Data, pending: set<string>, source: string, f: Finding, now: Time)
    requires SoundBut(d, pending) && FindingOwner(f.id).None?
    ensures SoundBut(PublishFinding(d, source, f, now).0, pending)
  {
    var d1 := PublishFinding(d, source, f, now).0;
    hide FindingOwner, FindingEvent;
    forall fid | fid in d1.findings ensures OkBut(d1, pending, fid) {
      if fid != f.id { OthersStay(d, pending, source, f, now, fid); }
    }
  }

  lemma StatusExactly(d: Data, pending: set<string>, fid: string, status: FindingStatus, now: Time)
    requires SoundBut(d, pending) && FineEnabled(d, StatusSet(fid, status, now))
    ensures SoundBut(SetStatus(d, fid, status, now), Owed(d, pending, StatusSet(fid, status, now)))
       <==> Orderly(d, pending, StatusSet(fid, status, now))
  {
    var s := StatusSet(fid, status, now);
    var d1 := SetStatus(d, fid, status, now);
    var rest := Owed(d, pending, s);
    forall k | k in d.findings && k != fid && FindingOwner(k).Some? ensures FindingOwner(k) != FindingOwner(fid) {
      FindingOfOwner(k);
      if FindingOwner(fid).Some? { FindingOfOwner(fid); }
    }
    hide FindingOwner;
    forall k | k in d.findings && k != fid ensures OkBut(d1, rest, k) {
      assert OkBut(d, pending, k);
    }
    if fid in d.findings {
      assert OkBut(d, pending, fid);
      assert OkBut(d1, rest, fid) <==> Orderly(d, pending, s);
    }
  }

  /** A call keeps the finding states sound, but for what it leaves pending, if and only if it
      is orderly. */
  lemma FineStepExactly(d: Data, pending: set<string>, s: FineStep)
    requires SoundBut(d, pending) && FineEnabled(d, s)
    ensures SoundBut(FineNext(d, s), Owed(d, pending, s)) <==> Orderly(d, pending, s)
  {
    hide SoundBut, PublishFinding, UpsertInstance, SetStatus, SetWhitelisted, FindingId, Fresh, FindingOwner;
    match s
    case Stored(x) => StoredSound(d, pending, x);
    case Recorded(workflows, reach, creds) => TablesSound(d, pending, FineNext(d, s));
    case Ruled(hosts, whitelist, seen) => TablesSound(d, pending, FineNext(d, s));
    case OtherWritten(source, f, now) => OtherSound(d, pending, source, f, now);
    case WrittenBack(f, id, now) => WrittenExactly(d, pending, f, id, now);
    case FlagSet(id, flag, reason) => FlagSound(d, pending, id, flag, reason);
    case StatusSet(fid, status, now) => StatusExactly(d, pending, fid, status, now);
  }

  ghost predicate SoundThroughout(d: Data, pending: set<string>, steps: seq<FineStep>)
    decreases steps
  {
    && SoundBut(d, pending)
    && (steps == [] || SoundThroughout(FineNext(d, steps[0]), Owed(d, pending, steps[0]), steps[1..]))
  }

  ghost predicate OrderlyThroughout(d: Data, pending: set<string>, steps: seq<FineStep>)
    decreases steps
  {
    steps == [] ||
    (Orderly(d, pending, steps[0]) && OrderlyThroughout(FineNext(d, steps[0]), Owed(d, pending, steps[0]), steps[1..]))
  }

  /** Over every run in which handlers and API actions interleave between their store calls,
      the finding states are sound throughout, but for pending instances, if and only if
      every call is orderly. */
  lemma {:induction false} FineRunsExactly(d: Data, pending: set<string>, steps: seq<FineStep>)
    requires SoundBut(d, pending) && FineRun(d, steps)
    ensures SoundThroughout(d, pending, steps) <==> OrderlyThroughout(d, pending, steps)
    decreases steps
  {
    hide SoundBut, FineNext, FineEnabled, Orderly, Owed;
    if steps != [] {
      var d1, pending1 := FineNext(d, steps[0]), Owed(d, pending, steps[0]);
      FineStepExactly(d, pending, steps[0]);
      if SoundBut(d1, pending1) {
        FineRunsExactly(d1, pending1, steps[1..]);
      } else {
        NotSound(d1, pending1, steps[1..]);
      }
    }
  }

  lemma NotSound(d: Data, pending: set<string>, steps: seq<FineStep>)
    requires !SoundBut(d, pending)
    ensures !SoundThroughout(d, pending, steps)
  {
    hide SoundBut;
  }

  lemma {:induction false} SoundAtEnd(d: Data, pending: set<string>, steps: seq<FineStep>)
    requires SoundThroughout(d, pending, steps)
    ensures SoundBut(FineAfter(d, steps), OwedAfter(d, pending, steps))
    decreases steps
  {
    hide SoundBut, FineNext, Owed;
    if steps != [] { SoundAtEnd(FineNext(d, steps[0]), Owed(d, pending, steps[0]), steps[1..]); }
  }

  /** After an orderly run from an empty store that leaves nothing pending, the finding states
      are sound. */
  lemma OrderlyRunsSound(steps: seq<FineStep>)
    requires FineRun(NewData(), steps) && OrderlyThroughout(NewData(), {}, steps)
    requires OwedAfter(NewData(), {}, steps) == {}
    ensures Inv(FineAfter(NewData(), steps))
  {
    FineRunsExactly(NewData(), {}, steps);
    SoundAtEnd(NewData(), {}, steps);
    NothingPending(FineAfter(NewData(), steps));
  }

  // ----- Flags -----

  ghost predicate Right(d: Data, id: string) {
    id in d.instances ==> (d.instances[id].whitelisted <==> Flagged(d, d.instances[id]))
  }

  /** Calls that change neither instances, apart from their flags, nor rules nor hosts, and set
      only flags that are right at that moment. */
  ghost predicate Passing(d: Data, steps: seq<FineStep>)
    decreases steps
  {
    steps == [] ||
    (PassingOne(d, steps[0]) && Passing(FineNext(d, steps[0]), steps[1..]))
  }

  ghost predicate PassingOne(d: Data, s: FineStep) {
    match s
    case Stored(_) => false
    case Ruled(hosts, whitelist, _) => hosts == d.hosts && whitelist == d.whitelist
    case FlagSet(id, flag, _) => id in d.instances && (flag <==> Flagged(d, d.instances[id]))
    case _ => true
  }

  function SetIds(steps: seq<FineStep>): set<string> {
    set s | s in steps && s.FlagSet? :: s.id
  }

  lemma QuietKeeps(d: Data, s: FineStep)
    requires PassingOne(d, s) && KeysMatch(d) && !s.FlagSet?
    ensures var d1 := FineNext(d, s);
      KeysMatch(d1) && d1.instances == d.instances && d1.hosts == d.hosts && d1.whitelist == d.whitelist
  {
    hide FindingEvent, Flagged;
  }

  lemma PassOne(d: Data, s: FineStep, id: string)
    requires PassingOne(d, s) && KeysMatch(d)
    ensures KeysMatch(FineNext(d, s)) && (id in FineNext(d, s).instances <==> id in d.instances)
    ensures Right(FineNext(d, s), id) <==> Right(d, id) || (s.FlagSet? && s.id == id)
  {
    var d1 := FineNext(d, s);
    if !s.FlagSet? {
      QuietKeeps(d, s);
      hide FineNext, PassingOne;
      if id in d.instances { FlaggedSame(d, d1, d.instances[id], d1.instances[id]); }
    } else if id in d.instances {
      FlaggedSame(d, d1, d.instances[id], d1.instances[id]);
    }
    hide Flagged;
  }

  /** A pass over the instances, among other calls: afterwards an instance is flagged as the
      rules say if and only if it was before or the pass set its flag. */
  lemma {:induction false} PassExactly(d: Data, steps: seq<FineStep>, id: string)
    requires KeysMatch(d) && Passing(d, steps)
    ensures Right(FineAfter(d, steps), id) <==> Right(d, id) || id in SetIds(steps)
    decreases steps
  {
    hide Right, KeysMatch, FineNext, PassingOne;
    if steps != [] {
      PassOne(d, steps[0], id);
      PassExactly(FineNext(d, steps[0]), steps[1..], id);
      assert steps == [steps[0]] + steps[1..];
      assert id in SetIds(steps) <==> id in SetIds(steps[1..]) || (steps[0].FlagSet? && steps[0].id == id);
    }
  }

  /** One flag keeps all flags right if and only if it is right itself. */
  lemma FlagExactly(d: Data, id: string, flag: bool, reason: string)
    requires FlagsExact(d) && id in d.instances
    ensures FlagsExact(SetWhitelisted(d, id, flag, reason)) <==> (flag <==> Flagged(d, d.instances[id]))
  {
    var d1 := SetWhitelisted(d, id, flag, reason);
    forall k | k in d.instances ensures Flagged(d1, d1.instances[k]) <==> Flagged(d, d.instances[k]) {
      FlaggedSame(d, d1, d.instances[k], d1.instances[k]);
    }
    hide Flagged;
  }

  // ----- Runs that fail -----

  /** The calls of a run from the `i`th on: that call, and the rest. */
  lemma FineOnward(d: Data, pending: set<string>, steps: seq<FineStep>, i: nat)
    requires i < |steps|
    ensures FineRun(d, steps[i..]) <==> FineEnabled(d, steps[i]) && FineRun(FineNext(d, steps[i]), steps[i + 1..])
    ensures FineAfter(d, steps[i..]) == FineAfter(FineNext(d, steps[i]), steps[i + 1..])
    ensures OwedAfter(d, pending, steps[i..])
         == OwedAfter(FineNext(d, steps[i]), Owed(d, pending, steps[i]), steps[i + 1..])
  {
    hide FineNext, FineEnabled, Owed;
    assert steps[i..][1..] == steps[i + 1..];
  }

  lemma FineEnded(d: Data, pending: set<string>)
    ensures FineRun(d, []) && FineAfter(d, []) == d && OwedAfter(d, pending, []) == pending
  {
  }

  lemma RaceEnd(d: Data, id: string, now: Time)
    requires KeysMatch(d) && id in d.instances && !d.instances[id].whitelisted && FindingId(id) in d.findings
    ensures var steps := [StatusSet(FindingId(id), New, now), StatusSet(FindingId(id), Whitelisted, now)];
      && FineRun(d, steps) && OwedAfter(d, {id}, steps) == {} && !Inv(FineAfter(d, steps))
  {
    OwnerOfFinding(id);
    hide FindingOwner, FindingId, FineRun, FineAfter, OwedAfter;
    var steps := [StatusSet(FindingId(id), New, now), StatusSet(FindingId(id), Whitelisted, now)];
    var d1 := FineNext(d, steps[0]);
    var d2 := FineNext(d1, steps[1]);
    assert !FindingOk(d2, FindingId(id));
    assert Owed(d1, Owed(d, {id}, steps[0]), steps[1]) == {};
    hide Inv, FineNext, FineEnabled;
    assert steps[2..] == [] && steps[0..] == steps;
    FineEnded(d2, {});
    FineOnward(d1, {}, steps, 1);
    FineOnward(d, {id}, steps, 0);
  }

  /** Two passes race: one flags an instance, the other, for a rule deleted meanwhile, removes
      the flag and resets the status, and the first then sets its status. Nothing is pending,
      and the finding says whitelisted for an unflagged instance. */
  lemma PassesRace(d: Data, id: string, now: Time)
    requires Inv(d) && id in d.instances && FindingId(id) in d.findings
    ensures var steps := [FlagSet(id, true, "rule"), FlagSet(id, false, ""), StatusSet(FindingId(id), New, now),
                          StatusSet(FindingId(id), Whitelisted, now)];
      && FineRun(d, steps) && OwedAfter(d, {}, steps) == {} && !Inv(FineAfter(d, steps))
  {
    hide FindingOwner, FindingId, FineRun, FineAfter, OwedAfter;
    var steps := [FlagSet(id, true, "rule"), FlagSet(id, false, ""), StatusSet(FindingId(id), New, now),
                  StatusSet(FindingId(id), Whitelisted, now)];
    var d1 := FineNext(d, steps[0]);
    var d2 := FineNext(d1, steps[1]);
    assert Owed(d1, Owed(d, {}, steps[0]), steps[1]) == {id};
    RaceEnd(d2, id, now);
    assert steps[2..] == [StatusSet(FindingId(id), New, now), StatusSet(FindingId(id), Whitelisted, now)];
    hide Inv, FineNext, FineEnabled;
    assert steps[0..] == steps;
    FineOnward(d1, {}, steps, 1);
    FineOnward(d, {}, steps, 0);
  }

  /** The store after a rule has been added, a container found and its finding written. */
  ghost function FlaggedStore(e: Engine, x: Instance, r: WhitelistRule, now: Time): Data {
    var d1 := FineNext(NewData(), Ruled(map[], map[r.id := r], map[]));
    var d2 := FineNext(d1, Stored(FlaggedBy(x, r)));
    FineNext(d2, WrittenBack(FirstFinding(e, x, r), x.id, now))
  }

  function FlaggedBy(x: Instance, r: WhitelistRule): Instance { x.(whitelisted := true, whitelistReason := r.reason) }

  ghost function FirstFinding(e: Engine, x: Instance, r: WhitelistRule): Finding {
    var d1 := FineNext(NewData(), Ruled(map[], map[r.id := r], map[]));
    FindingFor(FineNext(d1, Stored(FlaggedBy(x, r))), e, Created(FlaggedBy(x, r)))
  }

  lemma AnyFinding(d: Data, e: Engine, x: Instance)
    ensures FindingFor(d, e, x).id == FindingId(x.id)
    ensures FindingFor(d, e, x).status == if x.whitelisted then Whitelisted else Blank
  {
    hide ScoreOf, SortFactors, EdgesOf, CredsOf, WorkflowsOf, FindingId;
  }

  lemma FlaggedStoreIs(e: Engine, x: Instance, r: WhitelistRule, now: Time)
    ensures var d := FlaggedStore(e, x, r, now);
      && KeysMatch(d) && d.instances == map[x.id := Created(FlaggedBy(x, r))] && FindingId(x.id) in d.findings
    ensures var d1 := FineNext(NewData(), Ruled(map[], map[r.id := r], map[]));
      FineEnabled(FineNext(d1, Stored(FlaggedBy(x, r))), WrittenBack(FirstFinding(e, x, r), x.id, now))
  {
    hide FindingFor, FindingEvent, FindingId, FindingOwner;
    var d1 := FineNext(NewData(), Ruled(map[], map[r.id := r], map[]));
    var d2 := FineNext(d1, Stored(FlaggedBy(x, r)));
    AnyFinding(d2, e, Created(FlaggedBy(x, r)));
    assert KeysMatch(d2) && d2.instances == map[x.id := Created(FlaggedBy(x, r))];
    PublishStores(d2, DISCOVERY, FirstFinding(e, x, r), now, FindingId(x.id));
    assert KeysMatch(FlaggedStore(e, x, r, now));
  }

  /** A container is found while a rule matches it; its finding is written, and read for
      another rescore; the rule is deleted; that rescore writes what it read. */
  ghost function StaleSteps(e: Engine, x: Instance, r: WhitelistRule, now: Time): seq<FineStep> {
    var stale := FindingFor(FlaggedStore(e, x, r, now), e, Created(FlaggedBy(x, r)));
    [Ruled(map[], map[r.id := r], map[]), Stored(FlaggedBy(x, r)), WrittenBack(FirstFinding(e, x, r), x.id, now),
     Ruled(map[], map[], map[]), FlagSet(x.id, false, ""), StatusSet(FindingId(x.id), New, now),
     WrittenBack(stale, x.id, now)]
  }

  lemma StaleWrite(d: Data, id: string, stale: Finding, now: Time)
    requires KeysMatch(d) && id in d.instances && !d.instances[id].whitelisted
    requires stale.id == FindingId(id) && stale.status == Whitelisted
    ensures FineEnabled(d, WrittenBack(stale, id, now)) && !Inv(FineNext(d, WrittenBack(stale, id, now)))
  {
    OwnerOfFinding(id);
    hide FindingOwner, FindingId, FindingEvent;
    PublishStores(d, DISCOVERY, stale, now, stale.id);
    var d1 := FineNext(d, WrittenBack(stale, id, now));
    assert !FindingOk(d1, stale.id);
  }

  lemma FlagThenStatus(d: Data, id: string, now: Time)
    requires KeysMatch(d) && id in d.instances
    ensures var d1 := FineNext(d, FlagSet(id, false, ""));
      var d2 := FineNext(d1, StatusSet(FindingId(id), New, now));
      KeysMatch(d2) && id in d2.instances && !d2.instances[id].whitelisted
      && Owed(d1, Owed(d, {}, FlagSet(id, false, "")), StatusSet(FindingId(id), New, now)) == {}
  {
    OwnerOfFinding(id);
    hide FindingOwner, FindingId, UpsertInstance, PublishFinding, UnionInts, UnionStrs;
  }

  /** The last three calls undo the flag and then write it back into the finding. */
  lemma StaleEnd(d: Data, id: string, stale: Finding, now: Time, steps: seq<FineStep>)
    requires KeysMatch(d) && id in d.instances
    requires stale.id == FindingId(id) && stale.status == Whitelisted
    requires steps == [FlagSet(id, false, ""), StatusSet(FindingId(id), New, now), WrittenBack(stale, id, now)]
    ensures FineRun(d, steps) && OwedAfter(d, {}, steps) == {} && !Inv(FineAfter(d, steps))
  {
    hide FindingId, FineNext, Owed, Inv, FineRun, FineAfter, OwedAfter, KeysMatch;
    var d1 := FineNext(d, steps[0]);
    var d2 := FineNext(d1, steps[1]);
    FlagThenStatus(d, id, now);
    StaleWrite(d2, id, stale, now);
    var d3 := FineNext(d2, steps[2]);
    NothingOwed(d2, stale, id, now);
    assert steps[3..] == [] && steps[0..] == steps;
    FineEnded(d3, {});
    FineOnward(d2, {}, steps, 2);
    FineOnward(d1, Owed(d, {}, steps[0]), steps, 1);
    FineOnward(d, {}, steps, 0);
  }

  lemma NothingOwed(d: Data, f: Finding, id: string, now: Time)
    ensures Owed(d, {}, WrittenBack(f, id, now)) == {}
  {
  }

  /** From an empty store, with a rule that matches and an engine of any kind, that run leaves
      nothing pending and the finding states unsound. */
  lemma StaleRunFails(e: Engine, x: Instance, r: WhitelistRule, now: Time)
    requires RuleMatches(r, x, None)
    ensures FineRun(NewData(), StaleSteps(e, x, r, now))
    ensures OwedAfter(NewData(), {}, StaleSteps(e, x, r, now)) == {}
    ensures !Inv(FineAfter(NewData(), StaleSteps(e, x, r, now)))
  {
    hide FindingId, FindingFor, FindingEvent, FindingOwner, RuleMatches, Inv, FineRun, FineAfter, OwedAfter,
         PublishFinding;
    var steps := StaleSteps(e, x, r, now);
    FlaggedStoreIs(e, x, r, now);
    var d0 := NewData();
    var d1 := FineNext(d0, steps[0]);
    var d2 := FineNext(d1, steps[1]);
    var d3 := FlaggedStore(e, x, r, now);
    assert d3 == FineNext(d2, steps[2]);
    AnyFinding(d3, e, Created(FlaggedBy(x, r)));
    var d4 := FineNext(d3, steps[3]);
    StaleEnd(d4, x.id, steps[6].finding, now, steps[4..]);
    assert FineEnabled(d0, steps[0]) && FineEnabled(d1, steps[1]);
    assert FineEnabled(d2, steps[2]) && FineEnabled(d3, steps[3]);
    hide FineNext, FineEnabled, FlaggedStore;
    assert steps[0..] == steps;
    FineOnward(d3, {}, steps, 3);
    FineOnward(d2, {}, steps, 2);
    FineOnward(d1, {}, steps, 1);
    FineOnward(d0, {}, steps, 0);
  }
}
