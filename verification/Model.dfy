/** The data model: entities, enumerations and stable identifiers. Times are counts of
    nanoseconds, with 0 for Go's zero time. */
module Model {
  import opened Text

  type Time = int

  const ZERO_TIME: Time := 0
  const DAY: Time := 24 * 3600 * 1_000_000_000

  datatype Severity = Info | Low | Medium | High | Critical | UnlistedSeverity(name: string)

  datatype Exposure = NoExposure | UnknownExposure | Localhost | Lan | Public

  /** `Blank` is Go's empty string. */
  datatype FindingStatus = Blank | New | Acked | Whitelisted | Resolved

  datatype Host = Host(
    id: string, hostname: string, os: string, kernel: string, ips: seq<string>,
    labels: Option<map<string, string>>, agentId: string, agentVersion: string,
    firstSeen: Time, lastSeen: Time)

  datatype Instance = Instance(
    id: string, hostId: string, engine: string, identity: string,
    version: string, runMode: string, status: string, exposure: Exposure, dbType: string, queueMode: bool,
    owner: string, ownerIsIT: bool, image: string,
    ports: seq<int>, publicPorts: seq<int>, secretEnvKeys: seq<string>, detectedBy: seq<string>,
    confidence: real, firstSeen: Time, lastSeen: Time,
    whitelisted: bool, whitelistReason: string)

  datatype Workflow = Workflow(
    id: string, instanceId: string, name: string, active: bool, nodes: seq<string>,
    webhookTriggers: seq<string>, integrations: seq<string>, updatedAt: Time)

  datatype CredentialRef = CredentialRef(
    id: string, instanceId: string, credType: string, name: string,
    targetSystem: string, targetCategory: string, fingerprint: string, lastSeen: Time)

  datatype Reachability = Reachability(
    id: string, instanceId: string, targetSystem: string, targetCategory: string, via: string, lastSeen: Time)

  datatype RiskFactor = RiskFactor(key: string, weight: real)

  /** Explanations are left out: they are texts derived from the other fields. */
  datatype Finding = Finding(
    id: string, source: string, instanceId: string, hostId: string, title: string,
    score: real, severity: Severity, factors: seq<RiskFactor>, status: FindingStatus,
    createdAt: Time, updatedAt: Time)

  datatype WhitelistRule = WhitelistRule(
    id: string, kind: string, pattern: string, reason: string, createdBy: string, createdAt: Time)

  // ----- Identifiers -----

  /** StableID hashes its parts, each followed by a NUL byte. The identifier is modelled by
      the bytes that are hashed, so the truncated hash is taken to be free of collisions. */
  function StableID(parts: seq<string>): string {
    if parts == [] then "" else parts[0] + "\0" + StableID(parts[1..])
  }

  predicate NoNul(s: string) { '\0' !in s }

  /** Identifiers determine their parts as long as no part has a NUL byte. */
  lemma {:induction false} StableIDInjective(a: seq<string>, b: seq<string>)
    requires forall s :: s in a || s in b ==> NoNul(s)
    requires StableID(a) == StableID(b)
    ensures a == b
  {
    if a != [] && b != [] {
      var x, y := a[0], b[0];
      var s, t := StableID(a[1..]), StableID(b[1..]);
      assert x + "\0" + s == y + "\0" + t;
      FirstNul(x, s, y, t);
      StableIDInjective(a[1..], b[1..]);
    }
  }

  lemma {:induction false} StableIDAppend(a: seq<string>, b: seq<string>)
    ensures StableID(a + b) == StableID(a) + StableID(b)
  {
    if a == [] {
      assert a + b == b;
    } else {
      assert (a + b)[1..] == a[1..] + b;
      StableIDAppend(a[1..], b);
    }
  }

  lemma FirstNul(x: string, s: string, y: string, t: string)
    requires NoNul(x) && NoNul(y)
    requires x + "\0" + s == y + "\0" + t
    ensures x == y && s == t
  {
    var u := x + "\0" + s;
    assert u[|x|] == '\0' && u[|y|] == '\0';
    assert forall i :: 0 <= i < |x| ==> u[i] == x[i];
    assert forall i :: 0 <= i < |y| ==> u[i] == y[i];
    assert |x| == |y|;
    assert u[..|x|] == x && u[..|y|] == y;
    assert u[|x| + 1..] == s && u[|y| + 1..] == t;
  }

  // ----- Exposure and scores -----

  function ExposureRank(e: Exposure): nat {
    match e
    case NoExposure => 0
    case UnknownExposure => 0
    case Localhost => 1
    case Lan => 2
    case Public => 3
  }

  function SeverityFromScore(score: real): Severity {
    if score >= 80.0 then Critical
    else if score >= 60.0 then High
    else if score >= 35.0 then Medium
    else if score > 0.0 then Low
    else Info
  }

  /** The rank map of the notifier: a missing key gives 0. */
  function SeverityRank(s: Severity): nat {
    match s
    case Info => 0
    case Low => 1
    case Medium => 2
    case High => 3
    case Critical => 4
    case UnlistedSeverity(_) => 0
  }

  function Reached(score: real, threshold: real): nat { if score >= threshold then 1 else 0 }

  /** The severity of a score counts how many of the bounds it has reached: any risk at all, 35,
      60 and 80; the scale is info, low, medium, high, critical. */
  lemma SeverityScale(score: real)
    ensures SeverityRank(SeverityFromScore(score)) ==
      (if score > 0.0 then 1 else 0) + Reached(score, 35.0) + Reached(score, 60.0) + Reached(score, 80.0)
    ensures SeverityFromScore(score) == [Info, Low, Medium, High, Critical][SeverityRank(SeverityFromScore(score))]
  {
  }
}
