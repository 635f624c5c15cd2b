/** The notification manager: which findings reach the channels. */
module Notify {
  import opened Text
  import opened Model
  import opened Control

  datatype Delivery = Delivery(channel: nat, finding: Finding)

  /** Severe enough, and not whitelisted when it was published. */
  predicate Notifies(minSeverity: Severity, f: Finding) {
    SeverityRank(f.severity) >= SeverityRank(minSeverity) && f.status != Whitelisted
  }

  /** One delivery for each channel, in order. */
  function Deliveries(channels: nat, f: Finding): seq<Delivery> {
    seq(channels, i requires 0 <= i < channels => Delivery(i, f))
  }

  /** What a sequence of dispatched events sends. */
  function Sent(minSeverity: Severity, channels: nat, events: seq<Event>): seq<Delivery> {
    if events == [] then []
    else
      (if events[0].payload.FindingPayload? && Notifies(minSeverity, events[0].payload.finding)
       then Deliveries(channels, events[0].payload.finding) else [])
      + Sent(minSeverity, channels, events[1..])
  }

  /** Over every sequence of events, no channel receives a whitelisted finding or one below
      the threshold, and every other published finding reaches every channel. */
  lemma {:induction false} SentExactly(minSeverity: Severity, channels: nat, events: seq<Event>, channel: nat,
                                       f: Finding)
    ensures Delivery(channel, f) in Sent(minSeverity, channels, events) <==>
      channel < channels && Notifies(minSeverity, f) && exists ev :: ev in events && ev.payload == FindingPayload(f)
  {
    if events != [] {
      var ev, rest := events[0], events[1..];
      SentExactly(minSeverity, channels, rest, channel, f);
      assert events == [ev] + rest;
      var now := if ev.payload.FindingPayload? && Notifies(minSeverity, ev.payload.finding)
                 then Deliveries(channels, ev.payload.finding) else [];
      assert Sent(minSeverity, channels, events) == now + Sent(minSeverity, channels, rest);
      if channel < channels && ev.payload == FindingPayload(f) && Notifies(minSeverity, f) {
        assert now[channel] == Delivery(channel, f);
      }
    }
  }

  /** With the threshold that a missing setting stands for, medium, high and critical findings are
      sent unless they are whitelisted, and no others. */
  lemma MediumThreshold(f: Finding)
    ensures Notifies(Medium, f) <==> f.severity in {Medium, High, Critical} && f.status != Whitelisted
  {
  }

  class Manager {
    const minSeverity: Severity
    const channels: nat
    /** What the channels received so far. */
    var sent: seq<Delivery>

    constructor (minSeverity: Option<Severity>, channels: nat)
      ensures this.minSeverity == (if minSeverity.None? then Medium else minSeverity.value)
      ensures this.channels == channels && sent == []
    {
      this.minSeverity := if minSeverity.None? then Medium else minSeverity.value;
      this.channels := channels;
      sent := [];
    }

    method Notify(f: Finding)
      modifies this`sent
      ensures sent == old(sent) + if Notifies(minSeverity, f) then Deliveries(channels, f) else []
    {
      if SeverityRank(f.severity) < SeverityRank(minSeverity) || f.status == Whitelisted {
        return;
      }
      ghost var before := sent;
      for i := 0 to channels
        invariant sent == before + Deliveries(channels, f)[..i]
      {
        sent := sent + [Delivery(i, f)];
      }
    }
  }
}
