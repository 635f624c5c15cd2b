/** The event bus: a bounded queue that drops events when full, with pattern
    subscriptions served in order. */
module EventBus {
  import opened Text
  import opened Control

  // ----- The queue -----

  /** Publish does not block: an event that does not fit is dropped. */
  function Enqueued<T>(queue: seq<T>, capacity: nat, ev: T): seq<T> {
    if |queue| < capacity then queue + [ev] else queue
  }

  function EnqueuedAll(queue: seq<Event>, capacity: nat, events: seq<Event>): seq<Event>
    decreases events
  {
    if events == [] then queue else EnqueuedAll(Enqueued(queue, capacity, events[0]), capacity, events[1..])
  }

  lemma {:induction false} EnqueuedAppend(queue: seq<Event>, capacity: nat, a: seq<Event>, b: seq<Event>)
    ensures EnqueuedAll(queue, capacity, a + b) == EnqueuedAll(EnqueuedAll(queue, capacity, a), capacity, b)
    decreases a
  {
    if a == [] {
      assert a + b == b;
    } else {
      assert (a + b)[1..] == a[1..] + b;
      EnqueuedAppend(Enqueued(queue, capacity, a[0]), capacity, a[1..], b);
    }
  }

  /** The queue takes the events in order until it is full, and drops the others. */
  lemma {:induction false} EnqueuedExactly(queue: seq<Event>, capacity: nat, events: seq<Event>)
    ensures EnqueuedAll(queue, capacity, events) ==
      var room := if |queue| < capacity then capacity - |queue| else 0;
      queue + if |events| <= room then events else events[..room]
    decreases events
  {
    if events == [] {
      assert queue + [] == queue;
    } else {
      var more := Enqueued(queue, capacity, events[0]);
      EnqueuedExactly(more, capacity, events[1..]);
      assert events == [events[0]] + events[1..];
    }
  }

  // ----- Subscriptions -----

  /** The handlers of the control plane: four modules and the notification manager. */
  datatype Subscriber = Discovery | HoneyNodes | SelfHealing | Autodoc | Notifications

  datatype Subscription = Subscription(pattern: string, subscriber: Subscriber)

  /** Match: "*", an exact type, or a prefix followed by "*". */
  predicate Match(pattern: string, eventType: string) {
    pattern == "*" || pattern == eventType
    || (pattern != "" && pattern[|pattern| - 1] == '*' && pattern[..|pattern| - 1] <= eventType)
  }

  /** A pattern stands for everything, for itself, or, with a star at its end, for every type
      that starts with what is before the star. */
  lemma MatchExactly(pattern: string, eventType: string)
    ensures Match(pattern, eventType) <==>
      pattern == "*" || pattern == eventType
      || exists prefix: string, rest: string :: pattern == prefix + "*" && eventType == prefix + rest
  {
    if pattern != "" && pattern[|pattern| - 1] == '*' && pattern[..|pattern| - 1] <= eventType {
      var prefix := pattern[..|pattern| - 1];
      assert pattern == prefix + "*" && eventType == prefix + eventType[|prefix|..];
    }
  }

  function Receivers(subs: seq<Subscription>, eventType: string): seq<Subscriber> {
    if subs == [] then []
    else (if Match(subs[0].pattern, eventType) then [subs[0].subscriber] else []) + Receivers(subs[1..], eventType)
  }

  class Bus {
    const capacity: nat
    var queue: seq<Event>
    var subs: seq<Subscription>

    constructor (capacity: int)
      ensures this.capacity == if capacity <= 0 then 4096 else capacity
      ensures queue == [] && subs == []
    {
      this.capacity := if capacity <= 0 then 4096 else capacity;
      queue, subs := [], [];
    }

    method Subscribe(pattern: string, subscriber: Subscriber)
      modifies this`subs
      ensures subs == old(subs) + [Subscription(pattern, subscriber)]
    {
      subs := subs + [Subscription(pattern, subscriber)];
    }

    method Publish(ev: Event)
      modifies this`queue
      ensures queue == Enqueued(old(queue), capacity, ev)
    {
      if |queue| < capacity {
        queue := queue + [ev];
      }
    }
  }
}
