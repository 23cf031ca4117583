/**
 * The request queue: a FIFO waiting list and a counter of requests in
 * flight, bounded by `concurrentLimit`. Every `processQueue` call starts at
 * most one waiting request; every settlement (success or failure) lowers the
 * counter and calls `processQueue` again. Queued requests are named by a
 * `JobId`; the promise plumbing around them is not modelled.
 */
module RequestQueueing {

  import opened Json

  type JobId = nat

  /** The limit a new queue starts with, before the browser tuning. */
  const InitialLimit: int := 3

  datatype QueueState = QueueState(waiting: seq<JobId>, active: int, limit: int)

  /** A state after one operation, and the request it started, if any. */
  datatype Step = Step(state: QueueState, started: Option<JobId>)

  /** `processQueue`: starts the head of the queue when a slot is free; otherwise changes nothing. */
  function Process(s: QueueState): (r: Step)
    ensures r.started.None? <==> s.active >= s.limit || s.waiting == []
    ensures r.started.None? ==> r.state == s
    ensures r.started.Some? ==>
      && r.started.value == s.waiting[0]
      && r.state == QueueState(s.waiting[1..], s.active + 1, s.limit)
  {
    if s.active >= s.limit then Step(s, None)
    else if s.waiting == [] then Step(s, None)
    else Step(QueueState(s.waiting[1..], s.active + 1, s.limit), Some(s.waiting[0]))
  }

  /** `add`: appends at the tail, then tries one dispatch. */
  function Submit(s: QueueState, job: JobId): Step {
    Process(s.(waiting := s.waiting + [job]))
  }

  /** The `finally` of a started request: one slot freed, then one dispatch attempt. */
  function Settle(s: QueueState): Step {
    Process(s.(active := s.active - 1))
  }

  /** Assigning `concurrentLimit` does not dispatch anything by itself. */
  function Retune(s: QueueState, limit: int): Step {
    Step(s.(limit := limit), None)
  }

  predicate WithinLimit(s: QueueState) {
    0 <= s.active <= s.limit
  }

  /** Submitting keeps the request count within the limit and keeps the order. */
  lemma SubmitKeepsOrderAndBound(s: QueueState, job: JobId)
    requires WithinLimit(s)
    ensures WithinLimit(Submit(s, job).state)
    ensures (match Submit(s, job).started
             case Some(j) => [j] + Submit(s, job).state.waiting
             case None => Submit(s, job).state.waiting) == s.waiting + [job]
  {
  }

  /** A settlement never leaves a free slot unused while requests wait. */
  lemma SettleRefills(s: QueueState)
    requires WithinLimit(s) && s.active > 0 && s.waiting != []
    ensures Settle(s).started == Some(s.waiting[0])
    ensures Settle(s).state.active == s.active
  {
  }

  datatype Event = Add(job: JobId) | Done | SetLimit(limit: int)

  function Apply(s: QueueState, e: Event): Step {
    match e
    case Add(j) => Submit(s, j)
    case Done => Settle(s)
    case SetLimit(n) => Retune(s, n)
  }

  /**
   * A run the program can produce: `Done` only settles a request in flight,
   * and the limit is never lowered below the number of requests in flight.
   */
  predicate Legal(s: QueueState, events: seq<Event>)
    decreases |events|
  {
    if events == [] then true
    else
      && (events[0].Done? ==> s.active > 0)
      && (events[0].SetLimit? ==> events[0].limit >= s.active)
      && Legal(Apply(s, events[0]).state, events[1..])
  }

  function Run(s: QueueState, events: seq<Event>): QueueState
    decreases |events|
  {
    if events == [] then s else Run(Apply(s, events[0]).state, events[1..])
  }

  /** The requests a run starts, in the order it starts them. */
  function Started(s: QueueState, events: seq<Event>): seq<JobId>
    decreases |events|
  {
    if events == [] then []
    else
      var step := Apply(s, events[0]);
      (if step.started.Some? then [step.started.value] else []) + Started(step.state, events[1..])
  }

  /** The requests a run submits, in submission order. */
  function Added(events: seq<Event>): seq<JobId>
    decreases |events|
  {
    if events == [] then []
    else (if events[0].Add? then [events[0].job] else []) + Added(events[1..])
  }

  /** FIFO: what has started, followed by what still waits, is exactly what was submitted, in order. */
  lemma {:induction false} RunIsFifo(s: QueueState, events: seq<Event>)
    ensures Started(s, events) + Run(s, events).waiting == s.waiting + Added(events)
    decreases |events|
  {
    if events != [] {
      var step := Apply(s, events[0]);
      RunIsFifo(step.state, events[1..]);
      var head := if step.started.Some? then [step.started.value] else [];
      var added := if events[0].Add? then [events[0].job] else [];
      assert head + step.state.waiting == s.waiting + added;
      calc {
        Started(s, events) + Run(s, events).waiting;
        head + (Started(step.state, events[1..]) + Run(step.state, events[1..]).waiting);
        head + (step.state.waiting + Added(events[1..]));
        (head + step.state.waiting) + Added(events[1..]);
        s.waiting + added + Added(events[1..]);
        s.waiting + Added(events);
      }
    }
  }

  /** A legal run never has more requests in flight than the limit allows. */
  lemma {:induction false} RunWithinLimit(s: QueueState, events: seq<Event>)
    requires WithinLimit(s) && Legal(s, events)
    ensures WithinLimit(Run(s, events))
    decreases |events|
  {
    if events != [] {
      RunWithinLimit(Apply(s, events[0]).state, events[1..]);
    }
  }

  datatype Drained = Drained(state: QueueState, started: seq<JobId>)

  /** Lets every request in flight settle, one at a time, until none is left in flight. */
  function Drain(s: QueueState): (r: Drained)
    requires s.active >= 0
    ensures r.state.active == 0
    decreases |s.waiting| + s.active
  {
    if s.active == 0 then Drained(s, [])
    else
      var step := Settle(s);
      var rest := Drain(step.state);
      Drained(rest.state, (if step.started.Some? then [step.started.value] else []) + rest.started)
  }

  /**
   * No starvation: when every request in flight eventually settles, every
   * waiting request is started, in queue order, provided the limit is at
   * least one and something is in flight whenever something waits.
   */
  lemma {:induction false} DrainStartsAllWaiting(s: QueueState)
    requires s.limit >= 1 && s.active >= 0
    requires s.waiting != [] ==> s.active >= 1
    ensures Drain(s).state.waiting == []
    ensures Drain(s).started == s.waiting
    decreases |s.waiting| + s.active
  {
    if s.active != 0 {
      var step := Settle(s);
      DrainStartsAllWaiting(step.state);
      if step.started.Some? {
        assert s.waiting == [step.started.value] + step.state.waiting;
      }
    }
  }

  class RequestQueue {
    var queue: seq<JobId>
    var concurrentLimit: int
    var activeRequests: int
    /** Requests started and not yet settled. */
    ghost var running: multiset<JobId>
    /** Every request ever added, and every request ever started, in order. */
    ghost var submitted: seq<JobId>
    ghost var dispatched: seq<JobId>

    ghost predicate Valid()
      reads this
    {
      && activeRequests == |running|
      && dispatched + queue == submitted
      && running <= multiset(dispatched)
    }

    function State(): QueueState
      reads this
    {
      QueueState(queue, activeRequests, concurrentLimit)
    }

    constructor ()
      ensures Valid()
      ensures State() == QueueState([], 0, InitialLimit)
      ensures submitted == [] && running == multiset{}
    {
      queue := [];
      concurrentLimit := InitialLimit;
      activeRequests := 0;
      running := multiset{};
      submitted := [];
      dispatched := [];
    }

    method ProcessQueue() returns (started: Option<JobId>)
      requires Valid()
      modifies this
      ensures Valid()
      ensures Step(State(), started) == Process(old(State()))
      ensures submitted == old(submitted)
      ensures running == old(running) + (if started.Some? then multiset{started.value} else multiset{})
      ensures WithinLimit(old(State())) ==> WithinLimit(State())
    {
      if activeRequests >= concurrentLimit {
        return None;
      }
      if queue == [] {
        return None;
      }
      var next := queue[0];
      queue := queue[1..];
      dispatched := dispatched + [next];
      activeRequests := activeRequests + 1;
      running := running + multiset{next};
      return Some(next);
    }

    method Add(job: JobId) returns (started: Option<JobId>)
      requires Valid()
      modifies this
      ensures Valid()
      ensures Step(State(), started) == Submit(old(State()), job)
      ensures submitted == old(submitted) + [job]
      ensures running == old(running) + (if started.Some? then multiset{started.value} else multiset{})
      ensures WithinLimit(old(State())) ==> WithinLimit(State())
    {
      queue := queue + [job];
      submitted := submitted + [job];
      started := ProcessQueue();
    }

    /** Runs when `job` settles, whether it succeeded or failed. */
    method Settled(job: JobId) returns (started: Option<JobId>)
      requires Valid() && job in running
      modifies this
      ensures Valid()
      ensures Step(State(), started) == Settle(old(State()))
      ensures submitted == old(submitted)
      ensures running == old(running) - multiset{job} + (if started.Some? then multiset{started.value} else multiset{})
      ensures WithinLimit(old(State())) ==> WithinLimit(State())
    {
      activeRequests := activeRequests - 1;
      running := running - multiset{job};
      started := ProcessQueue();
    }

    /** The browser tuning assigns the limit directly; nothing is dispatched. */
    method SetConcurrentLimit(limit: int)
      requires Valid()
      modifies this`concurrentLimit
      ensures Valid()
      ensures State() == Retune(old(State()), limit).state
    {
      concurrentLimit := limit;
    }
  }
}
