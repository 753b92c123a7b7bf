/** The fulfil queue as it is written: one field holding a promise, replaced on every enqueue by
    `.then(body).catch(log)` of itself.

    The protocol of module Fulfilment takes a first-in first-out queue with one running body for granted.
    Here that queue is proved of the promise chain: links settle in whatever order the event loop runs the
    handlers that are ready. */
module SerialQueue {
  import opened Options

  datatype Promise = Pending | Resolved | Rejected

  /** One enqueue: its body's promise, and the promise of the catch behind it. */
  datatype Link = Link(orderId: nat, started: bool, body: Promise, caught: Promise)

  /** The chain, and the order ids of the bodies in the order they started. */
  datatype Queue = Queue(links: seq<Link>, log: seq<nat>)

  datatype Event =
    | Enqueue(orderId: nat)
    | RunThen(i: nat)               // the promise before link i has settled
    | BodyEnds(i: nat, ok: bool)    // the body returned, or threw
    | RunCatch(i: nat)              // link i's body has settled

  function Before(q: Queue, i: nat): Promise
    requires i < |q.links|
  {
    if i == 0 then Resolved else q.links[i - 1].caught
  }

  predicate Ready(q: Queue, e: Event) {
    match e
    case Enqueue(_) => true
    case RunThen(i) => i < |q.links| && !q.links[i].started && q.links[i].body.Pending? && !Before(q, i).Pending?
    case BodyEnds(i, _) => i < |q.links| && q.links[i].started && q.links[i].body.Pending?
    case RunCatch(i) => i < |q.links| && !q.links[i].body.Pending? && q.links[i].caught.Pending?
  }

  function React(q: Queue, e: Event): Queue
    requires Ready(q, e)
  {
    match e
    case Enqueue(id) => q.(links := q.links + [Link(id, false, Pending, Pending)])
    case RunThen(i) =>
      var l := q.links[i];
      // `then` with one handler passes a rejection on without calling it
      if Before(q, i).Rejected? then q.(links := q.links[i := l.(body := Rejected)])
      else Queue(q.links[i := l.(started := true)], q.log + [l.orderId])
    case BodyEnds(i, ok) => q.(links := q.links[i := q.links[i].(body := if ok then Resolved else Rejected)])
    case RunCatch(i) =>
      // a value passes through; an error is logged, and the handler returns
      q.(links := q.links[i := q.links[i].(caught := Resolved)])
  }

  ghost predicate IsRun(states: seq<Queue>, events: seq<Event>) {
    && |states| == |events| + 1 && states[0] == Queue([], [])
    && forall k :: 0 <= k < |events| ==> Ready(states[k], events[k]) && states[k + 1] == React(states[k], events[k])
  }

  function Ids(links: seq<Link>): (ids: seq<nat>)
    ensures |ids| == |links| && forall i :: 0 <= i < |links| ==> ids[i] == links[i].orderId
  {
    seq(|links|, i requires 0 <= i < |links| => links[i].orderId)
  }

  predicate Running(l: Link) {
    l.started && l.body.Pending?
  }

  // ---------- The shape of every chain ----------

  predicate Done(l: Link) {
    l.started && !l.body.Pending? && l.caught.Resolved?
  }

  predicate Untouched(l: Link) {
    !l.started && l.body.Pending? && l.caught.Pending?
  }

  /** The first `d` links are over, link `d` may be at work, the rest wait. */
  predicate Shape(q: Queue, d: nat) {
    && d <= |q.links|
    && (forall i :: 0 <= i < d ==> Done(q.links[i]))
    && (d < |q.links| ==> q.links[d].caught.Pending? && (q.links[d].started || q.links[d].body.Pending?))
    && (forall i :: d < i < |q.links| ==> Untouched(q.links[i]))
    && q.log == Ids(q.links)[..Begun(q, d)]
  }

  function Begun(q: Queue, d: nat): (n: nat)
    requires d <= |q.links|
    ensures d <= n <= |q.links|
  {
    if d < |q.links| && q.links[d].started then d + 1 else d
  }

  lemma IdsAfter(q: Queue, e: Event)
    requires Ready(q, e)
    ensures Ids(React(q, e).links) == Ids(q.links) + (if e.Enqueue? then [e.orderId] else [])
  {
  }

  lemma StepKeepsShape(q: Queue, d: nat, e: Event) returns (d': nat)
    requires Shape(q, d) && Ready(q, e)
    ensures d' == (if e.RunCatch? then d + 1 else d) && Shape(React(q, e), d')
  {
    d' := if e.RunCatch? then d + 1 else d;
    var q' := React(q, e);
    IdsAfter(q, e);
    if e.RunThen? {
      assert e.i == d;
      assert Ids(q.links)[..d + 1] == Ids(q.links)[..d] + [q.links[d].orderId];
    }
  }

  lemma {:induction false} RunHasShape(states: seq<Queue>, events: seq<Event>, n: nat) returns (d: nat)
    requires IsRun(states, events) && n <= |events|
    ensures Shape(states[n], d)
  {
    if n == 0 {
      d := 0;
    } else {
      d := RunHasShape(states, events, n - 1);
      d := StepKeepsShape(states[n - 1], d, events[n - 1]);
    }
  }

  // ---------- What the rest of the program relies on ----------

  /** At most one body is live. */
  lemma OneBodyAtATime(states: seq<Queue>, events: seq<Event>, n: nat, i: nat, j: nat)
    requires IsRun(states, events) && n <= |events|
    requires i < |states[n].links| && j < |states[n].links|
    requires Running(states[n].links[i]) && Running(states[n].links[j])
    ensures i == j
  {
    var _ := RunHasShape(states, events, n);
  }

  /** Bodies start in the order they were enqueued, none twice, none skipped. */
  lemma StartsInOrder(states: seq<Queue>, events: seq<Event>, n: nat)
    requires IsRun(states, events) && n <= |events|
    ensures states[n].log <= Ids(states[n].links)
  {
    var _ := RunHasShape(states, events, n);
  }

  /** The events still owed to the links that exist. */
  function Owed(links: seq<Link>): nat {
    if links == [] then 0
    else
      var l := links[|links| - 1];
      Owed(links[..|links| - 1])
      + (if l.started then 0 else 1) + (if l.body.Pending? then 1 else 0) + (if l.caught.Pending? then 1 else 0)
  }

  lemma {:induction false} OwedChange(links: seq<Link>, i: nat, l: Link)
    requires i < |links|
    ensures Owed(links[i := l]) - Owed(links) == Owed([l]) - Owed([links[i]])
  {
    var last := |links| - 1;
    if i < last {
      OwedChange(links[..last], i, l);
      assert links[i := l][..last] == links[..last][i := l];
    } else {
      assert links[i := l][..last] == links[..last];
    }
  }

  /** A failing body never blocks the ones behind it: whatever bodies do, as long as an enqueued body has
      not started some handler is ready or a body is running, and every event of the loop brings the work
      owed to the enqueued bodies closer to nothing. */
  lemma FailuresNeverBlock(states: seq<Queue>, events: seq<Event>, n: nat)
    requires IsRun(states, events) && n <= |events|
    ensures var q := states[n];
      && (|q.log| < |q.links| ==> exists e: Event :: !e.Enqueue? && Ready(q, e))
      && (forall e: Event :: Ready(q, e) && !e.Enqueue? ==> Owed(React(q, e).links) < Owed(q.links))
  {
    var q := states[n];
    var d := RunHasShape(states, events, n);
    if |q.log| < |q.links| {
      var e := if !q.links[d].started then RunThen(d) else if q.links[d].body.Pending? then BodyEnds(d, true) else RunCatch(d);
      assert Ready(q, e);
    }
    forall e: Event | Ready(q, e) && !e.Enqueue? ensures Owed(React(q, e).links) < Owed(q.links) {
      OwedChange(q.links, e.i, React(q, e).links[e.i]);
    }
  }

  // ---------- The protocol's queue ----------

  /** The order ids waiting, in order. */
  function Waiting(q: Queue): seq<nat>
    requires |q.log| <= |q.links|
  {
    Ids(q.links)[|q.log|..]
  }

  predicate Busy(q: Queue) {
    exists l <- q.links :: Running(l)
  }

  /** The promise chain behaves as the protocol's queue: an enqueue appends, a body starts only when none
      runs and is the head of the queue, and the end of a body only frees the process. */
  lemma ChainIsAQueue(states: seq<Queue>, events: seq<Event>, n: nat)
    requires IsRun(states, events) && n < |events|
    ensures |states[n].log| <= |states[n].links| && |states[n + 1].log| <= |states[n + 1].links|
    ensures var q, q' := states[n], states[n + 1];
      match events[n]
      case Enqueue(id) => Waiting(q') == Waiting(q) + [id] && Busy(q') == Busy(q)
      case RunThen(i) => !Busy(q) && Waiting(q) != [] && Waiting(q)[0] == q.links[i].orderId && Waiting(q') == Waiting(q)[1..] && Busy(q')
      case BodyEnds(i, _) => Busy(q) && !Busy(q') && Waiting(q') == Waiting(q)
      case RunCatch(i) => !Busy(q) && !Busy(q') && Waiting(q') == Waiting(q)
  {
    hide Busy, Shape, Ready, React;
    var d := RunHasShape(states, events, n);
    StepIsTheQueues(states[n], events[n], d);
  }

  lemma BusyAtWork(q: Queue, d: nat)
    requires Shape(q, d)
    ensures Busy(q) <==> d < |q.links| && Running(q.links[d])
  {
    if d < |q.links| && Running(q.links[d]) {
      assert q.links[d] in q.links;
    }
  }

  lemma StepIsTheQueues(q: Queue, e: Event, d: nat)
    requires Shape(q, d) && Ready(q, e)
    ensures |q.log| <= |q.links| && |React(q, e).log| <= |React(q, e).links|
    ensures var q' := React(q, e);
      match e
      case Enqueue(id) => Waiting(q') == Waiting(q) + [id] && Busy(q') == Busy(q)
      case RunThen(i) => !Busy(q) && Waiting(q) != [] && Waiting(q)[0] == q.links[i].orderId && Waiting(q') == Waiting(q)[1..] && Busy(q')
      case BodyEnds(i, _) => Busy(q) && !Busy(q') && Waiting(q') == Waiting(q)
      case RunCatch(i) => !Busy(q) && !Busy(q') && Waiting(q') == Waiting(q)
  {
    hide Busy, Ids;
    var d' := StepKeepsShape(q, d, e);
    IdsAfter(q, e);
    BusyAtWork(q, d);
    BusyAtWork(React(q, e), d');
  }
}
