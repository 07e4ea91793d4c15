/**
  The notification queue: events on one side, parked waiters on the other, paired
  first come first served. A waiter can be cancelled underneath the pump, and
  completing a waiter may call back into the queue.
*/
module Notify {
  import opened Words

  const MAX: nat := 100

  datatype Message = Message(kind: u32, arg1: u32, arg2: u32)

  /** What became of a posted event that has left the queue. */
  datatype Fate = Sent(waiter: nat) | Dropped

  /** How a waiter was completed by this queue. */
  datatype Answer = Event(message: Message, waiter: nat) | Aborted(waiter: nat)

  /** A waiter is named by the number of the wait call that parked it. */
  datatype Call = PostCall(message: Message) | WaitCall | CancelCall(waiter: nat) | FlushCall

  /**
    `claims` decides each attempt to claim a waiter, and `callbacks` lists what each
    completion calls back with. The rest of the second half is the model's books:
    every event posted, what became of those that left, every completion in order,
    and the waiters somebody else completes.
  */
  datatype Queue = Queue(
    events: seq<Message>, waiters: seq<nat>, delivering: bool, dropped: nat,
    claims: seq<bool>, callbacks: seq<seq<Call>>,
    posts: seq<Message>, fates: seq<Fate>, answers: seq<Answer>, gone: set<nat>, tickets: nat)

  /** A queue as initialized, its claims and callbacks decided elsewhere. */
  function Init(claims: seq<bool>, callbacks: seq<seq<Call>>): Queue {
    Queue([], [], false, 0, claims, callbacks, [], [], [], {}, 0)
  }

  // ---- steps -------------------------------------------------------------------------

  /** Append an event; a full queue drops its oldest. */
  function Enqueue(q: Queue, m: Message): Queue {
    var full := |q.events| >= MAX;
    q.(events := (if full then q.events[1..] else q.events) + [m],
       dropped := if full then q.dropped + 1 else q.dropped,
       fates := if full then q.fates + [Dropped] else q.fates,
       posts := q.posts + [m])
  }

  function Park(q: Queue): Queue {
    q.(waiters := q.waiters + [q.tickets], tickets := q.tickets + 1)
  }

  function Without(waiters: seq<nat>, w: nat): seq<nat> {
    if waiters == [] then []
    else if waiters[0] == w then waiters[1..]
    else [waiters[0]] + Without(waiters[1..], w)
  }

  /** Take a waiter off the list, if a completion has not done so already. */
  function Cancel(q: Queue, w: nat): Queue {
    if w in q.waiters then q.(waiters := Without(q.waiters, w), gone := q.gone + {w}) else q
  }

  predicate Claimed(q: Queue) {
    q.claims == [] || q.claims[0]
  }

  /** Take the first waiter off the list and try to claim it; one that cannot be claimed is somebody else's. */
  function TakeWaiter(q: Queue): Queue
    requires q.waiters != []
  {
    q.(waiters := q.waiters[1..],
       claims := if q.claims == [] then [] else q.claims[1..],
       gone := if Claimed(q) then q.gone else q.gone + {q.waiters[0]})
  }

  /** Hand the oldest event to a claimed waiter. */
  function Deliver(q: Queue, w: nat): Queue
    requires q.events != []
  {
    q.(events := q.events[1..], fates := q.fates + [Sent(w)], answers := q.answers + [Event(q.events[0], w)])
  }

  function Abort(q: Queue, w: nat): Queue {
    q.(answers := q.answers + [Aborted(w)])
  }

  // ---- the four calls ------------------------------------------------------------------

  /** One call into the queue. Only the outermost one that finds work starts a pump. */
  function Apply(q: Queue, c: Call): (r: Queue)
    ensures |r.callbacks| <= |q.callbacks|
    ensures r.delivering == q.delivering
    decreases |q.callbacks|, 2, 0
  {
    match c
    case PostCall(m) =>
      var q1 := Enqueue(q, m);
      if q1.waiters != [] && !q1.delivering then Pump(q1.(delivering := true)) else q1
    case WaitCall =>
      var q1 := Park(q);
      if q1.events != [] && !q1.delivering then Pump(q1.(delivering := true)) else q1
    case CancelCall(w) => Cancel(q, w)
    case FlushCall => Flush(q)
  }

  function ApplyAll(q: Queue, calls: seq<Call>): (r: Queue)
    ensures |r.callbacks| <= |q.callbacks|
    ensures r.delivering == q.delivering
    decreases |q.callbacks|, 3, |calls|
  {
    if calls == [] then q else ApplyAll(Apply(q, calls[0]), calls[1..])
  }

  /** What completing a waiter calls back with. */
  function Callback(q: Queue): (r: Queue)
    ensures if q.callbacks == [] then r == q else |r.callbacks| < |q.callbacks|
    ensures r.delivering == q.delivering
    decreases |q.callbacks|, 0, 0
  {
    if q.callbacks == [] then q else ApplyAll(q.(callbacks := q.callbacks[1..]), q.callbacks[0])
  }

  /** Hand events to waiters, one for one, until either runs out. */
  function Pump(q: Queue): (r: Queue)
    ensures |r.callbacks| <= |q.callbacks|
    ensures !r.delivering && (r.events == [] || r.waiters == [])
    decreases |q.callbacks|, 1, |q.waiters|
  {
    if q.events == [] || q.waiters == [] then q.(delivering := false)
    else
      var q1 := TakeWaiter(q);
      if Claimed(q) then Pump(Callback(Deliver(q1, q.waiters[0]))) else Pump(q1)
  }

  /** Complete every waiter without an event. */
  function Flush(q: Queue): (r: Queue)
    ensures |r.callbacks| <= |q.callbacks|
    ensures r.delivering == q.delivering && r.waiters == []
    decreases |q.callbacks|, 1, |q.waiters|
  {
    if q.waiters == [] then q
    else
      var q1 := TakeWaiter(q);
      if Claimed(q) then Flush(Callback(Abort(q1, q.waiters[0]))) else Flush(q1)
  }

  /** A wait call's answer compares the number of queued events before and after. */
  function WaitServed(q: Queue): bool {
    q.events != [] && !q.delivering && |Apply(q, WaitCall).events| < |q.events|
  }

  // ---- the books -------------------------------------------------------------------------

  /** The completions the fates speak of, in posting order. */
  function SentOnes(posts: seq<Message>, fates: seq<Fate>): seq<Answer>
    requires |fates| <= |posts|
  {
    if fates == [] then []
    else
      var n := |fates| - 1;
      SentOnes(posts, fates[..n]) + if fates[n].Sent? then [Event(posts[n], fates[n].waiter)] else []
  }

  function DroppedOnes(fates: seq<Fate>): nat {
    if fates == [] then 0
    else DroppedOnes(fates[..|fates| - 1]) + if fates[|fates| - 1].Dropped? then 1 else 0
  }

  /** The completions that carried an event. */
  function Deliveries(answers: seq<Answer>): seq<Answer> {
    if answers == [] then []
    else
      var n := |answers| - 1;
      Deliveries(answers[..n]) + if answers[n].Event? then [answers[n]] else []
  }

  ghost predicate Ascending(tickets: seq<nat>) {
    forall i, j :: 0 <= i < j < |tickets| ==> tickets[i] < tickets[j]
  }

  function Answered(answers: seq<Answer>): seq<nat> {
    seq(|answers|, i requires 0 <= i < |answers| => answers[i].waiter)
  }

  /** Waiters completed and waiters parked, in that order. */
  function Line(q: Queue): seq<nat> {
    Answered(q.answers) + q.waiters
  }

  ghost predicate Booked(q: Queue) {
    && |q.events| <= MAX
    && |q.fates| <= |q.posts|
    && q.events == q.posts[|q.fates|..]
    && Deliveries(q.answers) == SentOnes(q.posts, q.fates)
    && q.dropped == DroppedOnes(q.fates)
  }

  /** Waiters are completed in the order they were parked, and each is in one place. */
  ghost predicate InLine(line: seq<nat>, gone: set<nat>, tickets: nat) {
    && Ascending(line)
    && (forall i :: 0 <= i < |line| ==> line[i] < tickets && line[i] !in gone)
    && (forall w :: w in gone ==> w < tickets)
    && |line| + |gone| == tickets
  }

  ghost predicate Inv(q: Queue) {
    Booked(q) && InLine(Line(q), q.gone, q.tickets)
  }

  /** Outside a pump either no event is queued or no waiter is parked. */
  ghost predicate AtRest(q: Queue) {
    !q.delivering ==> q.events == [] || q.waiters == []
  }

  lemma SentSnoc(posts: seq<Message>, fates: seq<Fate>, f: Fate)
    requires |fates| < |posts|
    ensures SentOnes(posts, fates + [f])
         == SentOnes(posts, fates) + if f.Sent? then [Event(posts[|fates|], f.waiter)] else []
    ensures DroppedOnes(fates + [f]) == DroppedOnes(fates) + if f.Dropped? then 1 else 0
  {
    assert (fates + [f])[..|fates|] == fates;
  }

  lemma {:induction false} SentIgnoresLaterPosts(posts: seq<Message>, fates: seq<Fate>, m: Message)
    requires |fates| <= |posts|
    ensures SentOnes(posts + [m], fates) == SentOnes(posts, fates)
    decreases |fates|
  {
    if fates != [] {
      SentIgnoresLaterPosts(posts, fates[..|fates| - 1], m);
    }
  }

  lemma EnqueueKeeps(q: Queue, m: Message)
    requires Inv(q)
    ensures Inv(Enqueue(q, m))
  {
    hide InLine;
    var posts1 := q.posts + [m];
    SentIgnoresLaterPosts(q.posts, q.fates, m);
    assert posts1[|q.fates|..] == q.events + [m];
    if |q.events| >= MAX {
      SentSnoc(posts1, q.fates, Dropped);
      assert posts1[|q.fates| + 1..] == q.events[1..] + [m];
    }
  }

  lemma ParkKeeps(q: Queue)
    requires Inv(q)
    ensures Inv(Park(q))
  {
    assert Line(Park(q)) == Line(q) + [q.tickets];
  }


  /** A parked waiter that leaves the line for `gone` is still in one place. */
  lemma Leave(line: seq<nat>, gone: set<nat>, tickets: nat, i: nat)
    requires InLine(line, gone, tickets) && i < |line|
    ensures InLine(line[..i] + line[i + 1..], gone + {line[i]}, tickets)
  {
    var rest := line[..i] + line[i + 1..];
    assert forall k :: 0 <= k < |rest| ==> rest[k] == line[if k < i then k else k + 1];
  }

  lemma TakeWaiterKeeps(q: Queue)
    requires Inv(q) && q.waiters != [] && !Claimed(q)
    ensures Inv(TakeWaiter(q))
  {
    var n := |q.answers|;
    Leave(Line(q), q.gone, q.tickets, n);
    assert Line(TakeWaiter(q)) == Line(q)[..n] + Line(q)[n + 1..];
  }

  lemma DeliverKeeps(q: Queue)
    requires Inv(q) && q.waiters != [] && q.events != [] && Claimed(q)
    ensures Inv(Deliver(TakeWaiter(q), q.waiters[0]))
  {
    hide InLine;
    var w := q.waiters[0];
    var q2 := Deliver(TakeWaiter(q), w);
    SentSnoc(q.posts, q.fates, Sent(w));
    assert q2.answers[..|q.answers|] == q.answers;
    assert q2.events == q.posts[|q.fates| + 1..];
    assert Line(q2) == Line(q);
  }

  lemma AbortKeeps(q: Queue)
    requires Inv(q) && q.waiters != [] && Claimed(q)
    ensures Inv(Abort(TakeWaiter(q), q.waiters[0]))
  {
    hide InLine, SentOnes;
    var q2 := Abort(TakeWaiter(q), q.waiters[0]);
    assert q2.answers[..|q.answers|] == q.answers;
    assert Line(q2) == Line(q);
  }

  lemma {:induction false} WithoutAt(waiters: seq<nat>, w: nat) returns (i: nat)
    requires w in waiters
    ensures i < |waiters| && waiters[i] == w && Without(waiters, w) == waiters[..i] + waiters[i + 1..]
    decreases |waiters|
  {
    if waiters[0] == w {
      i := 0;
    } else {
      var k := WithoutAt(waiters[1..], w);
      i := k + 1;
    }
  }

  lemma CancelKeeps(q: Queue, w: nat)
    requires Inv(q)
    ensures Inv(Cancel(q, w))
  {
    if w in q.waiters {
      var i := WithoutAt(q.waiters, w);
      hide Without, SentOnes, Deliveries;
      var n := |q.answers| + i;
      Leave(Line(q), q.gone, q.tickets, n);
      assert Line(Cancel(q, w)) == Line(q)[..n] + Line(q)[n + 1..];
    }
  }

  // ---- every call keeps the books ---------------------------------------------------------

  lemma {:induction false} ApplyKeeps(q: Queue, c: Call)
    requires Inv(q)
    ensures Inv(Apply(q, c))
    ensures AtRest(q) ==> AtRest(Apply(q, c))
    decreases |q.callbacks|, 2, 0
  {
    hide InLine, Booked, Enqueue, Park, Line;
    match c
    case PostCall(m) =>
      EnqueueKeeps(q, m);
      EnqueueFrame(q, m);
      var q1 := Enqueue(q, m);
      if q1.waiters != [] && !q1.delivering {
        LatchKeeps(q1);
        PumpKeeps(q1.(delivering := true));
      }
    case WaitCall =>
      ParkKeeps(q);
      ParkFrame(q);
      var q1 := Park(q);
      if q1.events != [] && !q1.delivering {
        LatchKeeps(q1);
        PumpKeeps(q1.(delivering := true));
      }
    case CancelCall(w) =>
      CancelKeeps(q, w);
    case FlushCall =>
      FlushKeeps(q);
  }

  lemma EnqueueFrame(q: Queue, m: Message)
    ensures Enqueue(q, m).waiters == q.waiters && Enqueue(q, m).delivering == q.delivering
    ensures Enqueue(q, m).callbacks == q.callbacks
  {
  }

  lemma ParkFrame(q: Queue)
    ensures Park(q).events == q.events && Park(q).delivering == q.delivering
    ensures Park(q).callbacks == q.callbacks
  {
  }

  lemma LatchKeeps(q: Queue)
    requires Inv(q)
    ensures Inv(q.(delivering := true)) && Inv(q.(delivering := false))
  {
    hide InLine;
  }

  lemma {:induction false} ApplyAllKeeps(q: Queue, calls: seq<Call>)
    requires Inv(q)
    ensures Inv(ApplyAll(q, calls))
    ensures AtRest(q) ==> AtRest(ApplyAll(q, calls))
    decreases |q.callbacks|, 3, |calls|
  {
    hide Inv, Apply, AtRest;
    if calls != [] {
      ApplyKeeps(q, calls[0]);
      ApplyAllKeeps(Apply(q, calls[0]), calls[1..]);
    }
  }

  lemma {:induction false} CallbackKeeps(q: Queue)
    requires Inv(q)
    ensures Inv(Callback(q))
    ensures AtRest(q) ==> AtRest(Callback(q))
    decreases |q.callbacks|, 0, 0
  {
    hide InLine, Booked, ApplyAll;
    if q.callbacks != [] {
      var q1 := q.(callbacks := q.callbacks[1..]);
      assert Inv(q1) by { CallbacksDoNotCount(q, q.callbacks[1..]); }
      ApplyAllKeeps(q1, q.callbacks[0]);
    }
  }

  lemma CallbacksDoNotCount(q: Queue, callbacks: seq<seq<Call>>)
    requires Inv(q)
    ensures Inv(q.(callbacks := callbacks))
  {
    hide InLine;
  }

  lemma {:induction false} PumpKeeps(q: Queue)
    requires Inv(q)
    ensures Inv(Pump(q)) && AtRest(Pump(q))
    decreases |q.callbacks|, 1, |q.waiters|
  {
    hide InLine, Booked, Line, Callback;
    if q.events == [] || q.waiters == [] {
      LatchKeeps(q);
    } else if Claimed(q) {
      DeliverKeeps(q);
      var q2 := Deliver(TakeWaiter(q), q.waiters[0]);
      CallbackKeeps(q2);
      PumpKeeps(Callback(q2));
    } else {
      TakeWaiterKeeps(q);
      PumpKeeps(TakeWaiter(q));
    }
  }

  lemma {:induction false} FlushKeeps(q: Queue)
    requires Inv(q)
    ensures Inv(Flush(q)) && AtRest(Flush(q))
    decreases |q.callbacks|, 1, |q.waiters|
  {
    hide InLine, Booked, Line, Callback;
    if q.waiters == [] {
    } else if Claimed(q) {
      AbortKeeps(q);
      var q2 := Abort(TakeWaiter(q), q.waiters[0]);
      CallbackKeeps(q2);
      FlushKeeps(Callback(q2));
    } else {
      TakeWaiterKeeps(q);
      FlushKeeps(TakeWaiter(q));
    }
  }
}
