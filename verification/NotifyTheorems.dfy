/** What the notification queue promises over every run of calls into it. */
module NotifyTheorems {
  import opened Words
  import opened Notify

  /** The state after a run of calls on a queue as initialized. */
  function After(claims: seq<bool>, callbacks: seq<seq<Call>>, calls: seq<Call>): Queue {
    ApplyAll(Init(claims, callbacks), calls)
  }

  lemma AfterKeeps(claims: seq<bool>, callbacks: seq<seq<Call>>, calls: seq<Call>)
    ensures Inv(After(claims, callbacks, calls)) && AtRest(After(claims, callbacks, calls))
    ensures !After(claims, callbacks, calls).delivering
  {
    ApplyAllKeeps(Init(claims, callbacks), calls);
    hide ApplyAll;
  }

  lemma {:induction false} FatesAddUp(posts: seq<Message>, fates: seq<Fate>)
    requires |fates| <= |posts|
    ensures |SentOnes(posts, fates)| + DroppedOnes(fates) == |fates|
    decreases |fates|
  {
    if fates != [] {
      FatesAddUp(posts, fates[..|fates| - 1]);
    }
  }

  /**
    Whatever is posted, waited for, cancelled and flushed, and whatever completions
    call back with: events posted are those delivered, dropped or still queued; the
    queued ones are the newest; and when no call is running one side is empty.
  */
  lemma EveryPostIsAccountedFor(claims: seq<bool>, callbacks: seq<seq<Call>>, calls: seq<Call>)
    ensures var q := After(claims, callbacks, calls);
            && |q.posts| == |Deliveries(q.answers)| + q.dropped + |q.events|
            && |q.fates| == |Deliveries(q.answers)| + q.dropped
            && q.events == q.posts[|q.fates|..] && |q.events| <= MAX
            && (q.events == [] || q.waiters == [])
  {
    AfterKeeps(claims, callbacks, calls);
    hide After;
    var q := After(claims, callbacks, calls);
    FatesAddUp(q.posts, q.fates);
  }

  lemma {:induction false} SentAt(posts: seq<Message>, fates: seq<Fate>) returns (at: seq<nat>)
    requires |fates| <= |posts|
    ensures |at| == |SentOnes(posts, fates)| && Ascending(at)
    ensures forall k :: 0 <= k < |at| ==>
              at[k] < |fates| && fates[at[k]].Sent?
              && SentOnes(posts, fates)[k] == Event(posts[at[k]], fates[at[k]].waiter)
    decreases |fates|
  {
    if fates == [] {
      at := [];
    } else {
      var n := |fates| - 1;
      at := SentAt(posts, fates[..n]);
      if fates[n].Sent? {
        at := at + [n];
      }
    }
  }

  /**
    What was delivered is a subsequence of what was posted, in order, each post
    delivered once at most: `at` gives the posts that were.
  */
  lemma DeliveriesFollowThePosts(claims: seq<bool>, callbacks: seq<seq<Call>>, calls: seq<Call>)
    returns (at: seq<nat>)
    ensures var q := After(claims, callbacks, calls);
            && |at| == |Deliveries(q.answers)| && Ascending(at)
            && forall k :: 0 <= k < |at| ==>
                 at[k] < |q.posts| && Deliveries(q.answers)[k].Event?
                 && Deliveries(q.answers)[k].message == q.posts[at[k]]
  {
    AfterKeeps(claims, callbacks, calls);
    hide After;
    var q := After(claims, callbacks, calls);
    at := SentAt(q.posts, q.fates);
  }

  /**
    Every wait call ends in one place: completed, still parked, or somebody else's to
    complete. None is completed twice, and completions come in the order of the calls.
  */
  lemma EveryWaitIsAccountedFor(claims: seq<bool>, callbacks: seq<seq<Call>>, calls: seq<Call>)
    ensures var q := After(claims, callbacks, calls);
            && q.tickets == |q.answers| + |q.waiters| + |q.gone|
            && (forall i, j :: 0 <= i < j < |q.answers| ==> q.answers[i].waiter < q.answers[j].waiter)
            && (forall a :: a in q.answers ==> a.waiter !in q.waiters && a.waiter !in q.gone)
            && (forall w :: w in q.waiters ==> w !in q.gone)
  {
    AfterKeeps(claims, callbacks, calls);
    hide After, Booked;
    var q := After(claims, callbacks, calls);
    var line := Line(q);
    var n := |q.answers|;
    assert forall i :: 0 <= i < n ==> line[i] == q.answers[i].waiter;
    assert forall i :: 0 <= i < |q.waiters| ==> line[n + i] == q.waiters[i];
  }

  /** A cancelled wait call is never completed, whatever is called afterwards. */
  lemma CancelledMeansNeverAnswered(
    claims: seq<bool>, callbacks: seq<seq<Call>>, before: seq<Call>, w: nat, later: seq<Call>)
    requires w in After(claims, callbacks, before).waiters
    ensures var q := ApplyAll(Cancel(After(claims, callbacks, before), w), later);
            w in q.gone && forall a :: a in q.answers ==> a.waiter != w
  {
    AfterKeeps(claims, callbacks, before);
    hide After, ApplyAll, Booked;
    var q0 := After(claims, callbacks, before);
    CancelKeeps(q0, w);
    var q1 := Cancel(q0, w);
    ApplyAllKeeps(q1, later);
    GoneStaysGone(q1, later, w);
    var q := ApplyAll(q1, later);
    forall a | a in q.answers
      ensures a.waiter != w
    {
      var i :| 0 <= i < |q.answers| && q.answers[i] == a;
      assert Line(q)[i] == a.waiter;
    }
  }

  lemma {:induction false} GoneStaysGone(q: Queue, calls: seq<Call>, w: nat)
    requires w in q.gone
    ensures w in ApplyAll(q, calls).gone
    decreases |q.callbacks|, 3, |calls|
  {
    hide Apply;
    if calls != [] {
      GoneAfterApply(q, calls[0], w);
      GoneStaysGone(Apply(q, calls[0]), calls[1..], w);
    }
  }

  lemma {:induction false} GoneAfterApply(q: Queue, c: Call, w: nat)
    requires w in q.gone
    ensures w in Apply(q, c).gone
    decreases |q.callbacks|, 2, 0
  {
    match c
    case PostCall(m) => GoneAfterPump(Enqueue(q, m).(delivering := true), w);
    case WaitCall => GoneAfterPump(Park(q).(delivering := true), w);
    case CancelCall(_) =>
    case FlushCall => GoneAfterFlush(q, w);
  }

  lemma {:induction false} GoneAfterCallback(q: Queue, w: nat)
    requires w in q.gone
    ensures w in Callback(q).gone
    decreases |q.callbacks|, 0, 0
  {
    if q.callbacks != [] {
      GoneStaysGone(q.(callbacks := q.callbacks[1..]), q.callbacks[0], w);
    }
  }

  lemma {:induction false} GoneAfterPump(q: Queue, w: nat)
    requires w in q.gone
    ensures w in Pump(q).gone
    decreases |q.callbacks|, 1, |q.waiters|
  {
    hide Callback;
    if q.events != [] && q.waiters != [] {
      if Claimed(q) {
        var q2 := Deliver(TakeWaiter(q), q.waiters[0]);
        GoneAfterCallback(q2, w);
        GoneAfterPump(Callback(q2), w);
      } else {
        GoneAfterPump(TakeWaiter(q), w);
      }
    }
  }

  lemma {:induction false} GoneAfterFlush(q: Queue, w: nat)
    requires w in q.gone
    ensures w in Flush(q).gone
    decreases |q.callbacks|, 1, |q.waiters|
  {
    hide Callback;
    if q.waiters != [] {
      if Claimed(q) {
        var q2 := Abort(TakeWaiter(q), q.waiters[0]);
        GoneAfterCallback(q2, w);
        GoneAfterFlush(Callback(q2), w);
      } else {
        GoneAfterFlush(TakeWaiter(q), w);
      }
    }
  }

  /** A pump whose every claim fails empties the waiters and consumes nothing. */
  lemma {:induction false} FailedClaimsConsumeNothing(q: Queue)
    requires |q.waiters| <= |q.claims| && forall i :: 0 <= i < |q.waiters| ==> !q.claims[i]
    ensures var r := Pump(q);
            && r.events == q.events && r.fates == q.fates && r.answers == q.answers
            && (q.events != [] ==> r.waiters == [])
    decreases |q.waiters|
  {
    if q.events != [] && q.waiters != [] {
      FailedClaimsConsumeNothing(TakeWaiter(q));
    }
  }

  // ---- what a wait call's answer means ------------------------------------------------------

  /** A wait call is completed by the time it returns. */
  ghost predicate WaitCompleted(q: Queue) {
    |Apply(q, WaitCall).answers| > |q.answers|
  }

  /** The answer of a wait call is true exactly when it was completed. */
  ghost predicate WaitHonest(q: Queue) {
    WaitServed(q) <==> WaitCompleted(q)
  }

  /**
    What the answer really says, for every queue and whatever completions call back
    with: more events were delivered during the call than were posted and kept.
  */
  lemma WaitComparesDeliveriesWithPosts(q: Queue)
    requires Inv(q) && AtRest(q) && !q.delivering
    ensures var r := Apply(q, WaitCall);
            WaitServed(q) <==>
              |Deliveries(r.answers)| - |Deliveries(q.answers)| > (|r.posts| - |q.posts|) - (r.dropped - q.dropped)
  {
    ApplyKeeps(q, WaitCall);
    hide InLine;
    var r := Apply(q, WaitCall);
    FatesAddUp(q.posts, q.fates);
    FatesAddUp(r.posts, r.fates);
    if q.events == [] {
      ParkFrame(q);
      assert r == Park(q);
    } else {
      hide Apply;
    }
  }

  ghost predicate PostFree(calls: seq<Call>) {
    forall i :: 0 <= i < |calls| ==> !calls[i].PostCall?
  }

  /** No completion posts. */
  ghost predicate NobodyPosts(callbacks: seq<seq<Call>>) {
    forall i :: 0 <= i < |callbacks| ==> PostFree(callbacks[i])
  }

  /** While nobody posts, events only leave and answers only accumulate. */
  ghost predicate Drains(q: Queue, r: Queue) {
    NobodyPosts(r.callbacks) && |r.events| <= |q.events| && |r.answers| >= |q.answers|
  }

  lemma {:induction false} ApplyDrains(q: Queue, c: Call)
    requires NobodyPosts(q.callbacks) && !c.PostCall?
    ensures Drains(q, Apply(q, c))
    decreases |q.callbacks|, 2, 0
  {
    hide NobodyPosts;
    match c
    case WaitCall =>
      ParkFrame(q);
      if q.events != [] && !q.delivering {
        PumpDrains(Park(q).(delivering := true));
      }
    case CancelCall(_) =>
    case FlushCall => FlushDrains(q);
  }

  lemma {:induction false} ApplyAllDrains(q: Queue, calls: seq<Call>)
    requires NobodyPosts(q.callbacks) && PostFree(calls)
    ensures Drains(q, ApplyAll(q, calls))
    decreases |q.callbacks|, 3, |calls|
  {
    hide Apply, NobodyPosts;
    if calls != [] {
      ApplyDrains(q, calls[0]);
      ApplyAllDrains(Apply(q, calls[0]), calls[1..]);
    }
  }

  lemma {:induction false} CallbackDrains(q: Queue)
    requires NobodyPosts(q.callbacks)
    ensures Drains(q, Callback(q))
    decreases |q.callbacks|, 0, 0
  {
    if q.callbacks != [] {
      var q1 := q.(callbacks := q.callbacks[1..]);
      ApplyAllDrains(q1, q.callbacks[0]);
    }
    hide ApplyAll;
  }

  lemma {:induction false} PumpDrains(q: Queue)
    requires NobodyPosts(q.callbacks)
    ensures Drains(q, Pump(q))
    decreases |q.callbacks|, 1, |q.waiters|
  {
    hide Callback, NobodyPosts;
    if q.events != [] && q.waiters != [] {
      if Claimed(q) {
        var q2 := Deliver(TakeWaiter(q), q.waiters[0]);
        CallbackDrains(q2);
        PumpDrains(Callback(q2));
      } else {
        PumpDrains(TakeWaiter(q));
      }
    }
  }

  lemma {:induction false} FlushDrains(q: Queue)
    requires NobodyPosts(q.callbacks)
    ensures Drains(q, Flush(q))
    decreases |q.callbacks|, 1, |q.waiters|
  {
    hide Callback, NobodyPosts;
    if q.waiters != [] {
      if Claimed(q) {
        var q2 := Abort(TakeWaiter(q), q.waiters[0]);
        CallbackDrains(q2);
        FlushDrains(Callback(q2));
      } else {
        FlushDrains(TakeWaiter(q));
      }
    }
  }

  /** The queue when the wait's own completion calls back: its event handed over, nobody parked. */
  ghost function Handed(q: Queue): Queue
    requires q.events != [] && !q.delivering && q.waiters == []
  {
    Deliver(TakeWaiter(Park(q).(delivering := true)), q.tickets)
  }

  /** A wait call at rest that finds an event either hands it over and pumps on, or loses its claim. */
  lemma WaitUnfolds(q: Queue)
    requires AtRest(q) && !q.delivering && q.events != []
    ensures q.waiters == []
    ensures var h := Handed(q);
            && h.events == q.events[1..] && h.waiters == [] && h.delivering && h.callbacks == q.callbacks
            && |h.answers| == |q.answers| + 1
    ensures if Claimed(q) then Apply(q, WaitCall) == Pump(Callback(Handed(q)))
            else Apply(q, WaitCall).events == q.events && Apply(q, WaitCall).answers == q.answers
  {
    hide Callback;
    var q2 := Park(q).(delivering := true);
    assert q2.waiters == [q.tickets];
    assert Claimed(q2) == Claimed(q);
    if !Claimed(q) {
      assert TakeWaiter(q2).waiters == [];
      assert Pump(TakeWaiter(q2)) == TakeWaiter(q2).(delivering := false);
    }
  }

  /**
    If no completion posts, a wait call answers true exactly when it was completed on
    the spot, whatever waits, cancellations and flushes completions call back with.
  */
  lemma WaitAnswersHonestly(q: Queue)
    requires AtRest(q) && !q.delivering && NobodyPosts(q.callbacks)
    ensures WaitHonest(q)
  {
    if q.events != [] {
      WaitUnfolds(q);
      if Claimed(q) {
        hide Callback, Pump, Apply, NobodyPosts;
        CallbackDrains(Handed(q));
        PumpDrains(Callback(Handed(q)));
      }
    }
  }

  function Posts(calls: seq<Call>): nat {
    if calls == [] then 0 else (if calls[0].PostCall? then 1 else 0) + Posts(calls[1..])
  }

  ghost predicate WaitFree(calls: seq<Call>) {
    forall i :: 0 <= i < |calls| ==> !calls[i].WaitCall?
  }

  /** From inside a pump with nobody parked, calls that do not wait only fill the queue. */
  lemma {:induction false} CallsFill(q: Queue, calls: seq<Call>)
    requires q.delivering && q.waiters == [] && |q.events| <= MAX && WaitFree(calls)
    ensures var r := ApplyAll(q, calls);
            && r.waiters == [] && r.answers == q.answers
            && |r.events| == Min(MAX, |q.events| + Posts(calls))
    decreases |calls|
  {
    if calls != [] {
      var q1 := Apply(q, calls[0]);
      assert calls[0].FlushCall? ==> Flush(q) == q;
      assert q1.waiters == [] && q1.answers == q.answers && q1.delivering;
      assert |q1.events| == Min(MAX, |q.events| + if calls[0].PostCall? then 1 else 0);
      hide Apply;
      CallsFill(q1, calls[1..]);
    }
  }

  /** What the first completion calls back with. */
  function FirstCallback(q: Queue): seq<Call> {
    if q.callbacks == [] then [] else q.callbacks[0]
  }

  /**
    When the answer is wrong. If nobody posts, or the wait's own completion calls back
    without waiting: a completed wait is denied exactly when there was an event, the
    claim succeeded and that completion posted.
  */
  lemma WaitIsDeniedExactlyWhenItsCompletionPosts(q: Queue)
    requires AtRest(q) && !q.delivering && |q.events| <= MAX
    requires NobodyPosts(q.callbacks) || WaitFree(FirstCallback(q))
    ensures WaitHonest(q) <==> !(q.events != [] && Claimed(q) && Posts(FirstCallback(q)) > 0)
  {
    if NobodyPosts(q.callbacks) {
      WaitAnswersHonestly(q);
      assert PostFree(FirstCallback(q));
      PostFreeHasNone(FirstCallback(q));
    } else if q.events != [] {
      WaitUnfolds(q);
      if Claimed(q) {
        var h := Handed(q);
        CallsFill(h.(callbacks := if h.callbacks == [] then [] else h.callbacks[1..]), FirstCallback(q));
        var r := Callback(h);
        assert r.waiters == [] && |r.answers| == |q.answers| + 1;
        assert |r.events| == Min(MAX, |q.events| - 1 + Posts(FirstCallback(q)));
        assert Pump(r) == r.(delivering := false);
        hide Apply, Callback, Pump;
      }
    }
  }

  lemma {:induction false} PostFreeHasNone(calls: seq<Call>)
    requires PostFree(calls)
    ensures Posts(calls) == 0
    decreases |calls|
  {
    if calls != [] {
      PostFreeHasNone(calls[1..]);
    }
  }
}
