/** The notification queue over its fixed ring of events, updated in place. */
module NotifyEngine {
  import opened Words
  import opened Notify

  function Index(head: nat, i: nat): (r: nat)
    ensures r < MAX
  {
    (head + i) % MAX
  }

  /** `count` events of a circular buffer from `head` on. */
  function Unrolled(ring: seq<Message>, head: nat, count: nat): (s: seq<Message>)
    requires |ring| == MAX && head < MAX
    ensures |s| == count
  {
    seq(count, i requires 0 <= i < count => ring[Index(head, i)])
  }

  lemma IndexSteps(head: nat, i: nat)
    requires head < MAX && i < MAX
    ensures Index(Index(head, 1), i) == Index(head, i + 1)
    ensures forall k: nat | k < i :: Index(head, k) != Index(head, i)
  {
    hide Index;
    IndexIs(head, 1);
    IndexIs(head, i);
    IndexIs(head, i + 1);
    IndexIs(Index(head, 1), i);
    forall k: nat | k < i
      ensures Index(head, k) != Index(head, i)
    {
      IndexIs(head, k);
    }
  }

  /** Wrapping round at most once. */
  lemma IndexIs(head: nat, i: nat)
    requires head < MAX && i <= MAX
    ensures Index(head, i) == if head + i < MAX then head + i else head + i - MAX
  {
  }

  /** The queue's object: a circular buffer, the waiters, and the delivery latch. */
  class Notifier {
    const ring: array<Message>
    var head: nat
    var count: nat
    var waiters: seq<nat>
    var delivering: bool
    var dropped: nat

    // What claiming and completing will do, decided elsewhere.
    var claims: seq<bool>
    var callbacks: seq<seq<Call>>

    ghost var posts: seq<Message>
    ghost var fates: seq<Fate>
    ghost var answers: seq<Answer>
    ghost var gone: set<nat>
    var tickets: nat

    ghost predicate Valid()
      reads this`head, this`count
    {
      ring.Length == MAX && head < MAX && count <= MAX
    }

    ghost function Events(): (s: seq<Message>)
      requires Valid()
      reads this`head, this`count, ring
      ensures |s| == count
    {
      Unrolled(ring[..], head, count)
    }

    ghost function View(): Queue
      requires Valid()
      reads this, ring
    {
      Queue(Events(), waiters, delivering, dropped, claims, callbacks, posts, fates, answers, gone, tickets)
    }

    constructor (claims: seq<bool>, callbacks: seq<seq<Call>>)
      ensures Valid() && fresh(ring) && View() == Init(claims, callbacks)
    {
      ring := new Message[MAX](_ => Message(0, 0, 0));
      head, count, waiters, delivering, dropped, tickets := 0, 0, [], false, 0, 0;
      this.claims, this.callbacks := claims, callbacks;
      posts, fates, answers, gone := [], [], [], {};
    }

    /** Drop the oldest event. */
    method DropOldest()
      requires Valid() && count > 0
      modifies this`head, this`count
      ensures Valid() && Events() == old(Events())[1..]
    {
      ghost var was := Events();
      ghost var first := head;
      head := (head + 1) % MAX;
      count := count - 1;
      forall i | 0 <= i < count
        ensures Events()[i] == was[i + 1]
      {
        IndexSteps(first, i);
      }
    }

    /** Write an event behind the last one. */
    method Put(m: Message)
      requires Valid() && count < MAX
      modifies this`count, ring
      ensures Valid() && Events() == old(Events()) + [m]
    {
      ghost var was := ring[..];
      var slot := (head + count) % MAX;
      ring[slot] := m;
      IndexSteps(head, count);
      assert Index(head, count) == slot;
      hide Index;
      assert ring[..] == was[slot := m];
      count := count + 1;
    }

    method Append(m: Message)
      requires Valid()
      modifies this`head, this`count, this`dropped, this`posts, this`fates, ring
      ensures Valid() && View() == Enqueue(old(View()), m)
    {
      if count >= MAX {
        DropOldest();
        dropped := dropped + 1;
        fates := fates + [Dropped];
      }
      Put(m);
      posts := posts + [m];
    }

    /** Unlink a waiter from the list. */
    method Remove(w: nat)
      modifies this`waiters
      ensures waiters == Without(old(waiters), w)
    {
      var i := 0;
      while i < |waiters| && waiters[i] != w
        invariant 0 <= i <= |waiters| && waiters == old(waiters)
        invariant Without(waiters, w) == waiters[..i] + Without(waiters[i..], w)
      {
        assert waiters[..i + 1] + Without(waiters[i + 1..], w) == waiters[..i] + Without(waiters[i..], w);
        i := i + 1;
      }
      if i < |waiters| {
        assert waiters[i..][1..] == waiters[i + 1..];
        waiters := waiters[..i] + waiters[i + 1..];
      } else {
        assert waiters[..i] + [] == waiters;
      }
    }

    /** `core_notify_cancel`. */
    method CancelWaiter(w: nat) returns (taken: bool)
      requires Valid()
      modifies this`waiters, this`gone
      ensures Valid() && View() == Cancel(old(View()), w) && (taken <==> w in old(waiters))
    {
      taken := w in waiters;
      if taken {
        Remove(w);
        gone := gone + {w};
      }
    }

    /** Take the first waiter off the list and try to claim it. */
    method Claim() returns (w: nat, won: bool)
      requires Valid() && waiters != []
      modifies this`waiters, this`claims, this`gone
      ensures Valid() && View() == TakeWaiter(old(View()))
      ensures w == old(waiters[0]) && won == Claimed(old(View()))
    {
      w := waiters[0];
      waiters := waiters[1..];
      won := claims == [] || claims[0];
      if claims != [] {
        claims := claims[1..];
      }
      if !won {
        gone := gone + {w};
      }
    }

    /** Hand the oldest event to a claimed waiter. */
    method DeliverTo(w: nat)
      requires Valid() && count > 0
      modifies this`head, this`count, this`fates, this`answers
      ensures Valid() && View() == Deliver(old(View()), w)
    {
      ghost var q := View();
      var m := ring[head];
      assert m == q.events[0];
      DropOldest();
      fates := fates + [Sent(w)];
      answers := answers + [Event(m, w)];
    }

    /** Completing a waiter calls back into the queue. */
    method CallBack()
      requires Valid()
      modifies this, ring
      ensures Valid() && View() == Callback(old(View()))
      decreases |callbacks|, 0, 0
    {
      if callbacks != [] {
        var calls := callbacks[0];
        callbacks := callbacks[1..];
        CallAll(calls);
      }
    }

    /** `notify_pump`. */
    method PumpInPlace()
      requires Valid()
      modifies this, ring
      ensures Valid() && View() == Pump(old(View()))
      decreases |callbacks|, 1, 0
    {
      while count > 0 && waiters != []
        invariant Valid() && |callbacks| <= old(|callbacks|)
        invariant Pump(View()) == Pump(old(View()))
        decreases |callbacks|, |waiters|
      {
        hide Unrolled, Callback, Valid;
        var w, won := Claim();
        if won {
          DeliverTo(w);
          CallBack();
        }
      }
      delivering := false;
    }

    /** `core_notify_flush`. */
    method FlushInPlace()
      requires Valid()
      modifies this, ring
      ensures Valid() && View() == Flush(old(View()))
      decreases |callbacks|, 1, 0
    {
      while waiters != []
        invariant Valid() && |callbacks| <= old(|callbacks|)
        invariant Flush(View()) == Flush(old(View()))
        decreases |callbacks|, |waiters|
      {
        var w, won := Claim();
        if won {
          ghost var q := View();
          answers := answers + [Aborted(w)];
          assert View() == Abort(q, w);
          CallBack();
        }
      }
    }

    /** `core_notify_post`. */
    method PostEvent(m: Message)
      requires Valid()
      modifies this, ring
      ensures Valid() && View() == Apply(old(View()), PostCall(m))
      decreases |callbacks|, 2, 0
    {
      Append(m);
      if waiters != [] && !delivering {
        delivering := true;
        PumpInPlace();
      }
    }

    /** `core_notify_wait`. */
    method WaitEvent() returns (served: bool)
      requires Valid()
      modifies this, ring
      ensures Valid() && View() == Apply(old(View()), WaitCall) && served == WaitServed(old(View()))
      decreases |callbacks|, 2, 0
    {
      waiters := waiters + [tickets];
      tickets := tickets + 1;
      assert View() == Park(old(View()));
      served := false;
      if count > 0 && !delivering {
        var before := count;
        delivering := true;
        PumpInPlace();
        served := count < before;
      }
    }

    method CallIn(c: Call)
      requires Valid()
      modifies this, ring
      ensures Valid() && View() == Apply(old(View()), c)
      decreases |callbacks|, 2, 1
    {
      match c
      case PostCall(m) => PostEvent(m);
      case WaitCall => var _ := WaitEvent();
      case CancelCall(w) => var _ := CancelWaiter(w);
      case FlushCall => FlushInPlace();
    }

    method CallAll(calls: seq<Call>)
      requires Valid()
      modifies this, ring
      ensures Valid() && View() == ApplyAll(old(View()), calls)
      decreases |callbacks|, 3, 0
    {
      var i := 0;
      while i < |calls|
        invariant 0 <= i <= |calls| && Valid() && |callbacks| <= old(|callbacks|)
        invariant ApplyAll(View(), calls[i..]) == ApplyAll(old(View()), calls)
      {
        assert calls[i..][0] == calls[i] && calls[i..][1..] == calls[i + 1..];
        CallIn(calls[i]);
        i := i + 1;
      }
    }
  }
}
