/**
  Threads, the block heap and the part of the scheduler a native builtin can reach.

  A block is named by a number that is never reused, so a second release of the
  same block cannot be mistaken for a first. Which allocations succeed is decided
  by `grants`, and what fresh storage contains by `junk`; both are arbitrary.
*/
module SchedState {
  import opened Words
  import opened Script

  const MIN_STACK: nat := 8
  const MAX_THREADS: nat := 30
  const EVENTS: nat := 100
  const STICK_LIMIT: int := 1200

  // ---- memory --------------------------------------------------------------

  datatype Heap = Heap(live: set<nat>, next: nat, grants: seq<bool>, junk: (nat, nat) -> u32)

  ghost predicate HeapOk(h: Heap) {
    forall b :: b in h.live ==> b < h.next
  }

  function Alloc(h: Heap): (r: (Heap, Option<nat>))
    ensures r.1.Some? ==> r.1.value == h.next && r.0.live == h.live + {h.next}
    ensures r.1.None? ==> r.0.live == h.live && r.0.next == h.next
    ensures HeapOk(h) ==> HeapOk(r.0) && h.next !in h.live
  {
    if h.grants == [] then (h, None)
    else if !h.grants[0] then (h.(grants := h.grants[1..]), None)
    else (h.(grants := h.grants[1..], live := h.live + {h.next}, next := h.next + 1), Some(h.next))
  }

  function Junk(h: Heap, block: nat, words: nat): (r: seq<u32>)
    ensures |r| == words
  {
    seq<u32>(words, i requires 0 <= i < words => h.junk(block, i))
  }

  /** Releasing a block demands that it is live: a double release cannot be written down. */
  function Free(h: Heap, b: nat): (r: Heap)
    requires b in h.live
    ensures r.live == h.live - {b} && b !in r.live
    ensures HeapOk(h) ==> HeapOk(r)
  {
    h.(live := h.live - {b})
  }

  // ---- threads -------------------------------------------------------------

  /** A thread node. `stamp` numbers the queueing that put it on the ready list. */
  datatype Thread = Thread(
    block: nat, id: nat, pc: int, acc: u32, depth: int, wake: u64, stack: seq<u32>, stamp: nat)

  ghost predicate WfThread(t: Thread) {
    0 <= t.depth <= |t.stack| <= LOCALS
  }

  ghost function Blocks(ts: seq<Thread>): multiset<nat> {
    if ts == [] then multiset{} else multiset{ts[0].block} + Blocks(ts[1..])
  }

  function InsertAt<T>(s: seq<T>, k: nat, x: T): (r: seq<T>)
    requires k <= |s|
    ensures |r| == |s| + 1
    ensures forall i {:trigger r[i]} :: 0 <= i < |r| ==> r[i] == if i < k then s[i] else if i == k then x else s[i - 1]
  {
    s[..k] + [x] + s[k..]
  }

  function RemoveAt<T>(s: seq<T>, k: nat): (r: seq<T>)
    requires k < |s|
    ensures |r| == |s| - 1
    ensures forall i {:trigger r[i]} :: 0 <= i < |r| ==> r[i] == if i < k then s[i] else s[i + 1]
  {
    s[..k] + s[k + 1..]
  }

  /** Where a thread due at `wake` goes: before the first thread due strictly later. */
  function Position(ready: seq<Thread>, wake: u64): (k: nat)
    ensures k <= |ready|
    ensures forall i :: 0 <= i < k ==> ready[i].wake <= wake
    ensures k < |ready| ==> wake < ready[k].wake
  {
    if ready == [] || wake < ready[0].wake then 0 else 1 + Position(ready[1..], wake)
  }

  /** The index of the thread with this id, or the length of the list. */
  function FindThread(ready: seq<Thread>, id: nat): (k: nat)
    ensures k <= |ready|
    ensures k < |ready| ==> ready[k].id == id
    ensures forall i :: 0 <= i < k ==> ready[i].id != id
  {
    if ready == [] || ready[0].id == id then 0 else 1 + FindThread(ready[1..], id)
  }

  /** The search for a position, from index `k` on. */
  lemma PositionFrom(s: seq<Thread>, wake: u64, k: nat)
    requires k <= |s|
    ensures k < |s| ==> Position(s[k..], wake) == if wake < s[k].wake then 0 else 1 + Position(s[k + 1..], wake)
    ensures k == |s| ==> Position(s[k..], wake) == 0
    ensures s[0..] == s
  {
    if k < |s| {
      assert s[k..][1..] == s[k + 1..];
    }
  }

  /** The search for an id, from index `k` on. */
  lemma FindFrom(s: seq<Thread>, id: nat, k: nat)
    requires k <= |s|
    ensures k < |s| ==> FindThread(s[k..], id) == if s[k].id == id then 0 else 1 + FindThread(s[k + 1..], id)
    ensures k == |s| ==> FindThread(s[k..], id) == 0
    ensures s[0..] == s
  {
    if k < |s| {
      assert s[k..][1..] == s[k + 1..];
    }
  }

  // ---- events, joystick, log -----------------------------------------------

  const EVENT_KEY: u32 := 0
  const EVENT_MOUSE_BUTTON: u32 := 1
  const EVENT_MOUSE_REL: u32 := 2
  const EVENT_MOUSE_ABS: u32 := 3
  const EVENT_FAULT: u32 := 0x42
  const EVENT_DEBUG: u32 := 0x4D

  datatype Event = Event(kind: u32, arg1: u32, arg2: u32)

  type Buttons = b: seq<bool> | |b| == 16
    witness [false, false, false, false, false, false, false, false,
             false, false, false, false, false, false, false, false]

  /** The decoded joystick state the builtins write: HID button n is `buttons[n - 1]`. */
  datatype Pad = Pad(buttons: Buttons, x: int, y: int)

  /** What a thread must find when it next runs: `words` is a prefix of its locals. */
  datatype Context = Context(pc: int, acc: u32, depth: int, words: seq<u32>)

  /** Bookkeeping of the model: what the virtual machine held at each hand-over. */
  datatype Entry =
    | Born(id: nat, context: Context)
    | Slept(id: nat, context: Context)
    | Woken(id: nat)
    | Killed(id: nat)
    | Dispatched(id: nat, context: Context)
    | Unloaded

  /**
    The context a thread is owed, read off the log alone: the latest birth or
    sleep of that id, with the accumulator cleared if it was woken since, unless
    it was dispatched, killed or unloaded since.
  */
  ghost function Owed(log: seq<Entry>, id: nat): Option<Context> {
    if log == [] then None
    else Owes(Owed(log[..|log| - 1], id), log[|log| - 1], id)
  }

  /** One entry's effect on a debt. */
  ghost function Owes(o: Option<Context>, e: Entry, id: nat): Option<Context> {
    match e
    case Born(i, c) => if i == id then Some(c) else o
    case Slept(i, c) => if i == id then Some(c) else o
    case Woken(i) => if i == id && o.Some? then Some(o.value.(acc := 0)) else o
    case Killed(i) => if i == id then None else o
    case Dispatched(i, _) => if i == id then None else o
    case Unloaded => None
  }

  /** A dispatched machine got what it was owed. */
  ghost predicate Resumes(owed: Context, got: Context) {
    owed.pc == got.pc && owed.acc == got.acc && owed.depth == got.depth && owed.words <= got.words
  }

  ghost predicate Faithful(log: seq<Entry>) {
    forall k :: 0 <= k < |log| && log[k].Dispatched? ==>
      var owed := Owed(log[..k], log[k].id);
      owed.Some? && Resumes(owed.value, log[k].context)
  }

  // ---- the host: everything reachable from a native builtin -------------------

  datatype Host = Host(
    heap: Heap, ready: seq<Thread>, free: seq<Thread>, count: int, nextId: nat,
    current: Option<Thread>, events: seq<Event>, dropped: nat,
    pad: Option<Pad>, loadTime: u64, stamp: nat, log: seq<Entry>)

  function Queue(h: Host, t: Thread): Host {
    h.(ready := InsertAt(h.ready, Position(h.ready, t.wake), t.(stamp := h.stamp)),
       count := h.count + 1, stamp := h.stamp + 1)
  }

  function Log(h: Host, e: Entry): Host {
    h.(log := h.log + [e])
  }

  /** Append an event, dropping the oldest when a hundred are waiting. */
  function PostEvent(h: Host, kind: u32, arg1: u32, arg2: u32): Host {
    if |h.events| >= EVENTS then
      h.(events := h.events[1..] + [Event(kind, arg1, arg2)], dropped := h.dropped + 1)
    else
      h.(events := h.events + [Event(kind, arg1, arg2)])
  }

  /** A node from the pool head when it is big enough, otherwise a fresh one. */
  function ThreadAlloc(h: Host, stackSize: int): (r: (Host, Option<Thread>))
    ensures r.1.Some? ==>
              var t := r.1.value;
              && MIN_STACK <= |t.stack| <= Max(LOCALS, if h.free == [] then 0 else |h.free[0].stack|)
              && Min(stackSize, LOCALS) <= |t.stack|
              && t.pc == 0 && t.acc == 0 && t.depth == 0 && t.id == h.nextId + 1 == r.0.nextId
    ensures r.1.None? ==> r.0.nextId == h.nextId
    ensures r.0 == h.(heap := r.0.heap, free := r.0.free, nextId := r.0.nextId)
  {
    var n := Clamp(stackSize, MIN_STACK, LOCALS);
    var id := h.nextId + 1;
    if h.free != [] && |h.free[0].stack| >= n then
      (h.(free := h.free[1..], nextId := id),
       Some(h.free[0].(id := id, pc := 0, acc := 0, depth := 0, wake := 0)))
    else
      var (heap, block) := Alloc(h.heap);
      match block
      case None => (h.(heap := heap), None)
      case Some(b) =>
        (h.(heap := heap, nextId := id), Some(Thread(b, id, 0, 0, 0, 0, Junk(heap, b, n), 0)))
  }

  /** Retire a node to the head of the pool. */
  function ThreadRelease(h: Host, t: Thread): Host {
    h.(free := [t] + h.free)
  }
}
