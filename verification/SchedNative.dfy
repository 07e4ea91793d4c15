/** The builtin library: what each native call does to the scheduler and the joystick state. */
module SchedNative {
  import opened Words
  import opened Script
  import opened SchedState

  const FN_BUTTON: u32 := 0x4000_0000
  const FN_STICK: u32 := 0x4000_0001
  const FN_STICK_REL: u32 := 0x4000_0002
  const FN_KEY: u32 := 0x4000_0003
  const FN_MOUSE_BUTTON: u32 := 0x4000_0004
  const FN_MOUSE_REL: u32 := 0x4000_0005
  const FN_MOUSE_ABS: u32 := 0x4000_0006
  const FN_EXIT: u32 := 0x4000_0007
  const FN_TIME: u32 := 0x4000_0008
  const FN_SLEEP: u32 := 0x4000_0009
  const FN_WAKE: u32 := 0x4000_000A
  const FN_KILL: u32 := 0x4000_000B
  const FN_FORK: u32 := 0x4000_000C
  const FN_GETPID: u32 := 0x4000_000D
  const FN_STICK_SWAP: u32 := 0x4000_000E
  const FN_SET_RUMBLE: u32 := 0x4000_000F
  const FN_DEBUG: u32 := 0x4000_0010

  const MS_100NS: int := 10000

  /** Argument `k`, one based, from the slots above the stack pointer; zero past the local region. */
  function NativeArg(c: Core, varCount: nat, k: int): u32 {
    var slot := c.sp + k;
    if slot < 0 || slot >= LOCALS || varCount + slot >= |c.vars| then 0
    else c.vars[varCount + slot]
  }

  function Button(p: Pad, n: int, down: bool): Pad {
    if 0 < n < 17 then p.(buttons := p.buttons[n - 1 := down]) else p
  }

  function Stick(p: Pad, x: int, y: int): Pad {
    p.(x := Clamp(x, -STICK_LIMIT, STICK_LIMIT), y := Clamp(y, -STICK_LIMIT, STICK_LIMIT))
  }

  /** `_sleep`: relative to the thread's own wake time, multiplied in 32 bits. */
  function SleepUntil(wake: u64, ms: u32): u64 {
    Wrap64(wake + ToS32(Wrap(ToS32(ms) * MS_100NS)))
  }

  /** `_time`: milliseconds from the load to the thread's wake time. */
  function TimeOf(wake: u64, loadTime: u64): u32 {
    Wrap(TruncDiv(ToS64(Wrap64(wake - loadTime)), MS_100NS))
  }

  /** `_fork`: the child starts where the parent is, with the live part of its stack and acc 0. */
  function Fork(h: Host, c: Core, varCount: nat): NativeResult<Host>
    requires h.current.Some?
  {
    if h.count > MAX_THREADS - 1 then NativeResult(h, 0xFFFF_FFFF, Running)
    else
      var depth := Max(c.sp, 0);
      var (h1, child) := ThreadAlloc(h, depth);
      match child
      case None => NativeResult(h1, 0xFFFF_FFFF, Running)
      case Some(t) => NativeResult(ForkInto(h1, c, varCount, t), Wrap(t.id), Running)
  }

  /** The child's node filled in and queued for the parent's wake time. */
  function ForkInto(h: Host, c: Core, varCount: nat, t: Thread): Host
    requires h.current.Some?
  {
    var parent := h.current.value;
    var depth := Max(c.sp, 0);
    var live := LiveStack(c, varCount, Min(depth, |t.stack|));
    var born := t.(pc := c.pc, depth := depth, wake := parent.wake, stack := live + t.stack[|live|..]);
    var context := Context(c.pc, 0, depth, LiveStack(c, varCount, depth));
    Queue(Log(h.(current := Some(parent.(depth := depth))), Born(t.id, context)), born)
  }

  /** The first `n` words of the operand stack. */
  function LiveStack(c: Core, varCount: nat, n: int): (r: seq<u32>)
    ensures |r| <= Max(n, 0)
    ensures 0 <= n && varCount + n <= |c.vars| ==> r == c.vars[varCount..varCount + n]
  {
    if n < 0 || varCount + n > |c.vars| then [] else c.vars[varCount..varCount + n]
  }

  /** `_wake`: requeue another thread for this thread's wake time and clear its accumulator. */
  function Wake(h: Host, id: nat, wake: u64): Host {
    var k := FindThread(h.ready, id);
    if k == |h.ready| then h
    else
      var t := h.ready[k].(wake := wake, acc := 0);
      Queue(Log(h, Woken(id)).(ready := RemoveAt(h.ready, k), count := h.count - 1), t)
  }

  /** `_kill` of another thread: off the ready list and into the pool. */
  function Kill(h: Host, id: nat): Host {
    var k := FindThread(h.ready, id);
    if k == |h.ready| then h
    else ThreadRelease(Log(h, Killed(id)).(ready := RemoveAt(h.ready, k), count := h.count - 1), h.ready[k])
  }

  /** `core_sched_native`. */
  function Native(h: Host, c: Core, varCount: nat, id: u32): NativeResult<Host> {
    if h.current.None? then NativeResult(h, c.acc, BadNative)
    else
      var self := h.current.value;
      var a1 := NativeArg(c, varCount, 1);
      var a2 := NativeArg(c, varCount, 2);
      if id == FN_BUTTON then
        NativeResult(if h.pad.Some? then h.(pad := Some(Button(h.pad.value, ToS32(a1), a2 != 0))) else h,
                     c.acc, Running)
      else if id == FN_STICK then
        NativeResult(if h.pad.Some? then h.(pad := Some(Stick(h.pad.value, ToS32(a1), ToS32(a2)))) else h,
                     c.acc, Running)
      else if id == FN_STICK_REL then
        NativeResult(if h.pad.Some? then
                       h.(pad := Some(Stick(h.pad.value, ToS32(Wrap(ToS32(a1) + h.pad.value.x)),
                                            ToS32(Wrap(ToS32(a2) + h.pad.value.y)))))
                     else h, c.acc, Running)
      else if id == FN_KEY then NativeResult(PostEvent(h, EVENT_KEY, a1, a2), c.acc, Running)
      else if id == FN_MOUSE_BUTTON then NativeResult(PostEvent(h, EVENT_MOUSE_BUTTON, a1, a2), c.acc, Running)
      else if id == FN_MOUSE_REL then NativeResult(PostEvent(h, EVENT_MOUSE_REL, a1, a2), c.acc, Running)
      else if id == FN_MOUSE_ABS then
        NativeResult(PostEvent(h, EVENT_MOUSE_ABS, Clamp(ToS32(a1), 0, 0xFFFF), Clamp(ToS32(a2), 0, 0xFFFF)),
                     c.acc, Running)
      else if id == FN_DEBUG then NativeResult(PostEvent(h, EVENT_DEBUG, a1, a2), c.acc, Running)
      else if id == FN_EXIT then NativeResult(h, c.acc, Terminated)
      else if id == FN_TIME then NativeResult(h, TimeOf(self.wake, h.loadTime), Running)
      else if id == FN_SLEEP then
        NativeResult(h.(current := Some(self.(wake := SleepUntil(self.wake, a1)))), 1, Sleeping)
      else if id == FN_WAKE then NativeResult(Wake(h, a1, self.wake), c.acc, Running)
      else if id == FN_KILL then
        if self.id == a1 then NativeResult(h, c.acc, Terminated)
        else NativeResult(Kill(h, a1), c.acc, Running)
      else if id == FN_FORK then Fork(h, c, varCount)
      else if id == FN_GETPID then NativeResult(h, Wrap(self.id), Running)
      else if id == FN_STICK_SWAP || id == FN_SET_RUMBLE then NativeResult(h, c.acc, Running)
      else NativeResult(h, c.acc, BadNative)
  }
}
