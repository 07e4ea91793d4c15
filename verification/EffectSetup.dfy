/** The engine's initial calibration, and effect sets of constant effects. */
module EffectSetup {
  import opened Words
  import opened Effect

  /** The calibration a device starts with. */
  const INITIAL: Tune := Tune(500, 50, 50, 100, false, false)

  const FLAT: Condition := Condition(0, 0, 0, 0, 0, 0, 0)

  /** A constant effect on both axes, playing until it is replaced. */
  function Constant(level: int): Slot {
    Slot(false, true, 0, None, FLAT, FLAT, (axis: nat, elapsed: int, base: int) => level)
  }

  function Unprogrammed(): Slot {
    Slot(false, false, 0, None, FLAT, FLAT, (axis: nat, elapsed: int, base: int) => 0)
  }

  /** `busy` equal constant effects, the other slots unprogrammed. */
  function Busy(busy: nat, total: nat, level: int): (r: seq<Slot>)
    ensures |r| == total
  {
    seq(total, i => if i < busy then Constant(level) else Unprogrammed())
  }

  /** The sum of an axis and the number of running slots. */
  lemma {:induction false} BusySums(busy: nat, total: nat, level: int, axis: nat, strength: int, tick: nat)
    requires busy <= total && -FX_CLAMP <= level <= FX_CLAMP
    ensures AxisSum(Busy(busy, total, level), axis, strength, tick) == busy * level
    ensures ActiveCount(Busy(busy, total, level), tick) == busy
    decreases total
  {
    if total > 0 {
      var slots := Busy(busy, total, level);
      assert slots[1..] == Busy(if busy > 0 then busy - 1 else 0, total - 1, level);
      BusySums(if busy > 0 then busy - 1 else 0, total - 1, level, axis, strength, tick);
      ConstantValue(level, axis, strength, tick);
      assert slots[0] == if busy > 0 then Constant(level) else Unprogrammed();
      assert busy > 0 ==> busy * level == level + (busy - 1) * level;
    }
  }

  lemma ConstantValue(level: int, axis: nat, strength: int, tick: nat)
    requires -FX_CLAMP <= level <= FX_CLAMP
    ensures Active(Constant(level), tick) && !Active(Unprogrammed(), tick)
    ensures AxisValue(Constant(level), axis, strength, tick - Constant(level).start) == level
  {
  }

  /** Constant effects have no condition to sample. */
  lemma BusySampled(busy: nat, total: nat, level: int, strength: int, x: int, y: int)
    ensures UpdateConditions(Busy(busy, total, level), strength, x, y) == Busy(busy, total, level)
  {
    var slots := Busy(busy, total, level);
    forall i | 0 <= i < total
      ensures UpdateSlot(slots[i], x, y) == slots[i]
    {
      assert slots[i] == if i < busy then Constant(level) else Unprogrammed();
    }
    assert UpdateConditions(slots, strength, x, y) == slots;
  }
}
