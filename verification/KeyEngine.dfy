/** The keyboard state machine over its dense array of held keys, updated in place. */
module KeyEngine {
  import opened Words
  import opened Keys

  class KeyPad {
    var modifiers: bv8
    const keysDown: array<u8>
    var downCount: nat
    var mouseButtons: bv8
    var reports: seq<Report>

    ghost predicate Valid()
      reads this
    {
      keysDown.Length == KEYS_MAX && downCount <= KEYS_MAX
    }

    ghost function View(): State
      requires Valid()
      reads this, keysDown
    {
      State(modifiers, keysDown[..downCount], mouseButtons, reports)
    }

    constructor ()
      ensures Valid() && View() == INITIAL
    {
      keysDown := new u8[KEYS_MAX](_ => 0);
      modifiers, downCount, mouseButtons, reports := 0, 0, 0, [];
    }

    /** Build and emit keyboard report 2 from the current state. */
    method SendKeyReport()
      requires Valid()
      modifies this`reports
      ensures Valid() && View() == old(View()).(reports := old(reports) + [KeyReport(old(View()))])
    {
      var payload := new u8[REPORTED](_ => 0);
      if downCount > REPORTED {
        var i := 0;
        while i < REPORTED
          invariant reports == old(reports)
          invariant 0 <= i <= REPORTED && forall k :: 0 <= k < i ==> payload[k] == ROLLOVER
        {
          payload[i] := ROLLOVER;
          i := i + 1;
        }
      } else {
        var i := 0;
        while i < downCount && i < REPORTED
          invariant reports == old(reports) && 0 <= i <= downCount
          invariant forall k :: 0 <= k < REPORTED ==> payload[k] == if k < i then keysDown[k] else 0
        {
          payload[i] := keysDown[i];
          i := i + 1;
        }
      }
      assert payload[..] == Slots(keysDown[..downCount]);
      assert keysDown[..downCount] == old(keysDown[..downCount]);
      reports := reports + [Keyboard(modifiers, payload[..])];
    }

    /** Close the gap at `at`, so the array stays dense and in press order. */
    method CloseGap(at: nat)
      requires Valid() && at < downCount
      modifies keysDown, this`downCount
      ensures Valid() && View() == old(View()).(held := old(View()).held[..at] + old(View()).held[at + 1..])
    {
      ghost var held := keysDown[..downCount];
      var i := at;
      while i < downCount - 1
        invariant downCount == old(downCount) && at <= i <= downCount - 1
        invariant forall k {:trigger keysDown[k]} :: 0 <= k < downCount ==>
                    keysDown[k] == if at <= k < i then held[k + 1] else held[k]
      {
        keysDown[i] := keysDown[i + 1];
        i := i + 1;
      }
      downCount := downCount - 1;
      assert keysDown[..downCount] == held[..at] + held[at + 1..];
    }

    /** The position of a usage in the array, or the count. */
    method Find(usage: nat) returns (at: nat)
      requires Valid()
      ensures at == IndexOf(keysDown[..downCount], usage)
    {
      at := 0;
      while at < downCount && keysDown[at] != usage
        invariant 0 <= at <= downCount
        invariant IndexOf(keysDown[..downCount], usage) == at + IndexOf(keysDown[..downCount][at..], usage)
      {
        assert keysDown[..downCount][at..][1..] == keysDown[..downCount][at + 1..];
        at := at + 1;
      }
    }

    /** `core_hid_key_event`. */
    method KeyEvent(usage: u32, down: bool)
      requires Valid()
      modifies this`modifiers, this`downCount, this`reports, keysDown
      ensures Valid() && View() == Keys.KeyEvent(old(View()), usage, down)
    {
      hide Slots;
      var changed := false;
      if IsMod(usage) {
        var before := modifiers;
        modifiers := SetBit(modifiers, usage - MOD_FIRST, down);
        changed := modifiers != before;
      } else if IsKey(usage) {
        var at := Find(usage);
        if down {
          if at == downCount && downCount < KEYS_MAX {
            ghost var held := keysDown[..downCount];
            keysDown[downCount] := usage;
            downCount := downCount + 1;
            assert keysDown[..downCount] == held + [usage];
            changed := true;
          }
        } else if at < downCount {
          CloseGap(at);
          changed := true;
        }
      } else if usage == 0 {
        changed := modifiers != 0 || downCount != 0;
        modifiers, downCount := 0, 0;
      }
      if changed {
        SendKeyReport();
      }
    }

    /** `core_hid_mouse_button`. */
    method MouseButton(button: u32, down: bool)
      requires Valid()
      modifies this`mouseButtons, this`reports
      ensures Valid() && View() == Keys.MouseButton(old(View()), button, down)
    {
      if button < 1 || button > MOUSE_BUTTONS {
        return;
      }
      var before := mouseButtons;
      mouseButtons := SetBit(before, button - 1, down);
      if mouseButtons == before {
        return;
      }
      reports := reports + [Mouse(mouseButtons)];
    }
  }
}
