/** What the mapper writes to the virtual device in answer to one controller
    event: the right stick becomes relative motion, the left stick the four
    movement keys, the L2 trigger the left mouse button, and buttons their
    mapped keys or the rapid-fire toggle. */
module Handlers {
  import opened Codes
  import opened Options
  import opened Gadget
  import opened Reports
  import opened ButtonNames

  /** The loaded mapping configuration. Mouse sensitivities are held in
      tenths (the default 0.5 is 5). */
  datatype Config = Config(
    deadzone: int,
    mouseSensXTenths: int,
    mouseSensYTenths: int,
    invertY: bool,
    keyMap: map<string, int>,
    rapidFireByDefault: bool)

  /** The stick reading taken as rest: offsets are measured from it. */
  const Center: int := 128
  /** An L2 reading above this holds the left mouse button. */
  const L2Threshold: int := 200

  function Abs(v: int): nat
  {
    if v < 0 then -v else v
  }

  /** An offset whose magnitude is below the deadzone counts as zero. */
  function ApplyDeadzone(v: int, deadzone: int): (r: int)
    ensures r == 0 || r == v
    ensures r == 0 <==> v == 0 || Abs(v) < deadzone
  {
    if Abs(v) < deadzone then 0 else v
  }

  /** `int(a / b)` for positive b: the quotient truncated toward zero. */
  function TruncDiv(a: int, b: int): (q: int)
    requires b > 0
    ensures Abs(q) * b <= Abs(a) < (Abs(q) + 1) * b
    ensures a >= 0 ==> q >= 0
    ensures a <= 0 ==> q <= 0
  {
    if a >= 0 then a / b else -((-a) / b)
  }

  // ---------------------------------------------------------------------
  // Right stick: relative motion
  // ---------------------------------------------------------------------

  /** The motion the right stick asks for, or None when both offsets fall
      inside the deadzone. Each delta is offset times sensitivity over ten,
      truncated toward zero; the vertical one is negated when invert_y is
      set. */
  function RightStickMotion(rx: int, ry: int, cfg: Config): Option<(int, int)>
  {
    var x := ApplyDeadzone(rx - Center, cfg.deadzone);
    var y := ApplyDeadzone(ry - Center, cfg.deadzone);
    if x == 0 && y == 0 then None
    else
      var dy := TruncDiv(y * cfg.mouseSensYTenths, 100);
      Some((TruncDiv(x * cfg.mouseSensXTenths, 100), if cfg.invertY then -dy else dy))
  }

  /** A REL_X event for a nonzero horizontal delta, a REL_Y event for a
      nonzero vertical one, then one sync; nothing at all when there is no
      motion. */
  function RightStickOutputs(rx: int, ry: int, cfg: Config): seq<Output>
  {
    match RightStickMotion(rx, ry, cfg)
    case None => []
    case Some((dx, dy)) => MotionOutputs(dx, dy)
  }

  /** A REL_X event unless dx is zero, a REL_Y event unless dy is zero,
      then a sync. */
  function MotionOutputs(dx: int, dy: int): seq<Output>
  {
    (if dx != 0 then [Write(Event(EV_REL, REL_X, dx))] else [])
    + (if dy != 0 then [Write(Event(EV_REL, REL_Y, dy))] else [])
    + [Sync]
  }

  /** Both offsets inside the deadzone: nothing is written, not even a
      sync. */
  lemma DeadzoneSuppressesMotion(rx: int, ry: int, cfg: Config)
    requires Abs(rx - Center) < cfg.deadzone && Abs(ry - Center) < cfg.deadzone
    ensures RightStickOutputs(rx, ry, cfg) == []
  {
  }

  /** Whatever the readings, the right stick writes either nothing or at
      most one REL_X and at most one REL_Y event, in that order, followed by
      exactly one sync; a REL event never carries a zero delta. */
  lemma RightStickShape(rx: int, ry: int, cfg: Config)
    ensures var outs := RightStickOutputs(rx, ry, cfg);
      && (outs == [] <==> RightStickMotion(rx, ry, cfg).None?)
      && (outs != [] ==>
            && 1 <= |outs| <= 3 && outs[|outs| - 1] == Sync
            && Sync !in outs[..|outs| - 1]
            && (forall i | 0 <= i < |outs| - 1 :: outs[i].e.evType == EV_REL && outs[i].e.value != 0)
            && (|outs| == 3 ==> outs[0].e.code == REL_X && outs[1].e.code == REL_Y))
  {
  }

  /** The deltas are the offsets (outside the deadzone) scaled by the
      sensitivity over ten and truncated toward zero: the same sign, and
      within one unit of the exact quotient. */
  lemma RightStickScaling(rx: int, ry: int, cfg: Config)
    requires RightStickMotion(rx, ry, cfg).Some?
    ensures var (dx, dy) := RightStickMotion(rx, ry, cfg).value;
      var x := ApplyDeadzone(rx - Center, cfg.deadzone);
      var y := ApplyDeadzone(ry - Center, cfg.deadzone);
      var ey := if cfg.invertY then -dy else dy;
      && Abs(dx) * 100 <= Abs(x * cfg.mouseSensXTenths) < (Abs(dx) + 1) * 100
      && Abs(ey) * 100 <= Abs(y * cfg.mouseSensYTenths) < (Abs(ey) + 1) * 100
      && (x * cfg.mouseSensXTenths >= 0 ==> dx >= 0)
      && (x * cfg.mouseSensXTenths <= 0 ==> dx <= 0)
      && (y * cfg.mouseSensYTenths >= 0 ==> ey >= 0)
      && (y * cfg.mouseSensYTenths <= 0 ==> ey <= 0)
  {
  }

  /** invert_y negates the vertical delta and leaves everything else. */
  lemma InvertYNegates(rx: int, ry: int, cfg: Config)
    ensures var plain := RightStickMotion(rx, ry, cfg.(invertY := false));
      var inverted := RightStickMotion(rx, ry, cfg.(invertY := true));
      plain.Some? == inverted.Some?
      && (plain.Some? ==> inverted.value == (plain.value.0, -plain.value.1))
  {
  }

  // ---------------------------------------------------------------------
  // Left stick: movement keys
  // ---------------------------------------------------------------------

  /** The four movement keys with their new states, in the order they are
      written: W (up), S (down), A (left), D (right). */
  function LeftStickKeys(x: int, y: int, deadzone: int): seq<(int, int)>
  {
    var ox := ApplyDeadzone(x - Center, deadzone);
    var oy := ApplyDeadzone(y - Center, deadzone);
    var w := if oy < -deadzone then 1 else 0;
    var s := if !(oy < -deadzone) && oy > deadzone then 1 else 0;
    var a := if ox < -deadzone then 1 else 0;
    var d := if !(ox < -deadzone) && ox > deadzone then 1 else 0;
    [(KEY_W, w), (KEY_S, s), (KEY_A, a), (KEY_D, d)]
  }

  /** The writes for a list of (key, state) pairs, one key event each. */
  function KeyWrites(keys: seq<(int, int)>): (outs: seq<Output>)
    ensures |outs| == |keys|
    ensures forall i | 0 <= i < |keys| :: outs[i] == Write(Event(EV_KEY, keys[i].0, keys[i].1))
  {
    if keys == [] then []
    else KeyWrites(keys[..|keys| - 1]) + [Write(Event(EV_KEY, keys[|keys| - 1].0, keys[|keys| - 1].1))]
  }

  /** Every left-stick event writes all four movement keys, then a sync. */
  function LeftStickOutputs(x: int, y: int, deadzone: int): seq<Output>
  {
    KeyWrites(LeftStickKeys(x, y, deadzone)) + [Sync]
  }

  /** W is held exactly when the stick is pushed up past the deadzone and S
      exactly when it is pushed down past it (and not up), so never both;
      likewise A and D. The deadzone zeroing before the comparison changes
      no key. */
  lemma MovementKeysFollowStick(x: int, y: int, deadzone: int)
    ensures var ks := LeftStickKeys(x, y, deadzone);
      && |ks| == 4
      && ks[0].0 == KEY_W && ks[1].0 == KEY_S && ks[2].0 == KEY_A && ks[3].0 == KEY_D
      && (ks[0].1 == 1 <==> y - Center < -deadzone)
      && (ks[1].1 == 1 <==> y - Center > deadzone && !(y - Center < -deadzone))
      && (ks[2].1 == 1 <==> x - Center < -deadzone)
      && (ks[3].1 == 1 <==> x - Center > deadzone && !(x - Center < -deadzone))
      && (forall i | 0 <= i < 4 :: ks[i].1 == 0 || ks[i].1 == 1)
      && !(ks[0].1 == 1 && ks[1].1 == 1)
      && !(ks[2].1 == 1 && ks[3].1 == 1)
  {
  }

  /** With a nonnegative deadzone S is held exactly when the stick is pushed
      down past it, and a stick resting inside the deadzone releases all
      four keys. */
  lemma MovementKeysWithDeadzone(x: int, y: int, deadzone: int)
    requires deadzone >= 0
    ensures var ks := LeftStickKeys(x, y, deadzone);
      && (ks[1].1 == 1 <==> y - Center > deadzone)
      && (ks[3].1 == 1 <==> x - Center > deadzone)
      && (Abs(x - Center) <= deadzone && Abs(y - Center) <= deadzone ==>
            forall i | 0 <= i < 4 :: ks[i].1 == 0)
  {
  }

  /** Every left-stick event writes exactly the four key events W, S, A, D
      and then one sync. */
  lemma LeftStickWritesAllFour(x: int, y: int, deadzone: int)
    ensures var outs := LeftStickOutputs(x, y, deadzone);
      && |outs| == 5 && outs[4] == Sync
      && outs[0].Write? && outs[0].e.evType == EV_KEY && outs[0].e.code == KEY_W
      && outs[1].Write? && outs[1].e.evType == EV_KEY && outs[1].e.code == KEY_S
      && outs[2].Write? && outs[2].e.evType == EV_KEY && outs[2].e.code == KEY_A
      && outs[3].Write? && outs[3].e.evType == EV_KEY && outs[3].e.code == KEY_D
  {
    var ks := LeftStickKeys(x, y, deadzone);
    assert |KeyWrites(ks)| == 4;
  }

  // ---------------------------------------------------------------------
  // Triggers
  // ---------------------------------------------------------------------

  /** The L2 trigger: a reading above 200 presses the left mouse button,
      any other reading releases it; then a sync. */
  function L2Outputs(value: int): seq<Output>
  {
    [Write(Event(EV_KEY, BTN_LEFT, if value > L2Threshold then 1 else 0)), Sync]
  }

  /** Replayed on a connected gadget, the L2 trigger sets bit 0x01 of the
      mouse button byte exactly when the reading is above 200, leaves the
      other buttons, the modifiers and the held keys, and sends one mouse
      report. */
  lemma L2HoldsLeftButton(h: HidState, value: int)
    requires h.connected
    ensures var (h', sent) := Replay(h, L2Outputs(value), true);
      && h'.buttons & 0x01 == (if value > L2Threshold then 0x01 else 0x00)
      && h'.buttons & !0x01 == h.buttons & !0x01
      && h'.modifiers == h.modifiers && h'.keys == h.keys
      && sent == [MouseReport(h'.buttons, 0, 0)]
  {
    var press := Event(EV_KEY, BTN_LEFT, if value > L2Threshold then 1 else 0);
    ReplayWriteThenSync(h, press, true);
    MouseButtonSetsOnlyItsBit(h, BTN_LEFT, press.value, true);
    assert MouseButtonBits[BTN_LEFT] == 0x01;
    SetBitChangesOnlyThatBit(h.buttons, 0x01, value > L2Threshold);
  }

  // ---------------------------------------------------------------------
  // Axis events
  // ---------------------------------------------------------------------

  /** The six axes whose last reading is kept; every one starts at 0. */
  function InitialAxes(): (m: map<int, int>)
    ensures m.Keys == {ABS_X, ABS_Y, ABS_Z, ABS_RX, ABS_RY, ABS_RZ}
    ensures forall a | a in m :: m[a] == 0
  {
    map[ABS_X := 0, ABS_Y := 0, ABS_RX := 0, ABS_RY := 0, ABS_Z := 0, ABS_RZ := 0]
  }

  predicate HasAxes(axes: map<int, int>)
  {
    ABS_X in axes && ABS_Y in axes && ABS_RX in axes && ABS_RY in axes
  }

  /** What one axis event writes, given the axis readings after it was
      stored: a right-stick axis moves the pointer, a left-stick axis
      rewrites the movement keys, L2 drives the left button; R2 and every
      other axis write nothing. */
  function AbsOutputs(axes: map<int, int>, code: int, value: int, cfg: Config): seq<Output>
    requires HasAxes(axes)
  {
    if code == ABS_RX || code == ABS_RY then RightStickOutputs(axes[ABS_RX], axes[ABS_RY], cfg)
    else if code == ABS_X || code == ABS_Y then LeftStickOutputs(axes[ABS_X], axes[ABS_Y], cfg.deadzone)
    else if code == ABS_Z then L2Outputs(value)
    else []
  }

  /** The axes start at 0, not at the resting reading 128, so the first
      horizontal left-stick event, with the vertical axis never reported,
      presses W even when the stick rests at the centre. */
  lemma FirstHorizontalEventPressesW(x: int, cfg: Config)
    requires cfg.deadzone < 128
    ensures var outs := AbsOutputs(InitialAxes()[ABS_X := x], ABS_X, x, cfg);
      Write(Event(EV_KEY, KEY_W, 1)) in outs
  {
    var outs := AbsOutputs(InitialAxes()[ABS_X := x], ABS_X, x, cfg);
    assert outs == LeftStickOutputs(x, 0, cfg.deadzone);
    assert LeftStickKeys(x, 0, cfg.deadzone)[0] == (KEY_W, 1);
    assert outs[0] == Write(Event(EV_KEY, KEY_W, 1));
  }

  // ---------------------------------------------------------------------
  // Button events
  // ---------------------------------------------------------------------

  /** What one button event does: the writes, and whether it flips the
      rapid-fire switch. A button whose name the key map holds writes only
      its target key and a sync, and nothing else happens for it. Otherwise
      an R2 press (value 1) flips rapid fire, and L2 forwards its state to
      the left mouse button. `name` is the button's name as looked up. */
  function KeyResponse(keyMap: map<string, int>, name: Option<string>, code: int, value: int): (bool, seq<Output>)
  {
    if name.Some? && name.value in keyMap then
      (false, [Write(Event(EV_KEY, keyMap[name.value], value)), Sync])
    else
      (code == BTN_TR2 && value == 1,
       if code == BTN_TL2 then [Write(Event(EV_KEY, BTN_LEFT, value)), Sync] else [])
  }

  /** A mapped button writes its target key with the button's own value,
      then one sync, and never toggles rapid fire, not even R2. */
  lemma MappedButtonWritesOnlyTarget(keyMap: map<string, int>, name: string, code: int, value: int)
    requires name in keyMap
    ensures KeyResponse(keyMap, Some(name), code, value)
      == (false, [Write(Event(EV_KEY, keyMap[name], value)), Sync])
  {
  }

  /** An unmapped R2 flips rapid fire exactly on a press (value 1): not on
      a release, not on an autorepeat. */
  lemma UnmappedR2Toggles(keyMap: map<string, int>, name: Option<string>, value: int)
    requires name.None? || name.value !in keyMap
    ensures var (toggle, outs) := KeyResponse(keyMap, name, BTN_TR2, value);
      (toggle <==> value == 1) && outs == []
  {
  }

  /** An unmapped L2 button writes BTN_LEFT with its own value, then a sync,
      and toggles nothing; any other unmapped button does nothing at all. */
  lemma UnmappedButtons(keyMap: map<string, int>, name: Option<string>, code: int, value: int)
    requires name.None? || name.value !in keyMap
    ensures var (toggle, outs) := KeyResponse(keyMap, name, code, value);
      && (code == BTN_TL2 ==> !toggle && outs == [Write(Event(EV_KEY, BTN_LEFT, value)), Sync])
      && (code != BTN_TL2 && code != BTN_TR2 ==> !toggle && outs == [])
  {
  }

  /** As written, pressing the south face button (0x130) with a key map
      that names it only BTN_SOUTH writes nothing, because the button
      resolves to BTN_A; with the corrected lookup it writes the mapped
      key. */
  lemma SouthPressIgnored(keyMap: map<string, int>)
    requires keyMap.Keys == {"BTN_SOUTH"}
    ensures KeyResponse(keyMap, ButtonAlias(0x130), 0x130, 1) == (false, [])
    ensures KeyResponse(keyMap, MappedButtonName(keyMap, 0x130), 0x130, 1)
      == (false, [Write(Event(EV_KEY, keyMap["BTN_SOUTH"], 1)), Sync])
  {
    SouthMappingFound(keyMap);
  }
}
