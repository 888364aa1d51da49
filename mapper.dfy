/** The mapper object: it turns controller events into writes to a virtual
    input device and, through every such write, keeps the HID gadget's
    keyboard and mouse state and sends its reports. */
module Mapper {
  import opened Codes
  import opened Options
  import opened Reports
  import opened Gadget
  import opened ButtonNames
  import opened Handlers

  /** Starting from HID state h0, report log r0 and output log u0, writing
      exactly `outs` leads to HID state h, report log r and output log u. */
  predicate Logs(h0: HidState, r0: seq<Report>, u0: seq<Output>, outs: seq<Output>, ok: bool,
                 h: HidState, r: seq<Report>, u: seq<Output>)
  {
    u == u0 + outs && |r0| <= |r| && r[..|r0|] == r0 && Replay(h0, outs, ok) == (h, r[|r0|..])
  }

  /** One more write extends the logs. */
  lemma LogsWrite(h0: HidState, r0: seq<Report>, u0: seq<Output>, outs: seq<Output>, ok: bool,
                  h: HidState, r: seq<Report>, u: seq<Output>, e: Event)
    requires Logs(h0, r0, u0, outs, ok, h, r, u)
    ensures Logs(h0, r0, u0, outs + [Write(e)], ok, Step(h, e, ok).0, r + Step(h, e, ok).1, u + [Write(e)])
  {
    ReplaySnoc(h0, outs, Write(e), ok);
    SlicesOfAppend(r, |r0|, Step(h, e, ok).1);
  }

  /** One more sync extends the output log only. */
  lemma LogsSync(h0: HidState, r0: seq<Report>, u0: seq<Output>, outs: seq<Output>, ok: bool,
                 h: HidState, r: seq<Report>, u: seq<Output>)
    requires Logs(h0, r0, u0, outs, ok, h, r, u)
    ensures Logs(h0, r0, u0, outs + [Sync], ok, h, r, u + [Sync])
  {
    ReplaySnoc(h0, outs, Sync, ok);
    assert r[|r0|..] + [] == r[|r0|..];
  }

  lemma SlicesOfAppend(r: seq<Report>, n: nat, extra: seq<Report>)
    requires n <= |r|
    ensures (r + extra)[n..] == r[n..] + extra && (r + extra)[..n] == r[..n]
  {
  }

  lemma LogsStart(h0: HidState, r0: seq<Report>, u0: seq<Output>, ok: bool)
    ensures Logs(h0, r0, u0, [], ok, h0, r0, u0)
  {
    assert r0[|r0|..] == [];
    assert u0 + [] == u0;
  }

  class DSMapper {
    const cfg: Config
    /** The gadget is open and no write to it has failed. */
    var connected: bool
    var modState: bv8
    var mouseButtons: bv8
    /** The held usages, oldest first. */
    var keysDown: seq<bv8>
    /** The last reading of each axis. */
    var lastAbs: map<int, int>
    var rapidFire: bool
    /** Everything written to the virtual input device, in order. */
    var uinput: seq<Output>
    /** Every report written to the HID gadget, in order. */
    var hidReports: seq<Report>

    function Hid(): HidState
      reads this
    {
      HidState(connected, modState, mouseButtons, keysDown)
    }

    predicate Valid()
      reads this
    {
      RolloverValid(keysDown) && HasAxes(lastAbs)
    }

    /** Since a handler started from HID state h0, report log r0 and output
        log u0, it has written exactly `outs` to the virtual device, and the
        HID state and reports are what replaying `outs` gives. */
    predicate Wrote(h0: HidState, r0: seq<Report>, u0: seq<Output>, outs: seq<Output>, ok: bool)
      reads this
    {
      Logs(h0, r0, u0, outs, ok, Hid(), hidReports, uinput)
    }

    /** A fresh mapper: no modifier, no button, no held key, every axis at
        0, rapid fire as configured, nothing written yet. */
    constructor(cfg: Config, gadgetPresent: bool)
      ensures this.cfg == cfg && Valid()
      ensures Hid() == HidState(gadgetPresent, 0, 0, [])
      ensures lastAbs == InitialAxes() && rapidFire == cfg.rapidFireByDefault
      ensures uinput == [] && hidReports == []
    {
      this.cfg := cfg;
      connected := gadgetPresent;
      modState := 0;
      mouseButtons := 0;
      keysDown := [];
      lastAbs := InitialAxes();
      rapidFire := cfg.rapidFireByDefault;
      uinput := [];
      hidReports := [];
    }

    /** Writes the keyboard report for the current state when the gadget is
        connected; a failed write disconnects it. */
    method SendKeyboardReport(ok: bool)
      modifies this
      ensures var (h, sent) := if old(connected) then Send(old(Hid()), KeyboardReport(old(modState), old(keysDown)), ok)
                               else (old(Hid()), []);
        Hid() == h && hidReports == old(hidReports) + sent
      ensures uinput == old(uinput) && lastAbs == old(lastAbs) && rapidFire == old(rapidFire)
    {
      if !connected {
        return;
      }
      var report := KeyboardReport(modState, keysDown);
      if ok {
        hidReports := hidReports + [report];
      } else {
        connected := false;
      }
    }

    /** Writes a mouse report with the current buttons and the given motion
        when the gadget is connected; a failed write disconnects it. */
    method SendMouseReport(dx: int, dy: int, ok: bool)
      modifies this
      ensures var (h, sent) := if old(connected) then Send(old(Hid()), MouseReport(old(mouseButtons), dx, dy), ok)
                               else (old(Hid()), []);
        Hid() == h && hidReports == old(hidReports) + sent
      ensures uinput == old(uinput) && lastAbs == old(lastAbs) && rapidFire == old(rapidFire)
    {
      if !connected {
        return;
      }
      var report := MouseReport(mouseButtons, dx, dy);
      if ok {
        hidReports := hidReports + [report];
      } else {
        connected := false;
      }
    }

    /** Writes one event to the virtual device and mirrors it on the HID
        gadget: a mouse button or modifier flips its bit, a translated key
        updates the rollover list, and each sends its report; REL_X and REL_Y
        send a mouse report with that motion. */
    method W(evType: int, code: int, value: int, ok: bool)
      requires Valid()
      modifies this
      ensures Valid()
      ensures uinput == old(uinput) + [Write(Event(evType, code, value))]
      ensures var (h, sent) := Step(old(Hid()), Event(evType, code, value), ok);
        Hid() == h && hidReports == old(hidReports) + sent
      ensures lastAbs == old(lastAbs) && rapidFire == old(rapidFire)
    {
      ghost var h0 := Hid();
      uinput := uinput + [Write(Event(evType, code, value))];
      if !connected {
        return;
      }
      if evType == EV_KEY {
        MirrorKey(code, value, ok);
      } else if evType == EV_REL {
        MirrorMotion(code, value, ok);
      }
      StepKeepsRollover(h0, Event(evType, code, value), ok);
    }

    /** The HID side of a key event on a connected gadget: the code is
        looked up in the mouse button table, then the modifier table, then
        the usage table. */
    method MirrorKey(code: int, value: int, ok: bool)
      requires connected
      modifies this
      ensures var (h, sent) := Step(old(Hid()), Event(EV_KEY, code, value), ok);
        Hid() == h && hidReports == old(hidReports) + sent
      ensures uinput == old(uinput) && lastAbs == old(lastAbs) && rapidFire == old(rapidFire)
    {
      if code in MouseButtonBits {
        MirrorButton(code, value, ok);
      } else if code in ModifierBits {
        MirrorModifier(code, value, ok);
      } else {
        var hid := Usage(code);
        if hid != 0 {
          MirrorTranslatedKey(code, value, ok);
        }
      }
    }

    /** A mouse button: `|= bit` on a press, `&= ~bit` on a release, then a
        mouse report without motion. */
    method MirrorButton(code: int, value: int, ok: bool)
      requires connected && code in MouseButtonBits
      modifies this
      ensures var (h, sent) := Step(old(Hid()), Event(EV_KEY, code, value), ok);
        Hid() == h && hidReports == old(hidReports) + sent
      ensures uinput == old(uinput) && lastAbs == old(lastAbs) && rapidFire == old(rapidFire)
    {
      ghost var h0 := Hid();
      var bit := MouseButtonBits[code];
      ButtonStep(h0, code, value, ok);
      mouseButtons := SetBit(mouseButtons, bit, value != 0);
      SendMouseReport(0, 0, ok);
    }

    /** A modifier key: `|= bit` on a press, `&= ~bit` on a release, then a
        keyboard report. */
    method MirrorModifier(code: int, value: int, ok: bool)
      requires connected && code !in MouseButtonBits && code in ModifierBits
      modifies this
      ensures var (h, sent) := Step(old(Hid()), Event(EV_KEY, code, value), ok);
        Hid() == h && hidReports == old(hidReports) + sent
      ensures uinput == old(uinput) && lastAbs == old(lastAbs) && rapidFire == old(rapidFire)
    {
      ghost var h0 := Hid();
      var bit := ModifierBits[code];
      ModifierStep(h0, code, value, ok);
      modState := SetBit(modState, bit, value != 0);
      SendKeyboardReport(ok);
    }

    /** A key with a nonzero usage: the rollover list update, then a
        keyboard report. */
    method MirrorTranslatedKey(code: int, value: int, ok: bool)
      requires connected && code !in MouseButtonBits && code !in ModifierBits && Usage(code) != 0
      modifies this
      ensures var (h, sent) := Step(old(Hid()), Event(EV_KEY, code, value), ok);
        Hid() == h && hidReports == old(hidReports) + sent
      ensures uinput == old(uinput) && lastAbs == old(lastAbs) && rapidFire == old(rapidFire)
    {
      UpdateKeysDown(Usage(code), value != 0);
      SendKeyboardReport(ok);
    }

    /** The HID side of a relative-motion event on a connected gadget. */
    method MirrorMotion(code: int, value: int, ok: bool)
      requires connected
      modifies this
      ensures var (h, sent) := Step(old(Hid()), Event(EV_REL, code, value), ok);
        Hid() == h && hidReports == old(hidReports) + sent
      ensures uinput == old(uinput) && lastAbs == old(lastAbs) && rapidFire == old(rapidFire)
    {
      if code == REL_X {
        SendMouseReport(value, 0, ok);
      } else if code == REL_Y {
        SendMouseReport(0, value, ok);
      }
    }

    /** The rollover list update for a translated key: a press of a usage
        not yet held appends it, first dropping the oldest when six are held;
        a release of a held usage removes it. */
    method UpdateKeysDown(hid: bv8, down: bool)
      modifies this
      ensures keysDown == KeysAfter(old(keysDown), hid, down)
      ensures connected == old(connected) && modState == old(modState) && mouseButtons == old(mouseButtons)
      ensures uinput == old(uinput) && hidReports == old(hidReports)
      ensures lastAbs == old(lastAbs) && rapidFire == old(rapidFire)
    {
      if down && hid !in keysDown {
        if |keysDown| >= KeySlots {
          keysDown := keysDown[1..];
        }
        keysDown := keysDown + [hid];
      } else if !down && hid in keysDown {
        keysDown := Remove(keysDown, hid);
      }
    }

    /** Writes a synchronisation marker to the virtual device. */
    method Syn()
      modifies this
      ensures uinput == old(uinput) + [Sync]
      ensures Hid() == old(Hid()) && hidReports == old(hidReports)
      ensures lastAbs == old(lastAbs) && rapidFire == old(rapidFire)
    {
      uinput := uinput + [Sync];
    }

    /** One event followed by a sync, the shape of every button and
        trigger output. */
    method WriteAndSync(evType: int, code: int, value: int, ok: bool)
      requires Valid()
      modifies this
      ensures Valid()
      ensures Wrote(old(Hid()), old(hidReports), old(uinput), [Write(Event(evType, code, value)), Sync], ok)
      ensures lastAbs == old(lastAbs) && rapidFire == old(rapidFire)
    {
      ghost var h0, r0, u0 := Hid(), hidReports, uinput;
      LogsStart(h0, r0, u0, ok);
      var e := Event(evType, code, value);
      assert [] + [Write(e)] + [Sync] == [Write(e), Sync];
      W(evType, code, value, ok);
      LogsWrite(h0, r0, u0, [], ok, h0, r0, u0, e);
      ghost var h, r, u := Hid(), hidReports, uinput;
      Syn();
      LogsSync(h0, r0, u0, [Write(e)], ok, h, r, u);
    }

    /** The right stick's offsets from 128 with the deadzone applied, then
        scaled by the sensitivities and truncated toward zero, the vertical
        one negated under invert_y; None when both offsets are zeroed. */
    method RightStickDeltas() returns (motion: Option<(int, int)>)
      requires HasAxes(lastAbs)
      ensures motion == RightStickMotion(lastAbs[ABS_RX], lastAbs[ABS_RY], cfg)
    {
      var rx := lastAbs[ABS_RX] - Center;
      var ry := lastAbs[ABS_RY] - Center;
      if Abs(rx) < cfg.deadzone {
        rx := 0;
      }
      if Abs(ry) < cfg.deadzone {
        ry := 0;
      }
      if rx == 0 && ry == 0 {
        return None;
      }
      var dx := TruncDiv(rx * cfg.mouseSensXTenths, 100);
      var dy := TruncDiv(ry * cfg.mouseSensYTenths, 100);
      if cfg.invertY {
        dy := -dy;
      }
      return Some((dx, dy));
    }

    /** Moves the pointer by the right stick's offsets from 128: nothing
        inside the deadzone, otherwise a REL event per nonzero delta and a
        sync. */
    method ProcessRightStick(ok: bool)
      requires Valid()
      modifies this
      ensures Valid()
      ensures Wrote(old(Hid()), old(hidReports), old(uinput),
                    RightStickOutputs(old(lastAbs)[ABS_RX], old(lastAbs)[ABS_RY], cfg), ok)
      ensures lastAbs == old(lastAbs) && rapidFire == old(rapidFire)
    {
      var motion := RightStickDeltas();
      if motion.None? {
        LogsStart(Hid(), hidReports, uinput, ok);
        return;
      }
      WriteMotion(motion.value.0, motion.value.1, ok);
    }

    /** Writes the pointer motion: a REL_X event for a nonzero dx, a REL_Y
        event for a nonzero dy, then a sync. */
    method WriteMotion(dx: int, dy: int, ok: bool)
      requires Valid()
      modifies this
      ensures Valid()
      ensures Wrote(old(Hid()), old(hidReports), old(uinput), MotionOutputs(dx, dy), ok)
      ensures lastAbs == old(lastAbs) && rapidFire == old(rapidFire)
    {
      ghost var h0, r0, u0 := Hid(), hidReports, uinput;
      ghost var outs: seq<Output> := [];
      LogsStart(h0, r0, u0, ok);
      if dx != 0 {
        ghost var h, r, u := Hid(), hidReports, uinput;
        W(EV_REL, REL_X, dx, ok);
        LogsWrite(h0, r0, u0, outs, ok, h, r, u, Event(EV_REL, REL_X, dx));
        outs := outs + [Write(Event(EV_REL, REL_X, dx))];
      }
      if dy != 0 {
        ghost var h, r, u := Hid(), hidReports, uinput;
        W(EV_REL, REL_Y, dy, ok);
        LogsWrite(h0, r0, u0, outs, ok, h, r, u, Event(EV_REL, REL_Y, dy));
        outs := outs + [Write(Event(EV_REL, REL_Y, dy))];
      }
      ghost var h, r, u := Hid(), hidReports, uinput;
      Syn();
      LogsSync(h0, r0, u0, outs, ok, h, r, u);
      outs := outs + [Sync];
      assert outs == MotionOutputs(dx, dy);
    }

    /** Rewrites the four movement keys from the left stick's offsets from
        128, W, S, A, D in that order, then a sync. */
    method ProcessLeftStick(ok: bool)
      requires Valid()
      modifies this
      ensures Valid()
      ensures Wrote(old(Hid()), old(hidReports), old(uinput),
                    LeftStickOutputs(old(lastAbs)[ABS_X], old(lastAbs)[ABS_Y], cfg.deadzone), ok)
      ensures lastAbs == old(lastAbs) && rapidFire == old(rapidFire)
    {
      ghost var h0, r0, u0 := Hid(), hidReports, uinput;
      var dz := cfg.deadzone;
      var x := lastAbs[ABS_X] - Center;
      var y := lastAbs[ABS_Y] - Center;
      if Abs(x) < dz {
        x := 0;
      }
      if Abs(y) < dz {
        y := 0;
      }
      var keysState := [(KEY_W, 0), (KEY_S, 0), (KEY_A, 0), (KEY_D, 0)];
      if y < -dz {
        keysState := keysState[0 := (KEY_W, 1)];
      } else if y > dz {
        keysState := keysState[1 := (KEY_S, 1)];
      }
      if x < -dz {
        keysState := keysState[2 := (KEY_A, 1)];
      } else if x > dz {
        keysState := keysState[3 := (KEY_D, 1)];
      }
      assert keysState == LeftStickKeys(old(lastAbs)[ABS_X], old(lastAbs)[ABS_Y], dz);
      WriteKeys(keysState, ok);
      ghost var h, r, u := Hid(), hidReports, uinput;
      Syn();
      LogsSync(h0, r0, u0, KeyWrites(keysState), ok, h, r, u);
    }

    /** Writes each (key, state) pair as a key event, in order. */
    method WriteKeys(keys: seq<(int, int)>, ok: bool)
      requires Valid()
      modifies this
      ensures Valid()
      ensures Wrote(old(Hid()), old(hidReports), old(uinput), KeyWrites(keys), ok)
      ensures lastAbs == old(lastAbs) && rapidFire == old(rapidFire)
    {
      ghost var h0, r0, u0 := Hid(), hidReports, uinput;
      LogsStart(h0, r0, u0, ok);
      assert keys[..0] == [];
      for i := 0 to |keys|
        invariant Valid() && lastAbs == old(lastAbs) && rapidFire == old(rapidFire)
        invariant Wrote(h0, r0, u0, KeyWrites(keys[..i]), ok)
      {
        var (key, state) := keys[i];
        assert KeyWrites(keys[..i + 1]) == KeyWrites(keys[..i]) + [Write(Event(EV_KEY, key, state))] by {
          assert keys[..i + 1][..i] == keys[..i];
        }
        ghost var h, r, u := Hid(), hidReports, uinput;
        W(EV_KEY, key, state, ok);
        LogsWrite(h0, r0, u0, KeyWrites(keys[..i]), ok, h, r, u, Event(EV_KEY, key, state));
      }
      assert keys[..|keys|] == keys;
    }

    /** Stores the axis reading, then lets the axis drive its output: the
        right stick the pointer, the left stick the movement keys, L2 the
        left mouse button (held above 200); R2 and other axes write
        nothing. */
    method HandleAbs(code: int, value: int, ok: bool)
      requires Valid()
      modifies this
      ensures Valid()
      ensures lastAbs == old(lastAbs)[code := value] && rapidFire == old(rapidFire)
      ensures Wrote(old(Hid()), old(hidReports), old(uinput), AbsOutputs(lastAbs, code, value, cfg), ok)
    {
      ghost var h0, r0, u0 := Hid(), hidReports, uinput;
      lastAbs := lastAbs[code := value];
      if code == ABS_RX || code == ABS_RY {
        ProcessRightStick(ok);
      } else if code == ABS_X || code == ABS_Y {
        ProcessLeftStick(ok);
      } else if code == ABS_Z {
        WriteAndSync(EV_KEY, BTN_LEFT, if value > L2Threshold then 1 else 0, ok);
      } else {
        LogsStart(h0, r0, u0, ok);
      }
    }

    /** A button whose name the key map holds writes its target key and a
        sync and nothing else; otherwise an R2 press flips rapid fire and L2
        is forwarded to the left mouse button. The name is the first alias
        of the code in listing order, looked up in the key map as it is. */
    method HandleKey(code: int, value: int, ok: bool)
      requires Valid()
      modifies this
      ensures Valid()
      ensures var (toggle, outs) := KeyResponse(cfg.keyMap, ButtonAlias(code), code, value);
        Wrote(old(Hid()), old(hidReports), old(uinput), outs, ok)
        && rapidFire == (old(rapidFire) != toggle)
      ensures lastAbs == old(lastAbs)
    {
      var name := ResolveButtonName(code);
      Respond(name, code, value, ok);
    }

    /** HandleKey with the corrected lookup: the name is the first alias of
        the code that the key map holds, so an entry under any alias
        applies. */
    method HandleKeyCorrected(code: int, value: int, ok: bool)
      requires Valid()
      modifies this
      ensures Valid()
      ensures var (toggle, outs) := KeyResponse(cfg.keyMap, MappedButtonName(cfg.keyMap, code), code, value);
        Wrote(old(Hid()), old(hidReports), old(uinput), outs, ok)
        && rapidFire == (old(rapidFire) != toggle)
      ensures lastAbs == old(lastAbs)
    {
      var name := ResolveMappedName(cfg.keyMap, code);
      Respond(name, code, value, ok);
    }

    /** The response to a button once its name is known. */
    method Respond(name: Option<string>, code: int, value: int, ok: bool)
      requires Valid()
      modifies this
      ensures Valid()
      ensures var (toggle, outs) := KeyResponse(cfg.keyMap, name, code, value);
        Wrote(old(Hid()), old(hidReports), old(uinput), outs, ok)
        && rapidFire == (old(rapidFire) != toggle)
      ensures lastAbs == old(lastAbs)
    {
      ghost var h0, r0, u0 := Hid(), hidReports, uinput;
      if name.Some? && name.value in cfg.keyMap {
        var target := cfg.keyMap[name.value];
        WriteAndSync(EV_KEY, target, value, ok);
        return;
      }
      if code == BTN_TR2 && value == 1 {
        rapidFire := !rapidFire;
      }
      if code == BTN_TL2 {
        WriteAndSync(EV_KEY, BTN_LEFT, value, ok);
      } else {
        LogsStart(h0, r0, u0, ok);
      }
    }

    /** Dispatches a controller event: keys to HandleKey, axes to HandleAbs;
        every other event type is ignored. */
    method HandleEvent(e: Event, ok: bool)
      requires Valid()
      modifies this
      ensures Valid()
      ensures e.evType == EV_KEY ==>
        var (toggle, outs) := KeyResponse(cfg.keyMap, ButtonAlias(e.code), e.code, e.value);
        && Wrote(old(Hid()), old(hidReports), old(uinput), outs, ok)
        && rapidFire == (old(rapidFire) != toggle) && lastAbs == old(lastAbs)
      ensures e.evType == EV_ABS ==>
        && lastAbs == old(lastAbs)[e.code := e.value] && rapidFire == old(rapidFire)
        && Wrote(old(Hid()), old(hidReports), old(uinput), AbsOutputs(lastAbs, e.code, e.value, cfg), ok)
      ensures e.evType != EV_KEY && e.evType != EV_ABS ==>
        && Hid() == old(Hid()) && hidReports == old(hidReports) && uinput == old(uinput)
        && lastAbs == old(lastAbs) && rapidFire == old(rapidFire)
    {
      if e.evType == EV_KEY {
        HandleKey(e.code, e.value, ok);
      } else if e.evType == EV_ABS {
        HandleAbs(e.code, e.value, ok);
      }
    }
  }
}
