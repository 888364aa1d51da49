/** The HID gadget state the mapper keeps beside the virtual input device:
    the modifier byte, the mouse button byte and the six-slot rollover list
    of held usages, and how one written event updates them and which report
    it sends. */
module Gadget {
  import opened Codes
  import opened Reports
  import opened Options

  /** `connected` is false once the gadget is absent or a write to it
      failed; from then on no HID state changes. */
  datatype HidState = HidState(connected: bool, modifiers: bv8, buttons: bv8, keys: seq<bv8>)

  predicate Distinct(s: seq<bv8>)
  {
    forall i, j | 0 <= i < j < |s| :: s[i] != s[j]
  }

  /** The rollover list holds at most six usages, none of them zero, none
      twice. */
  predicate RolloverValid(keys: seq<bv8>)
  {
    |keys| <= KeySlots && 0 !in keys && Distinct(keys)
  }

  /** `bits |= bit` on a press (any nonzero value), `bits &= ~bit` on a
      release. */
  function SetBit(bits: bv8, bit: bv8, on: bool): bv8
  {
    if on then bits | bit else bits & !bit
  }

  /** Setting or clearing a bit leaves every other bit as it was. */
  lemma SetBitChangesOnlyThatBit(bits: bv8, bit: bv8, on: bool)
    ensures SetBit(bits, bit, on) & bit == (if on then bit else 0)
    ensures SetBit(bits, bit, on) & !bit == bits & !bit
  {
  }

  /** `EVDEV_TO_HID.get(code, 0)`. */
  function Usage(code: int): bv8
  {
    if code in EvdevToHid then EvdevToHid[code] else 0
  }

  /** Position of the first occurrence of u. */
  function IndexOf(keys: seq<bv8>, u: bv8): (i: nat)
    requires u in keys
    ensures i < |keys| && keys[i] == u && u !in keys[..i]
  {
    if keys[0] == u then 0 else 1 + IndexOf(keys[1..], u)
  }

  /** `list.remove(u)`: deletes the first occurrence of u. */
  function Remove(keys: seq<bv8>, u: bv8): (r: seq<bv8>)
    requires u in keys
    ensures |r| == |keys| - 1
  {
    keys[..IndexOf(keys, u)] + keys[IndexOf(keys, u) + 1..]
  }

  /** The rollover list after a key event for usage u: a press of a usage
      not yet held appends it, first evicting the oldest when six are held;
      a release of a held usage removes it; anything else leaves the list. */
  function KeysAfter(keys: seq<bv8>, u: bv8, down: bool): seq<bv8>
  {
    if down && u !in keys then (if |keys| >= KeySlots then keys[1..] else keys) + [u]
    else if !down && u in keys then Remove(keys, u)
    else keys
  }

  /** A report written to a gadget that accepts it (`ok`); a failed write
      disconnects the gadget and writes nothing. */
  function Send(h: HidState, report: Report, ok: bool): (HidState, seq<Report>)
  {
    if ok then (h, [report]) else (h.(connected := false), [])
  }

  /** A key event on a connected gadget: a mouse button, a modifier, a
      translated key, or nothing. */
  function KeyStep(h: HidState, code: int, pressed: bool, ok: bool): (HidState, seq<Report>)
  {
    if code in MouseButtonBits then
      var h' := h.(buttons := SetBit(h.buttons, MouseButtonBits[code], pressed));
      Send(h', MouseReport(h'.buttons, 0, 0), ok)
    else if code in ModifierBits then
      var h' := h.(modifiers := SetBit(h.modifiers, ModifierBits[code], pressed));
      Send(h', KeyboardReport(h'.modifiers, h'.keys), ok)
    else if Usage(code) != 0 then
      var h' := h.(keys := KeysAfter(h.keys, Usage(code), pressed));
      Send(h', KeyboardReport(h'.modifiers, h'.keys), ok)
    else (h, [])
  }

  /** One event written through the mapper, as seen by the HID gadget: the
      new HID state and the reports written. A key code is looked up in the
      mouse button table, then the modifier table, then the usage table;
      REL_X and REL_Y become mouse reports. */
  function Step(h: HidState, e: Event, ok: bool): (HidState, seq<Report>)
  {
    if !h.connected then (h, [])
    else if e.evType == EV_KEY then KeyStep(h, e.code, e.value != 0, ok)
    else if e.evType == EV_REL then
      if e.code == REL_X then Send(h, MouseReport(h.buttons, e.value, 0), ok)
      else if e.code == REL_Y then Send(h, MouseReport(h.buttons, 0, e.value), ok)
      else (h, [])
    else (h, [])
  }

  /** What the mapper writes to the virtual input device: an event, or a
      synchronisation marker. */
  datatype Output = Write(e: Event) | Sync

  /** The HID side of a stream written to the virtual device, all while the
      gadget accepts writes iff `ok`: each event goes through `Step`, a sync
      touches nothing. The final HID state and every report sent, in order. */
  function Replay(h: HidState, outs: seq<Output>, ok: bool): (HidState, seq<Report>)
    decreases |outs|
  {
    if outs == [] then (h, [])
    else
      var prefix := Replay(h, outs[..|outs| - 1], ok);
      var last := match outs[|outs| - 1]
        case Write(e) => Step(prefix.0, e, ok)
        case Sync => (prefix.0, []);
      (last.0, prefix.1 + last.1)
  }

  /** Replaying one more output extends the replay of the stream before it. */
  lemma ReplaySnoc(h: HidState, outs: seq<Output>, o: Output, ok: bool)
    ensures var before := Replay(h, outs, ok);
      var step := match o case Write(e) => Step(before.0, e, ok) case Sync => (before.0, []);
      Replay(h, outs + [o], ok) == (step.0, before.1 + step.1)
  {
    assert (outs + [o])[..|outs|] == outs;
  }

  // ---------------------------------------------------------------------
  // The rollover list
  // ---------------------------------------------------------------------

  /** Every key event keeps the rollover invariant. */
  lemma KeysAfterKeepsRollover(keys: seq<bv8>, u: bv8, down: bool)
    requires RolloverValid(keys) && u != 0
    ensures RolloverValid(KeysAfter(keys, u, down))
  {
    if down && u !in keys {
      AppendKeepsRollover(if |keys| >= KeySlots then keys[1..] else keys, u);
    } else if !down && u in keys {
      RemoveKeepsRollover(keys, u);
    }
  }

  lemma AppendKeepsRollover(kept: seq<bv8>, u: bv8)
    requires |kept| < KeySlots && 0 !in kept && Distinct(kept) && u != 0 && u !in kept
    ensures RolloverValid(kept + [u])
  {
  }

  lemma RemoveKeepsRollover(keys: seq<bv8>, u: bv8)
    requires RolloverValid(keys) && u in keys
    ensures RolloverValid(Remove(keys, u))
  {
    DeletionKeepsRollover(keys, IndexOf(keys, u));
  }

  /** Deleting one slot keeps the rollover invariant. */
  lemma DeletionKeepsRollover(keys: seq<bv8>, i: nat)
    requires RolloverValid(keys) && i < |keys|
    ensures RolloverValid(keys[..i] + keys[i + 1..])
  {
    var r := keys[..i] + keys[i + 1..];
    assert forall k | 0 <= k < |r| :: r[k] == keys[if k < i then k else k + 1];
  }

  /** Pressing a usage already held, or releasing one not held, changes
      nothing. */
  lemma RepeatedPressOrStrayReleaseIsNoOp(keys: seq<bv8>, u: bv8)
    ensures u in keys ==> KeysAfter(keys, u, true) == keys
    ensures u !in keys ==> KeysAfter(keys, u, false) == keys
  {
  }

  /** A new usage goes last; when six are held the oldest (first) one is
      evicted, otherwise every held usage stays in order. */
  lemma PressIsFifo(keys: seq<bv8>, u: bv8)
    requires RolloverValid(keys) && u !in keys
    ensures var r := KeysAfter(keys, u, true);
      && r[|r| - 1] == u
      && (|keys| < KeySlots ==> r == keys + [u])
      && (|keys| == KeySlots ==> |r| == KeySlots && keys[0] !in r && r[..KeySlots - 1] == keys[1..])
  {
    if |keys| == KeySlots {
      var r := KeysAfter(keys, u, true);
      assert r == keys[1..] + [u];
      assert keys[0] !in keys[1..] by {
        forall k | 1 <= k < |keys| ensures keys[k] != keys[0] { }
      }
    }
  }

  /** A release removes exactly the released usage and keeps the others in
      their order: those before it in place, those after it one slot
      down. */
  lemma ReleaseRemovesOnlyThatUsage(keys: seq<bv8>, u: bv8)
    requires RolloverValid(keys) && u in keys
    ensures var r := KeysAfter(keys, u, false);
      && u !in r && |r| == |keys| - 1
      && (forall x | x in keys && x != u :: x in r)
      && (forall x | x in r :: x in keys)
      && forall k | 0 <= k < |r| :: r[k] == if k < IndexOf(keys, u) then keys[k] else keys[k + 1]
  {
    assert KeysAfter(keys, u, false) == Remove(keys, u);
    RemoveOnlyThatUsage(keys, u);
    RemoveShifts(keys, u);
  }

  lemma RemoveOnlyThatUsage(keys: seq<bv8>, u: bv8)
    requires Distinct(keys) && u in keys
    ensures var r := Remove(keys, u);
      && u !in r && |r| == |keys| - 1
      && (forall x | x in keys && x != u :: x in r)
      && (forall x | x in r :: x in keys)
  {
    var i := IndexOf(keys, u);
    var r := Remove(keys, u);
    RemoveShifts(keys, u);
    forall x | x in keys && x != u
      ensures x in r
    {
      var k :| 0 <= k < |keys| && keys[k] == x;
      assert r[if k < i then k else k - 1] == x;
    }
    forall k | 0 <= k < |r|
      ensures r[k] != u && r[k] in keys
    {
      assert r[k] == keys[if k < i then k else k + 1];
    }
  }

  /** After `list.remove`, the usages before the removed one stay in place
      and those after it move down by one. */
  lemma RemoveShifts(keys: seq<bv8>, u: bv8)
    requires u in keys
    ensures var i, r := IndexOf(keys, u), Remove(keys, u);
      && |r| == |keys| - 1
      && forall k | 0 <= k < |r| :: r[k] == if k < i then keys[k] else keys[k + 1]
  {
  }

  /** Press of a new usage followed by its release restores the list, as
      long as the press did not evict anything. */
  lemma ReleaseUndoesPress(keys: seq<bv8>, u: bv8)
    requires RolloverValid(keys) && u !in keys && |keys| < KeySlots
    ensures KeysAfter(KeysAfter(keys, u, true), u, false) == keys
  {
    var pressed := keys + [u];
    assert KeysAfter(keys, u, true) == pressed;
    assert forall k | 0 <= k < |keys| :: pressed[k] == keys[k];
    assert IndexOf(pressed, u) == |keys|;
    assert pressed[..|keys|] == keys;
  }

  // ---------------------------------------------------------------------
  // One write, many writes
  // ---------------------------------------------------------------------

  /** Every write keeps the rollover invariant. */
  lemma StepKeepsRollover(h: HidState, e: Event, ok: bool)
    requires RolloverValid(h.keys)
    ensures RolloverValid(Step(h, e, ok).0.keys)
  {
    StepKeys(h, e, ok);
    if h.connected && e.evType == EV_KEY {
      KeyStepKeys(h, e.code, e.value != 0, ok);
      if Usage(e.code) != 0 {
        KeysAfterKeepsRollover(h.keys, Usage(e.code), e.value != 0);
      }
    }
  }

  /** Only key events change the held usages. */
  lemma StepKeys(h: HidState, e: Event, ok: bool)
    ensures Step(h, e, ok).0.keys
      == if h.connected && e.evType == EV_KEY then KeyStep(h, e.code, e.value != 0, ok).0.keys else h.keys
  {
  }

  /** Of the key events, only a translated key changes the held usages,
      and it changes them as `KeysAfter` says. */
  lemma KeyStepKeys(h: HidState, code: int, pressed: bool, ok: bool)
    ensures KeyStep(h, code, pressed, ok).0.keys
      == if code !in MouseButtonBits && code !in ModifierBits && Usage(code) != 0
         then KeysAfter(h.keys, Usage(code), pressed)
         else h.keys
  {
    if code in MouseButtonBits {
    } else if code in ModifierBits {
    } else if Usage(code) != 0 {
    }
  }

  lemma {:induction false} ReplayKeepsRollover(h: HidState, outs: seq<Output>, ok: bool)
    requires RolloverValid(h.keys)
    ensures RolloverValid(Replay(h, outs, ok).0.keys)
    decreases |outs|
  {
    if outs != [] {
      var before := outs[..|outs| - 1];
      ReplayKeepsRollover(h, before, ok);
      if outs[|outs| - 1].Write? {
        StepKeepsRollover(Replay(h, before, ok).0, outs[|outs| - 1].e, ok);
      }
    }
  }

  /** With the gadget disconnected no write changes any HID state or sends
      any report. */
  lemma {:induction false} DisconnectedIsInert(h: HidState, outs: seq<Output>, ok: bool)
    requires !h.connected
    ensures Replay(h, outs, ok) == (h, [])
    decreases |outs|
  {
    if outs != [] {
      var before := outs[..|outs| - 1];
      DisconnectedIsInert(h, before, ok);
      ReplaySnoc(h, before, outs[|outs| - 1], ok);
      assert before + [outs[|outs| - 1]] == outs;
      assert Replay(h, before, ok).1 + [] == [];
    }
  }

  /** Only a failed write disconnects, and nothing reconnects. */
  lemma {:induction false} ConnectionOnlyDrops(h: HidState, outs: seq<Output>, ok: bool)
    ensures Replay(h, outs, ok).0.connected ==> h.connected
    ensures ok ==> Replay(h, outs, ok).0.connected == h.connected
    decreases |outs|
  {
    if outs != [] {
      ConnectionOnlyDrops(h, outs[..|outs| - 1], ok);
    }
  }

  /** A key code in none of the three tables changes nothing and sends no
      report; so do event types other than keys and relative motion. */
  lemma UnmappedEventIsInert(h: HidState, e: Event, ok: bool)
    requires e.evType == EV_KEY ==> e.code !in MouseButtonBits && e.code !in ModifierBits && e.code !in EvdevToHid
    requires e.evType == EV_REL ==> e.code != REL_X && e.code != REL_Y
    ensures Step(h, e, ok) == (h, [])
  {
  }

  /** A mouse button event sets (press) or clears (release) exactly its bit
      of the button byte, leaves the modifiers and held keys alone, and sends
      a mouse report with no motion. */
  lemma MouseButtonSetsOnlyItsBit(h: HidState, code: int, value: int, ok: bool)
    requires h.connected && code in MouseButtonBits
    ensures var (h', sent) := Step(h, Event(EV_KEY, code, value), ok);
      && h'.buttons == SetBit(h.buttons, MouseButtonBits[code], value != 0)
      && h'.modifiers == h.modifiers && h'.keys == h.keys
      && h'.connected == ok
      && sent == (if ok then [MouseReport(h'.buttons, 0, 0)] else [])
  {
  }

  /** A modifier key that is not a mouse button sets or clears exactly its
      bit of the modifier byte, leaves buttons and held keys alone, and sends
      a keyboard report. */
  lemma ModifierSetsOnlyItsBit(h: HidState, code: int, value: int, ok: bool)
    requires h.connected && code !in MouseButtonBits && code in ModifierBits
    ensures var (h', sent) := Step(h, Event(EV_KEY, code, value), ok);
      && h'.modifiers == SetBit(h.modifiers, ModifierBits[code], value != 0)
      && h'.buttons == h.buttons && h'.keys == h.keys
      && h'.connected == ok
      && sent == (if ok then [KeyboardReport(h'.modifiers, h'.keys)] else [])
  {
  }

  /** Every report a write sends describes the HID state after the write:
      a keyboard report reads back as the modifier byte and exactly the held
      usages in press order; a mouse report reads back as the button byte
      and the clamped motion (none for a button change). */
  lemma SentReportsDescribeState(h: HidState, e: Event, ok: bool)
    requires RolloverValid(h.keys)
    ensures var (h', sent) := Step(h, e, ok);
      forall r | r in sent ::
        || ParseKeyboardReport(r) == Some((h'.modifiers, h'.keys))
        || (e.evType == EV_KEY && ParseMouseReport(r) == Some((h'.buttons, 0, 0)))
        || (e.evType == EV_REL && e.code == REL_X && ParseMouseReport(r) == Some((h'.buttons, Clamp(e.value), 0)))
        || (e.evType == EV_REL && e.code == REL_Y && ParseMouseReport(r) == Some((h'.buttons, 0, Clamp(e.value))))
  {
    if h.connected && e.evType == EV_KEY {
      KeyReportsDescribeState(h, e.code, e.value != 0, ok);
    } else if h.connected && e.evType == EV_REL {
      MouseReportRoundTrip(h.buttons, e.value, 0);
      MouseReportRoundTrip(h.buttons, 0, e.value);
    }
  }

  /** The key-event half of the lemma above. */
  lemma KeyReportsDescribeState(h: HidState, code: int, pressed: bool, ok: bool)
    requires RolloverValid(h.keys)
    ensures var (h', sent) := KeyStep(h, code, pressed, ok);
      forall r | r in sent ::
        || ParseKeyboardReport(r) == Some((h'.modifiers, h'.keys))
        || ParseMouseReport(r) == Some((h'.buttons, 0, 0))
  {
    var (h', sent) := KeyStep(h, code, pressed, ok);
    if code !in MouseButtonBits && code !in ModifierBits && Usage(code) != 0 {
      KeysAfterKeepsRollover(h.keys, Usage(code), pressed);
    }
    KeyboardReportRoundTrip(h'.modifiers, h'.keys);
    MouseReportRoundTrip(h'.buttons, 0, 0);
  }

  /** A mouse button event on a connected gadget, unfolded. */
  lemma ButtonStep(h: HidState, code: int, value: int, ok: bool)
    requires h.connected && code in MouseButtonBits
    ensures var on := SetBit(h.buttons, MouseButtonBits[code], value != 0);
      Step(h, Event(EV_KEY, code, value), ok) == Send(h.(buttons := on), MouseReport(on, 0, 0), ok)
  {
  }

  /** A modifier event on a connected gadget, unfolded. */
  lemma ModifierStep(h: HidState, code: int, value: int, ok: bool)
    requires h.connected && code !in MouseButtonBits && code in ModifierBits
    ensures var on := SetBit(h.modifiers, ModifierBits[code], value != 0);
      Step(h, Event(EV_KEY, code, value), ok) == Send(h.(modifiers := on), KeyboardReport(on, h.keys), ok)
  {
  }

  /** A translated key event on a connected gadget updates only the
      rollover list (and the connection, when the write fails). */
  lemma TranslatedKeyStep(h: HidState, code: int, value: int, ok: bool)
    requires h.connected && code !in MouseButtonBits && code !in ModifierBits && Usage(code) != 0
    ensures Step(h, Event(EV_KEY, code, value), ok).0
      == h.(connected := ok, keys := KeysAfter(h.keys, Usage(code), value != 0))
  {
  }

  /** Two writes in a row go through `Step` one after the other. */
  lemma ReplayTwoWrites(h: HidState, a: Event, b: Event, ok: bool)
    ensures Replay(h, [Write(a), Write(b)], ok).0 == Step(Step(h, a, ok).0, b, ok).0
  {
    ReplaySnoc(h, [], Write(a), ok);
    assert [] + [Write(a)] == [Write(a)];
    ReplaySnoc(h, [Write(a)], Write(b), ok);
    assert [Write(a)] + [Write(b)] == [Write(a), Write(b)];
  }

  /** A write followed by a sync replays as the write's one step. */
  lemma ReplayWriteThenSync(h: HidState, e: Event, ok: bool)
    ensures Replay(h, [Write(e), Sync], ok) == Step(h, e, ok)
  {
    ReplaySnoc(h, [], Write(e), ok);
    assert [] + [Write(e)] == [Write(e)];
    ReplaySnoc(h, [Write(e)], Sync, ok);
    assert [Write(e)] + [Sync] == [Write(e), Sync];
    assert [] + Step(h, e, ok).1 + [] == Step(h, e, ok).1;
  }

  /** Pressing and then releasing a translated key that was not held, with
      fewer than six held, returns the HID state to what it was. */
  lemma PressThenReleaseRestores(h: HidState, code: int)
    requires h.connected && RolloverValid(h.keys) && |h.keys| < KeySlots
    requires code !in MouseButtonBits && code !in ModifierBits && Usage(code) != 0
    requires Usage(code) !in h.keys
    ensures Replay(h, [Write(Event(EV_KEY, code, 1)), Write(Event(EV_KEY, code, 0))], true).0 == h
  {
    var u := Usage(code);
    ReplayTwoWrites(h, Event(EV_KEY, code, 1), Event(EV_KEY, code, 0), true);
    TranslatedKeyStep(h, code, 1, true);
    TranslatedKeyStep(h.(keys := KeysAfter(h.keys, u, true)), code, 0, true);
    ReleaseUndoesPress(h.keys, u);
  }
}
