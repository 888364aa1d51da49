# DualSense mapper, modelled in Dafny

`bin/ds_mapper.py` turns the events of a Sony DualSense controller into
keyboard and mouse input. It does two things for every event it synthesises:

- it writes the event to a virtual input device;
- it mirrors the event on a USB HID gadget, as an 11-byte keyboard report
  (report ID 1) or mouse report (report ID 2).

The mapping works like this:

- The right stick moves the pointer.
- The left stick holds W, A, S and D.
- The L2 trigger holds the left mouse button.
- A button named in the key map writes its target key.
- An R2 press toggles rapid fire.

When no device is configured, the mapper searches the input devices for the
controller.

The model covers the following parts of the source:

- the `DSMapper` write path (`_w`, `_send_keyboard_report`,
  `_send_mouse_report`);
- the event handlers (`_handle_event`, `_handle_key`, `_handle_abs`,
  `_process_right_stick`, `_process_left_stick`);
- device auto-detection (`_auto_detect_devices`);
- the three translation tables `EVDEV_TO_HID`, `MODIFIER_BITS` and
  `MOUSE_BUTTON_BITS`.

The files, in dependency order:

- `options.dfy`: the `Option` type.
- `codes.dfy` (module `Codes`): the evdev codes and the three translation
  tables, with their layout on the Keyboard/Keypad usage page and the
  boot-report bit layouts.
- `names.dfy` (module `ButtonNames`): how a button code gets its `BTN_*` name.
  It has both the lookup as written and the corrected lookup (see Findings).
- `reports.dfy` (module `Reports`): the two report layouts. It also has a
  host-side parser, used to state round trips.
- `gadget.dfy` (module `Gadget`): the HID state and how events change it.
  - The HID state is the modifier byte, the button byte, the six-slot
    rollover list, and whether the gadget is connected.
  - `Step` is what one `_w` call does to that state and which reports it
    sends.
  - `Replay` applies `Step` to a whole stream of writes and syncs.
- `handlers.dfy` (module `Handlers`): what each handler writes to the virtual
  device, as pure functions of the readings and the configuration.
- `mapper.dfy` (module `Mapper`): the class `DSMapper` with its mutable
  fields. Each method is proved against the functions above:
  - `W` ties its new HID state and reports to `Step`.
  - Each handler proves that the stream it wrote is what the matching
    `Handlers` function prescribes.
  - Each handler proves that the HID state and the report log are what
    `Replay` gives for that stream.
- `discovery.dfy` (module `Discovery`): auto-detection as a two-pass scan,
  proved equal to a first-match specification.

### Behaviour of the code worth knowing

- The stick centre is the literal 128 (`bin/ds_mapper.py:422-423` and
  `450-451`). The `center` and `sens` options are read at lines 316 and 318
  and never used.
- An offset is zeroed when `abs(offset) < deadzone` (lines 426-429 and
  454-457): an offset equal to the deadzone passes.
- A mouse delta is `int(offset * sens / 10)`, truncated toward zero
  (lines 436-437).
- The left stick writes all four movement keys, W, S, A and D, on every
  left-stick event, whether or not any of them changed (lines 460-480).
- The L2 threshold is the literal `> 200` (line 411).
- The key map (lines 333-342) is the only configurable mapping; axes are
  handled by fixed code.
- Key events go to `HandleKey`, which uses the name lookup as written
  (lines 371-378). `HandleKeyCorrected` is the same handler with the
  corrected lookup described under Findings.

## Model

| member | source | states |
|---|---|---|
| Codes.EvdevToHid | bin/ds_mapper.py:44-69 | the evdev key code to HID usage table: letters, digits, Enter/Esc/Backspace/Tab/Space, the symbol keys and F1-F12 |
| Codes.ModifierBits | bin/ds_mapper.py:71-75 | the modifier table: left and right Ctrl, Shift, Alt and Meta, each with its bit of the modifier byte |
| Codes.MouseButtonBits | bin/ds_mapper.py:77-79 | the mouse-button table: BTN_LEFT 0x01, BTN_RIGHT 0x02, BTN_MIDDLE 0x04 |
| Codes.LettersConsecutive | bin/ds_mapper.py:45-52 | KEY_A..KEY_Z map to the consecutive usages 0x04..0x1D |
| Codes.DigitsConsecutive | bin/ds_mapper.py:53-56 | KEY_1..KEY_9, KEY_0 map to the consecutive usages 0x1E..0x27 |
| Codes.FunctionKeysConsecutive | bin/ds_mapper.py:65-68 | F1..F12 map to the consecutive usages 0x3A..0x45 |
| Codes.UsagesOnKeyboardPage | bin/ds_mapper.py:44-69 | every translated key gets a usage between 0x04 and 0x45, never 0 and never 0x32 |
| Codes.BitTablesAreSingleBits | bin/ds_mapper.py:71-79 | each modifier and each mouse button owns exactly one bit, distinct from the others in its table |
| Codes.TablesDisjoint | bin/ds_mapper.py:44-79 | no code is in two tables, so the mouse → modifier → keyboard routing order never hides an entry |
| Reports.Zeros | bin/ds_mapper.py:287 | `[0x00] * n` has max(n, 0) zero bytes |
| Reports.KeyboardReport | bin/ds_mapper.py:285-289 | defines the keyboard report: ID 1, the modifier byte, a reserved 0, the held usages in order, zero padding up to six slots, and two trailing zeros |
| Reports.MouseReport | bin/ds_mapper.py:300-302 | defines the mouse report: ID 2, the button byte, the clamped deltas as their low bytes, and seven zeros |
| Reports.Clamp | bin/ds_mapper.py:300-301 | the delta is saturated to [-127, 127] and unchanged inside it |
| Reports.LowByte | bin/ds_mapper.py:302 | `v & 0xFF` is v modulo 256 |
| Reports.KeyboardReportLayout | bin/ds_mapper.py:285-289 | with at most six usages the keyboard report is 11 bytes: ID 1, modifiers, 0, the usages in order, zero padding |
| Reports.KeyboardReportRoundTrip | bin/ds_mapper.py:285-289 | a host parsing the keyboard report reads back the modifier byte and exactly the held usages in order |
| Reports.MouseReportRoundTrip | bin/ds_mapper.py:300-302 | the mouse report is 11 bytes (ID 2, buttons, dx, dy, seven zeros); a host reads back the clamped deltas |
| Reports.SignedLowByte | bin/ds_mapper.py:302 | a delta in [-127, 127] survives `& 0xFF` and a signed-byte reading |
| Gadget.SetBit | bin/ds_mapper.py:243-246 | computes the bitwise or with the bit on a press and `bits & ~bit` on a release; the same update serves the modifier byte at lines 251-254 |
| Gadget.SetBitChangesOnlyThatBit | bin/ds_mapper.py:243-246 | a press sets exactly that bit, a release clears exactly that bit, and the other bits are kept |
| Gadget.Usage | bin/ds_mapper.py:258 | defines the usage of a code: its `EVDEV_TO_HID` entry, or 0 for a code the table lacks |
| Gadget.KeysAfter | bin/ds_mapper.py:259-265 | defines the rollover update: a new usage is appended after evicting the oldest when six are held, a held usage is removed on release, anything else leaves the list alone |
| Gadget.Remove | bin/ds_mapper.py:265 | computes `list.remove(u)`: the list without the first occurrence of u, one shorter |
| Gadget.RemoveShifts | bin/ds_mapper.py:265 | `list.remove` deletes exactly the first occurrence: the usages before it stay in place, those after it move down by one |
| Gadget.Send | bin/ds_mapper.py:290-295 | defines one report write: a success sends the report, a failure sends nothing and disconnects the gadget |
| Gadget.KeyStep | bin/ds_mapper.py:240-266 | defines a key event on a connected gadget: mouse buttons first, then modifiers, then translated keys, each changing its part of the state and sending one report; other codes do nothing |
| Gadget.Step | bin/ds_mapper.py:233-272 | defines one `_w` call on the HID side: nothing when disconnected, `KeyStep` for keys, a mouse report with the motion for REL_X or REL_Y, nothing otherwise |
| Gadget.Replay | bin/ds_mapper.py:233-276 | defines the HID state and reports after a stream of writes and syncs: `Step` applied in order, syncs leaving the HID side alone |
| Gadget.KeysAfterKeepsRollover | bin/ds_mapper.py:259-265 | the rollover update keeps at most six distinct nonzero usages |
| Gadget.RepeatedPressOrStrayReleaseIsNoOp | bin/ds_mapper.py:260-265 | pressing a held usage or releasing one not held leaves the list unchanged |
| Gadget.PressIsFifo | bin/ds_mapper.py:260-263 | a new usage goes last; with six held, exactly the oldest is evicted and the order is kept |
| Gadget.ReleaseRemovesOnlyThatUsage | bin/ds_mapper.py:264-265 | a release removes exactly the released usage and keeps every other usage in its order: earlier ones in place, later ones one slot down |
| Gadget.ReleaseUndoesPress | bin/ds_mapper.py:259-265 | a press without eviction followed by its release restores the list |
| Gadget.KeyStepKeys | bin/ds_mapper.py:240-266 | of the key events only a translated key changes the held usages, and only as the rollover update says |
| Gadget.StepKeepsRollover | bin/ds_mapper.py:233-272 | any write keeps the rollover invariant |
| Gadget.ReplayKeepsRollover | bin/ds_mapper.py:233-272 | any stream of writes keeps the rollover invariant |
| Gadget.DisconnectedIsInert | bin/ds_mapper.py:237-238 | with no gadget, no write changes the HID state or sends a report |
| Gadget.ConnectionOnlyDrops | bin/ds_mapper.py:290-295 | only a failed report write disconnects the gadget, and nothing reconnects it |
| Gadget.UnmappedEventIsInert | bin/ds_mapper.py:257-272 | a key code in no table, another REL axis, or another event type changes nothing and sends nothing |
| Gadget.MouseButtonSetsOnlyItsBit | bin/ds_mapper.py:241-247 | a mouse button sets or clears exactly its bit (the new byte is `SetBit` of it), keeps modifiers and keys, and sends one motionless mouse report |
| Gadget.ModifierSetsOnlyItsBit | bin/ds_mapper.py:249-255 | a modifier sets or clears exactly its bit (the new byte is `SetBit` of it), keeps buttons and keys, and sends one keyboard report |
| Gadget.SentReportsDescribeState | bin/ds_mapper.py:240-272 | every report a write sends parses back to the HID state after the write (plus the clamped motion) |
| Gadget.PressThenReleaseRestores | bin/ds_mapper.py:257-266 | pressing and releasing a translated key that was not held restores the HID state |
| Handlers.ApplyDeadzone | bin/ds_mapper.py:426-429 | an offset is zeroed exactly when its magnitude is below the deadzone |
| Handlers.TruncDiv | bin/ds_mapper.py:436-437 | `int(a / b)` truncates toward zero: same sign, within one unit of the exact quotient |
| Handlers.RightStickMotion | bin/ds_mapper.py:422-441 | defines the right-stick motion: None when both offsets are inside the deadzone, otherwise the truncated scaled deltas with dy negated under invert_y |
| Handlers.MotionOutputs | bin/ds_mapper.py:443-447 | defines the right-stick writes: REL_X when dx is nonzero, REL_Y when dy is nonzero, then one sync |
| Handlers.RightStickOutputs | bin/ds_mapper.py:432-447 | defines the right-stick stream: nothing when there is no motion, else `MotionOutputs` |
| Handlers.DeadzoneSuppressesMotion | bin/ds_mapper.py:426-433 | both offsets inside the deadzone: nothing is written, not even a sync |
| Handlers.RightStickShape | bin/ds_mapper.py:432-447 | the right stick writes nothing, or at most one REL_X then one REL_Y with nonzero deltas, then exactly one sync |
| Handlers.RightStickScaling | bin/ds_mapper.py:436-441 | each delta is the offset times the sensitivity over ten, truncated toward zero: within one unit of the exact quotient in magnitude and of its sign (dy before the invert_y negation) |
| Handlers.InvertYNegates | bin/ds_mapper.py:440-441 | invert_y negates only the vertical delta |
| Handlers.KeyWrites | bin/ds_mapper.py:478-479 | one key event per (key, state) pair, in order |
| Handlers.LeftStickKeys | bin/ds_mapper.py:449-475 | defines the four movement-key states, in the order W, S, A, D, from the stick offsets and the deadzone |
| Handlers.LeftStickOutputs | bin/ds_mapper.py:477-480 | defines the left-stick stream: the four key writes, then one sync |
| Handlers.MovementKeysFollowStick | bin/ds_mapper.py:449-475 | W iff y is below −deadzone, S iff y is above +deadzone and W is not held, likewise A/D; never both of a pair |
| Handlers.MovementKeysWithDeadzone | bin/ds_mapper.py:454-475 | with a nonnegative deadzone S and D depend only on their own side, and a resting stick releases all four |
| Handlers.LeftStickWritesAllFour | bin/ds_mapper.py:460-480 | every left-stick event writes W, S, A, D in that order, then one sync |
| Handlers.L2HoldsLeftButton | bin/ds_mapper.py:409-415 | L2 above 200 sets the left-button bit, otherwise clears it, keeps everything else, and sends one mouse report |
| Handlers.L2Outputs | bin/ds_mapper.py:409-415 | defines the L2 stream: BTN_LEFT with 1 above 200 and 0 otherwise, then one sync |
| Handlers.AbsOutputs | bin/ds_mapper.py:396-419 | defines what an axis event writes: the right-stick stream for RX/RY, the left-stick stream for X/Y, the L2 stream for Z, nothing for any other axis |
| Handlers.InitialAxes | bin/ds_mapper.py:182-186 | the six tracked axes all start at 0 |
| Handlers.FirstHorizontalEventPressesW | bin/ds_mapper.py:182-186 | because the axes start at 0, not 128, the first ABS_X event presses W |
| Handlers.MappedButtonWritesOnlyTarget | bin/ds_mapper.py:378-382 | a mapped button writes only its target key with its own value, then a sync, and never toggles rapid fire |
| Handlers.UnmappedR2Toggles | bin/ds_mapper.py:385-386 | an unmapped R2 toggles rapid fire exactly when the value is 1 and writes nothing |
| Handlers.UnmappedButtons | bin/ds_mapper.py:389-392 | an unmapped L2 button forwards its value to BTN_LEFT then syncs; any other unmapped button does nothing |
| Handlers.KeyResponse | bin/ds_mapper.py:378-392 | defines the button response for a resolved name: a mapped name writes its target and a sync; otherwise an R2 press toggles rapid fire and L2 forwards to BTN_LEFT |
| Handlers.SouthPressIgnored | bin/ds_mapper.py:371-382 | as written, a press of 0x130 with a key map holding only BTN_SOUTH writes nothing; with the corrected lookup it writes the mapped key and a sync |
| ButtonNames.Table | bin/ds_mapper.py:372-375 | the mouse and gamepad `BTN_*` names with their codes, in the alphabetical order `dir(ecodes)` lists them |
| ButtonNames.ButtonAlias | bin/ds_mapper.py:371-375 | the name is the first BTN_* name in listing order with that code, or None if there is none |
| ButtonNames.ResolveButtonName | bin/ds_mapper.py:371-375 | the scan as written returns exactly `ButtonAlias` |
| ButtonNames.MappedButtonName | bin/ds_mapper.py:371-378 | the first alias of the code that the key map holds, or None exactly when the key map holds no alias |
| ButtonNames.ResolveMappedName | bin/ds_mapper.py:371-378 | the corrected scan returns exactly `MappedButtonName` |
| ButtonNames.MappedNameExtendsAlias | bin/ds_mapper.py:371-378 | wherever the lookup as written finds a mapping, the corrected one finds the same |
| ButtonNames.SouthMappingFound | bin/ds_mapper.py:371-378 | as written, 0x130 resolves to BTN_A, so a map keyed by BTN_SOUTH is missed; the corrected lookup finds it |
| Mapper.DSMapper.constructor | bin/ds_mapper.py:178-186 | no modifier, button or held key; every axis at 0; rapid fire as configured; nothing written |
| Mapper.DSMapper.SendKeyboardReport | bin/ds_mapper.py:282-295 | when connected, sends the keyboard report of the current state; a failed write disconnects the gadget |
| Mapper.DSMapper.SendMouseReport | bin/ds_mapper.py:297-308 | when connected, sends the mouse report with the clamped deltas; a failed write disconnects the gadget |
| Mapper.DSMapper.W | bin/ds_mapper.py:233-272 | appends the event to the virtual device; the HID state and reports become exactly what `Step` gives; the rollover invariant is kept |
| Mapper.DSMapper.MirrorKey | bin/ds_mapper.py:240-266 | the HID state and report log after a key event on a connected gadget are exactly what `Step` gives; the virtual device is untouched |
| Mapper.DSMapper.MirrorButton | bin/ds_mapper.py:241-247 | a mouse button updates the button byte with `SetBit` and sends the mouse report, exactly as `Step` says |
| Mapper.DSMapper.MirrorModifier | bin/ds_mapper.py:249-255 | a modifier updates the modifier byte with `SetBit` and sends the keyboard report, exactly as `Step` says |
| Mapper.DSMapper.MirrorTranslatedKey | bin/ds_mapper.py:257-266 | a translated key applies the rollover update and sends the keyboard report, exactly as `Step` says |
| Mapper.DSMapper.MirrorMotion | bin/ds_mapper.py:268-272 | REL_X or REL_Y sends a mouse report with that motion, exactly as `Step` says |
| Mapper.DSMapper.UpdateKeysDown | bin/ds_mapper.py:259-265 | the in-place list update equals `KeysAfter` |
| Mapper.DSMapper.Syn | bin/ds_mapper.py:274-276 | appends a sync and changes nothing else |
| Mapper.DSMapper.WriteAndSync | bin/ds_mapper.py:409-415 | writes one event then a sync, with the HID side their replay |
| Mapper.DSMapper.RightStickDeltas | bin/ds_mapper.py:422-441 | the offset, deadzone, scaling and inversion arithmetic yields exactly `RightStickMotion` of the stored readings |
| Mapper.DSMapper.WriteMotion | bin/ds_mapper.py:443-447 | writes REL_X and REL_Y only when nonzero, then one sync, with the HID side their replay |
| Mapper.DSMapper.ProcessRightStick | bin/ds_mapper.py:421-447 | writes exactly `RightStickOutputs` of the stored readings, and the HID side is their replay |
| Mapper.DSMapper.ProcessLeftStick | bin/ds_mapper.py:449-480 | writes exactly `LeftStickOutputs` of the stored readings, and the HID side is their replay |
| Mapper.DSMapper.WriteKeys | bin/ds_mapper.py:478-479 | the loop writes exactly `KeyWrites` of the key states |
| Mapper.DSMapper.HandleAbs | bin/ds_mapper.py:396-419 | stores the reading, then writes exactly `AbsOutputs` for that axis, with the HID side their replay |
| Mapper.DSMapper.HandleKey | bin/ds_mapper.py:369-392 | resolves the name as written (the first alias in listing order), then writes exactly the `KeyResponse` stream for it and flips rapid fire exactly when it says so |
| Mapper.DSMapper.HandleKeyCorrected | bin/ds_mapper.py:369-392 | the same handler with the corrected lookup: the response is `KeyResponse` for the first alias the key map holds |
| Mapper.DSMapper.Respond | bin/ds_mapper.py:378-392 | given the resolved name, writes exactly the `KeyResponse` stream, with the HID side its replay, and flips rapid fire exactly when it says so |
| Mapper.DSMapper.HandleEvent | bin/ds_mapper.py:361-365 | key events get the as-written `HandleKey` response and axis events the `HandleAbs` one; any other event changes nothing |
| Discovery.IsDualSense | bin/ds_mapper.py:199-205 | a device that opens, has the Sony vendor ID and a DualSense or DualSense Edge product ID, and reports absolute axes |
| Discovery.IsGamepadLike | bin/ds_mapper.py:216-220 | a device that opens and reports absolute axes and keys, with more than 10 key codes and more than 4 axes |
| Discovery.Claimed | bin/ds_mapper.py:198-209 | one scanning pass with `setdefault`: the first matching device's path under "controller", or nothing; the fallback pass at lines 214-225 is the same with the gamepad test |
| Discovery.FirstMatch | bin/ds_mapper.py:198-209 | the index of the first device meeting the criterion, or None exactly when no device does |
| Discovery.Detected | bin/ds_mapper.py:196-227 | at most the key "controller"; a chosen path belongs to a DualSense or gamepad-like device; empty exactly when there is neither |
| Discovery.ClaimedSnoc | bin/ds_mapper.py:205-206 | `setdefault` keeps the first match of a pass and records a later one only if none is recorded yet |
| Discovery.AutoDetectDevices | bin/ds_mapper.py:196-227 | the two scanning loops return exactly `Detected` |
| Discovery.FirstDualSenseChosen | bin/ds_mapper.py:198-206 | the first DualSense with absolute axes is chosen, whatever devices come before it |
| Discovery.FallbackChoosesFirstGamepad | bin/ds_mapper.py:211-223 | with no DualSense, the first device with more than 10 keys and more than 4 axes is chosen |

## Left out

- Opening the devices, reading events, the polling loop (`start`), the lock,
  and the rapid-fire thread with its sleeps are not modelled. The model has
  one thread, so the lock protects nothing it can observe.
- `_rapid_fire_loop`, `rf_button` and `rf_rate` are not modelled. Only the
  `rf_enabled` flag that `_handle_key` toggles is kept.
- `cleanup` and the creation of `/dev/hidg0` are not modelled. Whether the
  gadget opened is a constructor parameter.
- YAML loading and command-line parsing are not modelled. `Config` holds the
  parsed values. Numbers in the file are assumed to be integers.
- The default key map (lines 333-342) is not modelled. Python evaluates
  that default dictionary on every call of `self.cfg.get`, whether or not
  `key_mapping` is configured, and it names `ecodes.TAB`, which
  python-evdev does not define (the key is `KEY_TAB`). So `_parse_cfg`
  raises `AttributeError` on every start and the constructor as written
  never completes. The model starts from a parsed `Config` instead.
- Handlers: whether a gadget write succeeds is one parameter `ok` per
  handler call. A report write that fails disconnects the gadget for the
  rest of the call. A call in which some writes succeed and a later one
  fails is not modelled.
- Handlers.RightStickScaling: the float sensitivities `sens_x` and `sens_y`
  are integer tenths (0.5 is 5), so `int(rx * s / 10)` becomes a division by
  100 truncated toward zero. Sensitivities that are not whole tenths, and
  float rounding, are not modelled.
- ButtonNames.ButtonAlias: `dir(ecodes)` is modelled as an alphabetical
  table. The table holds only the mouse and gamepad `BTN_*` names (0x110-0x117
  and 0x130-0x13e). Codes outside those ranges, such as joystick, digitiser and
  d-pad buttons, get no name in the model.
- Discovery.AutoDetectDevices: both passes scan the same device list. The
  source calls `list_devices()` twice, and the model assumes it returns the
  same list both times. A device that cannot be opened or queried is
  skipped, as the source's exception handlers do.
- Diagnostics (logging) are not modelled.

## Findings

| source | as written | input that shows it | evidently intended | confidence | as-written member | corrected member |
|---|---|---|---|---|---|---|
| bin/ds_mapper.py:371-378 | the button name is the first `BTN_*` name, in `dir()` order, whose value is the code, and only that name is looked up in the key map | code 0x130 with a key map `{"BTN_SOUTH": …}`: `dir()` lists BTN_A before BTN_GAMEPAD and BTN_SOUTH, so the name is BTN_A and the mapping is never used (likewise BTN_EAST, which resolves to BTN_B) | a key-map entry under any alias of the pressed button applies | not executed | ButtonNames.ResolveButtonName, ButtonNames.SouthMappingFound, Handlers.SouthPressIgnored, Mapper.DSMapper.HandleKey | ButtonNames.ResolveMappedName, ButtonNames.MappedNameExtendsAlias, Mapper.DSMapper.HandleKeyCorrected |
