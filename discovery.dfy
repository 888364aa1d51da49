/** Choosing the controller when the configuration names no device: the
    first Sony DualSense (or DualSense Edge) that reports absolute axes,
    otherwise the first device that looks like a gamepad. */
module Discovery {
  import opened Codes
  import opened Options

  const SonyVendor: int := 0x054C
  /** DualSense and DualSense Edge. */
  const DualSenseProducts: set<int> := {0x0CE6, 0x0DF2}
  const ControllerKey: string := "controller"

  /** One entry of the input device list: its path, whether opening it
      (and querying it) succeeds, its vendor and product IDs, and its
      capabilities, each event type with the codes it reports. */
  datatype Device = Device(path: string, opens: bool, vendor: int, product: int, caps: map<int, seq<int>>)

  /** The two passes of the search. */
  datatype Criterion = DualSense | Gamepad

  /** A device that opens, is a DualSense or DualSense Edge, and reports
      absolute axes. */
  predicate IsDualSense(d: Device)
  {
    d.opens && d.vendor == SonyVendor && d.product in DualSenseProducts && EV_ABS in d.caps
  }

  /** A device that opens and reports more than 10 key codes and more than
      4 absolute axes. */
  predicate IsGamepadLike(d: Device)
  {
    d.opens && EV_ABS in d.caps && EV_KEY in d.caps && |d.caps[EV_KEY]| > 10 && |d.caps[EV_ABS]| > 4
  }

  predicate Matches(c: Criterion, d: Device)
  {
    match c
    case DualSense => IsDualSense(d)
    case Gamepad => IsGamepadLike(d)
  }

  /** The index of the first device meeting the criterion. */
  function FirstMatch(devs: seq<Device>, c: Criterion): (r: Option<nat>)
    ensures r.None? <==> forall i | 0 <= i < |devs| :: !Matches(c, devs[i])
    ensures r.Some? ==> r.value < |devs| && Matches(c, devs[r.value])
                        && forall i | 0 <= i < r.value :: !Matches(c, devs[i])
  {
    if devs == [] then None
    else if Matches(c, devs[0]) then Some(0)
    else match FirstMatch(devs[1..], c)
      case None => None
      case Some(k) => Some(k + 1)
  }

  /** The paths one pass claims: the first matching device, if any, under
      the key "controller". */
  function Claimed(devs: seq<Device>, c: Criterion): (paths: map<string, string>)
  {
    match FirstMatch(devs, c)
    case None => map[]
    case Some(i) => map[ControllerKey := devs[i].path]
  }

  /** The device paths auto-detection returns: the DualSense pass, and the
      gamepad pass only when the first found nothing. */
  function Detected(devs: seq<Device>): (paths: map<string, string>)
    ensures paths.Keys <= {ControllerKey}
    ensures ControllerKey in paths ==>
      exists i | 0 <= i < |devs| :: paths[ControllerKey] == devs[i].path
                                    && (IsDualSense(devs[i]) || IsGamepadLike(devs[i]))
    ensures paths == map[] <==> forall i | 0 <= i < |devs| :: !IsDualSense(devs[i]) && !IsGamepadLike(devs[i])
  {
    var first := Claimed(devs, DualSense);
    if first == map[] then Claimed(devs, Gamepad) else first
  }

  /** Looking one device further: the first match is unchanged once found,
      otherwise it is the new device if that one matches. */
  lemma {:induction false} FirstMatchSnoc(devs: seq<Device>, d: Device, c: Criterion)
    ensures FirstMatch(devs + [d], c)
      == if FirstMatch(devs, c).Some? then FirstMatch(devs, c)
         else if Matches(c, d) then Some(|devs|)
         else None
  {
    var s := devs + [d];
    if devs == [] {
      assert s[1..] == [];
    } else {
      assert s[0] == devs[0];
      assert s[1..] == devs[1..] + [d];
      FirstMatchSnoc(devs[1..], d, c);
    }
  }

  /** One step of either pass, as the loops below perform it: a device
      that meets the criterion is recorded unless one already is. */
  lemma ClaimedSnoc(devs: seq<Device>, d: Device, c: Criterion)
    ensures Claimed(devs + [d], c)
      == if ControllerKey !in Claimed(devs, c) && Matches(c, d)
         then Claimed(devs, c)[ControllerKey := d.path]
         else Claimed(devs, c)
  {
    FirstMatchSnoc(devs, d, c);
    assert (devs + [d])[|devs|] == d;
    if FirstMatch(devs, c).Some? {
      var i := FirstMatch(devs, c).value;
      assert (devs + [d])[i] == devs[i];
    }
  }

  /** Scans the device list as the mapper does: first for a DualSense with
      absolute axes, then, only if none was recorded, for a gamepad-like
      device. A device that cannot be opened is skipped; the first match
      of each pass is kept. */
  method AutoDetectDevices(devs: seq<Device>) returns (paths: map<string, string>)
    ensures paths == Detected(devs)
  {
    paths := map[];
    for i := 0 to |devs|
      invariant paths == Claimed(devs[..i], DualSense)
    {
      var d := devs[i];
      ClaimedSnoc(devs[..i], d, DualSense);
      assert devs[..i + 1] == devs[..i] + [d];
      if d.opens && d.vendor == SonyVendor && d.product in DualSenseProducts {
        if EV_ABS in d.caps && ControllerKey !in paths {
          paths := paths[ControllerKey := d.path];
        }
      }
    }
    assert devs[..|devs|] == devs;
    if paths == map[] {
      for i := 0 to |devs|
        invariant paths == Claimed(devs[..i], Gamepad)
      {
        var d := devs[i];
        ClaimedSnoc(devs[..i], d, Gamepad);
        assert devs[..i + 1] == devs[..i] + [d];
        if d.opens && EV_ABS in d.caps && EV_KEY in d.caps {
          if |d.caps[EV_KEY]| > 10 && |d.caps[EV_ABS]| > 4 && ControllerKey !in paths {
            paths := paths[ControllerKey := d.path];
          }
        }
      }
    }
  }

  /** The first DualSense in the list is chosen, whatever gamepad-like
      devices come before it. */
  lemma FirstDualSenseChosen(devs: seq<Device>, i: nat)
    requires i < |devs| && IsDualSense(devs[i])
    requires forall j | 0 <= j < i :: !IsDualSense(devs[j])
    ensures Detected(devs) == map[ControllerKey := devs[i].path]
  {
    var r := FirstMatch(devs, DualSense);
    assert Matches(DualSense, devs[i]);
  }

  /** Without any DualSense the first gamepad-like device is chosen. */
  lemma FallbackChoosesFirstGamepad(devs: seq<Device>, i: nat)
    requires forall j | 0 <= j < |devs| :: !IsDualSense(devs[j])
    requires i < |devs| && IsGamepadLike(devs[i])
    requires forall j | 0 <= j < i :: !IsGamepadLike(devs[j])
    ensures Detected(devs) == map[ControllerKey := devs[i].path]
  {
    assert FirstMatch(devs, DualSense).None? by {
      forall j | 0 <= j < |devs|
        ensures !Matches(DualSense, devs[j])
      {
      }
    }
    var r := FirstMatch(devs, Gamepad);
    assert Matches(Gamepad, devs[i]);
  }
}
