/** The two HID gadget reports the mapper writes: a keyboard report (report
    ID 1) and a mouse report (report ID 2). Each body follows the boot
    layouts of Appendix B.1 and B.2 of the USB Device Class Definition for
    HID 1.11 (modifier byte, reserved byte, six key slots / button byte, X,
    Y), padded to 11 bytes. */
module Reports {
  import opened Options

  type Report = seq<bv8>

  /** Number of key slots in a keyboard report. */
  const KeySlots: nat := 6
  const ReportLength: nat := 11

  /** `[0x00] * n`; like the source's list repetition, a negative count gives
      the empty list. */
  function Zeros(n: int): (r: seq<bv8>)
    ensures |r| == if n < 0 then 0 else n
    ensures forall i | 0 <= i < |r| :: r[i] == 0
  {
    seq(if n < 0 then 0 else n, _ => 0)
  }

  /** Report ID 1, the modifier byte, a reserved zero byte, the held usages
      in press order padded with zeros to six slots, then two zero bytes. */
  function KeyboardReport(modifiers: bv8, keys: seq<bv8>): Report
  {
    [0x01, modifiers, 0x00] + keys + Zeros(KeySlots - |keys|) + [0x00, 0x00]
  }

  /** Saturation of a motion delta to the range a signed byte can carry. */
  function Clamp(v: int): (r: int)
    ensures -127 <= r <= 127
    ensures -127 <= v <= 127 ==> r == v
    ensures v < -127 ==> r == -127
    ensures v > 127 ==> r == 127
  {
    if v < -127 then -127 else if v > 127 then 127 else v
  }

  /** `v & 0xFF`: the low byte of the two's-complement representation. */
  function LowByte(v: int): (b: bv8)
    ensures b as int % 256 == v % 256
  {
    (v % 256) as bv8
  }

  /** The host's reading of a report byte as a signed 8-bit delta. */
  function SignedByte(b: bv8): (v: int)
    ensures -128 <= v <= 127
    ensures v % 256 == b as int
  {
    if b < 0x80 then b as int else b as int - 256
  }

  /** Report ID 2, the button byte, the clamped X and Y deltas as signed
      bytes, then seven zero bytes. */
  function MouseReport(buttons: bv8, dx: int, dy: int): Report
  {
    [0x02, buttons, LowByte(Clamp(dx)), LowByte(Clamp(dy))] + Zeros(7)
  }

  /** The usages a host reads out of the key slots of a keyboard report:
      the nonzero bytes, in slot order. */
  function NonZero(s: seq<bv8>): (r: seq<bv8>)
    ensures |r| <= |s|
    ensures 0 !in r
  {
    if s == [] then []
    else if s[0] == 0 then NonZero(s[1..])
    else [s[0]] + NonZero(s[1..])
  }

  /** The host side of the keyboard report: checks the report ID and length
      and returns the modifier byte and the held usages. */
  function ParseKeyboardReport(r: Report): (m: Option<(bv8, seq<bv8>)>)
  {
    if |r| == ReportLength && r[0] == 0x01 then Some((r[1], NonZero(r[3..3 + KeySlots])))
    else None
  }

  /** The host side of the mouse report: checks the report ID and length and
      returns the buttons and the signed deltas. */
  function ParseMouseReport(r: Report): (m: Option<(bv8, int, int)>)
  {
    if |r| == ReportLength && r[0] == 0x02 then Some((r[1], SignedByte(r[2]), SignedByte(r[3])))
    else None
  }

  /** With at most six held usages the keyboard report is 11 bytes: ID 1,
      modifiers, a reserved zero, the usages in order, zero padding. */
  lemma KeyboardReportLayout(modifiers: bv8, keys: seq<bv8>)
    requires |keys| <= KeySlots
    ensures var r := KeyboardReport(modifiers, keys);
      && |r| == ReportLength
      && r[0] == 0x01 && r[1] == modifiers && r[2] == 0x00
      && r[3..3 + |keys|] == keys
      && forall i | 3 + |keys| <= i < ReportLength :: r[i] == 0x00
  {
    var r := KeyboardReport(modifiers, keys);
    assert r == [0x01, modifiers, 0x00] + (keys + (Zeros(KeySlots - |keys|) + [0x00, 0x00]));
  }

  lemma {:induction false} NonZeroOfNonZeroPrefix(keys: seq<bv8>, n: nat)
    requires 0 !in keys
    ensures NonZero(keys + Zeros(n)) == keys
  {
    if keys == [] {
      assert keys + Zeros(n) == Zeros(n);
      NonZeroOfZeros(n);
    } else {
      assert (keys + Zeros(n))[1..] == keys[1..] + Zeros(n);
      NonZeroOfNonZeroPrefix(keys[1..], n);
    }
  }

  lemma {:induction false} NonZeroOfZeros(n: nat)
    ensures NonZero(Zeros(n)) == []
  {
    if n > 0 {
      assert Zeros(n)[1..] == Zeros(n - 1);
      NonZeroOfZeros(n - 1);
    }
  }

  /** Round trip: a host parsing the keyboard report gets back the modifier
      byte and exactly the held usages, in press order, provided there are
      at most six of them and none is zero. */
  lemma KeyboardReportRoundTrip(modifiers: bv8, keys: seq<bv8>)
    requires |keys| <= KeySlots && 0 !in keys
    ensures ParseKeyboardReport(KeyboardReport(modifiers, keys)) == Some((modifiers, keys))
  {
    var r := KeyboardReport(modifiers, keys);
    KeyboardReportLayout(modifiers, keys);
    assert r[3..3 + KeySlots] == keys + Zeros(KeySlots - |keys|);
    NonZeroOfNonZeroPrefix(keys, KeySlots - |keys|);
  }

  /** The mouse report is 11 bytes: ID 2, the button byte, the deltas
      clamped to [-127, 127] as signed bytes, and seven zeros; a host reads
      back the clamped deltas. */
  lemma MouseReportRoundTrip(buttons: bv8, dx: int, dy: int)
    ensures var r := MouseReport(buttons, dx, dy);
      && |r| == ReportLength
      && r[0] == 0x02 && r[1] == buttons
      && (forall i | 4 <= i < ReportLength :: r[i] == 0x00)
      && ParseMouseReport(r) == Some((buttons, Clamp(dx), Clamp(dy)))
  {
    SignedLowByte(Clamp(dx));
    SignedLowByte(Clamp(dy));
  }

  /** A delta in [-127, 127] survives the trip through `& 0xFF` and the
      host's signed reading. */
  lemma SignedLowByte(v: int)
    requires -127 <= v <= 127
    ensures SignedByte(LowByte(v)) == v
  {
    var b := LowByte(v);
    if v < 0 {
      assert v % 256 == v + 256;
      assert b as int == v + 256;
    } else {
      assert b as int == v;
    }
  }
}
