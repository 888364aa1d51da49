/** Symbolic names of button codes, as the mapper's key map refers to them. */
module ButtonNames {
  import opened Options

  /** The BTN_* names of the mouse and gamepad ranges with their codes, in
      the alphabetical order in which a name listing of the evdev constants
      presents them. Several names are aliases of one code (BTN_A, BTN_GAMEPAD
      and BTN_SOUTH are all 0x130). */
  const Table: seq<(string, int)> := [
    ("BTN_A", 0x130), ("BTN_B", 0x131), ("BTN_BACK", 0x116), ("BTN_C", 0x132),
    ("BTN_EAST", 0x131), ("BTN_EXTRA", 0x114), ("BTN_FORWARD", 0x115),
    ("BTN_GAMEPAD", 0x130), ("BTN_LEFT", 0x110), ("BTN_MIDDLE", 0x112),
    ("BTN_MODE", 0x13c), ("BTN_MOUSE", 0x110), ("BTN_NORTH", 0x133),
    ("BTN_RIGHT", 0x111), ("BTN_SELECT", 0x13a), ("BTN_SIDE", 0x113),
    ("BTN_SOUTH", 0x130), ("BTN_START", 0x13b), ("BTN_TASK", 0x117),
    ("BTN_THUMBL", 0x13d), ("BTN_THUMBR", 0x13e), ("BTN_TL", 0x136),
    ("BTN_TL2", 0x138), ("BTN_TR", 0x137), ("BTN_TR2", 0x139),
    ("BTN_WEST", 0x134), ("BTN_X", 0x133), ("BTN_Y", 0x134), ("BTN_Z", 0x135)
  ]

  /** The name of the first entry of Table, from index i on, whose code
      is `code`. */
  function AliasFrom(code: int, i: nat): (r: Option<string>)
    requires i <= |Table|
    ensures r.None? <==> forall j | i <= j < |Table| :: Table[j].1 != code
    ensures r.Some? ==> exists k | i <= k < |Table| ::
      Table[k] == (r.value, code) && forall j | i <= j < k :: Table[j].1 != code
    decreases |Table| - i
  {
    if i == |Table| then None
    else if Table[i].1 == code then Some(Table[i].0)
    else AliasFrom(code, i + 1)
  }

  /** The symbolic name a button code resolves to: the first BTN_* name in
      listing order whose value is the code, or None. */
  function ButtonAlias(code: int): (r: Option<string>)
    ensures r.None? <==> forall j | 0 <= j < |Table| :: Table[j].1 != code
    ensures r.Some? ==> exists k | 0 <= k < |Table| ::
      Table[k] == (r.value, code) && forall j | 0 <= j < k :: Table[j].1 != code
  {
    AliasFrom(code, 0)
  }

  /** The source's name lookup: a scan of the name listing that stops at the
      first BTN_* name whose value is the code. */
  method ResolveButtonName(code: int) returns (name: Option<string>)
    ensures name == ButtonAlias(code)
  {
    name := None;
    var i := 0;
    while i < |Table|
      invariant 0 <= i <= |Table|
      invariant forall j | 0 <= j < i :: Table[j].1 != code
    {
      if Table[i].1 == code {
        name := Some(Table[i].0);
        return;
      }
      i := i + 1;
    }
  }

  /** The first name in listing order whose value is the code and which the
      key map maps, from index i on. */
  function MappedAliasFrom(keyMap: map<string, int>, code: int, i: nat): (r: Option<string>)
    requires i <= |Table|
    ensures r.None? <==> forall j | i <= j < |Table| :: Table[j].1 == code ==> Table[j].0 !in keyMap
    ensures r.Some? ==> r.value in keyMap && exists k | i <= k < |Table| ::
      Table[k] == (r.value, code) && forall j | i <= j < k :: Table[j].1 == code ==> Table[j].0 !in keyMap
    decreases |Table| - i
  {
    if i == |Table| then None
    else if Table[i].1 == code && Table[i].0 in keyMap then Some(Table[i].0)
    else MappedAliasFrom(keyMap, code, i + 1)
  }

  /** The name under which the key map maps a button code: the first of the
      code's aliases that the key map holds, so a map written with any alias
      (BTN_SOUTH as well as BTN_A) takes effect. */
  function MappedButtonName(keyMap: map<string, int>, code: int): (r: Option<string>)
    ensures r.None? <==> forall j | 0 <= j < |Table| :: Table[j].1 == code ==> Table[j].0 !in keyMap
    ensures r.Some? ==> r.value in keyMap && exists k | 0 <= k < |Table| ::
      Table[k] == (r.value, code) && forall j | 0 <= j < k :: Table[j].1 == code ==> Table[j].0 !in keyMap
  {
    MappedAliasFrom(keyMap, code, 0)
  }

  /** The corrected lookup: the same scan of the name listing, which skips
      the aliases the key map does not hold. */
  method ResolveMappedName(keyMap: map<string, int>, code: int) returns (name: Option<string>)
    ensures name == MappedButtonName(keyMap, code)
  {
    name := None;
    var i := 0;
    while i < |Table|
      invariant 0 <= i <= |Table|
      invariant forall j | 0 <= j < i :: Table[j].1 == code ==> Table[j].0 !in keyMap
    {
      if Table[i].1 == code && Table[i].0 in keyMap {
        name := Some(Table[i].0);
        return;
      }
      i := i + 1;
    }
  }

  /** Wherever the name lookup as written finds a mapping, the corrected
      lookup finds the same one; it differs only by also honouring the
      code's later aliases. */
  lemma MappedNameExtendsAlias(keyMap: map<string, int>, code: int)
    ensures var a := ButtonAlias(code);
      a.Some? && a.value in keyMap ==> MappedButtonName(keyMap, code) == a
    ensures ButtonAlias(code).None? ==> MappedButtonName(keyMap, code).None?
  {
    var a := ButtonAlias(code);
    if a.Some? && a.value in keyMap {
      var k :| 0 <= k < |Table| && Table[k] == (a.value, code) && forall j | 0 <= j < k :: Table[j].1 != code;
      var m := MappedButtonName(keyMap, code);
      var k' :| 0 <= k' < |Table| && Table[k'] == (m.value, code)
        && forall j | 0 <= j < k' :: Table[j].1 == code ==> Table[j].0 !in keyMap;
      assert Table[k'].1 == code && Table[k].0 in keyMap;
    }
  }

  /** As written, the name lookup resolves 0x130 to BTN_A, the first of its
      aliases BTN_A, BTN_GAMEPAD and BTN_SOUTH, so a key map that names the
      button only as BTN_SOUTH is never consulted for it; the corrected
      lookup finds that entry. */
  lemma SouthMappingFound(keyMap: map<string, int>)
    requires keyMap.Keys == {"BTN_SOUTH"}
    ensures ButtonAlias(0x130) == Some("BTN_A") && "BTN_A" !in keyMap
    ensures MappedButtonName(keyMap, 0x130) == Some("BTN_SOUTH")
  {
    var a := ButtonAlias(0x130);
    assert Table[0] == ("BTN_A", 0x130);
    var k :| 0 <= k < |Table| && Table[k] == (a.value, 0x130) && forall j | 0 <= j < k :: Table[j].1 != 0x130;
    assert Table[16] == ("BTN_SOUTH", 0x130);
  }
}
