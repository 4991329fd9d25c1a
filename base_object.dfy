/** Loading of base-object (ship and weapon type) definitions: the bit-flag
    readers, the frame readers and the top-level base_object loader of
    src/data/base-object.cpp. */
module BaseObjects {
  import opened Values
  import opened Readers
  import opened Fields
  import opened Bits

  // ---------------------------------------------------------------------
  // 32-bit integers

  const Int32Ranges: seq<int> := [-0x8000_0000, 0x8000_0000]

  function RequiredInt32(x: PathValue): (r: Result<int>)
    ensures r.Ok? ==> -0x8000_0000 <= r.value < 0x8000_0000
    ensures r.Ok? <==> x.value.Int? && -0x8000_0000 <= x.value.i < 0x8000_0000
  {
    RequiredIntIn(x, Int32Ranges)
  }

  function OptionalInt32(x: PathValue): (r: Result<Option<int>>)
    ensures r.Ok? && r.value.Some? ==> -0x8000_0000 <= r.value.value < 0x8000_0000
    ensures r.Ok? <==> x.value.Null? || (x.value.Int? && -0x8000_0000 <= x.value.i < 0x8000_0000)
  {
    OptionalIntIn(x, Int32Ranges)
  }

  /** Two's-complement truncation to 32 bits. */
  function Wrap32(v: int): (r: int)
    ensures -0x8000_0000 <= r < 0x8000_0000
    ensures (r - v) % 0x1_0000_0000 == 0
  {
    (v + 0x8000_0000) % 0x1_0000_0000 - 0x8000_0000
  }

  // ---------------------------------------------------------------------
  // Bit-flag maps

  /** The flags a flag map sets, one per entry of the name table in table
      order: a member that is absent or null counts as false, and a member
      that is neither null nor boolean fails (the first such entry is the
      one reported, as the readers visit the table front to back). */
  function FlagValues(x: PathValue, names: seq<string>): (r: Result<seq<bool>>)
    ensures r.Ok? ==> |r.value| == |names|
    decreases |names|
  {
    if names == [] then Ok([])
    else
      var init :- FlagValues(x, names[..|names| - 1]);
      var on :- OptionalBool(Get(x, names[|names| - 1]));
      Ok(init + [on.GetOr(false)])
  }

  /** The 32-bit mask of a flag list: entry j contributes bit j. */
  function Mask(f: seq<bool>): bv32
    decreases |f|
  {
    if f == [] then 0
    else if f[|f| - 1] then Mask(f[..|f| - 1]) | Bit(|f| - 1)
    else Mask(f[..|f| - 1])
  }

  /** A flag map that may be absent (null reads as no flags). */
  function FlagsSpec(x: PathValue, names: seq<string>): Result<bv32> {
    if x.value.Null? then Ok(0)
    else if x.value.Map? then
      var f :- FlagValues(x, names);
      Ok(Mask(f))
    else Fail(x, MustBeNullOrMap)
  }

  /** Once a prefix of the table fails, the whole table fails the same way. */
  lemma {:induction false} FlagValuesPrefixErr(x: PathValue, names: seq<string>, k: nat)
    requires k <= |names| && FlagValues(x, names[..k]).Err?
    ensures FlagValues(x, names) == FlagValues(x, names[..k])
    decreases |names| - k
  {
    if k < |names| {
      assert names[..k + 1][..k] == names[..k];
      FlagValuesPrefixErr(x, names, k + 1);
    } else {
      assert names[..k] == names;
    }
  }

  /** A member that is neither null nor boolean ends the read with its
      error. */
  lemma FlagReadFails(x: PathValue, names: seq<string>, i: nat, vals: seq<bool>)
    requires i < |names| && FlagValues(x, names[..i]) == Ok(vals)
    requires OptionalBool(Get(x, names[i])).Err?
    ensures FlagValues(x, names) == Err(OptionalBool(Get(x, names[i])).error)
  {
    assert names[..i + 1][..i] == names[..i] && names[..i + 1][i] == names[i];
    FlagValuesPrefixErr(x, names, i + 1);
  }

  /** One turn of the flag loop reads one more entry of the table. */
  lemma FlagReadStep(x: PathValue, names: seq<string>, i: nat, vals: seq<bool>)
    requires i < |names| && FlagValues(x, names[..i]) == Ok(vals)
    requires OptionalBool(Get(x, names[i])).Ok?
    ensures FlagValues(x, names[..i + 1]) == Ok(vals + [OptionalBool(Get(x, names[i])).value.GetOr(false)])
  {
    assert names[..i + 1][..i] == names[..i] && names[..i + 1][i] == names[i];
  }

  /** Folding the next flag into the mask of the flags before it. */
  lemma MaskGrow(vals: seq<bool>, b: bool, result: bv32, bit: bv32)
    requires result == Mask(vals) && bit == Bit(|vals|)
    ensures (if b then result | bit else result) == Mask(vals + [b])
  {
    MaskAppend(vals, b);
  }

  /** The loop the three flag readers share: walk the name table with a
      one-bit mask that is shifted left after every name. */
  method ReadFlags(x: PathValue, names: seq<string>) returns (r: Result<bv32>)
    ensures r == FlagsSpec(x, names)
  {
    if x.value.Null? {
      return Ok(0);
    } else if !x.value.Map? {
      return Fail(x, MustBeNullOrMap);
    }
    var bit: bv32 := 1;
    var result: bv32 := 0;
    var i := 0;
    ghost var vals: seq<bool> := [];
    assert names[..0] == [];
    while i < |names|
      invariant 0 <= i <= |names| && |vals| == i
      invariant bit == Bit(i)
      invariant FlagValues(x, names[..i]) == Ok(vals)
      invariant result == Mask(vals)
    {
      var on := OptionalBool(Get(x, names[i]));
      if on.Err? {
        FlagReadFails(x, names, i, vals);
        return Err(on.error);
      }
      var b := on.value.GetOr(false);
      FlagReadStep(x, names, i, vals);
      MaskGrow(vals, b, result, bit);
      BitShift(i);
      if b {
        result := result | bit;
      }
      vals := vals + [b];
      bit := bit << 1;
      i := i + 1;
    }
    assert names[..i] == names;
    return Ok(result);
  }

  /** Appending a flag to the list folds its bit into the mask. */
  lemma MaskAppend(f: seq<bool>, b: bool)
    ensures Mask(f + [b]) == if b then Mask(f) | Bit(|f|) else Mask(f)
  {
    assert (f + [b])[..|f|] == f;
  }

  /** Bit j of a flag list's mask is set exactly when entry j is true; the
      bits past the list are clear. */
  lemma {:induction false} MaskMeaning(f: seq<bool>, j: nat)
    requires |f| <= 32 && j < 32
    ensures Mask(f) & Bit(j) != 0 <==> j < |f| && f[j]
    decreases |f|
  {
    if f != [] {
      var n := |f| - 1;
      var init := f[..n];
      MaskMeaning(init, j);
      MaskStep(Mask(f), Mask(init), f[n], Bit(n), Bit(j), n, j);
      if j < n {
        assert init[j] == f[j];
      }
    }
  }

  /** Reading the flags succeeds exactly when every named member is null
      or boolean, and then entry j is true exactly when member j is. */
  lemma {:induction false} FlagValuesMeaning(x: PathValue, names: seq<string>)
    ensures FlagValues(x, names).Ok? <==> forall j :: 0 <= j < |names| ==> OptionalBool(Get(x, names[j])).Ok?
    ensures FlagValues(x, names).Ok? ==>
              forall j :: 0 <= j < |names| ==>
                (FlagValues(x, names).value[j] <==> OptionalBool(Get(x, names[j])) == Ok(Some(true)))
    decreases |names|
  {
    if names != [] {
      var n := |names| - 1;
      var init := names[..n];
      FlagValuesMeaning(x, init);
      assert forall j :: 0 <= j < n ==> init[j] == names[j];
    }
  }

  /** Bit j of a flag map read successfully is set exactly when the member
      named by entry j of the table is true. */
  lemma FlagBitMeaning(x: PathValue, names: seq<string>, j: nat)
    requires |names| <= 32 && j < 32 && x.value.Map? && FlagsSpec(x, names).Ok?
    ensures FlagsSpec(x, names).value & Bit(j) != 0 <==> j < |names| && OptionalBool(Get(x, names[j])) == Ok(Some(true))
  {
    var f := FlagValues(x, names).value;
    FlagValuesMeaning(x, names);
    MaskMeaning(f, j);
  }

  /** A flag map read successfully has bit j set exactly when the member
      named by entry j of the table is true, and no bit beyond the table. */
  lemma FlagBitsMeaning(x: PathValue, names: seq<string>)
    requires |names| <= 32 && x.value.Map? && FlagsSpec(x, names).Ok?
    ensures forall j :: 0 <= j < |names| ==>
              (FlagsSpec(x, names).value & Bit(j) != 0 <==> OptionalBool(Get(x, names[j])) == Ok(Some(true)))
    ensures forall j: nat :: |names| <= j ==> FlagsSpec(x, names).value & Bit(j) == 0
  {
    forall j: nat | j < 32 {
      FlagBitMeaning(x, names, j);
    }
  }

  /** Reading a flag map fails exactly when the node is neither null nor a
      map, or one of the named members is neither null nor boolean. */
  lemma FlagsSpecFails(x: PathValue, names: seq<string>)
    ensures FlagsSpec(x, names).Ok? <==>
              x.value.Null? || (x.value.Map? && forall j :: 0 <= j < |names| ==> OptionalBool(Get(x, names[j])).Ok?)
  {
    FlagValuesMeaning(x, names);
  }

  /** optional_object_order_flags: 28 named flags; the last four entries
      of the 32-entry table are empty names. */
  const OrderFlagNames: seq<string> := [
    "stronger_than_target", "base", "not_base", "local", "remote", "only_escort_not_base", "friend", "foe",
    "bit09", "bit10", "bit11", "bit12", "bit13", "bit14", "bit15", "bit16",
    "bit17", "bit18", "hard_matching_friend", "hard_matching_foe", "hard_friendly_escort_only",
    "hard_no_friendly_escort", "hard_remote", "hard_local",
    "hard_foe", "hard_friend", "hard_not_base", "hard_base", "", "", "", ""]

  /** optional_object_build_flags: 24 named flags, then eight empty names. */
  const BuildFlagNames: seq<string> := [
    "uncaptured_base_exists", "sufficient_escorts_exist", "this_base_needs_protection", "friend_up_trend",
    "friend_down_trend", "foe_up_trend", "foe_down_trend", "matching_foe_exists",
    "bit09", "bit10", "bit11", "bit12", "bit13", "bit14", "bit15", "bit16",
    "bit17", "bit18", "bit19", "bit20", "bit21", "bit22", "only_engaged_by", "can_only_engage",
    "", "", "", "", "", "", "", ""]

  /** optional_usage: three flags. */
  const UsageNames: seq<string> := ["transportation", "attacking", "defense"]

  method OptionalObjectOrderFlags(x: PathValue) returns (r: Result<bv32>)
    ensures r == FlagsSpec(x, OrderFlagNames)
  {
    r := ReadFlags(x, OrderFlagNames);
  }

  method OptionalObjectBuildFlags(x: PathValue) returns (r: Result<bv32>)
    ensures r == FlagsSpec(x, BuildFlagNames)
  {
    r := ReadFlags(x, BuildFlagNames);
  }

  method OptionalUsage(x: PathValue) returns (r: Result<bv32>)
    ensures r == FlagsSpec(x, UsageNames)
  {
    r := ReadFlags(x, UsageNames);
  }

  /** optional_usage can set only the low three bits. */
  lemma UsageLowBits(x: PathValue)
    ensures FlagsSpec(x, UsageNames).Ok? ==> forall j: nat :: 3 <= j ==> FlagsSpec(x, UsageNames).value & Bit(j) == 0
  {
    if x.value.Map? && FlagsSpec(x, UsageNames).Ok? {
      FlagBitsMeaning(x, UsageNames);
    }
  }

  /** The unnamed table entries look up the empty key: an order-flag map
      whose only member is "" set to true reads as exactly the four top
      bits. */
  lemma EmptyKeySetsUnnamedOrderBits()
    ensures FlagsSpec(Root(Map([Entry("", Bool(true))])), OrderFlagNames).Ok?
    ensures forall j: nat :: j < 32 ==>
              (FlagsSpec(Root(Map([Entry("", Bool(true))])), OrderFlagNames).value & Bit(j) != 0 <==> 28 <= j)
  {
    var x := Root(Map([Entry("", Bool(true))]));
    forall j | 0 <= j < 32
      ensures OptionalBool(Get(x, OrderFlagNames[j])) == if 28 <= j then Ok(Some(true)) else Ok(None)
    {
      if j < 28 {
        assert OrderFlagNames[j] != "";
      }
    }
    FlagsSpecFails(x, OrderFlagNames);
    FlagBitsMeaning(x, OrderFlagNames);
  }

  // ---------------------------------------------------------------------
  // Points and weapons

  function RequiredFixedPoint(x: PathValue): (r: Result<Point>)
    ensures !x.value.Map? ==> r == Fail(x, MustBeMap)
    ensures r.Ok? ==> RequiredFixed(Get(x, "x")) == Ok(r.value.h) && RequiredFixed(Get(x, "y")) == Ok(r.value.v)
  {
    if x.value.Map? then
      var px :- RequiredFixed(Get(x, "x"));
      var py :- RequiredFixed(Get(x, "y"));
      Ok(Point(px, py))
    else Fail(x, MustBeMap)
  }

  method OptionalFixedPointArray(x: PathValue) returns (r: Result<seq<Point>>)
    ensures r == OptionalArraySpec(x, RequiredFixedPoint)
  {
    r := OptionalArray(x, RequiredFixedPoint);
  }

  datatype Weapon = Weapon(base: int, positions: seq<Point>)

  function OptionalWeapon(x: PathValue): (r: Result<Option<Weapon>>)
    ensures x.value.Null? <==> r == Ok(None)
    ensures r.Ok? && r.value.Some? ==>
              x.value.Map? && RequiredHandle(Get(x, "base")) == Ok(r.value.value.base)
              && OptionalArraySpec(Get(x, "positions"), RequiredFixedPoint) == Ok(r.value.value.positions)
    ensures !x.value.Null? && !x.value.Map? ==> r == Fail(x, MustBeNullOrMap)
  {
    if x.value.Null? then Ok(None)
    else if x.value.Map? then
      var base :- RequiredHandle(Get(x, "base"));
      var positions :- OptionalArraySpec(Get(x, "positions"), RequiredFixedPoint);
      Ok(Some(Weapon(base, positions)))
    else Fail(x, MustBeNullOrMap)
  }

  // ---------------------------------------------------------------------
  // Frames

  /** optional_layer: layers 1 to 3. */
  function OptionalLayer(x: PathValue): (r: Result<Option<int>>)
    ensures r.Ok? && r.value.Some? ==> 1 <= r.value.value < 4
    ensures r.Ok? <==> x.value.Null? || (x.value.Int? && 1 <= x.value.i < 4)
  {
    OptionalIntIn(x, [1, 4])
  }

  /** optional_scale: the fixed-point raw value shifted left by four, kept
      in 32 bits. */
  function OptionalScale(x: PathValue): (r: Result<Option<int>>)
    ensures r.Ok? <==> x.value.Null? || x.value.Int?
    ensures r.Ok? && x.value.Int? && -0x800_0000 <= x.value.i < 0x800_0000 ==> r == Ok(Some(x.value.i * 16))
  {
    var f :- OptionalFixed(x);
    if f.Some? then Ok(Some(Wrap32(f.value * 16))) else Ok(None)
  }

  datatype Rotation = Rotation(sprite: string, layer: int, scale: int, frames: Range, turnRate: int)

  const DefaultRotation := Rotation("", 0, 0, Range(0, 0), 0)

  /** The rotation table, in the key order of its std::map. */
  const RotationFields: seq<(string, Field<Rotation>)> := [
    ("frames", Member(RequiredRange, (t: Rotation, v: Range) => t.(frames := v))),
    ("layer", Defaulted(OptionalLayer, 0, (t: Rotation, v: int) => t.(layer := v))),
    ("scale", Defaulted(OptionalScale, 4096, (t: Rotation, v: int) => t.(scale := v))),
    ("sprite", Member(RequiredString, (t: Rotation, v: string) => t.(sprite := v))),
    ("turn_rate", Defaulted(OptionalFixed, 0, (t: Rotation, v: int) => t.(turnRate := v)))]

  datatype AnimationDirection = NoDirection | PlusDirection | MinusDirection | RandomDirection

  /** Names of animation directions (defined outside the modelled files). */
  const AnimationDirections: seq<(string, AnimationDirection)> :=
    [("none", NoDirection), ("+", PlusDirection), ("-", MinusDirection), ("?", RandomDirection)]

  function OptionalAnimationDirection(x: PathValue): Result<Option<AnimationDirection>> {
    OptionalEnum(x, AnimationDirections)
  }

  datatype Animation = Animation(
    sprite: string, layer: int, scale: int, frames: Range,
    direction: AnimationDirection, speed: int, first: Range)

  const DefaultAnimation := Animation("", 0, 0, Range(0, 0), NoDirection, 0, Range(0, 0))

  /** The animation table, in key order; both ranges default to raw 0..1. */
  const AnimationFields: seq<(string, Field<Animation>)> := [
    ("direction", Defaulted(OptionalAnimationDirection, NoDirection,
                            (t: Animation, v: AnimationDirection) => t.(direction := v))),
    ("first", Defaulted(OptionalRange, Range(0, 1), (t: Animation, v: Range) => t.(first := v))),
    ("frames", Defaulted(OptionalRange, Range(0, 1), (t: Animation, v: Range) => t.(frames := v))),
    ("layer", Defaulted(OptionalLayer, 0, (t: Animation, v: int) => t.(layer := v))),
    ("scale", Defaulted(OptionalScale, 4096, (t: Animation, v: int) => t.(scale := v))),
    ("speed", Defaulted(OptionalFixed, 0, (t: Animation, v: int) => t.(speed := v))),
    ("sprite", Member(RequiredString, (t: Animation, v: string) => t.(sprite := v)))]

  datatype VectorKind = Bolt | BeamToObject | BeamToCoord | BeamToObjectLightning | BeamToCoordLightning

  /** Names of vector kinds (defined outside the modelled files). */
  const VectorKinds: seq<(string, VectorKind)> := [
    ("bolt", Bolt), ("beam-to-object", BeamToObject), ("beam-to-coord", BeamToCoord),
    ("beam-to-object-lightning", BeamToObjectLightning), ("beam-to-coord-lightning", BeamToCoordLightning)]

  datatype Hue =
    Red | Orange | Yellow | Blue | Green | Purple | Indigo | Salmon | Gold | Aqua | Pink
    | PaleGreen | PalePurple | SkyBlue | Tan | Gray

  /** Names of hues (defined outside the modelled files). */
  const Hues: seq<(string, Hue)> := [
    ("red", Red), ("orange", Orange), ("yellow", Yellow), ("blue", Blue), ("green", Green),
    ("purple", Purple), ("indigo", Indigo), ("salmon", Salmon), ("gold", Gold), ("aqua", Aqua),
    ("pink", Pink), ("pale-green", PaleGreen), ("pale-purple", PalePurple), ("sky-blue", SkyBlue),
    ("tan", Tan), ("gray", Gray)]

  /** The transparent colour. */
  const ClearColor: int := 0

  datatype VectorFrame = VectorFrame(kind: VectorKind, accuracy: int, range: int, visible: bool, boltColor: int, beamHue: Hue)

  /** required_vector_frame: a bolt is visible when it has a colour and
      draws in that colour; a beam is visible when it has a hue and draws
      in that hue (gray by default). */
  function RequiredVectorFrame(x: PathValue): (r: Result<VectorFrame>)
    ensures !x.value.Map? ==> r == Fail(x, MustBeMap)
    ensures r.Ok? ==> RequiredEnum(Get(x, "kind"), VectorKinds) == Ok(r.value.kind)
    ensures r.Ok? && r.value.kind == Bolt ==>
              OptionalColor(Get(x, "color")).Ok? && r.value.visible == OptionalColor(Get(x, "color")).value.Some?
              && r.value.boltColor == OptionalColor(Get(x, "color")).value.GetOr(ClearColor) && r.value.beamHue == Gray
    ensures r.Ok? && r.value.kind != Bolt ==>
              OptionalEnum(Get(x, "hue"), Hues).Ok? && r.value.visible == OptionalEnum(Get(x, "hue"), Hues).value.Some?
              && r.value.boltColor == ClearColor && r.value.beamHue == OptionalEnum(Get(x, "hue"), Hues).value.GetOr(Gray)
  {
    if x.value.Map? then
      var kind :- RequiredEnum(Get(x, "kind"), VectorKinds);
      var accuracy :- RequiredInt(Get(x, "accuracy"));
      var range :- RequiredInt(Get(x, "range"));
      var color :- OptionalColor(Get(x, "color"));
      var hue :- OptionalEnum(Get(x, "hue"), Hues);
      if kind == Bolt then
        Ok(VectorFrame(kind, accuracy, range, color.Some?, color.GetOr(ClearColor), Gray))
      else
        Ok(VectorFrame(kind, accuracy, range, hue.Some?, ClearColor, hue.GetOr(Gray)))
    else Fail(x, MustBeMap)
  }

  datatype Device = Device(
    usage: bv32, energyCost: int, fireTime: int, ammo: int, range: int, inverseSpeed: int, restockCost: int)

  const DefaultDevice := Device(0, 0, 0, 0, 0, 0, 0)

  /** The device table, in key order. */
  const DeviceFields: seq<(string, Field<Device>)> := [
    ("ammo", Defaulted(OptionalInt32, -1, (t: Device, v: int) => t.(ammo := v))),
    ("energy_cost", Defaulted(OptionalInt32, 0, (t: Device, v: int) => t.(energyCost := v))),
    ("fire_time", Member(RequiredTicks, (t: Device, v: int) => t.(fireTime := v))),
    ("inverse_speed", Defaulted(OptionalFixed, 0, (t: Device, v: int) => t.(inverseSpeed := v))),
    ("range", Member(RequiredInt32, (t: Device, v: int) => t.(range := v))),
    ("restock_cost", Defaulted(OptionalInt32, -1, (t: Device, v: int) => t.(restockCost := v))),
    ("usage", Member((x: PathValue) => FlagsSpec(x, UsageNames), (t: Device, v: bv32) => t.(usage := v)))]

  /** The device a successful table read produces, member by member in
      key order. */
  function DeviceMembers(x: PathValue): Result<Device> {
    var ammo :- OptionalInt32(Get(x, "ammo"));
    var energyCost :- OptionalInt32(Get(x, "energy_cost"));
    var fireTime :- RequiredTicks(Get(x, "fire_time"));
    var inverseSpeed :- OptionalFixed(Get(x, "inverse_speed"));
    var range :- RequiredInt32(Get(x, "range"));
    var restockCost :- OptionalInt32(Get(x, "restock_cost"));
    var usage :- FlagsSpec(Get(x, "usage"), UsageNames);
    Ok(Device(usage, energyCost.GetOr(0), fireTime, ammo.GetOr(-1), range, inverseSpeed.GetOr(0),
              restockCost.GetOr(-1)))
  }

  /** Unfolding of the setter chain by one step. */
  lemma ApplyFieldsStep<T>(x: PathValue, table: seq<(string, Field<T>)>, t: T)
    requires table != []
    ensures ApplyFields(x, table, t)
            == (var r := ApplyField(x, table[0], t); if r.Err? then Err(r.error) else ApplyFields(x, table[1..], r.value))
  {
  }

  /** Running the device table is reading the members one by one and
      storing each, with -1 for absent ammo and restock cost and 0 for an
      absent energy cost or inverse speed. */
  lemma DeviceTableMeaning(x: PathValue)
    ensures ApplyFields(x, DeviceFields, DefaultDevice) == DeviceMembers(x)
  {
    var fs := DeviceFields;
    var t0 := DefaultDevice;
    ApplyFieldsStep(x, fs, t0);
    var r1 := ApplyField(x, fs[0], t0);
    if r1.Ok? {
      ApplyFieldsStep(x, fs[1..], r1.value);
      var r2 := ApplyField(x, fs[1], r1.value);
      if r2.Ok? {
        ApplyFieldsStep(x, fs[2..], r2.value);
        assert fs[1..][1..] == fs[2..];
        var r3 := ApplyField(x, fs[2], r2.value);
        if r3.Ok? {
          ApplyFieldsStep(x, fs[3..], r3.value);
          assert fs[2..][1..] == fs[3..];
          var r4 := ApplyField(x, fs[3], r3.value);
          if r4.Ok? {
            ApplyFieldsStep(x, fs[4..], r4.value);
            assert fs[3..][1..] == fs[4..];
            var r5 := ApplyField(x, fs[4], r4.value);
            if r5.Ok? {
              ApplyFieldsStep(x, fs[5..], r5.value);
              assert fs[4..][1..] == fs[5..];
              var r6 := ApplyField(x, fs[5], r5.value);
              if r6.Ok? {
                ApplyFieldsStep(x, fs[6..], r6.value);
                assert fs[5..][1..] == fs[6..];
                var r7 := ApplyField(x, fs[6], r6.value);
                assert fs[6..][1..] == [];
              }
            }
          }
        }
      }
    }
  }

  /** A device without ammo or restock cost reads them as -1 (unlimited,
      not restockable), a device read successfully has every required
      member present, and any member outside the table is rejected. */
  lemma DeviceDefaults(x: PathValue, d: Device)
    requires StructSpec(x, DeviceFields, DefaultDevice) == Ok(d)
    ensures LookupKey(x.value, "ammo").Null? ==> d.ammo == -1
    ensures LookupKey(x.value, "restock_cost").Null? ==> d.restockCost == -1
    ensures LookupKey(x.value, "energy_cost").Null? ==> d.energyCost == 0
    ensures RequiredTicks(Get(x, "fire_time")) == Ok(d.fireTime)
    ensures RequiredInt32(Get(x, "range")) == Ok(d.range)
    ensures forall k :: k in Keys(x.value.entries) ==> k in TableKeys(DeviceFields)
  {
    DeviceTableMeaning(x);
  }

  datatype IconShape = Square | Triangle | Diamond | Plus

  /** Names of icon shapes (defined outside the modelled files). */
  const IconShapes: seq<(string, IconShape)> :=
    [("square", Square), ("triangle", Triangle), ("diamond", Diamond), ("plus", Plus)]

  datatype Icon = Icon(shape: IconShape, size: int)

  const IconFields: seq<(string, Field<Icon>)> := [
    ("shape", Member((x: PathValue) => RequiredEnum(x, IconShapes), (t: Icon, v: IconShape) => t.(shape := v))),
    ("size", Member(RequiredInt, (t: Icon, v: int) => t.(size := v)))]

  datatype Loadout = Loadout(pulse: Option<Weapon>, beam: Option<Weapon>, special: Option<Weapon>)

  const LoadoutFields: seq<(string, Field<Loadout>)> := [
    ("beam", Member(OptionalWeapon, (t: Loadout, v: Option<Weapon>) => t.(beam := v))),
    ("pulse", Member(OptionalWeapon, (t: Loadout, v: Option<Weapon>) => t.(pulse := v))),
    ("special", Member(OptionalWeapon, (t: Loadout, v: Option<Weapon>) => t.(special := v)))]

  const NoLoadout := Loadout(None, None, None)

  // ---------------------------------------------------------------------
  // Base objects

  /** The attribute flag table and the attribute bits that choose the
      frame; they are declared in a header that is not part of this model. */
  datatype AttributeCatalog = AttributeCatalog(
    names: seq<string>, shapeFromDirection: bv32, isSelfAnimated: bv32, isVector: bv32)

  datatype Frame =
    | RotationFrame(rotation: Rotation)
    | AnimationFrame(animation: Animation)
    | VectorShape(vector: VectorFrame)
    | DeviceFrame(device: Device)

  /** The members of a base object, grouped as the loader reads them. */
  datatype BaseObject = BaseObject(
    identity: Identity, stats: Stats, launch: Launch, actions: ObjectActions,
    icon: Icon, weapons: Loadout, frame: Frame, lifetime: Lifetime, tags: Tags)

  datatype Identity = Identity(
    attributes: bv32, buildFlags: bv32, orderFlags: bv32,
    name: string, shortName: string, portrait: string)

  datatype Stats = Stats(
    price: int, destinationClass: int, warpOutDistance: int, health: int, damage: int, energy: int,
    skillNum: int, skillDen: int, occupyCount: int, arriveActionDistance: int,
    offenseValue: int, maxVelocity: int, warpSpeed: int, mass: int, maxThrust: int,
    friendDeficit: int, buildRatio: int, buildTime: int)

  datatype Launch = Launch(
    shieldColor: Option<int>, initialVelocity: Range, initialAge: Range, initialDirection: Range)

  datatype ObjectActions = ObjectActions(
    destroy: seq<Value>, expire: seq<Value>, create: seq<Value>,
    collide: seq<Value>, activate: seq<Value>, arrive: seq<Value>)

  datatype Lifetime = Lifetime(destroyDontDie: bool, expireDontDie: bool, activatePeriod: Range)

  datatype Tags = Tags(levelKeyTag: string, engageKeyTag: string, orderKeyTag: string)

  /** The frame an object's attributes select: rotation over animation over
      vector, and the device frame when none of the three bits is set. */
  ghost predicate FrameChosenBy(x: PathValue, cat: AttributeCatalog, attributes: bv32, frame: Frame) {
    if attributes & cat.shapeFromDirection != 0 then
      frame.RotationFrame? && StructSpec(Get(x, "rotation"), RotationFields, DefaultRotation) == Ok(frame.rotation)
    else if attributes & cat.isSelfAnimated != 0 then
      frame.AnimationFrame? && StructSpec(Get(x, "animation"), AnimationFields, DefaultAnimation) == Ok(frame.animation)
    else if attributes & cat.isVector != 0 then
      frame.VectorShape? && RequiredVectorFrame(Get(x, "vector")) == Ok(frame.vector)
    else
      frame.DeviceFrame? && StructSpec(Get(x, "device"), DeviceFields, DefaultDevice) == Ok(frame.device)
  }

  function ReadFrame(x: PathValue, cat: AttributeCatalog, attributes: bv32): (r: Result<Frame>)
    ensures r.Ok? ==> FrameChosenBy(x, cat, attributes, r.value)
  {
    if attributes & cat.shapeFromDirection != 0 then
      var f :- StructSpec(Get(x, "rotation"), RotationFields, DefaultRotation);
      Ok(RotationFrame(f))
    else if attributes & cat.isSelfAnimated != 0 then
      var f :- StructSpec(Get(x, "animation"), AnimationFields, DefaultAnimation);
      Ok(AnimationFrame(f))
    else if attributes & cat.isVector != 0 then
      var f :- RequiredVectorFrame(Get(x, "vector"));
      Ok(VectorShape(f))
    else
      var f :- StructSpec(Get(x, "device"), DeviceFields, DefaultDevice);
      Ok(DeviceFrame(f))
  }

  /** An action list: every element node is kept, in order. */
  function ActionList(x: PathValue): (r: Result<seq<Value>>)
    ensures x.value.Null? ==> r == Ok([])
    ensures x.value.Array? ==> r == Ok(x.value.items)
    ensures !x.value.Null? && !x.value.Array? ==> r == Fail(x, MustBeNullOrArray)
  {
    if x.value.Array? then
      ElementsFromMeaning(x, RawAction, 0);
      forall j | 0 <= j < |x.value.items|
        ensures RawAction(GetIndex(x, j)) == Ok(x.value.items[j])
      {
      }
      assert ElementsFrom(x, RawAction, 0).value == x.value.items;
      OptionalArraySpec(x, RawAction)
    else OptionalArraySpec(x, RawAction)
  }

  function ReadIdentity(x: PathValue, cat: AttributeCatalog): (r: Result<Identity>)
    ensures r.Ok? <==>
              FlagsSpec(Get(x, "attributes"), cat.names).Ok?
              && FlagsSpec(Get(x, "build_flags"), BuildFlagNames).Ok?
              && FlagsSpec(Get(x, "order_flags"), OrderFlagNames).Ok?
              && RequiredString(Get(x, "long_name")).Ok?
              && RequiredString(Get(x, "short_name")).Ok?
              && OptionalString(Get(x, "portrait")).Ok?
    ensures r.Ok? ==>
              FlagsSpec(Get(x, "attributes"), cat.names) == Ok(r.value.attributes)
              && FlagsSpec(Get(x, "build_flags"), BuildFlagNames) == Ok(r.value.buildFlags)
              && FlagsSpec(Get(x, "order_flags"), OrderFlagNames) == Ok(r.value.orderFlags)
              && Get(x, "long_name").value == Str(r.value.name)
              && Get(x, "short_name").value == Str(r.value.shortName)
              && (Get(x, "portrait").value.Null? ==> r.value.portrait == "")
  {
    var attributes :- FlagsSpec(Get(x, "attributes"), cat.names);
    var buildFlags :- FlagsSpec(Get(x, "build_flags"), BuildFlagNames);
    var orderFlags :- FlagsSpec(Get(x, "order_flags"), OrderFlagNames);
    var name :- RequiredString(Get(x, "long_name"));
    var shortName :- RequiredString(Get(x, "short_name"));
    var portrait :- StringOr(Get(x, "portrait"), "");
    Ok(Identity(attributes, buildFlags, orderFlags, name, shortName, portrait))
  }

  function ReadStats(x: PathValue): (r: Result<Stats>)
    ensures r.Ok? && Get(x, "occupy_count").value.Null? ==> r.value.occupyCount == -1
    ensures r.Ok? && Get(x, "price").value.Null? ==> r.value.price == 0
    ensures r.Ok? && Get(x, "build_time").value.Int? ==> r.value.buildTime == Get(x, "build_time").value.i
    ensures Get(x, "price").value.Str? ==> r == Fail(Get(x, "price"), MustBeNullOrInt)
  {
    var price :- IntOr(Get(x, "price"), 0);
    var destinationClass :- IntOr(Get(x, "destination_class"), 0);
    var warpOutDistance :- IntOr(Get(x, "warp_out_distance"), 0);
    var health :- IntOr(Get(x, "health"), 0);
    var damage :- IntOr(Get(x, "damage"), 0);
    var energy :- IntOr(Get(x, "energy"), 0);
    var skillNum :- IntOr(Get(x, "skill_num"), 0);
    var skillDen :- IntOr(Get(x, "skill_den"), 0);
    var occupyCount :- IntOr(Get(x, "occupy_count"), -1);
    var arriveActionDistance :- IntOr(Get(x, "arrive_action_distance"), 0);
    var offenseValue :- FixedOr(Get(x, "offense"), 0);
    var maxVelocity :- FixedOr(Get(x, "max_velocity"), 0);
    var warpSpeed :- FixedOr(Get(x, "warp_speed"), 0);
    var mass :- FixedOr(Get(x, "mass"), 0);
    var maxThrust :- FixedOr(Get(x, "max_thrust"), 0);
    var friendDeficit :- FixedOr(Get(x, "friend_deficit"), 0);
    var buildRatio :- FixedOr(Get(x, "build_ratio"), 0);
    var buildTime :- IntOr(Get(x, "build_time"), 0);
    Ok(Stats(price, destinationClass, warpOutDistance, health, damage, energy,
             skillNum, skillDen, occupyCount, arriveActionDistance,
             offenseValue, maxVelocity, warpSpeed, mass, maxThrust, friendDeficit, buildRatio, buildTime))
  }

  function ReadLaunch(x: PathValue): (r: Result<Launch>)
    ensures r.Ok? && Get(x, "initial_age").value.Null? ==> r.value.initialAge == Range(-1, -1)
    ensures r.Ok? && Get(x, "initial_velocity").value.Null? ==> r.value.initialVelocity == Range(0, 0)
    ensures r.Ok? ==> (r.value.shieldColor.Some? <==> Get(x, "shield_color").value.Int?)
  {
    var shieldColor :- OptionalColor(Get(x, "shield_color"));
    var initialVelocity :- RangeOr(Get(x, "initial_velocity"), Range(0, 0));
    var initialAge :- RangeOr(Get(x, "initial_age"), Range(-1, -1));
    var initialDirection :- RangeOr(Get(x, "initial_direction"), Range(0, 0));
    Ok(Launch(shieldColor, initialVelocity, initialAge, initialDirection))
  }

  function ReadObjectActions(x: PathValue): (r: Result<ObjectActions>)
    ensures r.Ok? && Get(x, "on_destroy").value.Null? ==> r.value.destroy == []
    ensures r.Ok? && Get(x, "on_arrive").value.Array? ==> r.value.arrive == Get(x, "on_arrive").value.items
  {
    var destroy :- ActionList(Get(x, "on_destroy"));
    var expire :- ActionList(Get(x, "on_expire"));
    var create :- ActionList(Get(x, "on_create"));
    var collide :- ActionList(Get(x, "on_collide"));
    var activate :- ActionList(Get(x, "on_activate"));
    var arrive :- ActionList(Get(x, "on_arrive"));
    Ok(ObjectActions(destroy, expire, create, collide, activate, arrive))
  }

  function ReadLifetime(x: PathValue): (r: Result<Lifetime>)
    ensures r.Ok? && Get(x, "destroy_dont_die").value.Null? ==> !r.value.destroyDontDie
    ensures r.Ok? && Get(x, "activate_period").value.Null? ==> r.value.activatePeriod == Range(0, 0)
  {
    var destroyDontDie :- BoolOr(Get(x, "destroy_dont_die"), false);
    var expireDontDie :- BoolOr(Get(x, "expire_dont_die"), false);
    var activatePeriod :- RangeOr(Get(x, "activate_period"), Range(0, 0));
    Ok(Lifetime(destroyDontDie, expireDontDie, activatePeriod))
  }

  function ReadTags(x: PathValue): (r: Result<Tags>)
    ensures r.Ok? && Get(x, "level_tag").value.Null? ==> r.value.levelKeyTag == ""
    ensures r.Ok? && Get(x, "order_tag").value.Str? ==> r.value.orderKeyTag == Get(x, "order_tag").value.s
  {
    var levelKeyTag :- StringOr(Get(x, "level_tag"), "");
    var engageKeyTag :- StringOr(Get(x, "engage_tag"), "");
    var orderKeyTag :- StringOr(Get(x, "order_tag"), "");
    Ok(Tags(levelKeyTag, engageKeyTag, orderKeyTag))
  }

  /** base_object: the whole definition of one object type, read member
      by member in the order of the source, so the first failing member is
      the one reported. */
  function ReadBaseObject(x0: Value, cat: AttributeCatalog): (r: Result<BaseObject>)
    ensures !x0.Map? ==> r == Err(Error([], MustBeMap))
    ensures r.Ok? ==>
              ReadIdentity(Root(x0), cat) == Ok(r.value.identity)
              && FrameChosenBy(Root(x0), cat, r.value.identity.attributes, r.value.frame)
    ensures r.Ok? ==>
              (LookupKey(x0, "occupy_count").Null? ==> r.value.stats.occupyCount == -1)
              && (LookupKey(x0, "initial_age").Null? ==> r.value.launch.initialAge == Range(-1, -1))
              && (LookupKey(x0, "icon").Null? ==> r.value.icon == Icon(Square, 0))
              && (LookupKey(x0, "weapons").Null? ==> r.value.weapons == NoLoadout)
              && (LookupKey(x0, "price").Null? ==> r.value.stats.price == 0)
              && (LookupKey(x0, "level_tag").Null? ==> r.value.tags.levelKeyTag == "")
    ensures ReadIdentity(Root(x0), cat).Err? && x0.Map? ==> r.Err? && r.error == ReadIdentity(Root(x0), cat).error
  {
    if !x0.Map? then Err(Error([], MustBeMap))
    else
      var x := Root(x0);
      var identity :- ReadIdentity(x, cat);
      var stats :- ReadStats(x);
      var launch :- ReadLaunch(x);
      var actions :- ReadObjectActions(x);
      var icon :- OptionalStructSpec(Get(x, "icon"), IconFields, Icon(Square, 0));
      var weapons :- OptionalStructSpec(Get(x, "weapons"), LoadoutFields, NoLoadout);
      var frame :- ReadFrame(x, cat, identity.attributes);
      var lifetime :- ReadLifetime(x);
      var tags :- ReadTags(x);
      Ok(BaseObject(identity, stats, launch, actions, icon.GetOr(Icon(Square, 0)), weapons.GetOr(NoLoadout),
                    frame, lifetime, tags))
  }
}
