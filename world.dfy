/** The state the action verbs of src/game/action.cpp read and write: the
    pool of space objects, the zeroed stand-in object, the global key
    mask, and a log of the effects of the verbs whose bodies are not part
    of this model; and the integer-only verb handlers. */
module Objects {

  datatype Point = Point(h: int, v: int)

  /** A reference to a space object: the null pointer, the zeroed
      stand-in object that replaces a null subject or object, or an entry
      of the object pool. */
  datatype Ref = NullRef | ZeroRef | SlotRef(n: nat)

  /** A weapon slot of a space object; `base` is the weapon's base type,
      None for the null pointer. */
  datatype WeaponSlot = WeaponSlot(kind: int, base: Option<int>, ammo: int, time: int, position: int)

  datatype Option<+T> = None | Some(value: T)

  /** The members of a space object that the modelled verbs read or
      write. `seed` stands for the state of the object's random-number
      generator; `levelKeyTag` and `baseMaxVelocity` are read through the
      object's base type. */
  datatype Obj = Obj(
    id: int, active: bool, owner: int, attributes: bv32, levelKeyTag: string,
    baseMaxVelocity: int, maxVelocity: int, thrust: int, age: int,
    targetObjectNumber: int, targetObjectId: int, lastTarget: int,
    pulse: WeaponSlot, beam: WeaponSlot, special: WeaponSlot,
    longestWeaponRange: int, shortestWeaponRange: int, seed: int)

  /** The statically allocated zero object: every member zero, base type
      the zeroed base object. */
  const ZeroObj := Obj(0, false, 0, 0, "", 0, 0, 0, 0, 0, 0, 0,
                       WeaponSlot(0, None, 0, 0, 0), WeaponSlot(0, None, 0, 0, 0), WeaponSlot(0, None, 0, 0, 0),
                       0, 0, 0)

  /** What the verbs without a modelled body did, in order. */
  datatype Effect =
    | Performed(record: nat, focus: Ref, subject: Ref, direct: Ref)
    | ScoreAltered(admiral: int, whichScore: int, amount: int)
    | ConditionsChecked

  datatype World = World(objects: seq<Obj>, zero: Obj, keyMask: bv32, effects: seq<Effect>)

  /** The object a reference designates. The pool has a fixed size, so a
      pool reference past its end cannot arise; it reads as the zero
      object to keep the function total. */
  function ObjAt(w: World, r: Ref): Obj {
    match r
    case SlotRef(n) => if n < |w.objects| then w.objects[n] else w.zero
    case _ => w.zero
  }

  /** Writes through a reference; writing through the null reference (which
      the interpreter never does) changes nothing. */
  function SetObj(w: World, r: Ref, o: Obj): (w': World)
    ensures w'.keyMask == w.keyMask && w'.effects == w.effects && |w'.objects| == |w.objects|
    ensures r.SlotRef? && r.n < |w.objects| ==> ObjAt(w', r) == o
    ensures r.ZeroRef? ==> ObjAt(w', r) == o
    ensures forall k :: 0 <= k < |w.objects| && r != SlotRef(k) ==> w'.objects[k] == w.objects[k]
    ensures !r.ZeroRef? ==> w'.zero == w.zero
  {
    match r
    case SlotRef(n) => if n < |w.objects| then w.(objects := w.objects[n := o]) else w
    case ZeroRef => w.(zero := o)
    case NullRef => w
  }

  /** The id a queued batch compares: -1 for the null pointer or an object
      that is not active. */
  function CurrentId(w: World, r: Ref): int {
    if r.NullRef? || !ObjAt(w, r).active then -1 else ObjAt(w, r).id
  }

  /** The pool index recorded for a queued object, -1 for the null
      pointer. */
  function EntryNumber(r: Ref): int {
    match r
    case SlotRef(n) => n
    case ZeroRef => 0
    case NullRef => -1
  }

  /** The random-number generator as an oracle: `random(seed, range)` is
      the value drawn; every draw advances the object's seed. */
  function Draw(random: (int, int) -> int, o: Obj, range: int): (int, Obj) {
    (random(o.seed, range), o.(seed := o.seed + 1))
  }

  // ---------------------------------------------------------------------
  // Verb handlers

  /** nil_target: the focus forgets its target. */
  function NilTarget(o: Obj, noShip: int): (o': Obj)
    ensures o'.targetObjectNumber == noShip && o'.targetObjectId == noShip && o'.lastTarget == noShip
    ensures o' == o.(targetObjectNumber := o'.targetObjectNumber, targetObjectId := o'.targetObjectId,
                     lastTarget := o'.lastTarget)
  {
    o.(targetObjectNumber := noShip, targetObjectId := noShip, lastTarget := noShip)
  }

  /** enable_keys clears the action's bits in the global key mask. */
  function EnableKeys(mask: bv32, keys: bv32): (m: bv32) {
    mask & !keys
  }

  /** disable_keys sets them. */
  function DisableKeys(mask: bv32, keys: bv32): (m: bv32) {
    mask | keys
  }

  /** Enabling clears exactly the action's keys and keeps the others. */
  lemma EnableKeysMeaning(mask: bv32, keys: bv32)
    ensures EnableKeys(mask, keys) & keys == 0
    ensures EnableKeys(mask, keys) & !keys == mask & !keys
  {
  }

  /** Disabling sets exactly the action's keys and keeps the others. */
  lemma DisableKeysMeaning(mask: bv32, keys: bv32)
    ensures DisableKeys(mask, keys) & keys == keys
    ensures DisableKeys(mask, keys) & !keys == mask & !keys
  {
  }

  /** Enabling keys undoes disabling them. */
  lemma EnableUndoesDisable(mask: bv32, keys: bv32)
    ensures EnableKeys(DisableKeys(mask, keys), keys) == EnableKeys(mask, keys)
  {
    var d := mask | keys;
    assert d & !keys == mask & !keys;
  }

  /** The alterations that only change integers are modelled; the others
      are logged. */
  datatype AlterKind =
    | AlterMaxVelocity
    | AlterThrust
    | AlterAge
    | AlterWeapon1
    | AlterWeapon2
    | AlterSpecial
    | AlterOther(code: int)

  datatype AlterArgument = AlterArgument(kind: AlterKind, minimum: int, range: int, relative: bool)

  /** kAlterMaxVelocity: a negative minimum restores the base type's
      maximum. */
  function AlterMaxVelocityOf(o: Obj, minimum: int): (o': Obj)
    ensures o'.maxVelocity == if minimum < 0 then o.baseMaxVelocity else minimum
    ensures o' == o.(maxVelocity := o'.maxVelocity)
  {
    if minimum < 0 then o.(maxVelocity := o.baseMaxVelocity) else o.(maxVelocity := minimum)
  }

  /** kAlterThrust: the minimum plus one draw of the random sequence over
      the range, added when relative, assigned otherwise. */
  function AlterThrustOf(random: (int, int) -> int, o: Obj, arg: AlterArgument): (o': Obj)
    ensures o'.thrust == (if arg.relative then o.thrust else 0) + arg.minimum + random(o.seed, arg.range)
    ensures o'.seed == o.seed + 1
    ensures o' == o.(thrust := o'.thrust, seed := o'.seed)
  {
    var (f, o1) := Draw(random, o, arg.range);
    var f := arg.minimum + f;
    if arg.relative then o1.(thrust := o1.thrust + f) else o1.(thrust := f)
  }

  /** kAlterAge: a relative change does not take a non-negative age
      below zero; a negative age (an object that does not expire) moves
      freely. */
  function AlterAgeOf(random: (int, int) -> int, o: Obj, arg: AlterArgument): (o': Obj)
    ensures o'.seed == o.seed + 1
    ensures o' == o.(age := o'.age, seed := o'.seed)
  {
    var (l, o1) := Draw(random, o, arg.range);
    var l := arg.minimum + l;
    if arg.relative then
      if o1.age >= 0 then
        var a := o1.age + l;
        o1.(age := if a < 0 then 0 else a)
      else
        o1.(age := o1.age + l)
    else
      o1.(age := l)
  }

  lemma AgeClamp(random: (int, int) -> int, o: Obj, arg: AlterArgument)
    ensures arg.relative && o.age >= 0 ==> AlterAgeOf(random, o, arg).age >= 0
    ensures arg.relative && o.age >= 0 ==>
              AlterAgeOf(random, o, arg).age == Max0(o.age + arg.minimum + random(o.seed, arg.range))
    ensures arg.relative && o.age < 0 ==>
              AlterAgeOf(random, o, arg).age == o.age + arg.minimum + random(o.seed, arg.range)
    ensures !arg.relative ==> AlterAgeOf(random, o, arg).age == arg.minimum + random(o.seed, arg.range)
  {
  }

  function Max0(v: int): int {
    if v < 0 then 0 else v
  }

  /** What a weapon's base type supplies when it is installed. */
  datatype WeaponBase = WeaponBase(ammo: int, range: int)

  /** kAlterWeapon1/2 and kAlterSpecial on one slot: installing a weapon
      refills its ammo, restarts it and widens the range bounds to cover
      it; installing no weapon clears the base, ammo and time but keeps
      the position. */
  function InstallWeapon(o: Obj, slot: WeaponSlot, kind: int, noWeapon: int, base: WeaponBase)
    : (r: (WeaponSlot, int, int))
    ensures kind != noWeapon ==>
              r.0 == WeaponSlot(kind, Some(kind), base.ammo, 0, 0)
              && r.1 == Max(o.longestWeaponRange, base.range) && r.2 == Min(o.shortestWeaponRange, base.range)
    ensures kind == noWeapon ==>
              r.0 == WeaponSlot(kind, None, 0, 0, slot.position)
              && r.1 == o.longestWeaponRange && r.2 == o.shortestWeaponRange
  {
    if kind != noWeapon then
      var longest := if base.range > o.longestWeaponRange then base.range else o.longestWeaponRange;
      var shortest := if base.range < o.shortestWeaponRange then base.range else o.shortestWeaponRange;
      (WeaponSlot(kind, Some(kind), base.ammo, 0, 0), longest, shortest)
    else
      (slot.(kind := kind, base := None, ammo := 0, time := 0), o.longestWeaponRange, o.shortestWeaponRange)
  }

  function Max(a: int, b: int): int {
    if a < b then b else a
  }

  function Min(a: int, b: int): int {
    if a < b then a else b
  }

  /** After installing a weapon the object's range bounds enclose the
      weapon's range and every range they enclosed before. */
  lemma InstalledRangeEnclosed(o: Obj, slot: WeaponSlot, kind: int, noWeapon: int, base: WeaponBase)
    requires kind != noWeapon
    ensures var r := InstallWeapon(o, slot, kind, noWeapon, base);
            r.2 <= base.range <= r.1 && r.2 <= o.shortestWeaponRange && o.longestWeaponRange <= r.1
  {
  }

  /** The subject with its static-destination bit cleared. */
  function WithoutStatic(o: Obj, staticDestination: bv32): Obj {
    o.(attributes := o.attributes & !staticDestination)
  }

  /** set_destination: the destination is set on the subject with its
      static-destination bit cleared, and its attributes are then put
      back as they were. `setObjectDestination` is SetObjectDestination,
      whose body is not part of this model. */
  function SetDestination(setObjectDestination: (Obj, Obj) -> Obj, staticDestination: bv32,
                          w: World, focus: Ref, subject: Ref): (w': World)
    ensures ObjAt(w', subject).attributes == ObjAt(w, subject).attributes || subject.NullRef?
  {
    var s := ObjAt(w, subject);
    var w1 := SetObj(w, subject, WithoutStatic(s, staticDestination));
    var s2 := setObjectDestination(ObjAt(w1, subject), ObjAt(w1, focus));
    SetObj(w1, subject, s2.(attributes := s.attributes))
  }

  /** set_destination touches only the pool, never the effect log or the
      key mask. */
  lemma SetDestinationKeepsEffects(setObjectDestination: (Obj, Obj) -> Obj, staticDestination: bv32,
                                   w: World, focus: Ref, subject: Ref)
    ensures SetDestination(setObjectDestination, staticDestination, w, focus, subject).effects == w.effects
    ensures SetDestination(setObjectDestination, staticDestination, w, focus, subject).keyMask == w.keyMask
  {
  }

  /** The oracle sees the subject with its static-destination bit cleared,
      and whatever it does to the subject is kept except for the
      attributes. */
  lemma SetDestinationMeaning(setObjectDestination: (Obj, Obj) -> Obj, staticDestination: bv32,
                              w: World, focus: Ref, subject: Ref)
    requires subject.ZeroRef? || (subject.SlotRef? && subject.n < |w.objects|)
    requires focus.ZeroRef? || (focus.SlotRef? && focus.n < |w.objects|)
    ensures var s := ObjAt(w, subject);
            var cleared := WithoutStatic(s, staticDestination);
            var target := if focus == subject then cleared else ObjAt(w, focus);
            ObjAt(SetDestination(setObjectDestination, staticDestination, w, focus, subject), subject)
            == setObjectDestination(cleared, target).(attributes := s.attributes)
  {
    var s := ObjAt(w, subject);
    var cleared := WithoutStatic(s, staticDestination);
    var w1 := SetObj(w, subject, cleared);
    assert ObjAt(w1, subject) == cleared;
    var target := ObjAt(w1, focus);
    if focus != subject {
      match focus
      case ZeroRef =>
        assert w1.zero == w.zero;
      case SlotRef(k) =>
        assert w1.objects[k] == w.objects[k];
    }
    var s2 := setObjectDestination(cleared, target);
    assert SetDestination(setObjectDestination, staticDestination, w, focus, subject)
           == SetObj(w1, subject, s2.(attributes := s.attributes));
  }
}
