/** The action interpreter of src/game/action.cpp: execute_actions runs a
    slice of the scenario's action records against a subject and a direct
    object, and execute_action_queue replays the deferred batches that
    fall due. `RunFrom` and `ReplayDue` specify them as functions of the
    game state; the class `Engine` runs them in place and is proved to
    agree. */
module Actions {
  import opened Objects
  import opened ActionQueue

  /** The verbs, with the arguments of those whose handlers are modelled.
      `OtherVerb` is a verb number no handler recognises. */
  datatype Verb =
    | NoAction
    | CreateObject
    | CreateObjectSetDest
    | PlaySound
    | MakeSparks
    | Die
    | NilTargetVerb
    | Alter(alter: AlterArgument)
    | LandAt
    | EnterWarp
    | ChangeScore(whichPlayer: int, whichScore: int, amount: int)
    | DeclareWinner
    | DisplayMessage
    | SetDestinationVerb
    | ActivateSpecial
    | ColorFlash
    | EnableKeysVerb(keys: bv32)
    | DisableKeysVerb(keys: bv32)
    | SetZoom
    | ComputerSelect
    | AssumeInitialObject
    | OtherVerb(code: int)

  /** An action record, as far as the interpreter reads it. */
  datatype Action = Action(
    verb: Verb, reflexive: bool, delay: int, owner: int,
    inclusiveFilter: bv32, exclusiveFilter: bv32, levelKeyTag: string,
    initialSubjectOverride: int, initialDirectOverride: int)

  /** The game functions the interpreter calls but that are not part of
      this model: GetObjectFromInitialNumber, mGetRealAdmiralNum, the
      weapon frame of mGetBaseObjectPtr, the random-number generator and
      SetObjectDestination; and the constants kNoShip, kNoWeapon and
      kStaticDestination. */
  datatype Env = Env(
    objectFromInitial: (World, int) -> Ref,
    realAdmiral: int -> int,
    weaponBase: int -> WeaponBase,
    random: (int, int) -> int,
    setObjectDestination: (Obj, Obj) -> Obj,
    staticDestination: bv32,
    noShip: int,
    noWeapon: int)

  /** The scenario's action table and the environment. */
  datatype Ctx = Ctx(actions: seq<Action>, env: Env)

  // ---------------------------------------------------------------------
  // The filter and the skip rule

  /** action_filter_applies_to, on the attributes and level key tag of a
      space object or of a base object. */
  function FilterApplies(a: Action, attributes: bv32, levelKeyTag: string): bool {
    if a.exclusiveFilter == 0xffff_ffff then a.levelKeyTag == levelKeyTag
    else a.inclusiveFilter & attributes == a.inclusiveFilter
  }

  /** With the tag filter off, an object carrying more attributes than one
      the filter accepts is accepted too. */
  lemma FilterMonotone(a: Action, attributes: bv32, more: bv32, levelKeyTag: string)
    requires a.exclusiveFilter != 0xffff_ffff && attributes & more == attributes
    requires FilterApplies(a, attributes, levelKeyTag)
    ensures FilterApplies(a, more, levelKeyTag)
  {
    FilterRegroup(a.inclusiveFilter, attributes, more);
  }

  /** With the tag filter off, an empty inclusive filter accepts every
      object; with it on, attributes play no part. */
  lemma FilterExtremes(a: Action, attributes: bv32, other: bv32, levelKeyTag: string)
    ensures a.exclusiveFilter != 0xffff_ffff && a.inclusiveFilter == 0 ==> FilterApplies(a, attributes, levelKeyTag)
    ensures a.exclusiveFilter == 0xffff_ffff ==>
              (FilterApplies(a, attributes, levelKeyTag) <==> FilterApplies(a, other, levelKeyTag))
  {
  }

  lemma FilterRegroup(f: bv32, x: bv32, y: bv32)
    requires f & x == f && x & y == x
    ensures f & y == f
  {
    calc {
      f & y;
      (f & x) & y;
      f & (x & y);
      f & x;
    }
  }

  /** The owner test of execute_actions: it rejects when the action
      demands different owners and they are equal, demands the same owner
      and they differ, or carries an owner code outside -1..1. */
  function OwnerRejects(owner: int, objectOwner: int, subjectOwner: int): bool {
    owner < -1
    || (owner == -1 && objectOwner == subjectOwner)
    || (owner == 1 && objectOwner != subjectOwner)
    || owner > 1
  }

  /** The owner test passes exactly for code 0, for code -1 on different
      owners, and for code 1 on equal owners. */
  lemma OwnerRule(owner: int, objectOwner: int, subjectOwner: int)
    ensures !OwnerRejects(owner, objectOwner, subjectOwner) <==>
              owner == 0 || (owner == -1 && objectOwner != subjectOwner) || (owner == 1 && objectOwner == subjectOwner)
  {
  }

  /** A record whose focus is not null is skipped when the owner test or
      the filter on the direct object rejects it. */
  function Skipped(a: Action, direct: Obj, subject: Obj): bool {
    OwnerRejects(a.owner, direct.owner, subject.owner)
    || !FilterApplies(a, direct.attributes, direct.levelKeyTag)
  }

  // ---------------------------------------------------------------------
  // The handlers

  function Log(w: World, e: Effect): World {
    w.(effects := w.effects + [e])
  }

  /** The admiral change_score credits: the focus's owner when the action
      names player -1 and the focus is a real object, otherwise the real
      admiral of the named player. */
  function ScoreAdmiral(realAdmiral: int -> int, w: World, focus: Ref, whichPlayer: int): int {
    if whichPlayer == -1 && focus != ZeroRef then ObjAt(w, focus).owner else realAdmiral(whichPlayer)
  }

  /** change_score: the score change is logged exactly when the admiral
      is a valid (non-negative) number; nothing else changes. */
  function ChangeScoreOf(realAdmiral: int -> int, w: World, focus: Ref, whichPlayer: int, whichScore: int, amount: int)
    : (w': World)
    ensures w' == w.(effects := w'.effects)
    ensures var admiral := ScoreAdmiral(realAdmiral, w, focus, whichPlayer);
            w'.effects == if admiral >= 0 then w.effects + [ScoreAltered(admiral, whichScore, amount)] else w.effects
  {
    var admiral := ScoreAdmiral(realAdmiral, w, focus, whichPlayer);
    if admiral >= 0 then Log(w, ScoreAltered(admiral, whichScore, amount)) else w
  }

  /** A score change on behalf of player -1 aimed at a pool object goes to
      that object's owner. */
  lemma ScoreGoesToFocusOwner(realAdmiral: int -> int, w: World, n: nat, whichScore: int, amount: int)
    requires n < |w.objects| && w.objects[n].owner >= 0
    ensures ChangeScoreOf(realAdmiral, w, SlotRef(n), -1, whichScore, amount).effects
            == w.effects + [ScoreAltered(w.objects[n].owner, whichScore, amount)]
  {
  }

  /** The weapon-slot alterations: kind is the alter's minimum. */
  function AlterWeapon(env: Env, o: Obj, which: AlterKind, kind: int): (o': Obj)
    requires which.AlterWeapon1? || which.AlterWeapon2? || which.AlterSpecial?
  {
    var slot := if which.AlterWeapon1? then o.pulse else if which.AlterWeapon2? then o.beam else o.special;
    var r := InstallWeapon(o, slot, kind, env.noWeapon, env.weaponBase(kind));
    var o1 := o.(longestWeaponRange := r.1, shortestWeaponRange := r.2);
    if which.AlterWeapon1? then o1.(pulse := r.0)
    else if which.AlterWeapon2? then o1.(beam := r.0)
    else o1.(special := r.0)
  }

  /** alter: the integer-only kinds are applied to the focus; the others
      are logged. */
  function AlterOf(env: Env, w: World, record: nat, focus: Ref, subject: Ref, direct: Ref, arg: AlterArgument): World {
    var o := ObjAt(w, focus);
    match arg.kind
    case AlterMaxVelocity => SetObj(w, focus, AlterMaxVelocityOf(o, arg.minimum))
    case AlterThrust => SetObj(w, focus, AlterThrustOf(env.random, o, arg))
    case AlterAge => SetObj(w, focus, AlterAgeOf(env.random, o, arg))
    case AlterWeapon1 => SetObj(w, focus, AlterWeapon(env, o, arg.kind, arg.minimum))
    case AlterWeapon2 => SetObj(w, focus, AlterWeapon(env, o, arg.kind, arg.minimum))
    case AlterSpecial => SetObj(w, focus, AlterWeapon(env, o, arg.kind, arg.minimum))
    case AlterOther(_) => Log(w, Performed(record, focus, subject, direct))
  }

  /** The verb switch of execute_actions. */
  function Dispatch(env: Env, w: World, record: nat, a: Action, focus: Ref, subject: Ref, direct: Ref): World {
    match a.verb
    case NilTargetVerb => SetObj(w, focus, NilTarget(ObjAt(w, focus), env.noShip))
    case Alter(arg) => AlterOf(env, w, record, focus, subject, direct, arg)
    case ChangeScore(p, s, amount) => ChangeScoreOf(env.realAdmiral, w, focus, p, s, amount)
    case EnableKeysVerb(keys) => w.(keyMask := EnableKeys(w.keyMask, keys))
    case DisableKeysVerb(keys) => w.(keyMask := DisableKeys(w.keyMask, keys))
    case SetDestinationVerb => SetDestination(env.setObjectDestination, env.staticDestination, w, focus, subject)
    case OtherVerb(_) => w
    case NoAction => w
    case _ => Log(w, Performed(record, focus, subject, direct))
  }

  /** The number of condition re-checks in an effect log. */
  function Checks(effects: seq<Effect>): nat {
    if |effects| == 0 then 0
    else Checks(effects[..|effects| - 1]) + (if effects[|effects| - 1].ConditionsChecked? then 1 else 0)
  }

  lemma {:induction false} ChecksAppend(effects: seq<Effect>, more: seq<Effect>)
    ensures Checks(effects + more) == Checks(effects) + Checks(more)
    decreases |more|
  {
    if |more| > 0 {
      assert (effects + more)[..|effects + more| - 1] == effects + more[..|more| - 1];
      ChecksAppend(effects, more[..|more| - 1]);
    } else {
      assert effects + more == effects;
    }
  }

  lemma LogChecks(w: World, e: Effect)
    ensures Checks(Log(w, e).effects) == Checks(w.effects) + (if e.ConditionsChecked? then 1 else 0)
  {
    assert Log(w, e).effects[..|w.effects|] == w.effects;
  }

  lemma AlterChecksNothing(env: Env, w: World, record: nat, focus: Ref, subject: Ref, direct: Ref, arg: AlterArgument)
    ensures Checks(AlterOf(env, w, record, focus, subject, direct, arg).effects) == Checks(w.effects)
  {
    if arg.kind.AlterOther? {
      LogChecks(w, Performed(record, focus, subject, direct));
    } else {
      assert AlterOf(env, w, record, focus, subject, direct, arg).effects == w.effects;
    }
  }

  lemma ScoreChecksNothing(realAdmiral: int -> int, w: World, focus: Ref, whichPlayer: int, whichScore: int, amount: int)
    ensures Checks(ChangeScoreOf(realAdmiral, w, focus, whichPlayer, whichScore, amount).effects) == Checks(w.effects)
  {
    var admiral := ScoreAdmiral(realAdmiral, w, focus, whichPlayer);
    if admiral >= 0 {
      LogChecks(w, ScoreAltered(admiral, whichScore, amount));
    }
  }

  /** No handler re-checks the scenario's conditions. */
  lemma DispatchChecksNothing(env: Env, w: World, record: nat, a: Action, focus: Ref, subject: Ref, direct: Ref)
    ensures Checks(Dispatch(env, w, record, a, focus, subject, direct).effects) == Checks(w.effects)
  {
    var w' := Dispatch(env, w, record, a, focus, subject, direct);
    match a.verb
    case Alter(arg) =>
      assert w' == AlterOf(env, w, record, focus, subject, direct, arg);
      AlterChecksNothing(env, w, record, focus, subject, direct, arg);
    case ChangeScore(p, sc, amount) =>
      assert w' == ChangeScoreOf(env.realAdmiral, w, focus, p, sc, amount);
      ScoreChecksNothing(env.realAdmiral, w, focus, p, sc, amount);
    case NilTargetVerb =>
      assert w'.effects == w.effects;
    case EnableKeysVerb(_) =>
      assert w'.effects == w.effects;
    case DisableKeysVerb(_) =>
      assert w'.effects == w.effects;
    case SetDestinationVerb =>
      SetDestinationKeepsEffects(env.setObjectDestination, env.staticDestination, w, focus, subject);
      assert w'.effects == w.effects;
    case OtherVerb(_) =>
      assert w' == w;
    case NoAction =>
      assert w' == w;
    case _ =>
      assert w' == Log(w, Performed(record, focus, subject, direct));
      LogChecks(w, Performed(record, focus, subject, direct));
  }

  // ---------------------------------------------------------------------
  // execute_actions

  /** The zero object replaces a null reference. */
  function Substitute(r: Ref): Ref {
    if r.NullRef? then ZeroRef else r
  }

  /** The id queue_action records: -1 for the null pointer. */
  function CapturedId(w: World, r: Ref): int {
    if r.NullRef? then -1 else ObjAt(w, r).id
  }

  /** What queue_action records for the rest of a slice from `record`. */
  function Capture(w: World, record: nat, count: int, delay: int, subject: Ref, direct: Ref, offset: Option<Point>)
    : Request
  {
    Request(record, count, delay,
            subject, EntryNumber(subject), CapturedId(w, subject),
            direct, EntryNumber(direct), CapturedId(w, direct),
            if offset.Some? then offset.value else Point(0, 0))
  }

  /** The result of running a slice: the new state, the batch handed to
      the queue if the run was deferred, and the records whose handler
      ran. */
  datatype Outcome = Outcome(world: World, deferred: Option<Request>, executed: seq<nat>)

  function ChecksConditions(v: Verb): bool {
    v.ChangeScore? || v.DisplayMessage?
  }

  /** The loop's end: one condition re-check if a record asked for it. */
  function Finish(w: World, check: bool, executed: seq<nat>): Outcome {
    Outcome(if check then Log(w, ConditionsChecked) else w, None, executed)
  }

  /** The subject record `a` uses: its override when it has one. */
  function SubjectOf(env: Env, w: World, a: Action, subject0: Ref): Ref {
    if a.initialSubjectOverride != env.noShip then env.objectFromInitial(w, a.initialSubjectOverride) else subject0
  }

  function ObjectOf(env: Env, w: World, a: Action, object0: Ref): Ref {
    if a.initialDirectOverride != env.noShip then env.objectFromInitial(w, a.initialDirectOverride) else object0
  }

  /** The focus: the direct object, unless the record is reflexive or
      there is no direct object. */
  function FocusOf(a: Action, subject: Ref, direct: Ref): Ref {
    if a.reflexive || direct.NullRef? then subject else direct
  }

  /** Whether record `i`, once past the delay gate, has its handler run:
      always when its focus is null (the focus is then the zero object
      and no test applies), otherwise when neither the owner test nor the
      filter rejects it. */
  function Runs(env: Env, w: World, a: Action, subject0: Ref, object0: Ref): bool {
    var subject := SubjectOf(env, w, a, subject0);
    var direct := ObjectOf(env, w, a, object0);
    FocusOf(a, subject, direct).NullRef?
    || !Skipped(a, ObjAt(w, Substitute(direct)), ObjAt(w, Substitute(subject)))
  }

  /** The handler call of one record: the focus, subject and direct
      object, null references replaced by the zero object. */
  function Step(env: Env, w: World, record: nat, a: Action, subject: Ref, direct: Ref): World {
    Dispatch(env, w, record, a, Substitute(FocusOf(a, subject, direct)), Substitute(subject), Substitute(direct))
  }

  /** The loop of execute_actions from record `i`, with the flags and the
      records run so far. */
  function RunFrom(ctx: Ctx, w: World, i: nat, end: nat, subject0: Ref, object0: Ref, offset: Option<Point>,
                   allowDelay: bool, check: bool, executed: seq<nat>): Outcome
    requires i <= end <= |ctx.actions|
    decreases end - i
  {
    if i == end || ctx.actions[i].verb.NoAction? then Finish(w, check, executed)
    else
      var a := ctx.actions[i];
      var subject := SubjectOf(ctx.env, w, a, subject0);
      var direct := ObjectOf(ctx.env, w, a, object0);
      if a.delay > 0 && allowDelay then
        Outcome(w, Some(Capture(w, i, end - i, a.delay, subject, direct, offset)), executed)
      else if Runs(ctx.env, w, a, subject0, object0) then
        RunFrom(ctx, Step(ctx.env, w, i, a, subject, direct), i + 1, end, subject0, object0, offset,
                true, check || ChecksConditions(a.verb), executed + [i])
      else
        RunFrom(ctx, w, i + 1, end, subject0, object0, offset, true, check, executed)
  }

  /** execute_actions: a negative record number does nothing; otherwise
      the slice of `count` records from `which` runs. */
  function Execute(ctx: Ctx, w: World, which: int, count: int, subject: Ref, direct: Ref, offset: Option<Point>,
                   allowDelay: bool): (o: Outcome)
    requires which < 0 || (0 <= count && which + count <= |ctx.actions|)
    ensures which < 0 ==> o == Outcome(w, None, [])
    ensures forall k :: 0 <= k < |o.executed| ==> 0 <= which <= o.executed[k] < which + count
  {
    if which < 0 then Outcome(w, None, [])
    else
      RunBounds(ctx, w, which, which + count, subject, direct, offset, allowDelay, false, []);
      RunFrom(ctx, w, which, which + count, subject, direct, offset, allowDelay, false, [])
  }

  /** One record past the delay gate: its handler runs or it is skipped,
      and the loop goes on with delays allowed. */
  lemma RunFromNext(ctx: Ctx, w: World, i: nat, end: nat, subject0: Ref, object0: Ref,
                    offset: Option<Point>, allowDelay: bool, check: bool, executed: seq<nat>)
    requires i < end <= |ctx.actions|
    requires !ctx.actions[i].verb.NoAction? && !(ctx.actions[i].delay > 0 && allowDelay)
    ensures var a := ctx.actions[i];
            RunFrom(ctx, w, i, end, subject0, object0, offset, allowDelay, check, executed)
            == if Runs(ctx.env, w, a, subject0, object0)
               then RunFrom(ctx, Step(ctx.env, w, i, a, SubjectOf(ctx.env, w, a, subject0), ObjectOf(ctx.env, w, a, object0)),
                            i + 1, end, subject0, object0, offset, true, check || ChecksConditions(a.verb), executed + [i])
               else RunFrom(ctx, w, i + 1, end, subject0, object0, offset, true, check, executed)
  {
  }

  /** A record with a positive delay, while delays are allowed, hands
      the rest of the slice to the queue. */
  lemma RunFromGate(ctx: Ctx, w: World, i: nat, end: nat, subject0: Ref, object0: Ref,
                    offset: Option<Point>, check: bool, executed: seq<nat>)
    requires i < end <= |ctx.actions|
    requires !ctx.actions[i].verb.NoAction? && ctx.actions[i].delay > 0
    ensures var a := ctx.actions[i];
            RunFrom(ctx, w, i, end, subject0, object0, offset, true, check, executed)
            == Outcome(w, Some(Capture(w, i, end - i, a.delay, SubjectOf(ctx.env, w, a, subject0),
                                       ObjectOf(ctx.env, w, a, object0), offset)), executed)
  {
  }

  /** `out` keeps `executed` as its prefix and adds only records of
      [lo, hi). */
  predicate Extends(executed: seq<nat>, out: seq<nat>, lo: nat, hi: nat) {
    |executed| <= |out| && out[..|executed|] == executed
    && forall k :: |executed| <= k < |out| ==> lo <= out[k] < hi
  }

  lemma ExtendsStep(executed: seq<nat>, out: seq<nat>, i: nat, hi: nat)
    requires i < hi && Extends(executed + [i], out, i + 1, hi)
    ensures Extends(executed, out, i, hi) && out[|executed|] == i
  {
    assert out[..|executed|] == out[..|executed| + 1][..|executed|];
    assert out[|executed|] == out[..|executed| + 1][|executed|];
  }

  /** The records run are those run before plus records of the slice
      from `i`. */
  lemma {:induction false} RunBounds(ctx: Ctx, w: World, i: nat, end: nat, subject0: Ref, object0: Ref,
                                     offset: Option<Point>, allowDelay: bool, check: bool, executed: seq<nat>)
    requires i <= end <= |ctx.actions|
    ensures Extends(executed, RunFrom(ctx, w, i, end, subject0, object0, offset, allowDelay, check, executed).executed, i, end)
    decreases end - i
  {
    if i == end || ctx.actions[i].verb.NoAction? || (ctx.actions[i].delay > 0 && allowDelay) {
      assert RunFrom(ctx, w, i, end, subject0, object0, offset, allowDelay, check, executed).executed == executed;
    } else {
      var a := ctx.actions[i];
      RunFromNext(ctx, w, i, end, subject0, object0, offset, allowDelay, check, executed);
      if Runs(ctx.env, w, a, subject0, object0) {
        var w' := Step(ctx.env, w, i, a, SubjectOf(ctx.env, w, a, subject0), ObjectOf(ctx.env, w, a, object0));
        var c := check || ChecksConditions(a.verb);
        RunBounds(ctx, w', i + 1, end, subject0, object0, offset, true, c, executed + [i]);
        ExtendsStep(executed, RunFrom(ctx, w', i + 1, end, subject0, object0, offset, true, c, executed + [i]).executed, i, end);
      } else {
        RunBounds(ctx, w, i + 1, end, subject0, object0, offset, true, check, executed);
      }
    }
  }

  /** Past the delay gate, a record's handler runs exactly when the skip
      rule lets it. */
  lemma RecordRuns(ctx: Ctx, w: World, i: nat, end: nat, subject0: Ref, object0: Ref,
                   offset: Option<Point>, allowDelay: bool, check: bool, executed: seq<nat>)
    requires i < end <= |ctx.actions|
    requires !ctx.actions[i].verb.NoAction? && !(ctx.actions[i].delay > 0 && allowDelay)
    ensures var o := RunFrom(ctx, w, i, end, subject0, object0, offset, allowDelay, check, executed);
            (exists m :: |executed| <= m < |o.executed| && o.executed[m] == i)
            <==> Runs(ctx.env, w, ctx.actions[i], subject0, object0)
  {
    var a := ctx.actions[i];
    var subject := SubjectOf(ctx.env, w, a, subject0);
    var direct := ObjectOf(ctx.env, w, a, object0);
    var o := RunFrom(ctx, w, i, end, subject0, object0, offset, allowDelay, check, executed);
    if Runs(ctx.env, w, a, subject0, object0) {
      var w' := Step(ctx.env, w, i, a, subject, direct);
      RunBounds(ctx, w', i + 1, end, subject0, object0, offset, true, check || ChecksConditions(a.verb), executed + [i]);
      RunFromNext(ctx, w, i, end, subject0, object0, offset, allowDelay, check, executed);
      ExtendsStep(executed, o.executed, i, end);
    } else {
      RunBounds(ctx, w, i + 1, end, subject0, object0, offset, true, check, executed);
      RunFromNext(ctx, w, i, end, subject0, object0, offset, allowDelay, check, executed);
    }
  }

  /** A deferred run hands the queue the rest of the slice from the
      record whose positive delay stopped it, and a run with delays
      disallowed never defers on its first record. */
  lemma {:induction false} DeferralShape(ctx: Ctx, w: World, i: nat, end: nat, subject0: Ref, object0: Ref,
                                         offset: Option<Point>, allowDelay: bool, check: bool, executed: seq<nat>)
    requires i <= end <= |ctx.actions|
    ensures var o := RunFrom(ctx, w, i, end, subject0, object0, offset, allowDelay, check, executed);
            o.deferred.Some? ==>
              var r := o.deferred.value;
              i <= r.actionNum < end && r.actionToDo == end - r.actionNum
              && (!allowDelay ==> i < r.actionNum)
              && r.delay == ctx.actions[r.actionNum].delay > 0
    decreases end - i
  {
    if i < end && !ctx.actions[i].verb.NoAction? {
      var a := ctx.actions[i];
      if a.delay > 0 && allowDelay {
        RunFromGate(ctx, w, i, end, subject0, object0, offset, check, executed);
      } else {
        RunFromNext(ctx, w, i, end, subject0, object0, offset, allowDelay, check, executed);
        if Runs(ctx.env, w, a, subject0, object0) {
          var w' := Step(ctx.env, w, i, a, SubjectOf(ctx.env, w, a, subject0), ObjectOf(ctx.env, w, a, object0));
          DeferralShape(ctx, w', i + 1, end, subject0, object0, offset, true, check || ChecksConditions(a.verb), executed + [i]);
        } else {
          DeferralShape(ctx, w, i + 1, end, subject0, object0, offset, true, check, executed);
        }
      }
    }
  }

  /** The queued batch carries that record's subject and direct object and
      their ids as they are when the run stops. */
  lemma {:induction false} DeferralCapture(ctx: Ctx, w: World, i: nat, end: nat, subject0: Ref, object0: Ref,
                                           offset: Option<Point>, allowDelay: bool, check: bool, executed: seq<nat>)
    requires i <= end <= |ctx.actions|
    ensures var o := RunFrom(ctx, w, i, end, subject0, object0, offset, allowDelay, check, executed);
            o.deferred.Some? ==>
              var r := o.deferred.value;
              0 <= r.actionNum < |ctx.actions|
              && r == Capture(o.world, r.actionNum, r.actionToDo, r.delay,
                              SubjectOf(ctx.env, o.world, ctx.actions[r.actionNum], subject0),
                              ObjectOf(ctx.env, o.world, ctx.actions[r.actionNum], object0), offset)
    decreases end - i
  {
    if i < end && !ctx.actions[i].verb.NoAction? {
      var a := ctx.actions[i];
      if a.delay > 0 && allowDelay {
        RunFromGate(ctx, w, i, end, subject0, object0, offset, check, executed);
      } else {
        RunFromNext(ctx, w, i, end, subject0, object0, offset, allowDelay, check, executed);
        if Runs(ctx.env, w, a, subject0, object0) {
          var w' := Step(ctx.env, w, i, a, SubjectOf(ctx.env, w, a, subject0), ObjectOf(ctx.env, w, a, object0));
          DeferralCapture(ctx, w', i + 1, end, subject0, object0, offset, true, check || ChecksConditions(a.verb), executed + [i]);
        } else {
          DeferralCapture(ctx, w, i + 1, end, subject0, object0, offset, true, check, executed);
        }
      }
    }
  }

  /** In a deferred run only records before the one queued ran, besides
      those run before the call. */
  lemma {:induction false} DeferralRunsBefore(ctx: Ctx, w: World, i: nat, end: nat, subject0: Ref, object0: Ref,
                                              offset: Option<Point>, allowDelay: bool, check: bool, executed: seq<nat>)
    requires i <= end <= |ctx.actions|
    ensures var o := RunFrom(ctx, w, i, end, subject0, object0, offset, allowDelay, check, executed);
            o.deferred.Some? ==>
              forall k :: 0 <= k < |o.executed| ==> o.executed[k] in executed || o.executed[k] < o.deferred.value.actionNum
    decreases end - i
  {
    if i < end && !ctx.actions[i].verb.NoAction? && !(ctx.actions[i].delay > 0 && allowDelay) {
      var a := ctx.actions[i];
      RunFromNext(ctx, w, i, end, subject0, object0, offset, allowDelay, check, executed);
      if Runs(ctx.env, w, a, subject0, object0) {
        var w' := Step(ctx.env, w, i, a, SubjectOf(ctx.env, w, a, subject0), ObjectOf(ctx.env, w, a, object0));
        var ex := executed + [i];
        var c := check || ChecksConditions(a.verb);
        DeferralRunsBefore(ctx, w', i + 1, end, subject0, object0, offset, true, c, ex);
        DeferralShape(ctx, w', i + 1, end, subject0, object0, offset, true, c, ex);
      } else {
        DeferralRunsBefore(ctx, w, i + 1, end, subject0, object0, offset, true, check, executed);
      }
    }
  }

  /** When execute_actions queues the rest of its slice, every record it
      ran comes before the queued one. */
  lemma DeferredAfterRun(ctx: Ctx, w: World, which: int, count: int, subject: Ref, direct: Ref,
                         offset: Option<Point>, allowDelay: bool)
    requires which < 0 || (0 <= count && which + count <= |ctx.actions|)
    ensures var o := Execute(ctx, w, which, count, subject, direct, offset, allowDelay);
            o.deferred.Some? ==> forall k :: 0 <= k < |o.executed| ==> o.executed[k] < o.deferred.value.actionNum
  {
    if which >= 0 {
      var o := RunFrom(ctx, w, which, which + count, subject, direct, offset, allowDelay, false, []);
      DeferralRunsBefore(ctx, w, which, which + count, subject, direct, offset, allowDelay, false, []);
      if o.deferred.Some? {
        forall k | 0 <= k < |o.executed|
          ensures o.executed[k] < o.deferred.value.actionNum
        {
          assert o.executed[k] in [] || o.executed[k] < o.deferred.value.actionNum;
        }
      }
    }
  }

  /** A deferred run does not re-check the conditions. */
  lemma {:induction false} DeferralKeepsChecks(ctx: Ctx, w: World, i: nat, end: nat, subject0: Ref, object0: Ref,
                                               offset: Option<Point>, allowDelay: bool, check: bool, executed: seq<nat>)
    requires i <= end <= |ctx.actions|
    ensures var o := RunFrom(ctx, w, i, end, subject0, object0, offset, allowDelay, check, executed);
            o.deferred.Some? ==> Checks(o.world.effects) == Checks(w.effects)
    decreases end - i
  {
    if i < end && !ctx.actions[i].verb.NoAction? && !(ctx.actions[i].delay > 0 && allowDelay) {
      var a := ctx.actions[i];
      var subject := SubjectOf(ctx.env, w, a, subject0);
      var direct := ObjectOf(ctx.env, w, a, object0);
      RunFromNext(ctx, w, i, end, subject0, object0, offset, allowDelay, check, executed);
      if Runs(ctx.env, w, a, subject0, object0) {
        var w' := Step(ctx.env, w, i, a, subject, direct);
        assert Checks(w'.effects) == Checks(w.effects) by {
          DispatchChecksNothing(ctx.env, w, i, a, Substitute(FocusOf(a, subject, direct)), Substitute(subject), Substitute(direct));
        }
        DeferralKeepsChecks(ctx, w', i + 1, end, subject0, object0, offset,
                            true, check || ChecksConditions(a.verb), executed + [i]);
      } else {
        DeferralKeepsChecks(ctx, w, i + 1, end, subject0, object0, offset, true, check, executed);
      }
    }
  }

  /** In a replay the first record is exempt from its delay, but a
      following record with a positive delay queues the rest of the slice
      again. */
  lemma LaterDelayRequeued(ctx: Ctx, w: World, i: nat, end: nat, subject0: Ref, object0: Ref,
                           offset: Option<Point>, check: bool, executed: seq<nat>)
    requires i + 1 < end <= |ctx.actions|
    requires !ctx.actions[i].verb.NoAction? && !ctx.actions[i + 1].verb.NoAction? && ctx.actions[i + 1].delay > 0
    ensures var o := RunFrom(ctx, w, i, end, subject0, object0, offset, false, check, executed);
            o.deferred.Some? && o.deferred.value.actionNum == i + 1 && o.deferred.value.actionToDo == end - (i + 1)
  {
    var a := ctx.actions[i];
    if Runs(ctx.env, w, a, subject0, object0) {
      var w' := Step(ctx.env, w, i, a, SubjectOf(ctx.env, w, a, subject0), ObjectOf(ctx.env, w, a, object0));
      assert RunFrom(ctx, w, i, end, subject0, object0, offset, false, check, executed)
          == RunFrom(ctx, w', i + 1, end, subject0, object0, offset, true, check || ChecksConditions(a.verb), executed + [i]);
    } else {
      assert RunFrom(ctx, w, i, end, subject0, object0, offset, false, check, executed)
          == RunFrom(ctx, w, i + 1, end, subject0, object0, offset, true, check, executed);
    }
  }

  /** The first kNoAction of a slice ends it: the records after it play
      no part in the run. */
  lemma {:induction false} NoActionCutOff(ctx: Ctx, other: seq<Action>, w: World, i: nat, end: nat, k: nat,
                                          subject0: Ref, object0: Ref, offset: Option<Point>,
                                          allowDelay: bool, check: bool, executed: seq<nat>)
    requires i <= k < end <= |ctx.actions| && |other| == |ctx.actions| && ctx.actions[k].verb.NoAction?
    requires forall j :: i <= j <= k ==> other[j] == ctx.actions[j]
    ensures RunFrom(ctx.(actions := other), w, i, end, subject0, object0, offset, allowDelay, check, executed)
            == RunFrom(ctx, w, i, end, subject0, object0, offset, allowDelay, check, executed)
    decreases end - i
  {
    var ctx2 := ctx.(actions := other);
    assert ctx2.actions[i] == ctx.actions[i] && ctx2.env == ctx.env;
    if i == k || ctx.actions[i].verb.NoAction? {
    } else {
      var a := ctx.actions[i];
      var subject := SubjectOf(ctx.env, w, a, subject0);
      var direct := ObjectOf(ctx.env, w, a, object0);
      if a.delay > 0 && allowDelay {
      } else if Runs(ctx.env, w, a, subject0, object0) {
        var w' := Step(ctx.env, w, i, a, subject, direct);
        var c := check || ChecksConditions(a.verb);
        NoActionCutOff(ctx, other, w', i + 1, end, k, subject0, object0, offset, true, c, executed + [i]);
        assert RunFrom(ctx, w, i, end, subject0, object0, offset, allowDelay, check, executed)
            == RunFrom(ctx, w', i + 1, end, subject0, object0, offset, true, c, executed + [i]);
        assert RunFrom(ctx2, w, i, end, subject0, object0, offset, allowDelay, check, executed)
            == RunFrom(ctx2, w', i + 1, end, subject0, object0, offset, true, c, executed + [i]);
      } else {
        NoActionCutOff(ctx, other, w, i + 1, end, k, subject0, object0, offset, true, check, executed);
        assert RunFrom(ctx, w, i, end, subject0, object0, offset, allowDelay, check, executed)
            == RunFrom(ctx, w, i + 1, end, subject0, object0, offset, true, check, executed);
        assert RunFrom(ctx2, w, i, end, subject0, object0, offset, allowDelay, check, executed)
            == RunFrom(ctx2, w, i + 1, end, subject0, object0, offset, true, check, executed);
      }
    }
  }

  /** No record from the first kNoAction on runs or is queued. */
  lemma {:induction false} NoActionStops(ctx: Ctx, w: World, i: nat, end: nat, k: nat,
                                         subject0: Ref, object0: Ref, offset: Option<Point>,
                                         allowDelay: bool, check: bool, executed: seq<nat>)
    requires i <= k < end <= |ctx.actions| && ctx.actions[k].verb.NoAction?
    ensures var o := RunFrom(ctx, w, i, end, subject0, object0, offset, allowDelay, check, executed);
            (forall m :: |executed| <= m < |o.executed| ==> o.executed[m] < k)
            && (o.deferred.Some? ==> o.deferred.value.actionNum < k)
    decreases end - i
  {
    var o := RunFrom(ctx, w, i, end, subject0, object0, offset, allowDelay, check, executed);
    var a := ctx.actions[i];
    if i == k || a.verb.NoAction? {
      assert o == Finish(w, check, executed);
    } else if a.delay > 0 && allowDelay {
      assert o.executed == executed && o.deferred.value.actionNum == i;
    } else {
      RunFromNext(ctx, w, i, end, subject0, object0, offset, allowDelay, check, executed);
      if Runs(ctx.env, w, a, subject0, object0) {
        var w' := Step(ctx.env, w, i, a, SubjectOf(ctx.env, w, a, subject0), ObjectOf(ctx.env, w, a, object0));
        var c := check || ChecksConditions(a.verb);
        var ex := executed + [i];
        var o' := RunFrom(ctx, w', i + 1, end, subject0, object0, offset, true, c, ex);
        assert o == o';
        NoActionStops(ctx, w', i + 1, end, k, subject0, object0, offset, true, c, ex);
        RunBounds(ctx, w', i + 1, end, subject0, object0, offset, true, c, ex);
        ExtendsStep(executed, o'.executed, i, end);
      } else {
        assert o == RunFrom(ctx, w, i + 1, end, subject0, object0, offset, true, check, executed);
        NoActionStops(ctx, w, i + 1, end, k, subject0, object0, offset, true, check, executed);
      }
    }
  }

  /** Whether one of the records run is a score change or a message,
      the verbs that ask for a condition re-check. */
  predicate AnyChecks(actions: seq<Action>, executed: seq<nat>) {
    exists k :: 0 <= k < |executed| && executed[k] < |actions| && ChecksConditions(actions[executed[k]].verb)
  }

  lemma AnyChecksAppend(actions: seq<Action>, executed: seq<nat>, i: nat)
    requires i < |actions|
    ensures AnyChecks(actions, executed + [i]) <==> AnyChecks(actions, executed) || ChecksConditions(actions[i].verb)
  {
    var ex := executed + [i];
    if ChecksConditions(actions[i].verb) {
      assert ex[|executed|] == i;
    }
    if AnyChecks(actions, executed) {
      var k :| 0 <= k < |executed| && executed[k] < |actions| && ChecksConditions(actions[executed[k]].verb);
      assert ex[k] == executed[k];
    }
    if AnyChecks(actions, ex) {
      var k :| 0 <= k < |ex| && ex[k] < |actions| && ChecksConditions(actions[ex[k]].verb);
      if k < |executed| {
        assert ex[k] == executed[k];
      }
    }
  }

  lemma {:induction false} ChecksOnce(ctx: Ctx, w: World, i: nat, end: nat, subject0: Ref, object0: Ref,
                                      offset: Option<Point>, allowDelay: bool, check: bool, executed: seq<nat>)
    requires i <= end <= |ctx.actions|
    requires check == AnyChecks(ctx.actions, executed)
    ensures var o := RunFrom(ctx, w, i, end, subject0, object0, offset, allowDelay, check, executed);
            Checks(o.world.effects)
            == Checks(w.effects) + (if o.deferred.None? && AnyChecks(ctx.actions, o.executed) then 1 else 0)
    decreases end - i
  {
    if i == end || ctx.actions[i].verb.NoAction? {
      if check {
        LogChecks(w, ConditionsChecked);
      }
    } else {
      var a := ctx.actions[i];
      var subject := SubjectOf(ctx.env, w, a, subject0);
      var direct := ObjectOf(ctx.env, w, a, object0);
      if a.delay > 0 && allowDelay {
      } else if Runs(ctx.env, w, a, subject0, object0) {
        var w' := Step(ctx.env, w, i, a, subject, direct);
        DispatchChecksNothing(ctx.env, w, i, a, Substitute(FocusOf(a, subject, direct)), Substitute(subject), Substitute(direct));
        AnyChecksAppend(ctx.actions, executed, i);
        ChecksOnce(ctx, w', i + 1, end, subject0, object0, offset, true, check || ChecksConditions(a.verb), executed + [i]);
      } else {
        ChecksOnce(ctx, w, i + 1, end, subject0, object0, offset, true, check, executed);
      }
    }
  }

  /** execute_actions re-checks the scenario's conditions once at its end
      when a score change or a message ran, and not at all otherwise or
      when it stopped to queue the rest of the slice. */
  lemma ConditionsCheckedOnce(ctx: Ctx, w: World, which: int, count: int, subject: Ref, direct: Ref,
                              offset: Option<Point>, allowDelay: bool)
    requires which < 0 || (0 <= count && which + count <= |ctx.actions|)
    ensures var o := Execute(ctx, w, which, count, subject, direct, offset, allowDelay);
            Checks(o.world.effects)
            == Checks(w.effects) + (if o.deferred.None? && AnyChecks(ctx.actions, o.executed) then 1 else 0)
  {
    if which >= 0 {
      ChecksOnce(ctx, w, which, which + count, subject, direct, offset, allowDelay, false, []);
    }
  }

  // ---------------------------------------------------------------------
  // execute_action_queue

  /** A batch still applies when the current id of each captured object
      (-1 for null or inactive) is the id captured with it. */
  predicate StillApplies(w: World, h: Slot) {
    CurrentId(w, h.subject) == h.subjectId && CurrentId(w, h.direct) == h.directId
  }

  /** Firing a batch: its slice replays, exempt from the first record's
      delay, with the captured offset; a stale batch does nothing. */
  function Fire(ctx: Ctx, w: World, h: Slot): Outcome
    requires SliceIn(h.actionNum, h.actionToDo, |ctx.actions|)
  {
    if StillApplies(w, h) then Execute(ctx, w, h.actionNum, h.actionToDo, h.subject, h.direct, Some(h.offset), false)
    else Outcome(w, None, [])
  }

  /** The loop test of execute_action_queue. */
  predicate HeadDue(q: QState)
    requires QValid(q)
  {
    q.first != -1 && q.slots[q.first].occupied && q.slots[q.first].scheduledTime <= 0
  }

  /** The queue after firing the head, before it is popped. */
  function Requeued(q: QState, o: Outcome): QState
    requires QValid(q)
  {
    if o.deferred.Some? then QInsert(q, o.deferred.value) else q
  }

  /** Firing the due head keeps the queue well formed and in range, keeps
      the head, and leaves one fewer due batch once it is popped: a batch
      queued again has a positive delay. */
  lemma ReplayStep(ctx: Ctx, w: World, q: QState)
    requires QValid(q) && SlotsInRange(q, |ctx.actions|) && HeadDue(q)
    ensures var h := q.slots[q.first];
            SliceIn(h.actionNum, h.actionToDo, |ctx.actions|)
            && var q1 := Requeued(q, Fire(ctx, w, h));
               QValid(q1) && SlotsInRange(q1, |ctx.actions|) && q1.first == q.first && |q1.order| > 0
               && QValid(QPop(q1)) && SlotsInRange(QPop(q1), |ctx.actions|) && Due(QPop(q1)) < Due(q)
  {
    var h := q.slots[q.first];
    var n := |ctx.actions|;
    assert q.first == q.order[0];
    var o := Fire(ctx, w, h);
    if o.deferred.Some? {
      DeferralShape(ctx, w, h.actionNum, h.actionNum + h.actionToDo, h.subject, h.direct, Some(h.offset), false, false, []);
      var r := o.deferred.value;
      InsertNotDue(q, r);
      InsertBehindDueHead(q, r);
      InsertInRange(q, r, n);
    }
    var q1 := Requeued(q, o);
    PopValid(q1);
    PopDue(q1);
    PopInRange(q1, n);
  }

  /** The due batches fire head first until the head is not due. */
  function ReplayDue(ctx: Ctx, w: World, q: QState): (r: (World, QState))
    requires QValid(q) && SlotsInRange(q, |ctx.actions|)
    ensures QValid(r.1) && SlotsInRange(r.1, |ctx.actions|) && !HeadDue(r.1)
    decreases Due(q)
  {
    if HeadDue(q) then
      var o := Fire(ctx, w, q.slots[q.first]);
      ReplayStep(ctx, w, q);
      ReplayDue(ctx, o.world, QPop(Requeued(q, o)))
    else (w, q)
  }

  /** A due batch whose subject or direct object has died or been
      replaced is dropped without running. */
  lemma StaleBatchDropped(ctx: Ctx, w: World, q: QState)
    requires QValid(q) && SlotsInRange(q, |ctx.actions|) && HeadDue(q) && !StillApplies(w, q.slots[q.first])
    ensures QValid(QPop(q)) && SlotsInRange(QPop(q), |ctx.actions|)
    ensures ReplayDue(ctx, w, q) == ReplayDue(ctx, w, QPop(q))
  {
    ReplayStep(ctx, w, q);
  }

  /** execute_action_queue: every queued time goes down by `units`, then
      the due batches fire; afterwards nothing queued is due. */
  function Tick(ctx: Ctx, w: World, q: QState, units: int): (r: (World, QState))
    requires QValid(q) && SlotsInRange(q, |ctx.actions|)
    ensures QValid(r.1) && SlotsInRange(r.1, |ctx.actions|)
    ensures forall k {:trigger r.1.slots[r.1.order[k]]} :: 0 <= k < |r.1.order| ==> r.1.slots[r.1.order[k]].scheduledTime > 0
  {
    DecrementValid(q, units);
    DecrementInRange(q, units, |ctx.actions|);
    var r := ReplayDue(ctx, w, QDecrement(q, units));
    assert |r.1.order| > 0 ==> r.1.first == r.1.order[0] && r.1.slots[r.1.order[0]].occupied;
    NoneDueBehindHead(r.1);
    r
  }

  // ---------------------------------------------------------------------
  // The interpreter in place

  /** The game state, the action table and the deferred queue. */
  class Engine {
    var world: World
    const ctx: Ctx
    const queue: Queue

    ghost predicate Valid()
      reads this, queue, queue.slots
    {
      queue.Valid() && SlotsInRange(queue.Model(), |ctx.actions|)
    }

    constructor(ctx: Ctx, world: World)
      ensures Valid() && this.ctx == ctx && this.world == world && queue.Model() == QReset()
      ensures fresh(queue) && fresh(queue.slots)
    {
      this.ctx := ctx;
      this.world := world;
      queue := new Queue();
    }

    /** reset_action_queue. */
    method ResetActionQueue()
      modifies queue
      ensures Valid() && queue.Model() == QReset() && fresh(queue.slots) && world == old(world)
    {
      queue.Reset();
    }

    /** queue_action on behalf of a slice of the table. */
    method Defer(req: Request)
      requires Valid() && SliceIn(req.actionNum, req.actionToDo, |ctx.actions|)
      modifies queue, queue.slots
      ensures Valid() && queue.slots == old(queue.slots) && queue.Model() == QInsert(old(queue.Model()), req)
    {
      InsertInRange(queue.Model(), req, |ctx.actions|);
      queue.QueueAction(req);
    }

    /** One record of execute_actions past the delay gate: its handler
        runs unless the skip rule rejects it. */
    method RunRecord(i: nat, end: nat, subject0: Ref, object0: Ref, offset: Option<Point>, allowDelay: bool,
                     check: bool, ghost executed: seq<nat>) returns (check': bool, ghost executed': seq<nat>)
      requires i < end <= |ctx.actions|
      requires !ctx.actions[i].verb.NoAction? && !(ctx.actions[i].delay > 0 && allowDelay)
      modifies this`world
      ensures RunFrom(ctx, world, i + 1, end, subject0, object0, offset, true, check', executed')
              == RunFrom(ctx, old(world), i, end, subject0, object0, offset, allowDelay, check, executed)
    {
      var a := ctx.actions[i];
      RunFromNext(ctx, world, i, end, subject0, object0, offset, allowDelay, check, executed);
      check', executed' := check, executed;
      if Runs(ctx.env, world, a, subject0, object0) {
        world := Step(ctx.env, world, i, a, SubjectOf(ctx.env, world, a, subject0), ObjectOf(ctx.env, world, a, object0));
        check' := check || ChecksConditions(a.verb);
        executed' := executed + [i];
      }
    }

    /** execute_actions: the loop over the slice, then either the rest of
        the slice is queued or the conditions are re-checked. */
    method ExecuteActions(which: int, count: int, subject0: Ref, object0: Ref, offset: Option<Point>, allowDelay0: bool)
      requires Valid()
      requires which < 0 || (0 <= count && which + count <= |ctx.actions|)
      modifies this, queue, queue.slots
      ensures Valid() && queue.slots == old(queue.slots)
      ensures var o := Execute(ctx, old(world), which, count, subject0, object0, offset, allowDelay0);
              world == o.world
              && queue.Model() == if o.deferred.Some? then QInsert(old(queue.Model()), o.deferred.value) else old(queue.Model())
    {
      if which < 0 {
        return;
      }
      var deferred, check, executed := RunSlice(which, which + count, subject0, object0, offset, allowDelay0);
      if deferred.Some? {
        Defer(deferred.value);
        return;
      }
      if check {
        world := Log(world, ConditionsChecked);
      }
    }

    /** The loop of execute_actions over records [which, end): it stops at
        kNoAction, hands back the rest of the slice from a record with a
        positive delay unless delays are not yet allowed, and skips records
        the skip rule rejects. */
    method RunSlice(which: nat, end: nat, subject0: Ref, object0: Ref, offset: Option<Point>, allowDelay0: bool)
      returns (deferred: Option<Request>, check: bool, ghost executed: seq<nat>)
      requires which <= end <= |ctx.actions|
      modifies this`world
      ensures var o := RunFrom(ctx, old(world), which, end, subject0, object0, offset, allowDelay0, false, []);
              if deferred.Some?
              then o == Outcome(world, deferred, executed)
                   && SliceIn(deferred.value.actionNum, deferred.value.actionToDo, |ctx.actions|)
              else o == Finish(world, check, executed)
    {
      ghost var goal := RunFrom(ctx, world, which, end, subject0, object0, offset, allowDelay0, false, []);
      var i := which;
      var allowDelay := allowDelay0;
      check := false;
      deferred := None;
      executed := [];
      while i < end
        invariant which <= i <= end
        invariant RunFrom(ctx, world, i, end, subject0, object0, offset, allowDelay, check, executed) == goal
      {
        var a := ctx.actions[i];
        if a.verb.NoAction? {
          break;
        }
        if a.delay > 0 && allowDelay {
          RunFromGate(ctx, world, i, end, subject0, object0, offset, check, executed);
          deferred := Some(Capture(world, i, end - i, a.delay, SubjectOf(ctx.env, world, a, subject0),
                                   ObjectOf(ctx.env, world, a, object0), offset));
          return;
        }
        check, executed := RunRecord(i, end, subject0, object0, offset, allowDelay, check, executed);
        allowDelay := true;
        i := i + 1;
      }
    }

    /** One pass of the loop of execute_action_queue: the head batch runs
        if its subject and direct object are still the ones it captured,
        and is then removed. */
    method FireHead()
      requires Valid() && HeadDue(queue.Model())
      modifies this, queue, queue.slots
      ensures Valid() && queue.slots == old(queue.slots)
      ensures ReplayDue(ctx, world, queue.Model()) == ReplayDue(ctx, old(world), old(queue.Model()))
      ensures Due(queue.Model()) < Due(old(queue.Model()))
    {
      ghost var q := queue.Model();
      var h := queue.slots[queue.first];
      ReplayStep(ctx, world, q);
      ghost var o := Fire(ctx, world, h);
      if CurrentId(world, h.subject) == h.subjectId && CurrentId(world, h.direct) == h.directId {
        ExecuteActions(h.actionNum, h.actionToDo, h.subject, h.direct, Some(h.offset), false);
      }
      assert world == o.world && queue.Model() == Requeued(q, o);
      queue.PopHead();
    }

    /** execute_action_queue. */
    method ExecuteActionQueue(units: int)
      requires Valid()
      modifies this, queue, queue.slots
      ensures Valid() && queue.slots == old(queue.slots)
      ensures (world, queue.Model()) == Tick(ctx, old(world), old(queue.Model()), units)
    {
      ghost var goal := Tick(ctx, world, queue.Model(), units);
      DecrementInRange(queue.Model(), units, |ctx.actions|);
      queue.Decrement(units);
      while queue.first != -1 && queue.slots[queue.first].occupied && queue.slots[queue.first].scheduledTime <= 0
        invariant Valid() && queue.slots == old(queue.slots)
        invariant ReplayDue(ctx, world, queue.Model()) == goal
        decreases Due(queue.Model())
      {
        FireHead();
      }
    }
  }
}
