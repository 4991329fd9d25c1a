/** Loading of level (scenario chapter) definitions and of the scenario
    information record: src/data/level.cpp. */
module Levels {
  import opened Values
  import opened Readers
  import opened Fields

  // ---------------------------------------------------------------------
  // Scenario information

  /** The scenario information record. The splash and star-map pictures
      are kept by name: loading the textures is not part of this model. */
  datatype ScenarioInfo = ScenarioInfo(
    title: string, downloadUrl: string, author: string, authorUrl: string, version: string,
    warpInFlare: int, warpOutFlare: int, playerBody: int, energyBlob: int,
    introText: string, aboutText: string, splash: string, starmap: string)

  /** The members that must hold non-empty strings. */
  const InfoStringFields: seq<string> :=
    ["title", "download_url", "author", "author_url", "version", "splash", "starmap"]

  /** The members that must hold integers (base-object handles). */
  const InfoHandleFields: seq<string> := ["warp_in_flare", "warp_out_flare", "player_body", "energy_blob"]

  /** The lenient views of the parser's value library: a node that is not
      a map reads as the empty map, one that is not a string as "", one
      that is not an integer as 0. */
  function AsMap(v: Value): seq<Entry> {
    if v.Map? then v.entries else []
  }

  function AsString(v: Value): string {
    if v.Str? then v.s else ""
  }

  function AsInt(v: Value): int {
    if v.Int? then v.i else 0
  }

  predicate Has(m: seq<Entry>, key: string) {
    key in Keys(m)
  }

  /** The conditions under which a scenario information file is accepted. */
  ghost predicate InfoAcceptable(m: seq<Entry>) {
    (forall k :: k in InfoStringFields ==> AsString(LookupEntries(m, k)) != "")
    && (forall k :: k in InfoHandleFields ==> Has(m, k) && LookupEntries(m, k).Int?)
  }

  function InfoOf(m: seq<Entry>): ScenarioInfo {
    ScenarioInfo(
      AsString(LookupEntries(m, "title")), AsString(LookupEntries(m, "download_url")),
      AsString(LookupEntries(m, "author")), AsString(LookupEntries(m, "author_url")),
      AsString(LookupEntries(m, "version")),
      AsInt(LookupEntries(m, "warp_in_flare")), AsInt(LookupEntries(m, "warp_out_flare")),
      AsInt(LookupEntries(m, "player_body")), AsInt(LookupEntries(m, "energy_blob")),
      AsString(LookupEntries(m, "intro")), AsString(LookupEntries(m, "about")),
      AsString(LookupEntries(m, "splash")), AsString(LookupEntries(m, "starmap")))
  }

  /** read_from: `parsed` is None when the file does not parse. The
      information is produced exactly when every string member is
      non-empty and every handle member is present and an integer. */
  method ReadScenarioInfo(parsed: Option<Value>) returns (r: Option<ScenarioInfo>)
    ensures r.Some? <==> parsed.Some? && InfoAcceptable(AsMap(parsed.value))
    ensures r.Some? ==> r.value == InfoOf(AsMap(parsed.value))
  {
    if parsed.None? {
      return None;
    }
    var m := AsMap(parsed.value);
    for i := 0 to |InfoStringFields|
      invariant forall j :: 0 <= j < i ==> AsString(LookupEntries(m, InfoStringFields[j])) != ""
    {
      if AsString(LookupEntries(m, InfoStringFields[i])) == "" {
        return None;
      }
    }
    for i := 0 to |InfoHandleFields|
      invariant forall j :: 0 <= j < i ==> Has(m, InfoHandleFields[j]) && LookupEntries(m, InfoHandleFields[j]).Int?
    {
      var k := InfoHandleFields[i];
      if !Has(m, k) || !LookupEntries(m, k).Int? {
        return None;
      }
    }
    return Some(InfoOf(m));
  }

  /** A file missing any handle member, or with any string member empty or
      not a string, is rejected, whatever the other members hold. */
  lemma MissingMemberRejected(m: seq<Entry>, k: string)
    requires (k in InfoHandleFields && !(Has(m, k) && LookupEntries(m, k).Int?))
             || (k in InfoStringFields && AsString(LookupEntries(m, k)) == "")
    ensures !InfoAcceptable(m)
  {
  }

  // ---------------------------------------------------------------------
  // Readers defined outside the modelled files

  datatype LevelType = Demo | Solo | Net

  /** The readers that level.cpp calls but that are declared elsewhere
      (level type, player type, race, admiral and initial handles, screens,
      zoom levels, condition operators, initial attributes, durations in
      seconds), the conversion from seconds to game ticks, and the length
      of an initial's build list. */
  datatype LevelContext = LevelContext(
    levelType: PathValue -> Result<LevelType>,
    playerType: PathValue -> Result<int>,
    race: PathValue -> Result<int>,
    admiral: PathValue -> Result<int>,
    optionalAdmiral: PathValue -> Result<Option<int>>,
    initial: PathValue -> Result<int>,
    optionalInitial: PathValue -> Result<Option<int>>,
    base: PathValue -> Result<int>,
    initialAttributes: PathValue -> Result<bv32>,
    screen: PathValue -> Result<int>,
    subjectValue: PathValue -> Result<int>,
    zoom: PathValue -> Result<int>,
    conditionOp: PathValue -> Result<int>,
    optionalSecs: PathValue -> Result<Option<int>>,
    secsToTicks: int -> int,
    maxBuild: nat)

  // ---------------------------------------------------------------------
  // Players

  /** A player. Members the level type does not read keep their default
      value, written None here. */
  datatype Player = Player(
    playerType: Option<int>, name: string, race: Option<int>, earningPower: int, netRaceFlags: Option<int>)

  /** required_player: which members are read depends on the level type. */
  function PlayerSpec(x: PathValue, t: LevelType, ctx: LevelContext): (r: Result<Player>)
    ensures !x.value.Map? ==> r == Fail(x, MustBeMap)
    ensures r.Ok? && t == Demo ==>
              r.value.playerType.None? && r.value.netRaceFlags.None?
              && Get(x, "name").value == Str(r.value.name) && ctx.race(Get(x, "race")).Ok? && r.value.race == Some(ctx.race(Get(x, "race")).value)
    ensures r.Ok? && t == Solo ==>
              ctx.playerType(Get(x, "type")).Ok? && r.value.playerType == Some(ctx.playerType(Get(x, "type")).value) && r.value.netRaceFlags.None?
              && Get(x, "name").value == Str(r.value.name) && ctx.race(Get(x, "race")).Ok? && r.value.race == Some(ctx.race(Get(x, "race")).value)
    ensures t == Net ==>
              (r.Ok? <==>
                 x.value.Map? && OptionalFixed(Get(x, "earning_power")).Ok? && ctx.playerType(Get(x, "type")).Ok?)
    ensures r.Ok? && t == Net ==>
              r.value.netRaceFlags == Some(0) && r.value.name == "" && r.value.race.None?
              && ctx.playerType(Get(x, "type")).Ok? && r.value.playerType == Some(ctx.playerType(Get(x, "type")).value)
  {
    if !x.value.Map? then Fail(x, MustBeMap)
    else
      var earning :- FixedOr(Get(x, "earning_power"), 0);
      match t
      case Demo =>
        var name :- RequiredString(Get(x, "name"));
        var race :- ctx.race(Get(x, "race"));
        Ok(Player(None, name, Some(race), earning, None))
      case Solo =>
        var pt :- ctx.playerType(Get(x, "type"));
        var name :- RequiredString(Get(x, "name"));
        var race :- ctx.race(Get(x, "race"));
        Ok(Player(Some(pt), name, Some(race), earning, None))
      case Net =>
        var pt :- ctx.playerType(Get(x, "type"));
        Ok(Player(Some(pt), "", None, earning, Some(0)))
  }

  /** required_player_array. */
  method ReadPlayers(x: PathValue, t: LevelType, ctx: LevelContext) returns (r: Result<seq<Player>>)
    ensures r == RequiredArraySpec(x, (y: PathValue) => PlayerSpec(y, t, ctx))
  {
    r := RequiredArray(x, (y: PathValue) => PlayerSpec(y, t, ctx));
  }

  // ---------------------------------------------------------------------
  // Initials

  /** An initial object. `build` holds the raw list once read and the
      padded build table once checked. */
  datatype Initial = Initial(
    base: int, owner: int, at: Point, earning: int, nameOverride: string, spriteOverride: int,
    target: Option<int>, attributes: bv32, build: seq<int>)

  /** The members of an initial, in the order they are read. */
  function InitialMembers(x: PathValue, ctx: LevelContext): (r: Result<Initial>)
    ensures !x.value.Map? ==> r == Fail(x, MustBeMap)
    ensures r.Ok? ==> OptionalArraySpec(Get(x, "build"), RequiredInt) == Ok(r.value.build)
    ensures r.Ok? && Get(x, "owner").value.Null? && ctx.optionalAdmiral(Get(x, "owner")) == Ok(None) ==> r.value.owner == -1
    ensures r.Ok? && Get(x, "sprite_override").value.Null? ==> r.value.spriteOverride == -1
  {
    if !x.value.Map? then Fail(x, MustBeMap)
    else
      var base :- ctx.base(Get(x, "base"));
      var owner :- ctx.optionalAdmiral(Get(x, "owner"));
      var at :- RequiredPoint(Get(x, "at"));
      var earning :- FixedOr(Get(x, "earning"), 0);
      var nameOverride :- StringOr(Get(x, "rename"), "");
      var spriteOverride :- IntOr(Get(x, "sprite_override"), -1);
      var target :- ctx.optionalInitial(Get(x, "target"));
      var attributes :- ctx.initialAttributes(Get(x, "attributes"));
      var build :- OptionalArraySpec(Get(x, "build"), RequiredInt);
      Ok(Initial(base, owner.GetOr(-1), at, earning, nameOverride, spriteOverride, target, attributes, build))
  }

  /** The build table: the list followed by -1 up to `n` entries. */
  function Padded(build: seq<int>, n: nat): (r: seq<int>)
    ensures |r| == n
  {
    seq(n, (i: int) requires 0 <= i < n => if i < |build| then build[i] else -1)
  }

  /** The build-list check as written: it also rejects a list that fills
      the table exactly. */
  function BuildTableAsWritten(x: PathValue, build: seq<int>, n: nat): (r: Result<seq<int>>)
    ensures r.Ok? <==> |build| < n
  {
    if |build| >= n then Fail(x, TooManyElements(|build|, n)) else Ok(Padded(build, n))
  }

  /** The build-list check as its message describes it: a list longer
      than the table is rejected; any other list is kept in front and
      followed by -1. */
  function BuildTable(x: PathValue, build: seq<int>, n: nat): (r: Result<seq<int>>)
    ensures r.Ok? <==> |build| <= n
    ensures r.Err? ==> r.error == Error(x.path, TooManyElements(|build|, n))
    ensures r.Ok? ==> |r.value| == n && r.value[..|build|] == build
                      && forall i :: |build| <= i < n ==> r.value[i] == -1
  {
    if |build| > n then Fail(x, TooManyElements(|build|, n))
    else
      var p := Padded(build, n);
      assert p[..|build|] == build;
      Ok(p)
  }

  /** A build list with exactly as many entries as the table has slots
      fits the table, yet the check as written rejects it. */
  lemma FullBuildListRejected(x: PathValue, build: seq<int>)
    ensures BuildTableAsWritten(x, build, |build|).Err?
    ensures BuildTable(x, build, |build|) == Ok(build)
  {
    assert Padded(build, |build|) == build;
  }

  /** initial, with the corrected build-list check. */
  function InitialSpec(x: PathValue, ctx: LevelContext): Result<Initial> {
    var i :- InitialMembers(x, ctx);
    var table :- BuildTable(Get(x, "build"), i.build, ctx.maxBuild);
    Ok(i.(build := table))
  }

  /** The padding loop of initial: slot i takes the list's entry i while
      there is one, and -1 after. */
  method PadBuild(build: seq<int>, n: nat) returns (table: seq<int>)
    ensures table == Padded(build, n)
  {
    var a := new int[n];
    for i := 0 to n
      invariant forall j :: 0 <= j < i ==> a[j] == (if j < |build| then build[j] else -1)
    {
      if i < |build| {
        a[i] := build[i];
      } else {
        a[i] := -1;
      }
    }
    table := a[..];
  }

  method ReadInitial(x: PathValue, ctx: LevelContext) returns (r: Result<Initial>)
    ensures r == InitialSpec(x, ctx)
  {
    var i :- InitialMembers(x, ctx);
    if |i.build| > ctx.maxBuild {
      return Fail(Get(x, "build"), TooManyElements(|i.build|, ctx.maxBuild));
    }
    var table := PadBuild(i.build, ctx.maxBuild);
    return Ok(i.(build := table));
  }

  /** optional_initial_array: a loop over the elements, each read by
      initial, stopping at the first error. */
  method ReadInitials(x: PathValue, ctx: LevelContext) returns (r: Result<seq<Initial>>)
    ensures r == OptionalArraySpec(x, (y: PathValue) => InitialSpec(y, ctx))
  {
    if x.value.Null? {
      return Ok([]);
    } else if !x.value.Array? {
      return Fail(x, MustBeNullOrArray);
    }
    ghost var f := (y: PathValue) => InitialSpec(y, ctx);
    var n := |x.value.items|;
    var result: seq<Initial> := [];
    var i := 0;
    ElementsStart(x, f);
    while i < n
      invariant 0 <= i <= n
      invariant ElementsFrom(x, f, 0) == Prefixed(result, ElementsFrom(x, f, i))
    {
      var e := ReadInitial(GetIndex(x, i), ctx);
      ElementsStep(x, f, i, result);
      if e.Err? {
        return Err(e.error);
      }
      result := result + [e.value];
      i := i + 1;
    }
    ElementsEnd(x, f, result);
    return Ok(result);
  }

  // ---------------------------------------------------------------------
  // Conditions

  /** The type-specific part of a condition. */
  datatype ConditionKind =
    | Autopilot(engaged: bool)
    | Building(building: bool)
    | Computer(screen: int, line: int)
    | Counter(player: int, counter: int, count: int)
    | Destroyed(initial: int, destroyed: bool)
    | Distance(distance: int)
    | Health(health: int)
    | Message(id: int, page: int)
    | Ordered
    | Owner(player: int)
    | Ships(player: int, ships: int)
    | Speed(speed: int)
    | Subject(subject: int)
    | Time(time: int)
    | Zoom(zoom: int)

  datatype Condition =
    | FalseCondition
    | Condition(kind: ConditionKind, op: int, persistent: bool, initiallyEnabled: bool,
                subjectInitial: Option<int>, objectInitial: Option<int>, action: seq<Value>)

  /** The type names condition recognises, in the order it tests them. */
  const ConditionTypes: seq<string> := [
    "autopilot", "building", "computer", "counter", "destroyed", "distance", "false", "health",
    "message", "ordered", "owner", "ships", "speed", "subject", "time", "zoom"]

  /** The per-type readers, chosen by the condition's type name. */
  function ConditionKindSpec(x: PathValue, t: string, ctx: LevelContext): (r: Result<ConditionKind>)
    ensures t !in ConditionTypes ==> r == Err(Error([], UnknownType(t)))
  {
    if t == "autopilot" then
      var v :- RequiredBool(Get(x, "value"));
      Ok(Autopilot(v))
    else if t == "building" then
      var v :- RequiredBool(Get(x, "value"));
      Ok(Building(v))
    else if t == "computer" then
      var screen :- ctx.screen(Get(x, "screen"));
      var line :- IntOr(Get(x, "line"), -1);
      Ok(Computer(screen, line))
    else if t == "counter" then
      var player :- ctx.admiral(Get(x, "player"));
      var counter :- RequiredInt(Get(x, "counter"));
      var v :- RequiredInt(Get(x, "value"));
      Ok(Counter(player, counter, v))
    else if t == "destroyed" then
      var initial :- ctx.initial(Get(x, "initial"));
      var v :- RequiredBool(Get(x, "value"));
      Ok(Destroyed(initial, v))
    else if t == "distance" then
      var v :- RequiredInt(Get(x, "value"));
      Ok(Distance(v))
    else if t == "health" then
      var v :- RequiredNumber(Get(x, "value"));
      Ok(Health(v))
    else if t == "message" then
      var id :- RequiredInt(Get(x, "id"));
      var page :- RequiredInt(Get(x, "page"));
      Ok(Message(id, page))
    else if t == "ordered" then
      Ok(Ordered)
    else if t == "owner" then
      var player :- ctx.admiral(Get(x, "player"));
      Ok(Owner(player))
    else if t == "ships" then
      var player :- ctx.admiral(Get(x, "player"));
      var v :- RequiredInt(Get(x, "value"));
      Ok(Ships(player, v))
    else if t == "speed" then
      var v :- RequiredFixed(Get(x, "value"));
      Ok(Speed(v))
    else if t == "subject" then
      var v :- ctx.subjectValue(Get(x, "value"));
      Ok(Subject(v))
    else if t == "time" then
      var v :- RequiredTicks(Get(x, "value"));
      Ok(Time(v))
    else if t == "zoom" then
      var v :- ctx.zoom(Get(x, "value"));
      Ok(Zoom(v))
    else
      Err(Error([], UnknownType(t)))
  }

  /** condition: the type is read first; "false" returns before any other
      member is read; every other known type then reads the common
      members, of which op and action are required. */
  function ConditionSpec(x: PathValue, ctx: LevelContext): (r: Result<Condition>)
    ensures !x.value.Map? ==> r == Fail(x, MustBeMap)
    ensures x.value.Map? && Get(x, "type").value == Str("false") ==> r == Ok(FalseCondition)
    ensures x.value.Map? && Get(x, "type").value.Str? && Get(x, "type").value.s !in ConditionTypes ==>
              r == Err(Error([], UnknownType(Get(x, "type").value.s)))
    ensures r.Ok? && r.value.Condition? ==>
              ctx.conditionOp(Get(x, "op")) == Ok(r.value.op)
              && Get(x, "action").value.Array?
              && (r.value.initiallyEnabled <==> Get(x, "initially_disabled").value != Bool(true))
  {
    if !x.value.Map? then Fail(x, MustBeMap)
    else
      var t :- RequiredString(Get(x, "type"));
      if t == "false" then Ok(FalseCondition)
      else
        var kind :- ConditionKindSpec(x, t, ctx);
        var op :- ctx.conditionOp(Get(x, "op"));
        var persistent :- BoolOr(Get(x, "persistent"), false);
        var disabled :- BoolOr(Get(x, "initially_disabled"), false);
        var subject :- ctx.optionalInitial(Get(x, "subject"));
        var objectInitial :- ctx.optionalInitial(Get(x, "object"));
        var action :- RequiredArraySpec(Get(x, "action"), RawAction);
        Ok(Condition(kind, op, persistent, !disabled, subject, objectInitial, action))
  }

  /** optional_condition_array. */
  method ReadConditions(x: PathValue, ctx: LevelContext) returns (r: Result<seq<Condition>>)
    ensures r == OptionalArraySpec(x, (y: PathValue) => ConditionSpec(y, ctx))
  {
    r := OptionalArray(x, (y: PathValue) => ConditionSpec(y, ctx));
  }

  // ---------------------------------------------------------------------
  // Briefings

  datatype Briefing = Briefing(objectInitial: Option<int>, title: string, content: string)

  const NoBriefing := Briefing(None, "", "")

  /** The briefing table, in key order. */
  function BriefingFields(ctx: LevelContext): seq<(string, Field<Briefing>)> {
    [("content", Member(RequiredString, (b: Briefing, v: string) => b.(content := v))),
     ("object", Member(ctx.optionalInitial, (b: Briefing, v: Option<int>) => b.(objectInitial := v))),
     ("title", Member(RequiredString, (b: Briefing, v: string) => b.(title := v)))]
  }

  function BriefingSpec(x: PathValue, ctx: LevelContext): Result<Briefing> {
    StructSpec(x, BriefingFields(ctx), NoBriefing)
  }

  /** The briefing read member by member in key order. */
  function BriefingMembers(x: PathValue, ctx: LevelContext): Result<Briefing> {
    var content :- RequiredString(Get(x, "content"));
    var objectInitial :- ctx.optionalInitial(Get(x, "object"));
    var title :- RequiredString(Get(x, "title"));
    Ok(Briefing(objectInitial, title, content))
  }

  lemma BriefingTableMeaning(x: PathValue, ctx: LevelContext)
    ensures ApplyFields(x, BriefingFields(ctx), NoBriefing) == BriefingMembers(x, ctx)
  {
    var fs := BriefingFields(ctx);
    var r1 := ApplyField(x, fs[0], NoBriefing);
    assert ApplyFields(x, fs, NoBriefing)
           == (if r1.Err? then Err(r1.error) else ApplyFields(x, fs[1..], r1.value));
    if r1.Ok? {
      var r2 := ApplyField(x, fs[1], r1.value);
      assert fs[1..][0] == fs[1] && fs[1..][1..] == fs[2..];
      assert ApplyFields(x, fs[1..], r1.value)
             == (if r2.Err? then Err(r2.error) else ApplyFields(x, fs[2..], r2.value));
      if r2.Ok? {
        var r3 := ApplyField(x, fs[2], r2.value);
        assert fs[2..][0] == fs[2] && fs[2..][1..] == [];
        assert ApplyFields(x, fs[2..], r2.value)
               == (if r3.Err? then Err(r3.error) else ApplyFields(x, [], r3.value));
      }
    }
  }

  /** A briefing read successfully has its title and content from the
      input, has no object when none is named, and names no member
      outside content, object and title. */
  lemma BriefingMeaning(x: PathValue, ctx: LevelContext, b: Briefing)
    requires BriefingSpec(x, ctx) == Ok(b)
    ensures Get(x, "title").value == Str(b.title) && Get(x, "content").value == Str(b.content)
    ensures ctx.optionalInitial(Get(x, "object")) == Ok(b.objectInitial)
    ensures forall k :: k in Keys(x.value.entries) ==> k in ["content", "object", "title"]
  {
    BriefingTableMeaning(x, ctx);
    assert TableKeys(BriefingFields(ctx)) == ["content", "object", "title"];
  }

  /** optional_briefing_array. */
  method ReadBriefings(x: PathValue, ctx: LevelContext) returns (r: Result<seq<Briefing>>)
    ensures r == OptionalArraySpec(x, (y: PathValue) => BriefingSpec(y, ctx))
  {
    r := OptionalArray(x, (y: PathValue) => BriefingSpec(y, ctx));
  }

  // ---------------------------------------------------------------------
  // Levels

  datatype Settings = Settings(
    starMap: Point, songId: int, scoreStrings: seq<string>, startTime: int, isTraining: bool,
    angle: int, parTime: int, parKills: int, parLosses: int)

  datatype Texts = Texts(
    ownNoShips: string, foeNoShips: string, description: string, prologue: string, epilogue: string)

  datatype Level = Level(
    levelType: LevelType, chapter: int, name: string, players: seq<Player>, initials: seq<Initial>,
    conditions: seq<Condition>, briefings: seq<Briefing>, settings: Settings, texts: Texts)

  /** The members read after the briefings, up to the type switch. */
  function SettingsSpec(x: PathValue, ctx: LevelContext): (r: Result<Settings>)
    ensures r.Ok? ==>
              (Get(x, "starmap").value.Null? ==> r.value.starMap == Point(0, 0))
              && (Get(x, "is_training").value.Null? ==> !r.value.isTraining)
              && (Get(x, "angle").value.Null? ==> r.value.angle == -1)
              && (Get(x, "par_kills").value.Null? ==> r.value.parKills == 0)
              && (Get(x, "par_losses").value.Null? ==> r.value.parLosses == 0)
              && RequiredInt(Get(x, "song")) == Ok(r.value.songId)
  {
    var starMap :- OptionalPoint(Get(x, "starmap"));
    var songId :- RequiredInt(Get(x, "song"));
    var scoreStrings :- OptionalArraySpec(Get(x, "score"), RequiredString);
    var startTime :- ctx.optionalSecs(Get(x, "start_time"));
    var isTraining :- BoolOr(Get(x, "is_training"), false);
    var angle :- IntOr(Get(x, "angle"), -1);
    var parTime :- ctx.optionalSecs(Get(x, "par_time"));
    var parKills :- IntOr(Get(x, "par_kills"), 0);
    var parLosses :- IntOr(Get(x, "par_losses"), 0);
    Ok(Settings(starMap.GetOr(Point(0, 0)), songId, scoreStrings, startTime.GetOr(0), isTraining,
                angle, ctx.secsToTicks(parTime.GetOr(0)), parKills, parLosses))
  }

  /** The texts each level type reads: none for a demo, three optional ones
      for a solo level, three required ones for a net level. */
  function TextsSpec(x: PathValue, t: LevelType): (r: Result<Texts>)
    ensures r.Ok? && t == Demo ==> r.value == Texts("", "", "", "", "")
    ensures r.Ok? && t == Net ==>
              Get(x, "own_no_ships").value == Str(r.value.ownNoShips)
              && Get(x, "foe_no_ships").value == Str(r.value.foeNoShips)
              && Get(x, "description").value == Str(r.value.description)
              && r.value.prologue == "" && r.value.epilogue == ""
    ensures t == Net && !Get(x, "own_no_ships").value.Str? ==> r == Fail(Get(x, "own_no_ships"), MustBeString)
    ensures r.Ok? && t == Solo ==> r.value.foeNoShips == "" && r.value.description == ""
  {
    match t
    case Demo => Ok(Texts("", "", "", "", ""))
    case Solo =>
      var own :- StringOr(Get(x, "no_ships"), "");
      var prologue :- StringOr(Get(x, "prologue"), "");
      var epilogue :- StringOr(Get(x, "epilogue"), "");
      Ok(Texts(own, "", "", prologue, epilogue))
    case Net =>
      var own :- RequiredString(Get(x, "own_no_ships"));
      var foe :- RequiredString(Get(x, "foe_no_ships"));
      var description :- RequiredString(Get(x, "description"));
      Ok(Texts(own, foe, description, "", ""))
  }

  /** level: the whole definition of one chapter, member by member in the
      order of the source. */
  function LevelSpec(x0: Value, ctx: LevelContext): (r: Result<Level>)
    ensures !x0.Map? ==> r == Err(Error([], MustBeMap))
    ensures r.Ok? ==> ctx.levelType(Get(Root(x0), "type")) == Ok(r.value.levelType)
    ensures r.Ok? ==> SettingsSpec(Root(x0), ctx) == Ok(r.value.settings)
    ensures r.Ok? ==> TextsSpec(Root(x0), r.value.levelType) == Ok(r.value.texts)
    ensures r.Ok? ==>
              RequiredArraySpec(Get(Root(x0), "players"), (y: PathValue) => PlayerSpec(y, r.value.levelType, ctx))
              == Ok(r.value.players)
  {
    if !x0.Map? then Err(Error([], MustBeMap))
    else
      var x := Root(x0);
      var t :- ctx.levelType(Get(x, "type"));
      var chapter :- RequiredInt(Get(x, "chapter"));
      var name :- RequiredString(Get(x, "title"));
      var players :- RequiredArraySpec(Get(x, "players"), (y: PathValue) => PlayerSpec(y, t, ctx));
      var initials :- OptionalArraySpec(Get(x, "initials"), (y: PathValue) => InitialSpec(y, ctx));
      var conditions :- OptionalArraySpec(Get(x, "conditions"), (y: PathValue) => ConditionSpec(y, ctx));
      var briefings :- OptionalArraySpec(Get(x, "briefings"), (y: PathValue) => BriefingSpec(y, ctx));
      var settings :- SettingsSpec(x, ctx);
      var texts :- TextsSpec(x, t);
      Ok(Level(t, chapter, name, players, initials, conditions, briefings, settings, texts))
  }

  method ReadLevel(x0: Value, ctx: LevelContext) returns (r: Result<Level>)
    ensures r == LevelSpec(x0, ctx)
  {
    if !x0.Map? {
      return Err(Error([], MustBeMap));
    }
    var x := Root(x0);
    var t :- ctx.levelType(Get(x, "type"));
    var chapter :- RequiredInt(Get(x, "chapter"));
    var name :- RequiredString(Get(x, "title"));
    var players :- ReadPlayers(Get(x, "players"), t, ctx);
    var initials :- ReadInitials(Get(x, "initials"), ctx);
    var conditions :- ReadConditions(Get(x, "conditions"), ctx);
    var briefings :- ReadBriefings(Get(x, "briefings"), ctx);
    var settings :- SettingsSpec(x, ctx);
    var texts :- TextsSpec(x, t);
    return Ok(Level(t, chapter, name, players, initials, conditions, briefings, settings, texts));
  }
}
