/** Readers for primitive fields (booleans, integers, fixed-point numbers,
    strings, ticks, handles, ranges, points, colours). Only their
    declarations are in include/data/field.hpp; each is given the simplest
    behaviour that fits its declaration: Null is "absent" for the optional
    form, a node of the right kind is read, anything else is an error at
    the node's path. */
module Readers {
  import opened Values

  function OptionalBool(x: PathValue): Result<Option<bool>> {
    match x.value
    case Null => Ok(None)
    case Bool(b) => Ok(Some(b))
    case _ => Fail(x, MustBeNullOrBool)
  }

  function RequiredBool(x: PathValue): Result<bool> {
    if x.value.Bool? then Ok(x.value.b) else Fail(x, MustBeBool)
  }

  function OptionalInt(x: PathValue): Result<Option<int>> {
    match x.value
    case Null => Ok(None)
    case Int(i) => Ok(Some(i))
    case _ => Fail(x, MustBeNullOrInt)
  }

  function RequiredInt(x: PathValue): Result<int> {
    if x.value.Int? then Ok(x.value.i) else Fail(x, MustBeInt)
  }

  /** `ranges` lists half-open intervals as consecutive pairs begin, end. */
  function InRanges(v: int, ranges: seq<int>): bool
    decreases |ranges|
  {
    if |ranges| < 2 then false
    else (ranges[0] <= v < ranges[1]) || InRanges(v, ranges[2..])
  }

  function OptionalIntIn(x: PathValue, ranges: seq<int>): Result<Option<int>> {
    var i :- OptionalInt(x);
    if i.Some? && !InRanges(i.value, ranges) then Fail(x, MustBeInRange(ranges)) else Ok(i)
  }

  function RequiredIntIn(x: PathValue, ranges: seq<int>): Result<int> {
    var i :- RequiredInt(x);
    if InRanges(i, ranges) then Ok(i) else Fail(x, MustBeInRange(ranges))
  }

  /** Fixed-point fields: the node holds the raw value of the number. */
  function OptionalFixed(x: PathValue): Result<Option<int>> {
    OptionalInt(x)
  }

  function RequiredFixed(x: PathValue): Result<int> {
    RequiredInt(x)
  }

  /** Durations: the node holds a count of ticks. */
  function OptionalTicks(x: PathValue): Result<Option<int>> {
    OptionalInt(x)
  }

  function RequiredTicks(x: PathValue): Result<int> {
    RequiredInt(x)
  }

  /** A floating-point field, read here from an integer node only. */
  function RequiredNumber(x: PathValue): Result<int> {
    RequiredInt(x)
  }

  function OptionalString(x: PathValue): Result<Option<string>> {
    match x.value
    case Null => Ok(None)
    case Str(s) => Ok(Some(s))
    case _ => Fail(x, MustBeNullOrString)
  }

  function RequiredString(x: PathValue): Result<string> {
    if x.value.Str? then Ok(x.value.s) else Fail(x, MustBeString)
  }

  /** A handle to a base object, race, admiral or initial, by number. */
  function RequiredHandle(x: PathValue): Result<int> {
    RequiredInt(x)
  }

  function OptionalHandle(x: PathValue): Result<Option<int>> {
    OptionalInt(x)
  }

  function OptionalColor(x: PathValue): Result<Option<int>> {
    OptionalInt(x)
  }

  datatype Range = Range(begin: int, end: int)

  function RequiredRange(x: PathValue): Result<Range> {
    if !x.value.Map? then Fail(x, MustBeMap)
    else
      var b :- RequiredInt(Get(x, "begin"));
      var e :- RequiredInt(Get(x, "end"));
      Ok(Range(b, e))
  }

  function OptionalRange(x: PathValue): Result<Option<Range>> {
    if x.value.Null? then Ok(None)
    else if x.value.Map? then
      var r :- RequiredRange(x);
      Ok(Some(r))
    else Fail(x, MustBeNullOrMap)
  }

  datatype Point = Point(h: int, v: int)

  function RequiredPoint(x: PathValue): Result<Point> {
    if !x.value.Map? then Fail(x, MustBeMap)
    else
      var h :- RequiredInt(Get(x, "x"));
      var v :- RequiredInt(Get(x, "y"));
      Ok(Point(h, v))
  }

  function OptionalPoint(x: PathValue): Result<Option<Point>> {
    if x.value.Null? then Ok(None)
    else
      var p :- RequiredPoint(x);
      Ok(Some(p))
  }

  /** One action of an action list, kept as its raw node: decoding the
      actions themselves is done by code that is not part of this model. */
  function RawAction(x: PathValue): Result<Value> {
    Ok(x.value)
  }

  // Optional readers with the fallback their callers pass to value_or.

  function IntOr(x: PathValue, default: int): Result<int> {
    var v :- OptionalInt(x);
    Ok(v.GetOr(default))
  }

  function FixedOr(x: PathValue, default: int): Result<int> {
    var v :- OptionalFixed(x);
    Ok(v.GetOr(default))
  }

  function StringOr(x: PathValue, default: string): Result<string> {
    var v :- OptionalString(x);
    Ok(v.GetOr(default))
  }

  function RangeOr(x: PathValue, default: Range): Result<Range> {
    var v :- OptionalRange(x);
    Ok(v.GetOr(default))
  }

  function BoolOr(x: PathValue, default: bool): Result<bool> {
    var v :- OptionalBool(x);
    Ok(v.GetOr(default))
  }
}
