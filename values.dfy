/** The parsed data tree that every loader reads, the path-carrying view of
    one node in it, and the error result that loaders raise instead of
    throwing. */
module Values {

  datatype Option<+T> = None | Some(value: T) {
    function GetOr(default: T): T {
      match this
      case Some(v) => v
      case None => default
    }
  }

  /** One node of the parsed tree. A map keeps its entries in input order;
      lookups take the first entry with the key. */
  datatype Value =
    | Null
    | Bool(b: bool)
    | Int(i: int)
    | Str(s: string)
    | Array(items: seq<Value>)
    | Map(entries: seq<Entry>)

  datatype Entry = Entry(key: string, val: Value)

  /** The value stored under `key`, or Null when the node is not a map or
      has no such key. */
  function LookupKey(v: Value, key: string): Value {
    if v.Map? then LookupEntries(v.entries, key) else Null
  }

  function LookupEntries(es: seq<Entry>, key: string): Value {
    if es == [] then Null
    else if es[0].key == key then es[0].val
    else LookupEntries(es[1..], key)
  }

  /** The element at `index`, or Null when the node is not an array or the
      index is out of range. */
  function LookupIndex(v: Value, index: int): Value {
    if v.Array? && 0 <= index < |v.items| then v.items[index] else Null
  }

  function Keys(es: seq<Entry>): seq<string> {
    if es == [] then [] else [es[0].key] + Keys(es[1..])
  }

  datatype Segment = KeySeg(key: string) | IndexSeg(index: int)

  /** A node together with the route by which it was reached from the
      root. The parent link, kind, key and index that the source keeps
      are only ever used to render this route, so the route stands for
      them. */
  datatype PathValue = PathValue(path: seq<Segment>, value: Value)

  function Root(v: Value): PathValue {
    PathValue([], v)
  }

  function Get(x: PathValue, key: string): PathValue {
    PathValue(x.path + [KeySeg(key)], LookupKey(x.value, key))
  }

  function GetIndex(x: PathValue, index: int): PathValue {
    PathValue(x.path + [IndexSeg(index)], LookupIndex(x.value, index))
  }

  /** Navigation of the raw tree along a route, from the root down. */
  function Follow(v: Value, path: seq<Segment>): Value
    decreases |path|
  {
    if path == [] then v
    else Follow(Step(v, path[0]), path[1..])
  }

  function Step(v: Value, s: Segment): Value {
    match s
    case KeySeg(k) => LookupKey(v, k)
    case IndexSeg(i) => LookupIndex(v, i)
  }

  /** `x` is the node that its route names in the tree `root`. */
  ghost predicate Reached(root: Value, x: PathValue) {
    Follow(root, x.path) == x.value
  }

  lemma {:induction false} FollowAppend(v: Value, path: seq<Segment>, s: Segment)
    ensures Follow(v, path + [s]) == Step(Follow(v, path), s)
    decreases |path|
  {
    if path == [] {
      assert Follow(Step(v, s), []) == Step(v, s);
    } else {
      assert (path + [s])[0] == path[0];
      assert (path + [s])[1..] == path[1..] + [s];
      FollowAppend(Step(v, path[0]), path[1..], s);
    }
  }

  /** The routes that Get and GetIndex record lead back to the nodes they
      return: starting from the root, every child keeps naming itself. */
  lemma {:induction false} ChildrenStayReached(root: Value, x: PathValue, key: string, index: int)
    requires Reached(root, x)
    ensures Reached(root, Get(x, key))
    ensures Reached(root, GetIndex(x, index))
  {
    FollowAppend(root, x.path, KeySeg(key));
    FollowAppend(root, x.path, IndexSeg(index));
  }

  /** Why a loader rejected its input. */
  datatype Reason =
    | MustBeMap
    | MustBeNullOrMap
    | MustBeArray
    | MustBeNullOrArray
    | MustBeOneOf(names: seq<string>)
    | UnknownField
    | UnknownType(name: string)
    | TooManyElements(count: int, max: int)
    | MustBeBool
    | MustBeNullOrBool
    | MustBeInt
    | MustBeNullOrInt
    | MustBeInRange(ranges: seq<int>)
    | MustBeString
    | MustBeNullOrString

  /** A thrown loader error: the path of the offending node and the reason. */
  datatype Error = Error(path: seq<Segment>, reason: Reason)

  datatype Result<+T> = Ok(value: T) | Err(error: Error) {
    predicate IsFailure() { Err? }

    function PropagateFailure<U>(): Result<U>
      requires Err?
    {
      Err(error)
    }

    function Extract(): T
      requires Ok?
    {
      value
    }
  }

  function Fail<T>(x: PathValue, reason: Reason): Result<T> {
    Err(Error(x.path, reason))
  }
}
