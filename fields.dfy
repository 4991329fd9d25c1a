/** The generic field-binding layer: enum readers over name tables, the
    object-type dispatch, the struct reader that drives a table of field
    setters, and the array readers. */
module Fields {
  import opened Values

  // ---------------------------------------------------------------------
  // Enums

  /** Position of the first table entry named `s`. */
  function FindName<T>(table: seq<(string, T)>, s: string): (r: Option<nat>)
    ensures r.Some? ==> r.value < |table| && table[r.value].0 == s
    ensures r.Some? ==> forall j :: 0 <= j < r.value ==> table[j].0 != s
    ensures r.None? ==> forall j :: 0 <= j < |table| ==> table[j].0 != s
    decreases |table|
  {
    if table == [] then None
    else if table[0].0 == s then Some(0)
    else
      match FindName(table[1..], s)
      case None => None
      case Some(k) => Some(k + 1)
  }

  function Names<T>(table: seq<(string, T)>): (r: seq<string>)
    ensures |r| == |table|
    ensures forall j :: 0 <= j < |table| ==> r[j] == table[j].0
  {
    if table == [] then [] else [table[0].0] + Names(table[1..])
  }

  /** optional_enum: Null is absent; a string yields the value of the
      first entry with that name; anything else fails listing the names. */
  function OptionalEnum<T>(x: PathValue, table: seq<(string, T)>): (r: Result<Option<T>>)
    ensures x.value.Null? <==> r == Ok(None)
    ensures r.Ok? && r.value.Some? ==>
              exists k :: 0 <= k < |table| && x.value == Str(table[k].0) && r.value.value == table[k].1
                          && forall j :: 0 <= j < k ==> table[j].0 != table[k].0
    ensures r.Err? <==> !x.value.Null? && !(x.value.Str? && x.value.s in Names(table))
    ensures r.Err? ==> r.error == Error(x.path, MustBeOneOf(Names(table)))
  {
    if x.value.Null? then Ok(None)
    else if x.value.Str? && FindName(table, x.value.s).Some? then
      Ok(Some(table[FindName(table, x.value.s).value].1))
    else Fail(x, MustBeOneOf(Names(table)))
  }

  /** required_enum: as optional_enum, but Null is an error too. */
  function RequiredEnum<T>(x: PathValue, table: seq<(string, T)>): (r: Result<T>)
    ensures r.Ok? ==>
              exists k :: 0 <= k < |table| && x.value == Str(table[k].0) && r.value == table[k].1
                          && forall j :: 0 <= j < k ==> table[j].0 != table[k].0
    ensures r.Err? <==> !(x.value.Str? && x.value.s in Names(table))
    ensures r.Err? ==> r.error == Error(x.path, MustBeOneOf(Names(table)))
  {
    if x.value.Str? && FindName(table, x.value.s).Some? then
      Ok(table[FindName(table, x.value.s).value].1)
    else Fail(x, MustBeOneOf(Names(table)))
  }

  ghost predicate DistinctNames<T>(table: seq<(string, T)>) {
    forall i, j :: 0 <= i < j < |table| ==> table[i].0 != table[j].0
  }

  /** Reading back the name of any entry of a table without repeated
      names gives that entry's value. */
  lemma EnumNameRoundTrip<T>(x: PathValue, table: seq<(string, T)>, k: nat)
    requires DistinctNames(table) && k < |table| && x.value == Str(table[k].0)
    ensures RequiredEnum(x, table) == Ok(table[k].1)
    ensures OptionalEnum(x, table) == Ok(Some(table[k].1))
  {
    var f := FindName(table, table[k].0);
    assert f.Some? by { assert Names(table)[k] == table[k].0; }
    assert f.value == k;
  }

  /** required_object_type: a map is dispatched on its "type" member. */
  function RequiredObjectType<T>(x: PathValue, getType: PathValue -> Result<T>): (r: Result<T>)
    ensures !x.value.Map? ==> r == Fail(x, MustBeMap)
    ensures x.value.Map? ==> r == getType(Get(x, "type"))
  {
    if !x.value.Map? then Fail(x, MustBeMap) else getType(Get(x, "type"))
  }

  // ---------------------------------------------------------------------
  // Struct binding

  /** One entry of a field table: either a key that is accepted and not
      read (`field(nullptr)`), or a setter that reads the member's node and
      stores the value into the struct being built. */
  datatype Field<!T> = Ignored | Setter(apply: (T, PathValue) -> Result<T>)

  /** A member stored with its reader (the two-argument `field` form, and
      the one-argument form with the member type's default reader). */
  function Member<T, F>(read: PathValue -> Result<F>, store: (T, F) -> T): Field<T> {
    Setter((t: T, x: PathValue) => var v :- read(x); Ok(store(t, v)))
  }

  /** A member read by an optional reader and stored with a fallback when
      the node is absent (the three-argument form used by the loaders). */
  function Defaulted<T, F>(read: PathValue -> Result<Option<F>>, default: F, store: (T, F) -> T): Field<T> {
    Setter((t: T, x: PathValue) => var v :- read(x); Ok(store(t, v.GetOr(default))))
  }

  function TableKeys<T>(table: seq<(string, Field<T>)>): (r: seq<string>)
    ensures |r| == |table|
    ensures forall j :: 0 <= j < |table| ==> r[j] == table[j].0
  {
    if table == [] then [] else [table[0].0] + TableKeys(table[1..])
  }

  /** Runs the setters in table order, each on the member its key names. */
  function ApplyFields<T>(x: PathValue, table: seq<(string, Field<T>)>, t: T): Result<T>
    decreases |table|
  {
    if table == [] then Ok(t)
    else
      var t' :- ApplyField(x, table[0], t);
      ApplyFields(x, table[1..], t')
  }

  function ApplyField<T>(x: PathValue, entry: (string, Field<T>), t: T): Result<T> {
    match entry.1
    case Ignored => Ok(t)
    case Setter(f) => f(t, Get(x, entry.0))
  }

  /** The first input key, in input order, that the table does not know. */
  function FirstUnknown(es: seq<Entry>, known: seq<string>): (r: Option<string>)
    ensures r.Some? ==> r.value !in known && r.value in Keys(es)
    ensures r.Some? ==> exists i :: 0 <= i < |es| && es[i].key == r.value && forall j :: 0 <= j < i ==> es[j].key in known
    ensures r.None? <==> forall k :: k in Keys(es) ==> k in known
    decreases |es|
  {
    if es == [] then None
    else if es[0].key !in known then Some(es[0].key)
    else
      var r := FirstUnknown(es[1..], known);
      assert r.Some? ==> exists i :: 0 < i < |es| && es[i].key == r.value && forall j :: 0 <= j < i ==> es[j].key in known by {
        if r.Some? {
          var i :| 0 <= i < |es[1..]| && es[1..][i].key == r.value && forall j :: 0 <= j < i ==> es[1..][j].key in known;
          assert es[i + 1].key == r.value;
          forall j | 0 <= j < i + 1 ensures es[j].key in known {
            if j > 0 { assert es[j] == es[1..][j - 1]; }
          }
        }
      }
      r
  }

  /** required_struct: start from the default struct, run every setter of
      the table, then reject the first input key the table does not know. */
  function StructSpec<T>(x: PathValue, table: seq<(string, Field<T>)>, init: T): Result<T> {
    if !x.value.Map? then Fail(x, MustBeMap)
    else
      var t :- ApplyFields(x, table, init);
      match FirstUnknown(x.value.entries, TableKeys(table))
      case Some(k) => Fail(Get(x, k), UnknownField)
      case None => Ok(t)
  }

  function OptionalStructSpec<T>(x: PathValue, table: seq<(string, Field<T>)>, init: T): Result<Option<T>> {
    if x.value.Null? then Ok(None)
    else if x.value.Map? then
      var t :- StructSpec(x, table, init);
      Ok(Some(t))
    else Fail(x, MustBeNullOrMap)
  }

  method RequiredStruct<T>(x: PathValue, table: seq<(string, Field<T>)>, init: T) returns (r: Result<T>)
    ensures r == StructSpec(x, table, init)
  {
    if !x.value.Map? {
      return Fail(x, MustBeMap);
    }
    var t := init;
    var i := 0;
    while i < |table|
      invariant 0 <= i <= |table|
      invariant ApplyFields(x, table, init) == ApplyFields(x, table[i..], t)
    {
      assert table[i..][1..] == table[i + 1..];
      var step := ApplyField(x, table[i], t);
      if step.Err? {
        return Err(step.error);
      }
      t := step.value;
      i := i + 1;
    }
    var known := TableKeys(table);
    var es := x.value.entries;
    var j := 0;
    while j < |es|
      invariant 0 <= j <= |es|
      invariant FirstUnknown(es, known) == FirstUnknown(es[j..], known)
    {
      assert es[j..][1..] == es[j + 1..];
      if es[j].key !in known {
        return Fail(Get(x, es[j].key), UnknownField);
      }
      j := j + 1;
    }
    return Ok(t);
  }

  method OptionalStruct<T>(x: PathValue, table: seq<(string, Field<T>)>, init: T) returns (r: Result<Option<T>>)
    ensures r == OptionalStructSpec(x, table, init)
  {
    if x.value.Null? {
      return Ok(None);
    } else if x.value.Map? {
      var t := RequiredStruct(x, table, init);
      if t.Err? {
        return Err(t.error);
      }
      return Ok(Some(t.value));
    } else {
      return Fail(x, MustBeNullOrMap);
    }
  }

  lemma {:induction false} LookupAppendOther(es: seq<Entry>, e: Entry, key: string)
    requires key != e.key
    ensures LookupEntries(es + [e], key) == LookupEntries(es, key)
    decreases |es|
  {
    if es == [] {
      assert LookupEntries([e], key) == LookupEntries([e][1..], key);
    } else {
      assert (es + [e])[0] == es[0];
      assert (es + [e])[1..] == es[1..] + [e];
      LookupAppendOther(es[1..], e, key);
    }
  }

  lemma {:induction false} KeysAppend(es: seq<Entry>, e: Entry)
    ensures Keys(es + [e]) == Keys(es) + [e.key]
    decreases |es|
  {
    if es == [] {
      assert Keys([e]) == [e.key] + Keys([e][1..]);
    } else {
      assert (es + [e])[0] == es[0];
      assert (es + [e])[1..] == es[1..] + [e];
      KeysAppend(es[1..], e);
    }
  }

  /** Two nodes at the same path that agree on every member the table
      names give the same result when the table's setters are run. */
  lemma {:induction false} ApplyFieldsAgree<T>(x1: PathValue, x2: PathValue, table: seq<(string, Field<T>)>, t: T)
    requires x1.path == x2.path
    requires forall k :: k in TableKeys(table) ==> LookupKey(x1.value, k) == LookupKey(x2.value, k)
    ensures ApplyFields(x1, table, t) == ApplyFields(x2, table, t)
    decreases |table|
  {
    if table != [] {
      assert TableKeys(table)[0] == table[0].0;
      assert Get(x1, table[0].0) == Get(x2, table[0].0);
      assert ApplyField(x1, table[0], t) == ApplyField(x2, table[0], t);
      var s := ApplyField(x1, table[0], t);
      if s.Ok? {
        forall k | k in TableKeys(table[1..])
          ensures LookupKey(x1.value, k) == LookupKey(x2.value, k)
        {
          assert TableKeys(table) == [table[0].0] + TableKeys(table[1..]);
        }
        ApplyFieldsAgree(x1, x2, table[1..], s.value);
      }
    }
  }

  /** Setters run in table order, not input order: two inputs at the same
      path that hold the same members, all of them known to the table, are
      read to the same struct however their entries are ordered. */
  lemma StructIgnoresInputOrder<T>(x1: PathValue, x2: PathValue, table: seq<(string, Field<T>)>, init: T)
    requires x1.path == x2.path && x1.value.Map? && x2.value.Map?
    requires forall k :: k in TableKeys(table) ==> LookupKey(x1.value, k) == LookupKey(x2.value, k)
    requires forall k :: k in Keys(x1.value.entries) ==> k in TableKeys(table)
    requires forall k :: k in Keys(x2.value.entries) ==> k in TableKeys(table)
    ensures StructSpec(x1, table, init) == StructSpec(x2, table, init)
  {
    ApplyFieldsAgree(x1, x2, table, init);
  }

  /** Adding a member the table does not know to an input that reads
      successfully makes the read fail, at the path of that member. */
  lemma UnknownMemberRejected<T>(x: PathValue, table: seq<(string, Field<T>)>, init: T, e: Entry)
    requires x.value.Map? && StructSpec(x, table, init).Ok?
    requires e.key !in TableKeys(table) && e.key !in Keys(x.value.entries)
    ensures var x' := PathValue(x.path, Map(x.value.entries + [e]));
            StructSpec(x', table, init) == Fail(Get(x', e.key), UnknownField)
  {
    var x' := PathValue(x.path, Map(x.value.entries + [e]));
    forall k | k in TableKeys(table)
      ensures LookupKey(x.value, k) == LookupKey(x'.value, k)
    {
      LookupAppendOther(x.value.entries, e, k);
    }
    ApplyFieldsAgree(x, x', table, init);
    KeysAppend(x.value.entries, e);
    FirstUnknownAppend(x.value.entries, e.key, e, TableKeys(table));
  }

  lemma {:induction false} FirstUnknownAppend(es: seq<Entry>, k: string, e: Entry, known: seq<string>)
    requires e.key == k && k !in known
    requires forall j :: j in Keys(es) ==> j in known
    ensures FirstUnknown(es + [e], known) == Some(k)
    decreases |es|
  {
    if es == [] {
      assert ([] + [e]) == [e];
    } else {
      assert Keys(es)[0] == es[0].key;
      assert (es + [e])[0] == es[0];
      assert (es + [e])[1..] == es[1..] + [e];
      forall j | j in Keys(es[1..]) ensures j in known {
        assert Keys(es) == [es[0].key] + Keys(es[1..]);
      }
      FirstUnknownAppend(es[1..], k, e, known);
    }
  }

  // ---------------------------------------------------------------------
  // Arrays

  /** Reads elements `i..` of an array node, stopping at the first error. */
  function ElementsFrom<T>(x: PathValue, f: PathValue -> Result<T>, i: nat): Result<seq<T>>
    requires x.value.Array? && i <= |x.value.items|
    decreases |x.value.items| - i
  {
    if i == |x.value.items| then Ok([])
    else
      var head :- f(GetIndex(x, i));
      var rest :- ElementsFrom(x, f, i + 1);
      Ok([head] + rest)
  }

  function RequiredArraySpec<T>(x: PathValue, f: PathValue -> Result<T>): Result<seq<T>> {
    if x.value.Array? then ElementsFrom(x, f, 0) else Fail(x, MustBeArray)
  }

  function OptionalArraySpec<T>(x: PathValue, f: PathValue -> Result<T>): Result<seq<T>> {
    if x.value.Null? then Ok([])
    else if x.value.Array? then ElementsFrom(x, f, 0)
    else Fail(x, MustBeNullOrArray)
  }

  function Prefixed<T>(done: seq<T>, r: Result<seq<T>>): Result<seq<T>> {
    if r.Err? then r else Ok(done + r.value)
  }

  lemma ElementsStart<T>(x: PathValue, f: PathValue -> Result<T>)
    requires x.value.Array?
    ensures ElementsFrom(x, f, 0) == Prefixed([], ElementsFrom(x, f, 0))
  {
    assert ElementsFrom(x, f, 0).Ok? ==> [] + ElementsFrom(x, f, 0).value == ElementsFrom(x, f, 0).value;
  }

  /** One step of an element loop: a failing element ends the read with
      its error; otherwise it joins the elements read so far. */
  lemma ElementsStep<T>(x: PathValue, f: PathValue -> Result<T>, i: nat, done: seq<T>)
    requires x.value.Array? && i < |x.value.items|
    requires ElementsFrom(x, f, 0) == Prefixed(done, ElementsFrom(x, f, i))
    ensures f(GetIndex(x, i)).Err? ==> ElementsFrom(x, f, 0) == Err(f(GetIndex(x, i)).error)
    ensures f(GetIndex(x, i)).Ok? ==>
              ElementsFrom(x, f, 0) == Prefixed(done + [f(GetIndex(x, i)).value], ElementsFrom(x, f, i + 1))
  {
    var e := f(GetIndex(x, i));
    var rest := ElementsFrom(x, f, i + 1);
    if e.Ok? && rest.Ok? {
      assert done + ([e.value] + rest.value) == (done + [e.value]) + rest.value;
    }
  }

  lemma ElementsEnd<T>(x: PathValue, f: PathValue -> Result<T>, done: seq<T>)
    requires x.value.Array?
    requires ElementsFrom(x, f, 0) == Prefixed(done, ElementsFrom(x, f, |x.value.items|))
    ensures ElementsFrom(x, f, 0) == Ok(done)
  {
    assert done + [] == done;
  }

  /** The element loop shared by required_array and optional_array. */
  method ReadElements<T>(x: PathValue, f: PathValue -> Result<T>) returns (r: Result<seq<T>>)
    requires x.value.Array?
    ensures r == ElementsFrom(x, f, 0)
  {
    var n := |x.value.items|;
    var result: seq<T> := [];
    var i := 0;
    ElementsStart(x, f);
    while i < n
      invariant 0 <= i <= n
      invariant ElementsFrom(x, f, 0) == Prefixed(result, ElementsFrom(x, f, i))
    {
      var e := f(GetIndex(x, i));
      ElementsStep(x, f, i, result);
      if e.Err? {
        return Err(e.error);
      }
      result := result + [e.value];
      i := i + 1;
    }
    ElementsEnd(x, f, result);
    return Ok(result);
  }

  method RequiredArray<T>(x: PathValue, f: PathValue -> Result<T>) returns (r: Result<seq<T>>)
    ensures r == RequiredArraySpec(x, f)
  {
    if x.value.Array? {
      r := ReadElements(x, f);
    } else {
      r := Fail(x, MustBeArray);
    }
  }

  method OptionalArray<T>(x: PathValue, f: PathValue -> Result<T>) returns (r: Result<seq<T>>)
    ensures r == OptionalArraySpec(x, f)
  {
    if x.value.Null? {
      r := Ok([]);
    } else if x.value.Array? {
      r := ReadElements(x, f);
    } else {
      r := Fail(x, MustBeNullOrArray);
    }
  }

  /** An array reads successfully exactly when every element does; then
      the result has one entry per element, in order, each being what the
      element reader returned for that element's path. Otherwise the error
      is the one of the first element that failed. */
  lemma {:induction false} ElementsFromMeaning<T>(x: PathValue, f: PathValue -> Result<T>, i: nat)
    requires x.value.Array? && i <= |x.value.items|
    ensures ElementsFrom(x, f, i).Ok? <==> forall j :: i <= j < |x.value.items| ==> f(GetIndex(x, j)).Ok?
    ensures ElementsFrom(x, f, i).Ok? ==>
              |ElementsFrom(x, f, i).value| == |x.value.items| - i &&
              forall j :: i <= j < |x.value.items| ==> ElementsFrom(x, f, i).value[j - i] == f(GetIndex(x, j)).value
    ensures ElementsFrom(x, f, i).Err? ==>
              exists j :: i <= j < |x.value.items| && Err(ElementsFrom(x, f, i).error) == f(GetIndex(x, j))
                          && forall m :: i <= m < j ==> f(GetIndex(x, m)).Ok?
    decreases |x.value.items| - i
  {
    if i < |x.value.items| {
      ElementsFromMeaning(x, f, i + 1);
    }
  }
}
