/** The configuration as the generators receive it: the object the YAML
    loader returns, walked with Python's dynamic operations. A value of the
    wrong shape makes Python raise `AttributeError` or `TypeError`; both
    become `TypeError` here. */
module Config {
  import opened Errors
  import opened Strings
  import opened Dicts

  /** A loaded YAML value. Mapping keys are strings (a YAML `null` key is
      written `"null"`, which every test in the engine treats alike).
      Floating-point numbers are not modelled. */
  datatype Value =
    | VNone
    | VBool(b: bool)
    | VInt(i: int)
    | VStr(s: string)
    | VList(items: seq<Value>)
    | VMap(entries: Dict<Value>)

  /** Python truthiness: `None`, `False`, `0` and empty containers are false. */
  predicate Truthy(v: Value)
  {
    match v
    case VNone => false
    case VBool(b) => b
    case VInt(i) => i != 0
    case VStr(s) => s != ""
    case VList(xs) => xs != []
    case VMap(m) => m != []
  }

  /** A mapping as the YAML loader builds it: no key twice. */
  predicate ValidMap(v: Value)
  {
    v.VMap? ==> Valid(v.entries)
  }

  /** Lists and dicts cannot be dict keys or set members. */
  predicate Hashable(v: Value)
  {
    !v.VList? && !v.VMap?
  }

  /** The message of `dict()` given a non-empty string. */
  const FirstElementLength: string :=
    "dictionary update sequence element #0 has length 1; 2 is required"

  /** The message of `dict()` given an element that is not a pair. */
  const WrongLength: string :=
    "dictionary update sequence element has the wrong length"

  /** The message of `dict()` given an element that cannot be iterated. */
  const NotASequence: string :=
    "cannot convert dictionary update sequence element to a sequence"

  /** The failure standing for `str()` of a list or a mapping. */
  const ContainerText: string :=
    "the text form of a container is not modelled"

  /** `v.get(key, default)`: only a mapping has `get`. */
  function GetOr(v: Value, key: string, default: Value): Result<Value>
  {
    if !v.VMap? then Fail(TypeError, "object has no attribute 'get'")
    else match Get(v.entries, key)
      case Some(x) => Ok(x)
      case None => Ok(default)
  }

  /** `v[key]` with a string key. */
  function Index(v: Value, key: string): Result<Value>
  {
    if !v.VMap? then Fail(TypeError, "object is not subscriptable by a string")
    else match Get(v.entries, key)
      case Some(x) => Ok(x)
      case None => Fail(KeyError, key)
  }

  /** `v[key]` where a missing key is told apart from a failure:
      `Ok(None)` for the `except KeyError: pass` branches of the engine. */
  function TryIndex(v: Value, key: string): Result<Option<Value>>
  {
    if !v.VMap? then Fail(TypeError, "object is not subscriptable by a string")
    else Ok(Get(v.entries, key))
  }

  /** The items `for x in v` visits: a list's elements, a dict's keys and a
      string's characters; anything else is not iterable. */
  function Iterate(v: Value): Result<seq<Value>>
  {
    match v
    case VList(xs) => Ok(xs)
    case VMap(m) => Ok(StrValues(Keys(m)))
    case VStr(s) => Ok(StrValues(Chars(s)))
    case _ => Fail(TypeError, "object is not iterable")
  }

  function Chars(s: string): (r: seq<string>)
    ensures |r| == |s|
    ensures forall i :: 0 <= i < |s| ==> r[i] == [s[i]]
  {
    if s == [] then [] else [[s[0]]] + Chars(s[1..])
  }

  function StrValues(ss: seq<string>): (r: seq<Value>)
    ensures |r| == |ss|
    ensures forall i :: 0 <= i < |ss| ==> r[i] == VStr(ss[i])
  {
    if ss == [] then [] else [VStr(ss[0])] + StrValues(ss[1..])
  }

  /** `str(v)` (and `"{}".format(v)`) for a scalar. */
  function PyStr(v: Value): Result<string>
  {
    match v
    case VNone => Ok("None")
    case VBool(b) => Ok(if b then "True" else "False")
    case VInt(i) => Ok(IntToString(i))
    case VStr(s) => Ok(s)
    case _ => Fail(TypeError, ContainerText)
  }

  /** `str()` of every item, in order. */
  function PyStrs(vs: seq<Value>): (r: Result<seq<string>>)
    ensures r.Ok? ==> |r.value| == |vs|
    ensures r.Ok? <==> forall i :: 0 <= i < |vs| ==> PyStr(vs[i]).Ok?
    ensures r.Ok? ==> forall i :: 0 <= i < |vs| ==> r.value[i] == PyStr(vs[i]).value
  {
    if vs == [] then Ok([])
    else
      match PyStr(vs[0])
      case Err(e) => Err(e)
      case Ok(s) =>
        match PyStrs(vs[1..])
        case Err(e) => Err(e)
        case Ok(rest) => Ok([s] + rest)
  }

  /** The value when it is a string; `TypeError` otherwise (the engine calls a
      string method or a string-only library function on it). */
  function AsString(v: Value): Result<string>
  {
    if v.VStr? then Ok(v.s) else Fail(TypeError, "expected a string")
  }

  /** Every item as a string, in order. */
  function AsStrings(vs: seq<Value>): (r: Result<seq<string>>)
    ensures r.Ok? <==> forall i :: 0 <= i < |vs| ==> vs[i].VStr?
    ensures r.Ok? ==> |r.value| == |vs| && forall i :: 0 <= i < |vs| ==> VStr(r.value[i]) == vs[i]
  {
    if vs == [] then Ok([])
    else if !vs[0].VStr? then Fail(TypeError, "expected a string")
    else
      match AsStrings(vs[1..])
      case Err(e) => Err(e)
      case Ok(rest) => Ok([vs[0].s] + rest)
  }

  /** Whether `dict(v)` succeeds, and which exception it raises otherwise: a
      mapping is copied; any other iterable must yield pairs, each an
      iterable of exactly two items whose first is hashable. A string yields
      one-character strings, which are never pairs. */
  function DictProbe(v: Value): Result<()>
  {
    match v
    case VMap(_) => Ok(())
    case VStr(s) => if s == "" then Ok(()) else Fail(ValueError, FirstElementLength)
    case VList(items) =>
      var _ :- Traverse(PairProbe, items);
      Ok(())
    case _ => Fail(TypeError, "object is not iterable")
  }

  /** One element of the sequence `dict()` is given. */
  function PairProbe(e: Value): Result<()>
  {
    match e
    case VStr(t) => if |t| == 2 then Ok(()) else Fail(ValueError, WrongLength)
    case VList(xs) =>
      if |xs| != 2 then Fail(ValueError, WrongLength)
      else if !Hashable(xs[0]) then Fail(TypeError, "unhashable type")
      else Ok(())
    case VMap(m) => if |m| == 2 then Ok(()) else Fail(ValueError, WrongLength)
    case _ => Fail(TypeError, NotASequence)
  }

  /** `dict(v)` itself: a mapping is copied; a sequence of pairs is put
      in order, a repeated key keeping its first position and its last
      value. A pair is a two-item list, a two-character string or a
      two-key mapping (iterating it gives its keys). */
  function DictOf(v: Value): Result<Dict<Value>>
  {
    match v
    case VMap(m) => Ok(m)
    case VList(items) =>
      var pairs :- Traverse(PairEntry, items);
      Ok(FromPairs(pairs))
    case _ =>
      var _ :- DictProbe(v);
      Ok([])
  }

  /** The key and value one element of the sequence gives `dict()`. Only
      string keys are modelled: a pair with another hashable key is refused
      with `TypeError`. */
  function PairEntry(e: Value): Result<(string, Value)>
  {
    var _ :- PairProbe(e);
    match e
    case VStr(t) => Ok(([t[0]], VStr([t[1]])))
    case VList(xs) => if xs[0].VStr? then Ok((xs[0].s, xs[1])) else Fail(TypeError, "only string keys are modelled")
    case VMap(m) => Ok((m[0].0, VStr(m[1].0)))
    case _ => Fail(TypeError, NotASequence)
  }

  /** When `dict()` refuses a value, it refuses it with the exception the
      probe names. */
  lemma DictOfProbe(v: Value)
    requires DictProbe(v).Err? && !v.VList?
    ensures DictOf(v) == Err(DictProbe(v).error)
  {
  }

  /** `dict()` of a list of strings one of which is not two characters
      long raises `ValueError`. */
  lemma DictProbeStrings(items: seq<Value>)
    requires items != [] && items[0].VStr? && |items[0].s| != 2
    requires forall i :: 0 <= i < |items| ==> items[i].VStr?
    ensures FailedWith(DictProbe(VList(items)), ValueError)
  {
    assert PairProbe(items[0]).Err?;
    TraverseFailure(PairProbe, items);
  }
}
