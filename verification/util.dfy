/** The helpers of `_util.py`: the `None` guard, the AppDir location and the
    parser of `KEY=VALUE` lists that several configuration sections accept
    instead of a mapping. */
module Util {
  import opened Errors
  import opened Strings
  import opened Dicts
  import opened Config
  import opened Paths

  /** `assert_not_none`: `None` is refused with `ValueError`. */
  function AssertNotNone(v: Value): (r: Result<()>)
    ensures r.Ok? <==> v != VNone
    ensures r.Err? ==> FailedWith(r, ValueError)
  {
    if v == VNone then Fail(ValueError, "data must not be None") else Ok(())
  }

  /** `get_appdir_path(build_dir)`: the absolute form of `build_dir/AppDir`,
      with `cwd` the working directory. */
  function GetAppDirPath(cwd: string, buildDir: string): string
  {
    AbsPath(cwd, PathJoin(buildDir, "AppDir"))
  }

  /** The AppDir is the absolute, normalised build directory with one more
      component `AppDir`; for an absolute build directory the working
      directory plays no part. */
  lemma AppDirPath(cwd: string, buildDir: string)
    requires IsAbs(cwd)
    ensures GetAppDirPath(cwd, buildDir) == PathJoin(AbsPath(cwd, buildDir), "AppDir")
    ensures IsAbs(buildDir) ==> GetAppDirPath(cwd, buildDir) == PathJoin(NormPath(buildDir), "AppDir")
  {
    assert PlainName("AppDir");
    if IsAbs(buildDir) {
      NormPathJoin(buildDir, "AppDir");
    } else {
      PathJoinAssoc(cwd, buildDir, "AppDir");
      var base := PathJoin(cwd, buildDir);
      assert IsAbs(base);
      NormPathJoin(base, "AppDir");
    }
  }

  /** One entry `KEY=VALUE`: `i.split("=")` must give exactly two parts (so
      neither side may contain `=`) and the key must not contain a space. A
      non-string entry has no `split`. */
  function ParseEntry(v: Value): (r: Result<(string, string)>)
    ensures r.Ok? <==> v.VStr? && Count(v.s, '=') == 1 && ' ' !in Split(v.s, '=')[0]
    ensures r.Ok? ==> (v.s == r.value.0 + "=" + r.value.1
                       && '=' !in r.value.0 && '=' !in r.value.1 && ' ' !in r.value.0)
    ensures r.Err? && v.VStr? ==> FailedWith(r, ValueError)
  {
    if !v.VStr? then Fail(TypeError, "object has no attribute 'split'")
    else
      var parts := Split(v.s, '=');
      SplitCount(v.s, '=');
      if |parts| != 2 then Fail(ValueError, "wrong number of values to unpack")
      else if ' ' in parts[0] then Fail(ValueError, "Invalid key format: " + parts[0])
      else
        JoinSplit(v.s, '=');
        SplitPartsFree(v.s, '=');
        assert JoinChar(parts, '=') == parts[0] + "=" + parts[1];
        Ok((parts[0], parts[1]))
  }

  /** The loop of `convert_kv_list_to_dict` from the dict `acc` built so far:
      the first bad entry stops it, a repeated key with `KeyError`. */
  function KvFrom(acc: Dict<string>, items: seq<Value>): Result<Dict<string>>
    decreases |items|
  {
    if items == [] then Ok(acc)
    else
      match ParseEntry(items[0])
      case Err(e) => Err(e)
      case Ok(kv) =>
        if kv.0 in Keys(acc) then Fail(KeyError, "keys must be unique (" + kv.0 + " occurred more than once)")
        else KvFrom(acc + [kv], items[1..])
  }

  /** `convert_kv_list_to_dict(data)`. */
  function KvListToDict(data: Value): Result<Dict<string>>
  {
    if data == VNone then Fail(ValueError, "data must not be None")
    else
      match Iterate(data)
      case Err(e) => Err(e)
      case Ok(items) => KvFrom([], items)
  }

  /** `convert_kv_list_to_dict` as the source writes it: a loop filling `rv`. */
  method ConvertKvListToDict(data: Value) returns (r: Result<Dict<string>>)
    ensures r == KvListToDict(data)
  {
    var guard := AssertNotNone(data);
    if guard.Err? {
      return Err(guard.error);
    }
    var it := Iterate(data);
    if it.Err? {
      return Err(it.error);
    }
    var items := it.value;
    var rv: Dict<string> := [];
    var i := 0;
    while i < |items|
      invariant 0 <= i <= |items|
      invariant KvFrom(rv, items[i..]) == KvFrom([], items)
    {
      assert items[i..][1..] == items[i + 1..];
      var kv := ParseEntry(items[i]);
      if kv.Err? {
        return Err(kv.error);
      }
      var (k, v) := kv.value;
      if k in Keys(rv) {
        return Fail(KeyError, "keys must be unique (" + k + " occurred more than once)");
      }
      rv := rv + [(k, v)];
      i := i + 1;
    }
    assert items[i..] == [];
    return Ok(rv);
  }

  /** Every entry is well formed. */
  predicate AllEntriesOk(items: seq<Value>)
  {
    forall i :: 0 <= i < |items| ==> ParseEntry(items[i]).Ok?
  }

  /** The parsed entries of a well-formed list, in order. */
  function Entries(items: seq<Value>): (r: Dict<string>)
    requires AllEntriesOk(items)
    ensures |r| == |items|
    ensures forall i :: 0 <= i < |items| ==> r[i] == ParseEntry(items[i]).value
  {
    if items == [] then [] else [ParseEntry(items[0]).value] + Entries(items[1..])
  }

  lemma KeysAppend(a: Dict<string>, b: Dict<string>)
    ensures Keys(a + b) == Keys(a) + Keys(b)
  {
  }

  /** The loop succeeds exactly when every entry is well formed and no key
      repeats (also not one already in `acc`); it then yields `acc` followed
      by the entries, one per input string, in input order. */
  lemma {:induction false} KvFromOk(acc: Dict<string>, items: seq<Value>)
    requires Valid(acc)
    ensures KvFrom(acc, items).Ok? <==> AllEntriesOk(items) && Valid(acc + Entries(items))
    ensures KvFrom(acc, items).Ok? ==> KvFrom(acc, items).value == acc + Entries(items)
    decreases |items|
  {
    if items == [] {
      assert acc + [] == acc;
    } else {
      var rest := items[1..];
      var e := ParseEntry(items[0]);
      AllEntriesOkCons(items);
      if e.Ok? {
        var kv := e.value;
        if kv.0 in Keys(acc) {
          if AllEntriesOk(items) {
            assert Entries(items) == [kv] + Entries(rest);
            RepeatedKey(acc, kv, Entries(rest));
          }
        } else {
          ValidSnoc(acc, kv);
          assert KvFrom(acc, items) == KvFrom(acc + [kv], rest);
          KvFromOk(acc + [kv], rest);
          if AllEntriesOk(rest) {
            assert Entries(items) == [kv] + Entries(rest);
            AppendAssoc(acc, [kv], Entries(rest));
          }
        }
      }
    }
  }

  lemma AllEntriesOkCons(items: seq<Value>)
    requires items != []
    ensures AllEntriesOk(items) <==> ParseEntry(items[0]).Ok? && AllEntriesOk(items[1..])
  {
    if ParseEntry(items[0]).Ok? && AllEntriesOk(items[1..]) {
      forall i | 0 <= i < |items| ensures ParseEntry(items[i]).Ok? {
        if i > 0 { assert items[i] == items[1..][i - 1]; }
      }
    }
  }

  /** Adding a new key keeps a dict valid. */
  lemma ValidSnoc(acc: Dict<string>, kv: (string, string))
    requires Valid(acc) && kv.0 !in Keys(acc)
    ensures Valid(acc + [kv])
  {
    var acc' := acc + [kv];
    KeysAppend(acc, [kv]);
    forall a, b | 0 <= a < b < |acc'| ensures Keys(acc')[a] != Keys(acc')[b] {
      if b == |acc| {
        assert Keys(acc')[a] == Keys(acc)[a];
      } else {
        assert Keys(acc')[a] == Keys(acc)[a] && Keys(acc')[b] == Keys(acc)[b];
      }
    }
  }

  /** A key already present makes any extension with it invalid. */
  lemma RepeatedKey(acc: Dict<string>, kv: (string, string), rest: Dict<string>)
    requires kv.0 in Keys(acc)
    ensures !Valid(acc + ([kv] + rest))
  {
    var all := acc + ([kv] + rest);
    KeysAppend(acc, [kv] + rest);
    var j :| 0 <= j < |acc| && Keys(acc)[j] == kv.0;
    assert Keys(all)[j] == Keys(all)[|acc|];
  }

  /** When every entry is well formed, the only way the loop fails is a
      repeated key, reported with `KeyError`. */
  lemma {:induction false} KvFromDuplicate(acc: Dict<string>, items: seq<Value>)
    requires AllEntriesOk(items)
    ensures KvFrom(acc, items).Err? ==> FailedWith(KvFrom(acc, items), KeyError)
    decreases |items|
  {
    if items != [] {
      assert forall i :: 0 <= i < |items[1..]| ==> items[1..][i] == items[i + 1];
      assert ParseEntry(items[0]).Ok?;
      KvFromDuplicate(acc + [ParseEntry(items[0]).value], items[1..]);
    }
  }

  /** The documented outcomes of `convert_kv_list_to_dict` on a list. */
  lemma KvListOutcomes(items: seq<Value>)
    ensures KvListToDict(VList(items)).Ok?
      <==> AllEntriesOk(items) && Valid(Entries(items))
    ensures KvListToDict(VList(items)).Ok? ==> KvListToDict(VList(items)).value == Entries(items)
    ensures AllEntriesOk(items) && !Valid(Entries(items)) ==> FailedWith(KvListToDict(VList(items)), KeyError)
    ensures KvListToDict(VNone) == Fail(ValueError, "data must not be None")
    ensures KvListToDict(VList([])) == Ok([])
  {
    KvFromOk([], items);
    if AllEntriesOk(items) {
      KvFromDuplicate([], items);
      assert [] + Entries(items) == Entries(items);
    }
  }

  /** The `KEY=VALUE` list that describes a dict. */
  function ToKvList(d: Dict<string>): (r: seq<Value>)
    ensures |r| == |d|
    ensures forall i :: 0 <= i < |d| ==> r[i] == VStr(d[i].0 + "=" + d[i].1)
  {
    if d == [] then [] else [VStr(d[0].0 + "=" + d[0].1)] + ToKvList(d[1..])
  }

  /** A dict whose keys hold neither `=` nor a space and whose values hold no
      `=` survives the trip through its `KEY=VALUE` list. */
  lemma KvRoundTrip(d: Dict<string>)
    requires Valid(d)
    requires forall i :: 0 <= i < |d| ==> '=' !in d[i].0 && ' ' !in d[i].0 && '=' !in d[i].1
    ensures KvListToDict(VList(ToKvList(d))) == Ok(d)
  {
    var items := ToKvList(d);
    ToKvListEntries(d);
    KvListOutcomes(items);
  }

  lemma {:induction false} ToKvListEntries(d: Dict<string>)
    requires forall i :: 0 <= i < |d| ==> '=' !in d[i].0 && ' ' !in d[i].0 && '=' !in d[i].1
    ensures AllEntriesOk(ToKvList(d)) && Entries(ToKvList(d)) == d
  {
    if d != [] {
      var (k, v) := d[0];
      SplitAtOne(k, v, '=');
      SplitCount(k + "=" + v, '=');
      assert ParseEntry(VStr(k + "=" + v)) == Ok((k, v));
      ToKvListEntries(d[1..]);
      var items := ToKvList(d);
      assert items == [VStr(k + "=" + v)] + ToKvList(d[1..]);
      AllEntriesOkCons(items);
      assert items[1..] == ToKvList(d[1..]);
      assert d == [d[0]] + d[1..];
    }
  }

  /** A parsed `KEY=VALUE` list as a dict of string values. */
  function StrDict(d: Dict<string>): (r: Dict<Value>)
    ensures |r| == |d|
    ensures forall i :: 0 <= i < |d| ==> r[i] == (d[i].0, VStr(d[i].1))
  {
    if d == [] then [] else [(d[0].0, VStr(d[0].1))] + StrDict(d[1..])
  }

}
