/** The object helpers of the gateway's utility module: `definedProps`,
    `merge` and `setProperty`, over objects modelled as finite maps from
    property names to values. JavaScript mutates the target in place and
    returns it; here the updated target is the result. */
module Objects {
  import opened Wrappers
  import opened Values

  type Props = map<string, Value>

  /** `definedProps`: the entries whose value is not `undefined`; `null` and
      every other value are kept. */
  function DefinedProps<K(!new)>(o: map<K, Value>): (r: map<K, Value>)
    ensures forall k :: k in r <==> k in o && o[k] != Undefined
    ensures forall k :: k in r ==> r[k] == o[k]
  {
    map k | k in o && o[k] != Undefined :: o[k]
  }

  /** `merge(target, source)`: `Object.assign(target, definedProps(source))`. */
  function Merge<K(!new)>(target: map<K, Value>, source: map<K, Value>): (r: map<K, Value>)
    ensures forall k :: k in source && source[k] != Undefined ==> k in r && r[k] == source[k]
    ensures forall k :: (k !in source || source[k] == Undefined) ==> (k in r <==> k in target)
    ensures forall k :: (k !in source || source[k] == Undefined) && k in target ==> r[k] == target[k]
  {
    target + DefinedProps(source)
  }

  /** `definedProps` keeps `null` values: only `undefined` is dropped. */
  lemma DefinedPropsKeepsNull(o: Props, k: string)
    requires k in o && o[k] == Null
    ensures k in DefinedProps(o) && DefinedProps(o)[k] == Null
  {
  }

  /** Merging the same source a second time changes nothing. */
  lemma MergeIdempotent(target: Props, source: Props)
    ensures Merge(Merge(target, source), source) == Merge(target, source)
  {
    var once := Merge(target, source);
    var twice := Merge(once, source);
    assert twice.Keys == once.Keys;
  }

  /** A source with no defined value leaves the target as it is. */
  lemma MergeUndefinedOnly(target: Props, source: Props)
    requires forall k :: k in source ==> source[k] == Undefined
    ensures Merge(target, source) == target
  {
    assert DefinedProps(source) == map[];
  }

  /** Two merges in a row: the later source wins where it defines a key,
      then the earlier one, then the target. */
  lemma MergeTwice(target: Props, first: Props, second: Props, k: string)
    ensures k in second && second[k] != Undefined ==>
      k in Merge(Merge(target, first), second) && Merge(Merge(target, first), second)[k] == second[k]
    ensures (k !in second || second[k] == Undefined) && k in first && first[k] != Undefined ==>
      k in Merge(Merge(target, first), second) && Merge(Merge(target, first), second)[k] == first[k]
    ensures (k !in second || second[k] == Undefined) && (k !in first || first[k] == Undefined) ==>
      (k in Merge(Merge(target, first), second) <==> k in target)
  {
  }

  /** `String.prototype.split` with a one-character separator: never
      empty, and no piece contains the separator. */
  function Split(s: string, sep: char): (segs: seq<string>)
    ensures |segs| >= 1
    ensures forall i :: 0 <= i < |segs| ==> sep !in segs[i]
  {
    if |s| == 0 then [""]
    else
      var rest := Split(s[1..], sep);
      if s[0] == sep then [""] + rest else [[s[0]] + rest[0]] + rest[1..]
  }

  /** `Array.prototype.join` with a one-character separator. */
  function Join(segs: seq<string>, sep: char): string
    requires |segs| >= 1
  {
    if |segs| == 1 then segs[0] else segs[0] + [sep] + Join(segs[1..], sep)
  }

  /** Splitting loses nothing: joining the pieces gives back the text. */
  lemma {:induction false} JoinSplit(s: string, sep: char)
    ensures Join(Split(s, sep), sep) == s
  {
    if |s| > 0 {
      var rest := Split(s[1..], sep);
      JoinSplit(s[1..], sep);
      if s[0] != sep {
        var segs := Split(s, sep);
        if |rest| == 1 {
          assert segs == [[s[0]] + rest[0]];
        } else {
          assert segs[1..] == rest[1..];
          assert Join(rest, sep) == rest[0] + [sep] + Join(rest[1..], sep);
        }
      }
    }
  }

  /** A path without a separator is a single piece, and only such a path is. */
  lemma {:induction false} SplitSingle(s: string, sep: char)
    ensures Split(s, sep) == [s] <==> sep !in s
  {
    if sep !in s {
      SplitWithoutSeparator(s, sep);
    } else {
      var segs := Split(s, sep);
      assert sep !in segs[0];
    }
  }

  lemma {:induction false} SplitWithoutSeparator(s: string, sep: char)
    requires sep !in s
    ensures Split(s, sep) == [s]
  {
    if |s| > 0 {
      SplitWithoutSeparator(s[1..], sep);
      assert [s[0]] + s[1..] == s;
    }
  }

  /** Why `setProperty` can fail. */
  datatype PathError =
    | InvalidTarget          // the target is `undefined` or `null`: "Invalid Target"
    | CannotCreateProperty   // a write would land on a primitive (a TypeError in strict code)

  /** The walk of `setProperty` over the path segments, starting at object
      `m`. Missing or `null` intermediates are replaced by fresh objects;
      existing objects are walked into; a primitive makes the final write
      fail. */
  function SetPath(m: Props, segs: seq<string>, v: Value): Result<Props, PathError>
    requires |segs| >= 1
    decreases |segs|
  {
    var key := segs[0];
    if |segs| == 1 then Success(m[key := v])
    else
      var cur := if key in m then m[key] else Undefined;
      match cur
      case Undefined =>
        var c :- SetPath(map[], segs[1..], v);
        Success(m[key := Obj(c)])
      case Null =>
        var c :- SetPath(map[], segs[1..], v);
        Success(m[key := Obj(c)])
      case Obj(child) =>
        var c :- SetPath(child, segs[1..], v);
        Success(m[key := Obj(c)])
      case _ => Failure(CannotCreateProperty)
  }

  /** `setProperty(target, path, value)`. */
  function SetProperty(target: Value, path: string, v: Value): (r: Result<Value, PathError>)
    ensures r == Failure(InvalidTarget) <==> target == Undefined || target == Null
    ensures r.Success? ==> target.Obj? && r.value.Obj?
  {
    match target
    case Undefined => Failure(InvalidTarget)
    case Null => Failure(InvalidTarget)
    case Obj(m) =>
      var r := SetPath(m, Split(path, '.'), v);
      SetPathNeverInvalid(m, Split(path, '.'), v);
      if r.Success? then Success(Obj(r.value)) else Failure(r.error)
    case _ => Failure(CannotCreateProperty)
  }

  lemma {:induction false} SetPathNeverInvalid(m: Props, segs: seq<string>, v: Value)
    requires |segs| >= 1
    ensures SetPath(m, segs, v) != Failure(InvalidTarget)
    decreases |segs|
  {
    if |segs| > 1 {
      var key := segs[0];
      var cur := if key in m then m[key] else Undefined;
      if cur.Obj? {
        SetPathNeverInvalid(cur.fields, segs[1..], v);
      } else if cur == Undefined || cur == Null {
        SetPathNeverInvalid(map[], segs[1..], v);
      }
    }
  }

  /** Reading a dotted path segment by segment. */
  function GetPath(v: Value, segs: seq<string>): Option<Value>
    decreases |segs|
  {
    if |segs| == 0 then Some(v)
    else if v.Obj? && segs[0] in v.fields then GetPath(v.fields[segs[0]], segs[1..])
    else None
  }

  /** After a successful write, reading the same path yields the value. */
  lemma {:induction false} SetPathThenGet(m: Props, segs: seq<string>, v: Value)
    requires |segs| >= 1
    requires SetPath(m, segs, v).Success?
    ensures GetPath(Obj(SetPath(m, segs, v).value), segs) == Some(v)
    decreases |segs|
  {
    var key := segs[0];
    var r := SetPath(m, segs, v).value;
    if |segs| > 1 {
      var cur := if key in m then m[key] else Undefined;
      var child := if cur.Obj? then cur.fields else map[];
      SetPathThenGet(child, segs[1..], v);
    }
  }

  /** Writing into a fresh object never fails. */
  lemma {:induction false} SetPathOnFresh(segs: seq<string>, v: Value)
    requires |segs| >= 1
    ensures SetPath(map[], segs, v).Success?
    decreases |segs|
  {
    if |segs| > 1 {
      SetPathOnFresh(segs[1..], v);
    }
  }

  /** Only the first segment's property of the target changes. */
  lemma SetPathOtherKeys(m: Props, segs: seq<string>, v: Value, k: string)
    requires |segs| >= 1
    requires SetPath(m, segs, v).Success?
    requires k != segs[0]
    ensures k in SetPath(m, segs, v).value <==> k in m
    ensures k in m ==> SetPath(m, segs, v).value[k] == m[k]
  {
  }

  /** An existing intermediate object is reused: its other properties stay. */
  lemma SetPathReusesObject(m: Props, segs: seq<string>, v: Value, k: string)
    requires |segs| >= 2
    requires segs[0] in m && m[segs[0]].Obj?
    requires SetPath(m, segs, v).Success?
    requires k != segs[1] && k in m[segs[0]].fields
    ensures SetPath(m, segs, v).value[segs[0]].Obj?
    ensures k in SetPath(m, segs, v).value[segs[0]].fields
    ensures SetPath(m, segs, v).value[segs[0]].fields[k] == m[segs[0]].fields[k]
  {
    SetPathOtherKeys(m[segs[0]].fields, segs[1..], v, k);
  }

  /** A missing or `null` intermediate becomes a fresh object holding only
      the next segment. */
  lemma SetPathCreatesObject(m: Props, segs: seq<string>, v: Value)
    requires |segs| >= 2
    requires segs[0] !in m || m[segs[0]] == Undefined || m[segs[0]] == Null
    ensures SetPath(m, segs, v).Success?
    ensures SetPath(m, segs, v).value[segs[0]].Obj?
    ensures SetPath(m, segs, v).value[segs[0]].fields.Keys == {segs[1]}
  {
    SetPathOnFresh(segs[1..], v);
    var c := SetPath(map[], segs[1..], v).value;
    assert c.Keys == {segs[1]};
  }

  /** A primitive in the way of the walk makes the write fail. */
  lemma SetPathThroughPrimitive(m: Props, segs: seq<string>, v: Value)
    requires |segs| >= 2
    requires segs[0] in m && !m[segs[0]].Obj? && m[segs[0]] != Undefined && m[segs[0]] != Null
    ensures SetPath(m, segs, v) == Failure(CannotCreateProperty)
  {
  }

  /** A path without a dot sets `target[path]` and nothing else. */
  lemma SetPropertyPlainKey(m: Props, path: string, v: Value)
    requires '.' !in path
    ensures SetProperty(Obj(m), path, v) == Success(Obj(m[path := v]))
  {
    SplitSingle(path, '.');
  }

  /** A dotted path read back after `setProperty` yields the value written. */
  lemma SetPropertyThenGet(target: Value, path: string, v: Value)
    requires SetProperty(target, path, v).Success?
    ensures GetPath(SetProperty(target, path, v).value, Split(path, '.')) == Some(v)
  {
    SetPathThenGet(target.fields, Split(path, '.'), v);
  }
}
