/** The slice of JavaScript values the gateway moves around: JSON-like
    data with `undefined`, objects as finite maps of own properties, and the
    values a `throw` can carry. */
module Values {
  import opened Wrappers
  import opened Decimal

  /** A JavaScript value. Numbers are integral here; arrays, functions and
      prototype chains are not part of this model. */
  datatype Value =
    | Undefined
    | Null
    | Bool(b: bool)
    | Num(n: int)
    | Str(s: string)
    | Obj(fields: map<string, Value>)

  /** JavaScript truthiness: what `(x) && …` and `x ? … : …` test. */
  predicate Truthy(v: Value) {
    match v
    case Undefined => false
    case Null => false
    case Bool(b) => b
    case Num(n) => n != 0
    case Str(s) => s != ""
    case Obj(_) => true
  }

  /** A value a `throw` can carry: a bare string, an `Error` with its
      `message`, or some other object whose only use here is its string
      conversion `${err}`. */
  datatype Thrown =
    | ThrownString(text: string)
    | ThrownError(message: string)
    | ThrownOther(display: string)

  /** `err.message`: only an `Error` has one. */
  function MessageOf(t: Thrown): (m: Option<string>)
    ensures m.Some? <==> t.ThrownError?
  {
    match t
    case ThrownError(msg) => Some(msg)
    case _ => None
  }

  /** Truthiness of a thrown value stored in `ctx.state.lastError`: only the
      empty string is falsy among the values modelled. */
  predicate ThrownTruthy(t: Thrown) {
    t != ThrownString("")
  }

  /** `ctx.state.lastError` read as a condition. */
  predicate ErrorSet(lastError: Option<Thrown>) {
    lastError.Some? && ThrownTruthy(lastError.value)
  }

  /** The property list `Object.entries(v)` yields for a value: an object's
      own properties, a string's characters under their decimal indices, and
      nothing for a number or a boolean. `undefined` and `null` cannot be
      converted to an object, so `Object.entries` throws on them; callers
      guard against both. */
  function Entries(v: Value): (m: map<string, Value>)
    requires !v.Undefined? && !v.Null?
    ensures v.Obj? ==> m == v.fields
    ensures v.Str? ==> forall i :: 0 <= i < |v.s| ==> NatToDecimal(i) in m && m[NatToDecimal(i)] == Str([v.s[i]])
    ensures v.Str? ==> |m| == |v.s|
    ensures !v.Obj? && !v.Str? ==> m == map[]
  {
    match v
    case Obj(fields) => fields
    case Str(s) => StringEntriesSpec(s); StringEntries(s)
    case _ => map[]
  }

  /** Object.entries of a string, built up one trailing character at a time. */
  function StringEntries(s: string): map<string, Value>
  {
    if |s| == 0 then map[] else StringEntries(s[..|s| - 1])[NatToDecimal(|s| - 1) := Str([s[|s| - 1]])]
  }

  /** The keys of `StringEntries(s)` are exactly the decimal indices of `s`,
      each holding its one-character string. */
  lemma {:induction false} StringEntriesSpec(s: string)
    ensures forall i :: 0 <= i < |s| ==> NatToDecimal(i) in StringEntries(s) && StringEntries(s)[NatToDecimal(i)] == Str([s[i]])
    ensures forall k :: k in StringEntries(s) ==> exists i :: 0 <= i < |s| && k == NatToDecimal(i)
    ensures |StringEntries(s)| == |s|
  {
    if |s| > 0 {
      var t := s[..|s| - 1];
      StringEntriesSpec(t);
      var prev := StringEntries(t);
      var key := NatToDecimal(|s| - 1);
      assert key !in prev by {
        if key in prev {
          var i :| 0 <= i < |t| && key == NatToDecimal(i);
          DecimalInjective(i, |s| - 1);
        }
      }
      forall i | 0 <= i < |s|
        ensures NatToDecimal(i) in StringEntries(s) && StringEntries(s)[NatToDecimal(i)] == Str([s[i]])
      {
        if i < |s| - 1 {
          DecimalInjective(i, |s| - 1);
          assert t[i] == s[i];
        }
      }
    }
  }
}
