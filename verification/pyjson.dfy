/** The Python values `flight_data` in views.py works on: what `response.json()`
    returns, and the built-ins the view applies to it (truthiness, `len`,
    subscripting, `dict.get`, `str.strip`, `float()` and `int()`), each with
    the exception Python raises when it fails. */
module PyJson {

  datatype Option<T> = None | Some(value: T)

  /** A decoded JSON document. An object keeps its members in document order;
      like `json.loads`, a later member overrides an earlier one with the same key. */
  datatype Json =
    | Null
    | Bool(b: bool)
    | Num(x: real)
    | Str(s: string)
    | Arr(items: seq<Json>)
    | Obj(fields: seq<(string, Json)>)

  /** The exceptions the view can meet. `DecodeError` is a body that is not JSON. */
  datatype Exc = ValueError | TypeError | IndexError | KeyError | AttributeError | DecodeError

  /** A Python expression either yields a value or raises. */
  datatype Outcome<T> = Ok(value: T) | Raise(exc: Exc)

  /** The keys of a JSON object. */
  function Keys(fields: seq<(string, Json)>): (r: set<string>)
    ensures forall i :: 0 <= i < |fields| ==> fields[i].0 in r
    ensures forall k :: k in r ==> exists i :: 0 <= i < |fields| && fields[i].0 == k
  {
    set i | 0 <= i < |fields| :: fields[i].0
  }

  /** `d[key]` on the dictionary `json.loads` builds: the last member with that key. */
  function Get(fields: seq<(string, Json)>, key: string): (r: Option<Json>)
    ensures r.Some? <==> key in Keys(fields)
    ensures r.Some? ==> exists i :: 0 <= i < |fields| && fields[i] == (key, r.value)
    decreases |fields|
  {
    if fields == [] then None
    else if fields[|fields| - 1].0 == key then Some(fields[|fields| - 1].1)
    else
      var p := fields[..|fields| - 1];
      assert forall i :: 0 <= i < |p| ==> p[i] == fields[i];
      assert key in Keys(fields) ==> key in Keys(p) by {
        if key in Keys(fields) {
          var i :| 0 <= i < |fields| && fields[i].0 == key;
          assert i < |p|;
        }
      }
      Get(p, key)
  }

  /** The last binding wins: `d[key]` is the value of the last member with that key. */
  lemma GetLastBinding(fields: seq<(string, Json)>, key: string)
    ensures Get(fields, key).Some? ==>
              exists i :: 0 <= i < |fields| && fields[i] == (key, Get(fields, key).value) &&
                forall j :: i < j < |fields| ==> fields[j].0 != key
    decreases |fields|
  {
    if fields != [] && fields[|fields| - 1].0 != key {
      var p := fields[..|fields| - 1];
      GetLastBinding(p, key);
      if Get(fields, key).Some? {
        var i :| 0 <= i < |p| && p[i] == (key, Get(p, key).value) &&
                 forall j :: i < j < |p| ==> p[j].0 != key;
        assert fields[i] == p[i];
        forall j | i < j < |fields|
          ensures fields[j].0 != key
        {
          if j < |p| {
            assert fields[j] == p[j];
          }
        }
      }
    }
  }

  /** `d.get(key, default)` */
  function GetOr(fields: seq<(string, Json)>, key: string, default: Json): Json
  {
    match Get(fields, key)
    case Some(v) => v
    case None => default
  }

  /** Python truthiness: None, False, 0, "" and empty containers are false. */
  predicate Truthy(v: Json)
  {
    match v
    case Null => false
    case Bool(b) => b
    case Num(x) => x != 0.0
    case Str(s) => s != []
    case Arr(items) => items != []
    case Obj(fields) => fields != []
  }

  /** Python `a or b`. */
  function Or(a: Json, b: Json): (r: Json)
    ensures Truthy(a) ==> r == a
    ensures !Truthy(a) ==> r == b
  {
    if Truthy(a) then a else b
  }

  /** `a or b` is one of its operands, and is truthy exactly when either operand is. */
  lemma OrTruthy(a: Json, b: Json)
    ensures Or(a, b) == a || Or(a, b) == b
    ensures Truthy(Or(a, b)) <==> Truthy(a) || Truthy(b)
  {
  }

  /** `len(v)`: numbers, booleans and None have no length. */
  function Len(v: Json): (r: Outcome<nat>)
    ensures r.Ok? <==> (v.Str? || v.Arr? || v.Obj?)
    ensures v.Arr? ==> r == Ok(|v.items|)
    ensures v.Str? ==> r == Ok(|v.s|)
    ensures v.Obj? ==> r == Ok(|Keys(v.fields)|)
  {
    match v
    case Str(s) => Ok(|s|)
    case Arr(items) => Ok(|items|)
    case Obj(fields) => Ok(|Keys(fields)|)
    case _ => Raise(TypeError)
  }

  /** `v[k]` for a non-negative integer `k`. A JSON object has only string keys,
      so an integer subscript always misses. */
  function Index(v: Json, k: nat): (r: Outcome<Json>)
    ensures v.Arr? ==> r == (if k < |v.items| then Ok(v.items[k]) else Raise(IndexError))
    ensures v.Str? ==> r == (if k < |v.s| then Ok(Str([v.s[k]])) else Raise(IndexError))
    ensures v.Obj? ==> r == Raise(KeyError)
    ensures (v.Null? || v.Bool? || v.Num?) ==> r == Raise(TypeError)
  {
    match v
    case Arr(items) => if k < |items| then Ok(items[k]) else Raise(IndexError)
    case Str(s) => if k < |s| then Ok(Str([s[k]])) else Raise(IndexError)
    case Obj(_) => Raise(KeyError)
    case _ => Raise(TypeError)
  }

  /** An integer subscript succeeds exactly on a list or a string, and exactly
      below its `len`: the guard `len(state) < 8` makes `state[0]` to `state[7]`
      safe for those two and for no other kind of value. */
  lemma IndexWithinLen(v: Json, k: nat)
    ensures Index(v, k).Ok? <==> (v.Arr? || v.Str?) && Len(v).Ok? && k < Len(v).value
  {
  }

  /** The keys of a JSON object with one more member. */
  lemma KeysSnoc(fields: seq<(string, Json)>, m: (string, Json))
    ensures Keys(fields + [m]) == Keys(fields) + {m.0}
  {
    var g := fields + [m];
    forall k | k in Keys(g)
      ensures k in Keys(fields) + {m.0}
    {
      var i :| 0 <= i < |g| && g[i].0 == k;
      if i < |fields| {
        assert fields[i] == g[i];
      }
    }
    forall k | k in Keys(fields) + {m.0}
      ensures k in Keys(g)
    {
      if k in Keys(fields) {
        var i :| 0 <= i < |fields| && fields[i].0 == k;
        assert g[i] == fields[i];
      } else {
        assert g[|fields|] == m;
      }
    }
  }

  /** No key occurs twice among the members of a JSON object. */
  predicate DistinctKeys(fields: seq<(string, Json)>)
  {
    forall i, j :: 0 <= i < j < |fields| ==> fields[i].0 != fields[j].0
  }

  /** Adding one element to a set adds one to its size exactly when it is new. */
  lemma CardAdd<T>(s: set<T>, x: T)
    ensures |s + {x}| == |s| + (if x in s then 0 else 1)
  {
    if x in s {
      assert s + {x} == s;
    }
  }

  /** In an object with distinct keys, the last key is not among the earlier ones. */
  lemma DistinctLast(fields: seq<(string, Json)>)
    requires fields != [] && DistinctKeys(fields)
    ensures DistinctKeys(fields[..|fields| - 1])
    ensures fields[|fields| - 1].0 !in Keys(fields[..|fields| - 1])
  {
    var p := fields[..|fields| - 1];
    forall i | 0 <= i < |p|
      ensures p[i] == fields[i]
    {
    }
  }

  /** `len` of a dict counts its distinct keys: never more than the members of
      the JSON object, and exactly that many when no key repeats. */
  lemma {:induction false} DictLen(fields: seq<(string, Json)>)
    ensures Len(Obj(fields)).Ok? && Len(Obj(fields)).value <= |fields|
    ensures DistinctKeys(fields) ==> Len(Obj(fields)).value == |fields|
    decreases |fields|
  {
    if fields == [] {
      assert Keys(fields) == {};
    } else {
      var p := fields[..|fields| - 1];
      var m := fields[|fields| - 1];
      assert fields == p + [m];
      KeysSnoc(p, m);
      CardAdd(Keys(p), m.0);
      DictLen(p);
      if DistinctKeys(fields) {
        DistinctLast(fields);
      }
    }
  }

  /** The characters for which Python's `str.isspace` holds. */
  predicate IsSpace(c: char)
  {
    || '\U{0009}' <= c <= '\U{000D}'
    || '\U{001C}' <= c <= '\U{0020}'
    || c == '\U{0085}' || c == '\U{00A0}' || c == '\U{1680}'
    || '\U{2000}' <= c <= '\U{200A}'
    || c == '\U{2028}' || c == '\U{2029}' || c == '\U{202F}' || c == '\U{205F}' || c == '\U{3000}'
  }

  /** `s.lstrip()`: the longest suffix of `s` that does not start with whitespace. */
  function TrimStart(s: string): (r: string)
    ensures |r| <= |s| && r == s[|s| - |r|..]
    ensures forall i :: 0 <= i < |s| - |r| ==> IsSpace(s[i])
    ensures r != [] ==> !IsSpace(r[0])
  {
    if s != [] && IsSpace(s[0]) then TrimStart(s[1..]) else s
  }

  /** `s.rstrip()`: the longest prefix of `s` that does not end with whitespace. */
  function TrimEnd(s: string): (r: string)
    ensures |r| <= |s| && r == s[..|r|]
    ensures forall i :: |r| <= i < |s| ==> IsSpace(s[i])
    ensures r != [] ==> !IsSpace(r[|r| - 1])
    decreases |s|
  {
    if s != [] && IsSpace(s[|s| - 1]) then TrimEnd(s[..|s| - 1]) else s
  }

  /** `s.strip()`: `s` with its leading and trailing whitespace cut off. */
  function Strip(s: string): (r: string)
    ensures |r| <= |s|
    ensures r == [] || (!IsSpace(r[0]) && !IsSpace(r[|r| - 1]))
  {
    TrimEnd(TrimStart(s))
  }

  /** What `strip` removes is whitespace only: `s` is `Strip(s)` with whitespace
      on either side, the leading part being `lo` characters long. */
  lemma StripSlice(s: string) returns (lo: nat)
    ensures lo + |Strip(s)| <= |s| && Strip(s) == s[lo..lo + |Strip(s)|]
    ensures forall i :: 0 <= i < lo ==> IsSpace(s[i])
    ensures forall i :: lo + |Strip(s)| <= i < |s| ==> IsSpace(s[i])
  {
    var t := TrimStart(s);
    var r := TrimEnd(t);
    lo := |s| - |t|;
    SliceOfSuffix(s, lo, |r|);
    forall i | lo + |r| <= i < |s|
      ensures IsSpace(s[i])
    {
      SuffixIndex(s, lo, i);
    }
  }

  lemma SliceOfSuffix<T>(s: seq<T>, lo: nat, n: nat)
    requires lo + n <= |s|
    ensures s[lo..][..n] == s[lo..lo + n]
  {
  }

  lemma SuffixIndex<T>(s: seq<T>, lo: nat, i: nat)
    requires lo <= i < |s|
    ensures s[lo..][i - lo] == s[i]
  {
  }

  /** `v.strip()` when `v` is truthy: only a string has that method. */
  function StripMethod(v: Json): (r: Outcome<Json>)
    ensures v.Str? ==> r == Ok(Str(Strip(v.s)))
    ensures !v.Str? ==> r == Raise(AttributeError)
  {
    if v.Str? then Ok(Str(Strip(v.s))) else Raise(AttributeError)
  }

  /** Stripping twice is stripping once. */
  lemma StripIdempotent(s: string)
    ensures Strip(Strip(s)) == Strip(s)
  {
    var r := Strip(s);
    assert TrimStart(r) == r;
    assert TrimEnd(r) == r;
  }

  /** `.strip()` succeeds exactly on a string, and applying it again to its
      result changes nothing. */
  lemma StripMethodIdempotent(v: Json)
    ensures StripMethod(v).Ok? <==> v.Str?
    ensures StripMethod(v).Ok? ==> StripMethod(StripMethod(v).value) == StripMethod(v)
  {
    if v.Str? {
      StripIdempotent(v.s);
    }
  }

  predicate IsDigit(c: char)
  {
    '0' <= c <= '9'
  }

  /** The length of the run of ASCII digits `s` starts with. */
  function DigitRun(s: string): (n: nat)
    ensures n <= |s|
    ensures forall i :: 0 <= i < n ==> IsDigit(s[i])
    ensures n < |s| ==> !IsDigit(s[n])
  {
    if s != [] && IsDigit(s[0]) then 1 + DigitRun(s[1..]) else 0
  }

  /** The number a string of decimal digits denotes, most significant digit first. */
  function DigitsValue(ds: string): nat
    requires forall i :: 0 <= i < |ds| ==> IsDigit(ds[i])
    decreases |ds|
  {
    if ds == [] then 0
    else
      assert IsDigit(ds[|ds| - 1]);
      10 * DigitsValue(ds[..|ds| - 1]) + (ds[|ds| - 1] as int - '0' as int)
  }

  function Pow10(n: nat): (r: nat)
    ensures r >= 1
  {
    if n == 0 then 1 else 10 * Pow10(n - 1)
  }

  /** `x` times ten to the power `e`. */
  function Scale(x: real, e: int): real
  {
    if e >= 0 then x * Pow10(e) as real else x / Pow10(-e) as real
  }

  /** An optional leading sign: whether it is `-`, and the rest of the string. */
  function SplitSign(s: string): (r: (bool, string))
    ensures |r.1| <= |s|
  {
    if s != [] && (s[0] == '+' || s[0] == '-') then (s[0] == '-', s[1..]) else (false, s)
  }

  /** The exponent part of a float literal: empty, or `e`/`E`, a sign and digits. */
  function ParseExponent(s: string): Option<int>
  {
    if s == [] then Some(0)
    else if s[0] != 'e' && s[0] != 'E' then None
    else
      var (neg, ds) := SplitSign(s[1..]);
      if ds != [] && DigitRun(ds) == |ds| then
        Some(if neg then -(DigitsValue(ds) as int) else DigitsValue(ds))
      else None
  }

  /** The fraction part of a float literal: after a `.`, a run of digits
      (possibly empty); yields the digits and what follows them. */
  function Fraction(s: string): (r: (string, string))
    ensures forall i :: 0 <= i < |r.0| ==> IsDigit(r.0[i])
  {
    if s != [] && s[0] == '.' then
      var m := DigitRun(s[1..]);
      (s[1..][..m], s[1..][m..])
    else ([], s)
  }

  /** The value of the digits before and after the decimal point. */
  function Mantissa(whole: string, frac: string): real
    requires forall i :: 0 <= i < |whole| ==> IsDigit(whole[i])
    requires forall i :: 0 <= i < |frac| ==> IsDigit(frac[i])
  {
    DigitsValue(whole) as real + DigitsValue(frac) as real / Pow10(|frac|) as real
  }

  /** An unsigned float literal: digits, an optional fraction (at least one
      digit in all), and an optional exponent. */
  function ParseUnsigned(t: string): Option<real>
  {
    var n := DigitRun(t);
    var (frac, tail) := Fraction(t[n..]);
    if n == 0 && frac == [] then None
    else
      match ParseExponent(tail)
      case None => None
      case Some(e) => Some(Scale(Mantissa(t[..n], frac), e))
  }

  /** `float(s)` on an already stripped string holding a decimal literal.
      None where Python raises ValueError. */
  function ParseFloat(s: string): Option<real>
  {
    var (neg, t) := SplitSign(s);
    match ParseUnsigned(t)
    case None => None
    case Some(x) => Some(if neg then -x else x)
  }

  /** `int(s)` on an already stripped string: a sign and at least one digit. */
  function ParseInt(s: string): Option<int>
  {
    var (neg, t) := SplitSign(s);
    if t != [] && DigitRun(t) == |t| then
      Some(if neg then -(DigitsValue(t) as int) else DigitsValue(t))
    else None
  }

  /** Truncation toward zero, as `int()` does to a float. */
  function Trunc(x: real): (r: int)
    ensures 0.0 <= x ==> r as real <= x < r as real + 1.0
    ensures x < 0.0 ==> r as real - 1.0 < x <= r as real
  {
    if x >= 0.0 then x.Floor else -((-x).Floor)
  }

  /** `float(v)` */
  function Float(v: Json): (r: Outcome<real>)
    ensures v.Num? ==> r == Ok(v.x)
    ensures (v.Null? || v.Arr? || v.Obj?) ==> r == Raise(TypeError)
    ensures r.Raise? ==> r.exc == TypeError || r.exc == ValueError
  {
    match v
    case Null => Raise(TypeError)
    case Bool(b) => Ok(if b then 1.0 else 0.0)
    case Num(x) => Ok(x)
    case Str(s) =>
      (match ParseFloat(Strip(s))
       case Some(x) => Ok(x)
       case None => Raise(ValueError))
    case Arr(_) => Raise(TypeError)
    case Obj(_) => Raise(TypeError)
  }

  /** `int(v)` */
  function Int(v: Json): (r: Outcome<int>)
    ensures v.Num? ==> r == Ok(Trunc(v.x))
    ensures (v.Null? || v.Arr? || v.Obj?) ==> r == Raise(TypeError)
    ensures r.Raise? ==> r.exc == TypeError || r.exc == ValueError
  {
    match v
    case Null => Raise(TypeError)
    case Bool(b) => Ok(if b then 1 else 0)
    case Num(x) => Ok(Trunc(x))
    case Str(s) =>
      (match ParseInt(Strip(s))
       case Some(i) => Ok(i)
       case None => Raise(ValueError))
    case Arr(_) => Raise(TypeError)
    case Obj(_) => Raise(TypeError)
  }

  /** The decimal digits of `n`, as Python's `str(n)` writes them. */
  function ShowNat(n: nat): (r: string)
    ensures r != [] && forall i :: 0 <= i < |r| ==> IsDigit(r[i])
  {
    var d := ['0' + (n % 10) as char];
    if n < 10 then d else ShowNat(n / 10) + d
  }

  /** `str(i)` for an integer. */
  function ShowInt(i: int): string
  {
    if i < 0 then "-" + ShowNat(-i) else ShowNat(i)
  }

  lemma {:induction false} DigitsValueShowNat(n: nat)
    ensures DigitsValue(ShowNat(n)) == n
  {
    if n >= 10 {
      DigitsValueShowNat(n / 10);
      var s := ShowNat(n);
      assert s[..|s| - 1] == ShowNat(n / 10);
    }
  }

  lemma DigitRunAll(s: string)
    requires forall i :: 0 <= i < |s| ==> IsDigit(s[i])
    ensures DigitRun(s) == |s|
  {
  }

  lemma SplitSignOf(neg: bool, ds: string)
    requires ds != [] && IsDigit(ds[0])
    ensures SplitSign(if neg then "-" + ds else ds) == (neg, ds)
  {
    if neg {
      var s := "-" + ds;
      assert s[0] == '-' && s[1..] == ds;
    }
  }

  /** A sign and a run of digits, parsed as an integer. */
  lemma ParseIntDigits(neg: bool, ds: string)
    requires ds != [] && forall i :: 0 <= i < |ds| ==> IsDigit(ds[i])
    ensures ParseInt(if neg then "-" + ds else ds) == Some(if neg then -(DigitsValue(ds) as int) else DigitsValue(ds))
  {
    SplitSignOf(neg, ds);
    DigitRunAll(ds);
  }

  /** A sign and a run of digits, parsed as a float. */
  lemma ParseFloatDigits(neg: bool, ds: string)
    requires ds != [] && forall i :: 0 <= i < |ds| ==> IsDigit(ds[i])
    ensures ParseFloat(if neg then "-" + ds else ds) == Some(if neg then -(DigitsValue(ds) as real) else DigitsValue(ds) as real)
  {
    SplitSignOf(neg, ds);
    ParseUnsignedDigits(ds);
    SignedParse(if neg then "-" + ds else ds, neg, ds, DigitsValue(ds) as real);
  }

  /** `ParseFloat` applies the sign to what `ParseUnsigned` reads after it. */
  lemma SignedParse(s: string, neg: bool, t: string, x: real)
    requires SplitSign(s) == (neg, t) && ParseUnsigned(t) == Some(x)
    ensures ParseFloat(s) == Some(if neg then -x else x)
  {
  }

  lemma ParseUnsignedDigits(ds: string)
    requires ds != [] && forall i :: 0 <= i < |ds| ==> IsDigit(ds[i])
    ensures ParseUnsigned(ds) == Some(DigitsValue(ds) as real)
  {
    DigitRunAll(ds);
    WholeDigitsSplit(ds);
    MantissaOfWhole(ds);
    ScaleZero(DigitsValue(ds) as real);
  }

  lemma WholeDigitsSplit(ds: string)
    requires DigitRun(ds) == |ds|
    ensures ds[..DigitRun(ds)] == ds && Fraction(ds[DigitRun(ds)..]) == ([], [])
  {
    assert ds[|ds|..] == [];
  }

  lemma MantissaOfWhole(ds: string)
    requires forall i :: 0 <= i < |ds| ==> IsDigit(ds[i])
    ensures Mantissa(ds, []) == DigitsValue(ds) as real
  {
  }

  lemma ScaleZero(x: real)
    ensures Scale(x, 0) == x
  {
  }

  /** `int()` reads back what `str()` writes for an integer. */
  lemma IntRoundTrip(i: int)
    ensures ParseInt(ShowInt(i)) == Some(i)
    ensures Int(Str(ShowInt(i))) == Ok(i)
  {
    var n: nat := if i < 0 then -i else i;
    DigitsValueShowNat(n);
    ParseIntDigits(i < 0, ShowNat(n));
    assert ShowInt(i) == if i < 0 then "-" + ShowNat(n) else ShowNat(n);
    StripShowInt(i);
  }

  /** `float()` reads an integer written by `str()` as the same number. */
  lemma FloatOfIntRoundTrip(i: int)
    ensures ParseFloat(ShowInt(i)) == Some(i as real)
    ensures Float(Str(ShowInt(i))) == Ok(i as real)
  {
    ParseFloatShowInt(i);
    StripShowInt(i);
  }

  lemma ParseFloatShowInt(i: int)
    ensures ParseFloat(ShowInt(i)) == Some(i as real)
  {
    var n: nat := if i < 0 then -i else i;
    DigitsValueShowNat(n);
    ParseFloatDigits(i < 0, ShowNat(n));
    assert ShowInt(i) == if i < 0 then "-" + ShowNat(n) else ShowNat(n);
  }

  lemma StripShowInt(i: int)
    ensures Strip(ShowInt(i)) == ShowInt(i)
  {
    StripDigits(ShowInt(i));
  }

  /** A number written by `str()` has no whitespace to strip. */
  lemma StripDigits(s: string)
    requires s != [] && forall i :: 0 <= i < |s| ==> s[i] == '-' || IsDigit(s[i])
    ensures Strip(s) == s
  {
    assert !IsSpace(s[0]);
    assert TrimStart(s) == s;
    assert !IsSpace(s[|s| - 1]);
  }

  /** `float()` of a one-character string yields a single digit's value or raises. */
  lemma FloatOfOneChar(c: char)
    ensures Float(Str([c])).Ok? ==> 0.0 <= Float(Str([c])).value <= 9.0
  {
    var lo := StripSlice([c]);
    var t := Strip([c]);
    assert t == [] || t == [c];
    if t == [c] && IsDigit(c) {
      ParseFloatDigits(false, [c]);
      assert [c][..0] == [];
    } else if t == [c] {
      assert SplitSign([c]).1 == [] || SplitSign([c]).1 == [c];
      assert ParseUnsigned([]) == None by { assert Fraction([]) == ([], []); }
      assert ParseUnsigned([c]) == None by { assert DigitRun([c]) == 0 && [c][0..] == [c]; }
    } else {
      assert ParseUnsigned([]) == None by { assert Fraction([]) == ([], []); }
    }
  }
}
