/** The records the pipeline passes around are Python dicts read from JSON or CSV:
    string keys in insertion order, scalar values. This module gives them a type
    and the handful of Python operations the code applies to their values:
    `d.get(k)`, `d.get(k, default)`, `k in d`, truthiness, comparison with a
    number, `float(v)`, `int(v)` and `len(v)`. */
module Values {
  import opened Common
  import opened IsoTime

  /** A scalar as Python holds it: `None`, `bool`, `int`, `float`, `str` or a
      `datetime.date` written by the transformer. */
  datatype Value = Null | Bool(b: bool) | Int(i: int) | Float(r: real) | Str(s: string) | DateValue(d: Date)

  /** A dict, as its items in insertion order. */
  type Record = seq<(string, Value)>

  /** A Python dict never repeats a key. */
  predicate IsDict(r: Record) {
    forall i, j :: 0 <= i < j < |r| ==> r[i].0 != r[j].0
  }

  /** `d[k]`, or `None` for the KeyError. */
  function Lookup(r: Record, k: string): Option<Value>
  {
    if r == [] then None
    else if r[0].0 == k then Some(r[0].1)
    else Lookup(r[1..], k)
  }

  /** A key is found exactly when some item carries it. */
  lemma {:induction false} LookupFindsKey(r: Record, k: string)
    ensures Lookup(r, k).Some? <==> exists i :: 0 <= i < |r| && r[i].0 == k
  {
    if r != [] {
      LookupFindsKey(r[1..], k);
      if r[0].0 != k && Lookup(r, k).None? {
        forall i | 0 <= i < |r| ensures r[i].0 != k {
          if i > 0 { assert r[i] == r[1..][i - 1]; }
        }
      }
      if r[0].0 != k && Lookup(r, k).Some? {
        var i :| 0 <= i < |r[1..]| && r[1..][i].0 == k;
        assert r[i + 1].0 == k;
      }
    }
  }

  /** `k in d` */
  predicate Has(r: Record, k: string) { Lookup(r, k).Some? }

  /** `d.get(k)` */
  function Get(r: Record, k: string): Value { Lookup(r, k).GetOr(Null) }

  /** `d.get(k, default)` */
  function GetOr(r: Record, k: string, default: Value): Value { Lookup(r, k).GetOr(default) }

  /** In a dict the value found for a key is the value stored at that key's position. */
  lemma LookupAt(r: Record, i: nat)
    requires IsDict(r) && i < |r|
    ensures Lookup(r, r[i].0) == Some(r[i].1)
  {
    if i > 0 {
      assert IsDict(r[1..]);
      LookupAt(r[1..], i - 1);
    }
  }

  /** The value found for a key is the one at its first position. */
  lemma {:induction false} LookupFirst(r: Record, i: nat)
    requires i < |r| && forall j :: 0 <= j < i ==> r[j].0 != r[i].0
    ensures Lookup(r, r[i].0) == Some(r[i].1)
  {
    if i > 0 {
      LookupFirst(r[1..], i - 1);
    }
  }

  /** Looking up in two dicts' items one after the other finds the first dict's
      value when it has the key, the second's otherwise. */
  lemma {:induction false} LookupAppend(a: Record, b: Record, k: string)
    ensures Lookup(a + b, k) == if Lookup(a, k).Some? then Lookup(a, k) else Lookup(b, k)
  {
    if a == [] {
      assert a + b == b;
    } else {
      assert (a + b)[0] == a[0];
      assert (a + b)[1..] == a[1..] + b;
      LookupAppend(a[1..], b, k);
    }
  }

  /** A key at no position is not found. */
  lemma {:induction false} LookupAbsent(r: Record, k: string)
    requires forall i :: 0 <= i < |r| ==> r[i].0 != k
    ensures Lookup(r, k).None?
  {
    if r != [] {
      LookupAbsent(r[1..], k);
    }
  }

  /** `v in ['a', 'b', ...]` for a list of strings. */
  predicate InStrings(v: Value, options: seq<string>) {
    v.Str? && v.s in options
  }

  /** `bool(v)` */
  predicate Truthy(v: Value) {
    match v
    case Null => false
    case Bool(b) => b
    case Int(i) => i != 0
    case Float(r) => r != 0.0
    case Str(s) => s != ""
    case DateValue(_) => true
  }

  /** The number `v` stands for in `v < x`, `v > x` or `v + x`: booleans count as 0
      and 1; `None` means the comparison raises TypeError. */
  function Num(v: Value): (n: Option<real>)
    ensures n.Some? <==> v.Bool? || v.Int? || v.Float?
  {
    match v
    case Bool(b) => Some(if b then 1.0 else 0.0)
    case Int(i) => Some(i as real)
    case Float(r) => Some(r)
    case _ => None
  }

  /** `len(v)`: only strings have a length among these scalars. */
  function Len(v: Value): (n: Option<nat>)
    ensures n.Some? <==> v.Str?
    ensures v.Str? ==> n.value == |v.s|
  {
    if v.Str? then Some(|v.s|) else None
  }

  // ---------------------------------------------------------------------------
  // Number parsing: `float(s)` and `int(s)` on strings of decimal digits

  /** An optional sign, then digits with at most one decimal point and at least one
      digit; `None` for the ValueError. */
  function ParseDecimal(t: string): (r: Option<real>)
  {
    if |t| > 0 && (t[0] == '+' || t[0] == '-') then
      match ParseUnsignedDecimal(t[1..])
      case Some(x) => Some(if t[0] == '-' then -x else x)
      case None => None
    else ParseUnsignedDecimal(t)
  }

  function ParseUnsignedDecimal(t: string): (r: Option<real>)
    ensures r.Some? ==> r.value >= 0.0
  {
    var parts := Split(t, '.');
    if |parts| == 1 then
      if parts[0] != "" && AllDigits(parts[0]) then Some(DigitsValue(parts[0]) as real) else None
    else if |parts| == 2 && AllDigits(parts[0]) && AllDigits(parts[1]) && (parts[0] != "" || parts[1] != "") then
      Some(DecimalValue(parts[0], parts[1]))
    else None
  }

  /** The number `ia.fr` denotes. */
  function DecimalValue(ia: string, fr: string): (x: real)
    requires AllDigits(ia) && AllDigits(fr)
    ensures x >= 0.0
  {
    DigitsValue(ia) as real + DigitsValue(fr) as real / Pow10(|fr|) as real
  }

  /** An optional sign, then at least one digit. */
  function ParseInteger(t: string): (r: Option<int>)
  {
    if |t| > 0 && (t[0] == '+' || t[0] == '-') then
      if |t| > 1 && AllDigits(t[1..]) then
        var d: int := DigitsValue(t[1..]);
        Some(if t[0] == '-' then -d else d)
      else None
    else if t != "" && AllDigits(t) then Some(DigitsValue(t))
    else None
  }

  /** `int(r)` truncates toward zero. */
  function Truncate(r: real): (i: int)
    ensures r >= 0.0 ==> 0 <= i && i as real <= r < i as real + 1.0
    ensures r < 0.0 ==> i <= 0 && i as real - 1.0 < r <= i as real
  {
    if r >= 0.0 then r.Floor else -((-r).Floor)
  }

  /** `float(v)`; `None` stands for the ValueError or TypeError it raises. */
  function ToFloat(v: Value): (r: Option<real>)
    ensures v.Bool? || v.Int? || v.Float? ==> r == Num(v)
    ensures v.Null? || v.DateValue? ==> r.None?
  {
    match v
    case Str(s) => ParseDecimal(Strip(s))
    case _ => Num(v)
  }

  /** `int(v)`; `None` stands for the ValueError or TypeError it raises. */
  function ToInt(v: Value): (r: Option<int>)
    ensures v.Int? ==> r == Some(v.i)
    ensures v.Float? ==> r == Some(Truncate(v.r))
    ensures v.Null? || v.DateValue? ==> r.None?
  {
    match v
    case Null => None
    case Bool(b) => Some(if b then 1 else 0)
    case Int(i) => Some(i)
    case Float(r) => Some(Truncate(r))
    case Str(s) => ParseInteger(Strip(s))
    case DateValue(_) => None
  }

  // ---------------------------------------------------------------------------
  // What `str(n)` writes, `float` and `int` read back

  lemma StripNoSpace(s: string)
    requires forall i :: 0 <= i < |s| ==> !IsSpace(s[i])
    ensures Strip(s) == s
  {
  }

  lemma {:induction false} SplitWithout(s: string, sep: char)
    requires sep !in s
    ensures Split(s, sep) == [s]
    decreases |s|
  {
    if |s| > 0 {
      SplitWithout(s[1..], sep);
      var rest := Split(s[1..], sep);
      assert rest == [s[1..]];
      assert Split(s, sep) == [[s[0]] + rest[0]] + rest[1..];
      assert [s[0]] + s[1..] == s;
    }
  }

  lemma NatTextStrips(n: nat)
    ensures Strip(NatToString(n)) == NatToString(n)
  {
    DigitsHaveNoSpace(NatToString(n));
    StripNoSpace(NatToString(n));
  }

  lemma {:induction false} NatTextReadsBack(n: nat)
    ensures ParseUnsignedDecimal(NatToString(n)) == Some(n as real)
  {
    var s := NatToString(n);
    DigitsHaveNoPoint(s);
    SplitWithout(s, '.');
    NatToStringValue(n);
  }

  lemma DigitsHaveNoSpace(s: string)
    requires AllDigits(s)
    ensures forall i :: 0 <= i < |s| ==> !IsSpace(s[i])
  {
    forall i | 0 <= i < |s| ensures !IsSpace(s[i]) {
      assert IsDigit(s[i]);
    }
  }

  lemma DigitsHaveNoPoint(s: string)
    requires AllDigits(s)
    ensures '.' !in s
  {
    forall i | 0 <= i < |s| ensures s[i] != '.' {
      assert IsDigit(s[i]);
    }
  }

  lemma NatTextFloat(n: nat)
    ensures ToFloat(Str(NatToString(n))) == Some(n as real)
  {
    var s := NatToString(n);
    NatTextStrips(n);
    NatTextReadsBack(n);
    assert IsDigit(s[0]);
    assert ParseDecimal(s) == ParseUnsignedDecimal(s);
  }

  lemma NatTextInt(n: nat)
    ensures ToInt(Str(NatToString(n))) == Some(n)
  {
    var s := NatToString(n);
    NatTextStrips(n);
    NatToStringValue(n);
    assert IsDigit(s[0]);
    assert ParseInteger(s) == Some(DigitsValue(s));
  }

  lemma NegativeDigitsFloat(d: string, x: real, y: real)
    requires AllDigits(d) && ParseUnsignedDecimal(d) == Some(x) && y == -x
    ensures ToFloat(Str("-" + d)) == Some(y)
  {
    NegativeDigitsStrip(d);
    FloatOfStripped("-" + d);
    NegatedDecimal(d, x, y);
  }

  lemma NegativeDigitsStrip(d: string)
    requires AllDigits(d)
    ensures Strip("-" + d) == "-" + d
  {
    var s := "-" + d;
    DigitsHaveNoSpace(d);
    forall i | 0 <= i < |s| ensures !IsSpace(s[i]) {
      if i > 0 { assert s[i] == d[i - 1]; }
    }
    StripNoSpace(s);
  }

  lemma NegativeTextFloat(n: int)
    requires n < 0
    ensures ToFloat(Str("-" + NatToString(-n))) == Some(n as real)
  {
    NatTextReadsBack(-n);
    NegativeDigitsFloat(NatToString(-n), (-n) as real, n as real);
  }

  lemma FloatOfStripped(s: string)
    requires Strip(s) == s
    ensures ToFloat(Str(s)) == ParseDecimal(s)
  {
  }

  lemma NegatedDecimal(d: string, x: real, y: real)
    requires ParseUnsignedDecimal(d) == Some(x) && y == -x
    ensures ParseDecimal("-" + d) == Some(y)
  {
    assert ("-" + d)[1..] == d;
  }

  lemma IntOfStripped(s: string)
    requires Strip(s) == s
    ensures ToInt(Str(s)) == ParseInteger(s)
  {
  }

  lemma NegatedInteger(d: string, m: nat, n: int)
    requires AllDigits(d) && d != "" && DigitsValue(d) == m && n == -(m as int)
    ensures ParseInteger("-" + d) == Some(n)
  {
    assert ("-" + d)[1..] == d;
  }

  lemma NegativeDigitsInt(d: string, m: nat, n: int)
    requires AllDigits(d) && d != "" && DigitsValue(d) == m && n == -(m as int)
    ensures ToInt(Str("-" + d)) == Some(n)
  {
    NegativeDigitsStrip(d);
    IntOfStripped("-" + d);
    NegatedInteger(d, m, n);
  }

  lemma NegativeTextInt(n: int)
    requires n < 0
    ensures ToInt(Str("-" + NatToString(-n))) == Some(n)
  {
    NatToStringValue(-n);
    NegativeDigitsInt(NatToString(-n), -n, n);
  }

  /** A number written by `str(n)` is read back by `float` and `int`. */
  lemma {:induction false} IntTextReadsBack(n: int)
    ensures ToFloat(Str(IntToString(n))) == Some(n as real)
    ensures ToInt(Str(IntToString(n))) == Some(n)
  {
    IntTextFloat(n);
    IntTextInt(n);
  }

  lemma IntTextFloat(n: int)
    ensures ToFloat(Str(IntToString(n))) == Some(n as real)
  {
    if n >= 0 {
      NonNegativeIntTextFloat(n);
    } else {
      NegativeIntTextFloat(n);
    }
  }

  lemma NonNegativeIntTextFloat(n: int)
    requires n >= 0
    ensures ToFloat(Str(IntToString(n))) == Some(n as real)
  {
    assert IntToString(n) == NatToString(n);
    NatTextFloat(n);
  }

  lemma NegativeIntTextFloat(n: int)
    requires n < 0
    ensures ToFloat(Str(IntToString(n))) == Some(n as real)
  {
    NegativeIntToString(n);
    NegativeTextFloat(n);
  }

  lemma NegativeIntToString(n: int)
    requires n < 0
    ensures IntToString(n) == "-" + NatToString(-n)
  {
  }

  lemma IntTextInt(n: int)
    ensures ToInt(Str(IntToString(n))) == Some(n)
  {
    if n >= 0 {
      assert IntToString(n) == NatToString(n);
      NatTextInt(n);
    } else {
      NegativeIntToString(n);
      NegativeTextInt(n);
    }
  }

  /** A decimal with a fraction, `a.ddd`, reads as `a + ddd / 10^k`. */
  lemma DecimalDigitsRead(ia: string, fr: string)
    requires AllDigits(ia) && AllDigits(fr) && ia != ""
    ensures ParseUnsignedDecimal(ia + "." + fr) == Some(DecimalValue(ia, fr))
  {
    DigitsHaveNoPoint(ia);
    DigitsHaveNoPoint(fr);
    SplitWithout(fr, '.');
    SplitAround(ia, fr, '.');
    assert ia + "." + fr == ia + ['.'] + fr;
    UnsignedOfPieces(ia + "." + fr, ia, fr);
  }

  lemma UnsignedOfPieces(t: string, ia: string, fr: string)
    requires AllDigits(ia) && AllDigits(fr) && ia != ""
    requires Split(t, '.') == [ia, fr]
    ensures ParseUnsignedDecimal(t) == Some(DecimalValue(ia, fr))
  {
    var parts := Split(t, '.');
    assert |parts| == 2 && parts[0] == ia && parts[1] == fr;
  }

  lemma DecimalTextReads(a: nat, frac: nat, k: nat)
    requires frac < Pow10(k)
    ensures ParseUnsignedDecimal(NatToString(a) + "." + Pad(frac, k)) ==
      Some(a as real + frac as real / Pow10(k) as real)
  {
    NatToStringValue(a);
    PadValue(frac, k);
    DecimalDigitsRead(NatToString(a), Pad(frac, k));
    assert DecimalValue(NatToString(a), Pad(frac, k)) == a as real + frac as real / Pow10(k) as real;
  }

  lemma {:induction false} SplitAround(a: string, b: string, sep: char)
    requires sep !in a
    ensures Split(a + [sep] + b, sep) == [a] + Split(b, sep)
    decreases |a|
  {
    if a == [] {
      assert a + [sep] + b == [sep] + b;
      assert ([sep] + b)[1..] == b;
    } else {
      var s := a + [sep] + b;
      assert s[0] == a[0] && s[1..] == a[1..] + [sep] + b;
      SplitAround(a[1..], b, sep);
      var rest := Split(s[1..], sep);
      assert rest == [a[1..]] + Split(b, sep);
      assert Split(s, sep) == [[a[0]] + rest[0]] + rest[1..];
      assert [a[0]] + a[1..] == a;
      assert rest[1..] == Split(b, sep);
    }
  }
}
