/**
 * PHP values and the small PHP runtime behaviours the bundle relies on:
 * array lookups with a default, `explode`/`implode` on "|", the numeric
 * tests used for pagination, truthiness, loose comparison with a property
 * name, and ordered string-keyed arrays.
 */
module Common {

  datatype Option<T> = None | Some(value: T)

  /** A value, or the HTTP status of the exception raised instead. */
  datatype Result<T> = Ok(value: T) | HttpError(status: int)

  /** A PHP value as it reaches the modelled code (floats are not modelled). */
  datatype Value =
    | VNull
    | VBool(b: bool)
    | VInt(i: int)
    | VStr(s: string)
    | VList(items: seq<Value>)
    | VMap(entries: map<string, Value>)
    | VObject(cls: string, id: int)

  /** PHP `is_array`: lists and string-keyed arrays. */
  predicate IsArray(v: Value)
  {
    v.VList? || v.VMap?
  }

  /**
   * PHP truthiness, as used by `if ($x)`: the falsy values are exactly null,
   * false, 0, "", "0" and the empty array.
   */
  predicate Truthy(v: Value)
    ensures !Truthy(v) <==> v in {VNull, VBool(false), VInt(0), VStr(""), VStr("0"), VList([]), VMap(map[])}
  {
    match v
    case VNull => false
    case VBool(b) => b
    case VInt(i) => i != 0
    case VStr(s) => s != "" && s != "0"
    case VList(xs) => xs != []
    case VMap(m) => m != map[]
    case VObject(_, _) => true
  }

  /**
   * `getKeyIfExists`: the stored value whenever the key is present (even a
   * null one), the default only when the key is absent. Equivalently, a
   * lookup in the array merged over the one-entry array of defaults.
   */
  function GetKeyIfExists<K, V>(m: map<K, V>, key: K, default: V): (r: V)
    ensures key in m ==> r == m[key]
    ensures key !in m ==> r == default
    ensures r == (map[key := default] + m)[key]
  {
    if key in m then m[key] else default
  }

  // ---------------------------------------------------------------------
  // explode("|", s) and implode("|", pieces)

  const Pipe: char := '|'

  /** PHP `explode("|", s)`: never empty; no piece contains the separator. */
  function Explode(s: string): (pieces: seq<string>)
    ensures |pieces| >= 1
    ensures forall i :: 0 <= i < |pieces| ==> Pipe !in pieces[i]
    decreases |s|
  {
    if s == [] then [""]
    else
      var rest := Explode(s[1..]);
      if s[0] == Pipe then [""] + rest
      else [[s[0]] + rest[0]] + rest[1..]
  }

  /** PHP `implode("|", pieces)` on a non-empty list. */
  function Implode(pieces: seq<string>): string
    requires |pieces| >= 1
    decreases |pieces|
  {
    if |pieces| == 1 then pieces[0] else pieces[0] + [Pipe] + Implode(pieces[1..])
  }

  /** Joining the pieces back gives the original string. */
  lemma {:induction false} ImplodeExplode(s: string)
    ensures Implode(Explode(s)) == s
    decreases |s|
  {
    if s != [] {
      var rest := Explode(s[1..]);
      ImplodeExplode(s[1..]);
      if s[0] == Pipe {
        assert Explode(s) == [""] + rest;
        assert s == [Pipe] + s[1..];
      } else {
        var ps := Explode(s);
        assert ps == [[s[0]] + rest[0]] + rest[1..];
        if |rest| == 1 {
          assert s == [s[0]] + s[1..];
        } else {
          assert ps[1..] == rest[1..];
          assert Implode(rest) == rest[0] + [Pipe] + Implode(rest[1..]);
          assert s == [s[0]] + s[1..];
        }
      }
    }
  }

  /** Exploding a separator-free prefix glued to `t` extends the first piece of `t`. */
  lemma {:induction false} ExplodePrefix(p: string, t: string)
    requires Pipe !in p
    ensures Explode(p + t) == [p + Explode(t)[0]] + Explode(t)[1..]
    decreases |p|
  {
    if p != [] {
      ExplodePrefix(p[1..], t);
      assert (p + t)[1..] == p[1..] + t;
      assert (p + t)[0] == p[0];
      assert [p[0]] + (p[1..] + Explode(t)[0]) == p + Explode(t)[0];
    } else {
      var e := Explode(t);
      assert p + t == t;
      assert p + e[0] == e[0];
      assert e == [e[0]] + e[1..];
    }
  }

  /** Splitting pieces that hold no separator after joining them gives the pieces back. */
  lemma {:induction false} ExplodeImplode(pieces: seq<string>)
    requires |pieces| >= 1
    requires forall i :: 0 <= i < |pieces| ==> Pipe !in pieces[i]
    ensures Explode(Implode(pieces)) == pieces
    decreases |pieces|
  {
    if |pieces| == 1 {
      ExplodePrefix(pieces[0], "");
      assert pieces[0] + "" == pieces[0];
    } else {
      var t := [Pipe] + Implode(pieces[1..]);
      ExplodeImplode(pieces[1..]);
      assert t[1..] == Implode(pieces[1..]);
      assert Explode(t) == [""] + pieces[1..];
      ExplodePrefix(pieces[0], t);
      assert pieces[0] + [Pipe] + Implode(pieces[1..]) == pieces[0] + t;
      assert pieces[0] + "" == pieces[0];
    }
  }

  /** A single piece comes back exactly when the string holds no separator, and it is the string. */
  lemma {:induction false} ExplodeSingle(s: string)
    ensures |Explode(s)| == 1 <==> Pipe !in s
    ensures Pipe !in s ==> Explode(s) == [s]
    decreases |s|
  {
    if s != [] {
      ExplodeSingle(s[1..]);
      assert s == [s[0]] + s[1..];
    }
  }

  // ---------------------------------------------------------------------
  // Numeric strings

  predicate IsDigit(c: char)
  {
    '0' <= c <= '9'
  }

  predicate AllDigits(s: string)
  {
    forall i :: 0 <= i < |s| ==> IsDigit(s[i])
  }

  /** The value of a string of decimal digits. */
  function DecimalValue(s: string): (n: nat)
    requires AllDigits(s)
    decreases |s|
  {
    if s == [] then 0
    else DecimalValue(s[..|s| - 1]) * 10 + (s[|s| - 1] as int - '0' as int)
  }

  /**
   * PHP `is_numeric`, restricted to optionally signed decimal integers
   * (whitespace, fractions, exponents are not modelled). Null, booleans,
   * arrays and objects are never numeric.
   */
  predicate IsNumeric(v: Value)
    ensures IsNumeric(v) ==> v.VInt? || (v.VStr? && |v.s| > 0 && (IsDigit(v.s[0]) || v.s[0] == '+' || v.s[0] == '-'))
  {
    match v
    case VInt(_) => true
    case VStr(s) =>
      |s| > 0 &&
      if s[0] == '+' || s[0] == '-' then |s| > 1 && AllDigits(s[1..]) else AllDigits(s)
    case _ => false
  }

  const PHP_INT_MAX: int := 0x7fff_ffff_ffff_ffff
  const PHP_INT_MIN: int := -0x8000_0000_0000_0000

  /** A numeric string whose value does not fit a PHP integer converts to the nearest bound. */
  function Saturate(n: int): (r: int)
    ensures PHP_INT_MIN <= r <= PHP_INT_MAX
    ensures PHP_INT_MIN <= n <= PHP_INT_MAX ==> r == n
  {
    if n > PHP_INT_MAX then PHP_INT_MAX else if n < PHP_INT_MIN then PHP_INT_MIN else n
  }

  /** PHP `(int)` on a value that `IsNumeric` accepts: an integer as it is, a string saturated to 64 bits. */
  function IntCast(v: Value): (r: int)
    requires IsNumeric(v)
    ensures v.VInt? ==> r == v.i
    ensures v.VStr? ==> PHP_INT_MIN <= r <= PHP_INT_MAX
  {
    match v
    case VInt(i) => i
    case VStr(s) =>
      if s[0] == '-' then Saturate(-(DecimalValue(s[1..]) as int))
      else if s[0] == '+' then Saturate(DecimalValue(s[1..]))
      else Saturate(DecimalValue(s))
  }

  /**
   * `preg_match('/^[0-9]+$/', s)`: PCRE's `$` also matches before one final
   * newline, so "12\n" matches too.
   */
  predicate MatchesDigits(s: string)
    ensures MatchesDigits(s) ==> |s| > 0 && IsDigit(s[0])
  {
    (|s| > 0 && AllDigits(s)) ||
    (|s| > 1 && s[|s| - 1] == '\n' && AllDigits(s[..|s| - 1]))
  }

  /** PHP `(int)` on a string that `MatchesDigits` accepts, saturated to 64 bits. */
  function DigitsCast(s: string): (r: nat)
    requires MatchesDigits(s)
    ensures r <= PHP_INT_MAX
  {
    if AllDigits(s) then Saturate(DecimalValue(s)) else Saturate(DecimalValue(s[..|s| - 1]))
  }

  /** The decimal representation of a natural number, without sign or leading zeros. */
  function DecimalString(n: nat): (r: string)
    decreases n
  {
    (if n < 10 then [] else DecimalString(n / 10)) + [('0' as int + n % 10) as char]
  }

  /** Reading the decimal representation back gives the number. */
  lemma {:induction false} DecimalStringValue(n: nat)
    ensures |DecimalString(n)| > 0 && AllDigits(DecimalString(n))
    ensures DecimalValue(DecimalString(n)) == n
    decreases n
  {
    var d := ('0' as int + n % 10) as char;
    var s := DecimalString(n);
    if n < 10 {
      assert s == [d];
      assert s[..0] == [];
    } else {
      var t := DecimalString(n / 10);
      DecimalStringValue(n / 10);
      assert s == t + [d];
      assert s[..|s| - 1] == t;
      assert forall i :: 0 <= i < |s| ==> IsDigit(s[i]) by {
        forall i | 0 <= i < |s| ensures IsDigit(s[i]) {
          if i < |t| { assert s[i] == t[i]; }
        }
      }
    }
  }

  /**
   * `is_numeric` accepts the decimal representation of every integer, with
   * or without a sign, and `(int)` reads it back, saturated to 64 bits.
   */
  lemma IntCastDecimal(n: nat)
    ensures IsNumeric(VStr(DecimalString(n))) && IntCast(VStr(DecimalString(n))) == Saturate(n)
    ensures IsNumeric(VStr("+" + DecimalString(n))) && IntCast(VStr("+" + DecimalString(n))) == Saturate(n)
    ensures IsNumeric(VStr("-" + DecimalString(n))) && IntCast(VStr("-" + DecimalString(n))) == Saturate(-(n as int))
  {
    var s := DecimalString(n);
    DecimalStringValue(n);
    assert ("+" + s)[1..] == s && ("-" + s)[1..] == s;
    assert IsDigit(s[0]);
  }

  /**
   * `^[0-9]+$` accepts the decimal representation of every natural number,
   * also with one final newline, and `(int)` reads it back, saturated.
   */
  lemma DigitsCastDecimal(n: nat)
    ensures MatchesDigits(DecimalString(n)) && DigitsCast(DecimalString(n)) == Saturate(n)
    ensures MatchesDigits(DecimalString(n) + "\n") && DigitsCast(DecimalString(n) + "\n") == Saturate(n)
  {
    var s := DecimalString(n);
    DecimalStringValue(n);
    var t := s + "\n";
    assert t[..|t| - 1] == s;
    assert !AllDigits(t) by { assert !IsDigit(t[|t| - 1]); }
  }

  // ---------------------------------------------------------------------
  // Comparison with a property name

  /**
   * PHP 8 `$v == $name` for a property name. Exact when the name is not a
   * numeric string (PHP identifiers never are): null equals only "", a bool
   * compares with the name's truthiness, and numbers, arrays and objects
   * never equal such a name.
   */
  predicate LooseEqualsName(v: Value, name: string)
    ensures name != "" && name != "0" ==> (LooseEqualsName(v, name) <==> v == VStr(name) || v == VBool(true))
    ensures name == "" ==> (LooseEqualsName(v, name) <==> v in {VNull, VStr(""), VBool(false)})
  {
    match v
    case VNull => name == ""
    case VStr(s) => s == name
    case VBool(b) => b == (name != "" && name != "0")
    case _ => false
  }

  /** A `$request->query->get(k)` result as a PHP value (a missing key reads as null). */
  function OptionalString(o: Option<string>): Value
  {
    match o
    case None => VNull
    case Some(s) => VStr(s)
  }

  // ---------------------------------------------------------------------
  // Ordered PHP arrays with string keys

  /** A PHP array with string keys, in insertion order. */
  type Assoc<V> = seq<(string, V)>

  function KeysOf<V>(a: Assoc<V>): seq<string>
  {
    if a == [] then [] else [a[0].0] + KeysOf(a[1..])
  }

  /** PHP array keys are unique. */
  predicate UniqueKeys<V>(a: Assoc<V>)
  {
    forall i, j :: 0 <= i < j < |a| ==> a[i].0 != a[j].0
  }

  /** `$a[k]`, or None when `k` is absent. */
  function Lookup<V>(a: Assoc<V>, k: string): Option<V>
  {
    if a == [] then None
    else if a[0].0 == k then Some(a[0].1)
    else Lookup(a[1..], k)
  }

  /**
   * `$a[k] = v`: an existing key keeps its position and takes the new value,
   * a new key goes to the end; no other key changes.
   */
  function Put<V>(a: Assoc<V>, k: string, v: V): (r: Assoc<V>)
    ensures Lookup(r, k) == Some(v)
    ensures forall j :: j != k ==> Lookup(r, j) == Lookup(a, j)
    ensures KeysOf(r) == if Lookup(a, k).None? then KeysOf(a) + [k] else KeysOf(a)
  {
    if a == [] then [(k, v)]
    else if a[0].0 == k then [(k, v)] + a[1..]
    else [a[0]] + Put(a[1..], k, v)
  }

  /** Appending a new last entry: earlier keys keep their values, a key seen for the first time takes the new one. */
  lemma {:induction false} LookupSnoc<V>(a: Assoc<V>, k: string, v: V, j: string)
    ensures Lookup(a + [(k, v)], j) == if Lookup(a, j).Some? then Lookup(a, j) else if j == k then Some(v) else None
    decreases |a|
  {
    if a != [] {
      assert (a + [(k, v)])[1..] == a[1..] + [(k, v)];
      LookupSnoc(a[1..], k, v, j);
    }
  }
}
