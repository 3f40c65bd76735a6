/**
 * The slice of JavaScript value semantics that the adapter relies on:
 * dynamically typed JSON-like values, truthiness, property access that
 * fails on null/undefined, string conversion in template literals, loose
 * equality against a string, `Number(...)` of a decimal string, and
 * `String.prototype.split` / `Array.prototype.join` with a one-character
 * separator.
 */
module Js {

  datatype Option<+T> = None | Some(value: T)

  /** The exceptions and rejections the adapter can raise. */
  datatype Error =
    | InvalidFields(message: string)      // InvalidFieldsError
    | Unreachable                         // UnreachableError
    | AlreadyRolledBack(message: string)  // AlreadyRolledBackError
    | MissingFulfillment(message: string) // MissingFulfillmentError
    | TypeError                           // property of null/undefined, or a call of a non-function
    | ReferenceError(name: string)        // use of an identifier that is not defined
    | Rejected                            // `Promise.reject()` without a reason
    | Remote(reason: Value)               // a failure reported by HTTP or the socket library

  /** A settled promise or a synchronous call: a value or the error it threw. */
  datatype Result<+T> = Ok(value: T) | Err(error: Error)

  /** A JavaScript value as far as JSON payloads and configuration objects go. */
  datatype Value =
    | Undefined
    | Null
    | Bool(b: bool)
    | Num(n: int)
    | Str(s: string)
    | Obj(fields: map<string, Value>)

  /** JavaScript truthiness. */
  predicate Truthy(v: Value) {
    match v
    case Undefined => false
    case Null => false
    case Bool(b) => b
    case Num(n) => n != 0
    case Str(s) => s != ""
    case Obj(_) => true
  }

  /** lodash `isNil`. */
  predicate IsNil(v: Value) {
    v.Undefined? || v.Null?
  }

  /** Property of an object record; an absent key reads as undefined. */
  function Field(m: map<string, Value>, key: string): (r: Value)
    ensures key !in m ==> r == Undefined
    ensures key in m ==> r == m[key]
  {
    if key in m then m[key] else Undefined
  }

  /**
   * `v.key` on a value that is not null or undefined. A primitive has none
   * of the keys the adapter reads, so they are undefined on it.
   */
  function Read(v: Value, key: string): (r: Value)
    requires !IsNil(v)
    ensures !v.Obj? ==> r == Undefined
  {
    if v.Obj? then Field(v.fields, key) else Undefined
  }

  /** `v.key` on any value: a TypeError exactly when `v` is null or undefined. */
  function Get(v: Value, key: string): (r: Result<Value>)
    ensures r.Err? <==> IsNil(v)
    ensures r.Err? ==> r.error == TypeError
    ensures r.Ok? ==> r.value == Read(v, key)
  {
    if IsNil(v) then Err(TypeError) else Ok(Read(v, key))
  }

  // ---------------------------------------------------------------------
  // Decimal digits

  predicate IsDigit(c: char) {
    '0' <= c <= '9'
  }

  predicate AllDigits(s: string) {
    forall i | 0 <= i < |s| :: IsDigit(s[i])
  }

  predicate AllZeros(s: string) {
    forall i | 0 <= i < |s| :: s[i] == '0'
  }

  function DigitChar(d: nat): (c: char)
    requires d < 10
    ensures IsDigit(c) && (c - '0') as int == d
  {
    ('0' as int + d) as char
  }

  /** The number a string of decimal digits denotes (the empty string denotes 0). */
  function DigitsValue(s: string): nat
    requires AllDigits(s)
  {
    if s == [] then 0 else DigitsValue(s[..|s| - 1]) * 10 + (s[|s| - 1] - '0') as nat
  }

  /** Decimal digits of a natural number, most significant first, without leading zeros. */
  function NatText(n: nat): (s: string)
    ensures 1 <= |s| && AllDigits(s)
    ensures DigitsValue(s) == n
    ensures |s| > 1 ==> s[0] != '0'
    decreases n
  {
    if n < 10 then [DigitChar(n)]
    else
      var init := NatText(n / 10);
      var s := init + [DigitChar(n % 10)];
      assert s[..|s| - 1] == init;
      s
  }

  /** `String(n)` for an integer. */
  function IntText(n: int): string {
    if n < 0 then "-" + NatText(-n) else NatText(n)
  }

  /** `String(v)`, as a template literal `${v}` converts its operands. */
  function ToText(v: Value): string {
    match v
    case Undefined => "undefined"
    case Null => "null"
    case Bool(b) => if b then "true" else "false"
    case Num(n) => IntText(n)
    case Str(s) => s
    case Obj(_) => "[object Object]"
  }

  // ---------------------------------------------------------------------
  // Number(...) of a string

  /**
   * What `Number(s)` makes of a string: NaN, or a decimal number with a
   * sign, whole digits and fraction digits. The empty string reads as 0.
   */
  datatype Numeral = NaN | Decimal(negative: bool, whole: string, fraction: string)

  function ToNumeral(s: string): (r: Numeral)
    ensures r.Decimal? ==> AllDigits(r.whole) && AllDigits(r.fraction)
  {
    if s == "" then Decimal(false, "", "")
    else
      var signed := s[0] == '-' || s[0] == '+';
      var body := if signed then s[1..] else s;
      var parts := Split(body, '.');
      if |parts| == 1 && parts[0] != "" && AllDigits(parts[0]) then
        Decimal(s[0] == '-', parts[0], "")
      else if |parts| == 2 && parts[0] + parts[1] != "" && AllDigits(parts[0]) && AllDigits(parts[1]) then
        Decimal(s[0] == '-', parts[0], parts[1])
      else NaN
  }

  /** `Number(s) <= 0`; false for NaN. */
  predicate NotPositive(s: string) {
    match ToNumeral(s)
    case NaN => false
    case Decimal(negative, whole, fraction) => negative || (AllZeros(whole) && AllZeros(fraction))
  }

  /** `Number(s) == n` for an integer `n`. */
  predicate DenotesInt(s: string, n: int) {
    match ToNumeral(s)
    case NaN => false
    case Decimal(negative, whole, fraction) =>
      AllZeros(fraction) && (if negative then -(DigitsValue(whole) as int) else DigitsValue(whole) as int) == n
  }

  /** Loose equality `v == w` against a string `w`. */
  predicate LooseEqualsText(v: Value, w: string) {
    match v
    case Undefined => false
    case Null => false
    case Bool(b) => DenotesInt(w, if b then 1 else 0)
    case Num(n) => DenotesInt(w, n)
    case Str(s) => s == w
    case Obj(_) => w == "[object Object]"
  }

  /** A word that starts with a letter is not a number, so a value loosely equals it only as that very string. */
  lemma LooseEqualsWord(v: Value, w: string)
    requires |w| > 0 && 'a' <= w[0] <= 'z'
    ensures ToNumeral(w) == NaN
    ensures LooseEqualsText(v, w) <==> v == Str(w)
  {
    var parts := Split(w, '.');
    assert parts[0][0] == w[0];
  }

  /** `s.includes(t)`. */
  predicate Includes(s: string, t: string)
    decreases |s|
  {
    |t| <= |s| && (s[..|t|] == t || Includes(s[1..], t))
  }

  // ---------------------------------------------------------------------
  // split and join

  /**
   * `s.split(sep)`: the maximal runs between separators, empty runs included;
   * the empty string splits into one empty part.
   */
  function Split(s: string, sep: char): (parts: seq<string>)
    ensures |parts| >= 1
    ensures forall i | 0 <= i < |parts| :: sep !in parts[i]
    decreases |s|
  {
    if s == [] then [""]
    else
      var rest := Split(s[1..], sep);
      if s[0] == sep then [""] + rest
      else [[s[0]] + rest[0]] + rest[1..]
  }

  /** `parts.join(sep)`. */
  function Join(parts: seq<string>, sep: char): string
    requires |parts| >= 1
  {
    if |parts| == 1 then parts[0] else parts[0] + [sep] + Join(parts[1..], sep)
  }

  /** Joining the parts of a split gives back the string. */
  lemma {:induction false} JoinSplit(s: string, sep: char)
    ensures Join(Split(s, sep), sep) == s
    decreases |s|
  {
    if s != [] {
      var rest := Split(s[1..], sep);
      JoinSplit(s[1..], sep);
      if s[0] == sep {
        assert Join(Split(s, sep), sep) == "" + [sep] + Join(rest, sep);
      } else if |rest| == 1 {
        assert Join(Split(s, sep), sep) == [s[0]] + rest[0];
      } else {
        var parts := Split(s, sep);
        assert parts[1..] == rest[1..];
        calc {
          Join(parts, sep);
          [s[0]] + rest[0] + [sep] + Join(rest[1..], sep);
          [s[0]] + (rest[0] + [sep] + Join(rest[1..], sep));
          [s[0]] + Join(rest, sep);
        }
      }
    }
  }

  /** A separator-free prefix sticks to the first part of what follows it. */
  lemma {:induction false} SplitPrepend(a: string, t: string, sep: char)
    requires sep !in a
    ensures Split(a + t, sep) == [a + Split(t, sep)[0]] + Split(t, sep)[1..]
    decreases |a|
  {
    var parts := Split(t, sep);
    if a == [] {
      assert a + t == t && a + parts[0] == parts[0];
    } else {
      SplitPrepend(a[1..], t, sep);
      assert (a + t)[0] == a[0] && (a + t)[1..] == a[1..] + t;
      var rest := Split(a[1..] + t, sep);
      assert rest == [a[1..] + parts[0]] + parts[1..];
      assert Split(a + t, sep) == [[a[0]] + rest[0]] + rest[1..];
      assert [a[0]] + (a[1..] + parts[0]) == a + parts[0];
    }
  }

  /** A separator-free string is a single part. */
  lemma SplitWhole(a: string, sep: char)
    requires sep !in a
    ensures Split(a, sep) == [a]
  {
    SplitPrepend(a, "", sep);
    assert a + "" == a;
  }

  /** A separator after a separator-free run ends the first part there. */
  lemma SplitAtSeparator(a: string, t: string, sep: char)
    requires sep !in a
    ensures Split(a + [sep] + t, sep) == [a] + Split(t, sep)
  {
    SplitPrepend(a, [sep] + t, sep);
    assert a + [sep] + t == a + ([sep] + t);
    assert ([sep] + t)[0] == sep && ([sep] + t)[1..] == t;
    assert a + "" == a;
  }

  /** Splitting a join of separator-free parts gives back the parts. */
  lemma {:induction false} SplitJoin(parts: seq<string>, sep: char)
    requires |parts| >= 1
    requires forall i | 0 <= i < |parts| :: sep !in parts[i]
    ensures Split(Join(parts, sep), sep) == parts
    decreases |parts|
  {
    if |parts| == 1 {
      SplitPrepend(parts[0], "", sep);
      assert parts[0] + "" == parts[0];
    } else {
      var tail := Join(parts[1..], sep);
      SplitJoin(parts[1..], sep);
      SplitPrepend(parts[0], [sep] + tail, sep);
      assert parts[0] + [sep] + tail == parts[0] + ([sep] + tail);
      assert ([sep] + tail)[0] == sep && ([sep] + tail)[1..] == tail;
      assert Split([sep] + tail, sep) == [""] + parts[1..];
      assert parts[0] + "" == parts[0];
      assert parts == [parts[0]] + parts[1..];
    }
  }

  /** Digits are read back as the number they were printed from. */
  lemma NatTextDenotes(n: nat)
    ensures DenotesInt(NatText(n), n)
  {
    var s := NatText(n);
    assert forall i | 0 <= i < |s| :: s[i] != '.';
    SplitPrepend(s, "", '.');
    assert s + "" == s;
    assert s[0] != '-' && s[0] != '+' by { assert IsDigit(s[0]); }
  }
}
