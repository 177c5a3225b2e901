/**
 * The small part of JavaScript's value and string semantics that the trip
 * planner relies on: loosely typed record fields, truthiness, ASCII case
 * folding, substring search, decimal digits, number-to-string conversion,
 * the regex thousands separator, `trim` and `split` on one character.
 */
module JsValues {

  datatype Option<T> = None | Some(value: T)

  /** A record field as the front end reads it: missing (or null), a number, or a string. */
  datatype Value = VNone | VNum(n: int) | VStr(s: string)

  /** JavaScript truthiness of a field value: `undefined`, `0` and `""` are falsy. */
  predicate Truthy(v: Value)
  {
    match v
    case VNone => false
    case VNum(n) => n != 0
    case VStr(s) => s != ""
  }

  /** Truthiness of an optional string field. */
  predicate Present(o: Option<string>)
  {
    o.Some? && o.value != ""
  }

  /** `o || d` for an optional string field. */
  function OrElse(o: Option<string>, d: string): (r: string)
    ensures Present(o) ==> r == o.value
    ensures !Present(o) ==> r == d
  {
    if Present(o) then o.value else d
  }

  /** `a || b` for two optional string fields. */
  function OrOpt(a: Option<string>, b: Option<string>): (r: Option<string>)
    ensures Present(a) ==> r == a
    ensures !Present(a) ==> r == b
  {
    if Present(a) then a else b
  }

  /** `a || b` for two field values. */
  function Or(a: Value, b: Value): (r: Value)
    ensures Truthy(a) ==> r == a
    ensures !Truthy(a) ==> r == b
  {
    if Truthy(a) then a else b
  }

  /** `${v}` of a field value that is present. */
  function ValueString(v: Value): string
  {
    match v
    case VNone => "undefined"
    case VNum(n) => IntToString(n)
    case VStr(s) => s
  }

  /** String interpolation of an optional field: a missing one prints as `undefined`. */
  function Interp(o: Option<string>): string
  {
    if o.Some? then o.value else "undefined"
  }

  // ---------------------------------------------------------------------------
  // Case folding and substring search

  /** ASCII lower-casing of one character. */
  function Lower(c: char): (r: char)
    ensures 'A' <= c <= 'Z' ==> r as int == c as int + 32
    ensures !('A' <= c <= 'Z') ==> r == c
  {
    if 'A' <= c <= 'Z' then (c as int + 32) as char else c
  }

  function ToLower(s: string): (r: string)
    ensures |r| == |s|
    ensures forall i :: 0 <= i < |s| ==> r[i] == Lower(s[i])
  {
    if s == [] then [] else [Lower(s[0])] + ToLower(s[1..])
  }

  /** `s.startsWith(p)`. */
  predicate StartsWith(s: string, p: string)
  {
    |p| <= |s| && s[..|p|] == p
  }

  /** `s.includes(sub)`, searched from the left. */
  predicate Contains(s: string, sub: string)
    decreases |s|
  {
    StartsWith(s, sub) || (s != [] && Contains(s[1..], sub))
  }

  /** `sub` occurs in `s` at offset `i`. */
  predicate OccursAt(s: string, sub: string, i: int)
  {
    0 <= i <= |s| - |sub| && s[i..i + |sub|] == sub
  }

  /** `Contains` holds exactly when `sub` occurs at some offset of `s`. */
  lemma {:induction false} ContainsAt(s: string, sub: string)
    ensures Contains(s, sub) <==> exists i :: OccursAt(s, sub, i)
    decreases |s|
  {
    if sub == [] {
      assert OccursAt(s, sub, 0);
    } else if s != [] {
      ContainsAt(s[1..], sub);
      if Contains(s[1..], sub) {
        var j :| OccursAt(s[1..], sub, j);
        assert OccursAt(s, sub, j + 1);
      }
      if StartsWith(s, sub) {
        assert OccursAt(s, sub, 0);
      }
      if i :| OccursAt(s, sub, i) {
        if i > 0 {
          assert OccursAt(s[1..], sub, i - 1);
        } else {
          assert StartsWith(s, sub);
        }
      }
    }
  }

  /** Case-insensitive `includes`, as the search boxes and the area table use it. */
  predicate ContainsIgnoreCase(s: string, sub: string)
  {
    Contains(ToLower(s), ToLower(sub))
  }

  /** A string occurring in some element of a list (`list.some(x => x.includes(sub))`). */
  predicate SomeContains(xs: seq<string>, sub: string)
  {
    exists i :: 0 <= i < |xs| && Contains(xs[i], sub)
  }

  // ---------------------------------------------------------------------------
  // Decimal digits

  predicate IsDigit(c: char)
  {
    '0' <= c <= '9'
  }

  function DigitVal(c: char): (d: nat)
    requires IsDigit(c)
    ensures d < 10
  {
    c as int - '0' as int
  }

  function DigitChar(d: nat): (c: char)
    requires d < 10
    ensures IsDigit(c) && DigitVal(c) == d
  {
    (d + '0' as int) as char
  }

  predicate AllDigits(s: string)
  {
    forall i :: 0 <= i < |s| ==> IsDigit(s[i])
  }

  /** The value of a string of decimal digits (`parseInt` / `parseFloat` of it). */
  function DigitsValue(s: string): (v: nat)
    requires AllDigits(s)
  {
    if s == [] then 0 else DigitsValue(s[..|s| - 1]) * 10 + DigitVal(s[|s| - 1])
  }

  /** The digits of `s` in order (`s.replace(/[^0-9]/g, "")`). */
  function Digits(s: string): (r: string)
    ensures AllDigits(r)
    ensures |r| <= |s|
  {
    if s == [] then [] else (if IsDigit(s[0]) then [s[0]] else []) + Digits(s[1..])
  }

  lemma {:induction false} DigitsAppend(a: string, b: string)
    ensures Digits(a + b) == Digits(a) + Digits(b)
  {
    if a != [] {
      assert (a + b)[0] == a[0] && (a + b)[1..] == a[1..] + b;
      DigitsAppend(a[1..], b);
      var h := if IsDigit(a[0]) then [a[0]] else [];
      assert Digits(a + b) == h + (Digits(a[1..]) + Digits(b));
      assert h + (Digits(a[1..]) + Digits(b)) == (h + Digits(a[1..])) + Digits(b);
    } else {
      assert a + b == b;
    }
  }

  lemma {:induction false} DigitsOfDigits(s: string)
    requires AllDigits(s)
    ensures Digits(s) == s
  {
    if s != [] {
      DigitsOfDigits(s[1..]);
    }
  }

  lemma {:induction false} DigitsNone(s: string)
    requires forall i :: 0 <= i < |s| ==> !IsDigit(s[i])
    ensures Digits(s) == []
  {
    if s != [] {
      DigitsNone(s[1..]);
    }
  }

  /** Decimal rendering of a natural number (`n.toString()`). */
  function NatToString(n: nat): (r: string)
    ensures AllDigits(r) && r != []
  {
    if n < 10 then [DigitChar(n)] else NatToString(n / 10) + [DigitChar(n % 10)]
  }

  /** `n.toString()` for any integer. */
  function IntToString(n: int): string
  {
    if n < 0 then "-" + NatToString(-n) else NatToString(n)
  }

  /** Reading back the decimal rendering gives the number. */
  lemma {:induction false} NatToStringValue(n: nat)
    ensures DigitsValue(NatToString(n)) == n
  {
    if n >= 10 {
      var s := NatToString(n);
      assert s[..|s| - 1] == NatToString(n / 10);
      NatToStringValue(n / 10);
    }
  }

  // ---------------------------------------------------------------------------
  // Thousands separators: `s.replace(/\B(?=(\d{3})+(?!\d))/g, ".")` on a digit string

  /** Puts a `.` before every group of three digits counted from the right, except at the start. */
  function GroupThousands(d: string): (r: string)
    decreases |d|
  {
    if |d| <= 3 then d else GroupThousands(d[..|d| - 3]) + "." + d[|d| - 3..]
  }

  /** The number rendered as the budget strings show it: `Math.round(num).toString()` with separators. */
  function FormatNumber(n: int): string
  {
    if n < 0 then "-" + GroupThousands(NatToString(-n)) else GroupThousands(NatToString(n))
  }

  /** Only the separators are inserted: dropping the `.`s gives back the digits. */
  lemma {:induction false} GroupThousandsDigits(d: string)
    requires AllDigits(d)
    ensures Digits(GroupThousands(d)) == d
    decreases |d|
  {
    if |d| <= 3 {
      DigitsOfDigits(d);
    } else {
      var hi, lo := d[..|d| - 3], d[|d| - 3..];
      GroupThousandsDigits(hi);
      DigitsAppend(GroupThousands(hi) + ".", lo);
      DigitsAppend(GroupThousands(hi), ".");
      DigitsOfDigits(lo);
      assert hi + lo == d;
    }
  }

  /** The grouped rendering starts with a digit and holds only digits and `.`. */
  lemma {:induction false} GroupThousandsShape(d: string)
    requires AllDigits(d) && d != []
    ensures GroupThousands(d) != [] && IsDigit(GroupThousands(d)[0])
    ensures forall i :: 0 <= i < |GroupThousands(d)| ==> IsDigit(GroupThousands(d)[i]) || GroupThousands(d)[i] == '.'
    decreases |d|
  {
    if |d| > 3 {
      GroupThousandsShape(d[..|d| - 3]);
    }
  }

  /** All digits of a formatted non-negative number read back as that number. */
  lemma FormatNumberDigits(n: nat)
    ensures Digits(FormatNumber(n)) == NatToString(n)
    ensures DigitsValue(Digits(FormatNumber(n))) == n
  {
    GroupThousandsDigits(NatToString(n));
    NatToStringValue(n);
  }

  // ---------------------------------------------------------------------------
  // trim and split

  /** The characters ECMAScript's `String.prototype.trim` removes (WhiteSpace and LineTerminator). */
  predicate IsJsSpace(c: char)
  {
    c == ' ' || c == '\t' || c == '\n' || c == '\r' || c == '\U{000B}' || c == '\U{000C}'
    || c == '\U{00A0}' || c == '\U{1680}' || ('\U{2000}' <= c <= '\U{200A}') || c == '\U{2028}'
    || c == '\U{2029}' || c == '\U{202F}' || c == '\U{205F}' || c == '\U{3000}' || c == '\U{FEFF}'
  }

  function TrimStart(s: string): (r: string)
    ensures |r| <= |s| && r == s[|s| - |r|..]
    ensures r != [] ==> !IsJsSpace(r[0])
    ensures forall i :: 0 <= i < |s| - |r| ==> IsJsSpace(s[i])
  {
    if s != [] && IsJsSpace(s[0]) then TrimStart(s[1..]) else s
  }

  function TrimEnd(s: string): (r: string)
    ensures |r| <= |s| && r == s[..|r|]
    ensures r != [] ==> !IsJsSpace(r[|r| - 1])
    ensures forall i :: |r| <= i < |s| ==> IsJsSpace(s[i])
  {
    if s != [] && IsJsSpace(s[|s| - 1]) then TrimEnd(s[..|s| - 1]) else s
  }

  /** `s.trim()`. */
  function Trim(s: string): (r: string)
  {
    TrimEnd(TrimStart(s))
  }

  /** A trimmed string is empty exactly when the input is blank. */
  lemma TrimEmptyIffBlank(s: string)
    ensures Trim(s) == [] <==> forall i :: 0 <= i < |s| ==> IsJsSpace(s[i])
  {
  }

  /** Trimming twice is trimming once. */
  lemma TrimTrimmed(s: string)
    ensures Trim(Trim(s)) == Trim(s)
  {
    var t := Trim(s);
    if t != [] {
      assert t[0] == TrimStart(s)[0];
      assert TrimStart(t) == t;
    }
  }

  /** `s.split(c)` for a one-character separator. */
  function Split(s: string, c: char): (r: seq<string>)
    ensures |r| >= 1
    ensures forall k :: 0 <= k < |r| ==> c !in r[k]
    decreases |s|
  {
    if c !in s then [s]
    else
      var i := IndexOf(s, c);
      [s[..i]] + Split(s[i + 1..], c)
  }

  /** The position of the first `c` in `s`. */
  function IndexOf(s: string, c: char): (i: nat)
    requires c in s
    ensures i < |s| && s[i] == c && c !in s[..i]
  {
    if s[0] == c then 0 else 1 + IndexOf(s[1..], c)
  }

  function Join(parts: seq<string>, c: char): string
    requires |parts| >= 1
  {
    if |parts| == 1 then parts[0] else parts[0] + [c] + Join(parts[1..], c)
  }

  /** Splitting loses nothing: joining the parts with the separator restores the string. */
  lemma {:induction false} SplitJoin(s: string, c: char)
    ensures Join(Split(s, c), c) == s
    decreases |s|
  {
    if c in s {
      var i := IndexOf(s, c);
      SplitJoin(s[i + 1..], c);
      assert s == s[..i] + [c] + s[i + 1..];
    }
  }
}
