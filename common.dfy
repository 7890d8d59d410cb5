/** Values and JavaScript string behaviour shared by every part of the model:
    optional request fields, HTTP-style responses, truthiness of strings,
    `toLowerCase`, `trim`, `includes`, `join` and decimal rendering of numbers. */
module Common {

  datatype Option<+T> = None | Some(value: T)

  /** What a request handler answers: a status with a body, or an error status
      with the message the handler attaches to it. */
  datatype Response<+T> = Ok(status: int, body: T) | Err(status: int, message: string)

  /** `Array.prototype.findIndex` as an option: the first position whose element
      satisfies `p`. It stands for the queries `findOne` and `findById`, which
      return the first matching document in store order. */
  function FirstWhere<T>(s: seq<T>, p: T -> bool): (r: Option<nat>)
    ensures r.Some? ==> r.value < |s| && p(s[r.value])
    ensures r.Some? ==> forall j :: 0 <= j < r.value ==> !p(s[j])
    ensures r.None? ==> forall j :: 0 <= j < |s| ==> !p(s[j])
  {
    if |s| == 0 then None
    else if p(s[0]) then Some(0)
    else match FirstWhere(s[1..], p)
      case None => None
      case Some(k) => Some(k + 1)
  }

  /** The last position whose element satisfies `p`: the newest matching
      document, for a query sorted by creation time, newest first. */
  function LastWhere<T>(s: seq<T>, p: T -> bool): (r: Option<nat>)
    ensures r.Some? ==> r.value < |s| && p(s[r.value])
    ensures r.Some? ==> forall j :: r.value < j < |s| ==> !p(s[j])
    ensures r.None? ==> forall j :: 0 <= j < |s| ==> !p(s[j])
  {
    if |s| == 0 then None
    else if p(s[|s| - 1]) then Some(|s| - 1)
    else LastWhere(s[..|s| - 1], p)
  }

  /** `Array.prototype.filter`, or a query's matching documents in store order. */
  function Filter<T>(s: seq<T>, p: T -> bool): (r: seq<T>)
    ensures |r| <= |s|
    ensures forall i :: 0 <= i < |r| ==> p(r[i]) && r[i] in s
    ensures forall x :: x in s && p(x) ==> x in r
  {
    if |s| == 0 then []
    else (if p(s[0]) then [s[0]] else []) + Filter(s[1..], p)
  }

  /** Filtering keeps the order of the elements it keeps: filtering a
      concatenation filters each part and concatenates the results. */
  lemma {:induction false} FilterAppend<T>(s: seq<T>, t: seq<T>, p: T -> bool)
    ensures Filter(s + t, p) == Filter(s, p) + Filter(t, p)
  {
    if |s| > 0 {
      FilterAppend(s[1..], t, p);
      assert (s + t)[1..] == s[1..] + t;
    } else {
      assert s + t == t;
    }
  }

  /** The elements newest first, for a store kept in creation order. */
  function Reverse<T>(s: seq<T>): (r: seq<T>)
    ensures |r| == |s| && forall i :: 0 <= i < |s| ==> r[i] == s[|s| - 1 - i]
  {
    if |s| == 0 then [] else [s[|s| - 1]] + Reverse(s[..|s| - 1])
  }

  /** The first `n` elements, or all of them when there are fewer (`limit(n)`,
      `slice(0, n)`). */
  function Take<T>(s: seq<T>, n: nat): (r: seq<T>)
    ensures |r| == Min(|s|, n) && r == s[..|r|]
  {
    if |s| <= n then s else s[..n]
  }

  function Min(a: int, b: int): int { if a <= b then a else b }

  /** `Math.ceil(a / b)` for a non-zero divisor. */
  function CeilDiv(a: int, b: int): (q: int)
    requires b != 0
    ensures b > 0 ==> (q - 1) * b < a <= q * b
    ensures b < 0 ==> q * b <= a < (q - 1) * b
  {
    if b > 0 then (a + b - 1) / b else -(a / -b)
  }
  function Max(a: int, b: int): int { if a >= b then a else b }

  /** JavaScript truthiness of an optional string request field: `undefined`,
      `null` and `""` are falsy, every other string is truthy. */
  predicate Truthy(s: Option<string>) { s.Some? && s.value != "" }

  /** `a || b` on strings. */
  function OrElse(s: Option<string>, fallback: string): string {
    if Truthy(s) then s.value else fallback
  }

  /** The code points JavaScript's `\s` and `String.prototype.trim` treat as
      white space or line terminators. */
  predicate IsSpace(c: char) {
    c == '\t' || c == '\n' || c == '\U{0B}' || c == '\U{0C}' || c == '\r' || c == ' '
    || c == '\U{A0}' || c == '\U{1680}' || ('\U{2000}' <= c <= '\U{200A}')
    || c == '\U{2028}' || c == '\U{2029}' || c == '\U{202F}' || c == '\U{205F}'
    || c == '\U{3000}' || c == '\U{FEFF}'
  }

  /** A string that `trim()` reduces to the empty string. */
  predicate Blank(s: string) { forall i :: 0 <= i < |s| ==> IsSpace(s[i]) }

  function TrimStart(s: string): (r: string)
    ensures |r| <= |s| && r == s[|s| - |r|..]
    ensures r == [] || !IsSpace(r[0])
  {
    if s != [] && IsSpace(s[0]) then TrimStart(s[1..]) else s
  }

  function TrimEnd(s: string): (r: string)
    ensures |r| <= |s| && r == s[..|r|]
    ensures r == [] || !IsSpace(r[|r| - 1])
  {
    if s != [] && IsSpace(s[|s| - 1]) then TrimEnd(s[..|s| - 1]) else s
  }

  /** `String.prototype.trim`. */
  function Trim(s: string): string { TrimEnd(TrimStart(s)) }

  lemma {:induction false} TrimStartEmptyIffBlank(s: string)
    ensures TrimStart(s) == [] <==> Blank(s)
  {
    if s != [] && IsSpace(s[0]) {
      TrimStartEmptyIffBlank(s[1..]);
      assert Blank(s) <==> Blank(s[1..]) by {
        assert forall i :: 1 <= i < |s| ==> s[i] == s[1..][i - 1];
      }
    } else if s != [] {
      assert !Blank(s);
    }
  }

  /** `s.trim().length == 0` exactly when every character of `s` is white space. */
  lemma {:induction false} TrimEmptyIffBlank(s: string)
    ensures |Trim(s)| == 0 <==> Blank(s)
  {
    TrimStartEmptyIffBlank(s);
    var t := TrimStart(s);
    if t != [] {
      assert !IsSpace(t[0]);
      var e := TrimEnd(t);
      assert e == [] ==> t[0] == t[|t| - 1] || !Blank(t);
      if e == [] {
        TrimEndKeepsNonSpace(t);
      }
    }
  }

  lemma {:induction false} TrimEndKeepsNonSpace(t: string)
    requires t != [] && !IsSpace(t[0])
    ensures TrimEnd(t) != []
  {
    if |t| > 1 && IsSpace(t[|t| - 1]) {
      TrimEndKeepsNonSpace(t[..|t| - 1]);
    }
  }

  function LowerChar(c: char): char {
    if 'A' <= c <= 'Z' then (c as int + 32) as char else c
  }

  /** `toLowerCase`, for the ASCII letters. */
  function Lower(s: string): (r: string)
    ensures |r| == |s|
    ensures forall i :: 0 <= i < |s| ==> r[i] == LowerChar(s[i])
  {
    seq(|s|, i requires 0 <= i < |s| => LowerChar(s[i]))
  }

  /** `s` holds `k` starting at position `i`. */
  predicate OccursAt(s: string, k: string, i: int) {
    0 <= i && i + |k| <= |s| && s[i..i + |k|] == k
  }

  /** `String.prototype.includes`. */
  predicate Contains(s: string, k: string) {
    exists i | 0 <= i <= |s| :: OccursAt(s, k, i)
  }

  /** `Array.prototype.join` on strings. */
  function Join(xs: seq<string>, sep: string): string {
    if |xs| == 0 then "" else if |xs| == 1 then xs[0] else xs[0] + sep + Join(xs[1..], sep)
  }

  /** Every position an occurrence of a space-free word covers holds a non-space. */
  lemma OccurrenceHasNoSpace(s: string, k: string, i: int, p: int)
    requires OccursAt(s, k, i) && forall j :: 0 <= j < |k| ==> k[j] != ' '
    ensures i <= p < i + |k| ==> s[p] != ' '
  {
    if i <= p < i + |k| {
      assert s[p] == s[i..i + |k|][p - i];
    }
  }

  /** Joining with one space cannot create or hide a word that has no space in it:
      such a word occurs in `a + " " + b` exactly when it occurs in `a` or in `b`. */
  lemma ContainsAroundSpace(a: string, b: string, k: string)
    requires |k| > 0 && forall j :: 0 <= j < |k| ==> k[j] != ' '
    ensures Contains(a + " " + b, k) <==> Contains(a, k) || Contains(b, k)
  {
    var s := a + " " + b;
    assert s[..|a|] == a && s[|a|] == ' ' && s[|a| + 1..] == b;
    if Contains(s, k) {
      var i :| 0 <= i <= |s| && OccursAt(s, k, i);
      OccurrenceHasNoSpace(s, k, i, |a|);
      if i + |k| <= |a| {
        assert s[i..i + |k|] == s[..|a|][i..i + |k|];
        assert OccursAt(a, k, i);
      } else {
        assert s[i..i + |k|] == s[|a| + 1..][i - |a| - 1..i - |a| - 1 + |k|];
        assert OccursAt(b, k, i - |a| - 1);
      }
    }
    if Contains(a, k) {
      var i :| 0 <= i <= |a| && OccursAt(a, k, i);
      assert s[i..i + |k|] == s[..|a|][i..i + |k|];
      assert OccursAt(s, k, i);
    }
    if Contains(b, k) {
      var i :| 0 <= i <= |b| && OccursAt(b, k, i);
      assert s[|a| + 1 + i..|a| + 1 + i + |k|] == s[|a| + 1..][i..i + |k|];
      assert OccursAt(s, k, |a| + 1 + i);
    }
  }

  /** A space-free word occurs in the space-joined strings exactly when it occurs
      in one of them. */
  lemma {:induction false} ContainsJoinedBySpace(xs: seq<string>, k: string)
    requires |k| > 0 && forall j :: 0 <= j < |k| ==> k[j] != ' '
    ensures Contains(Join(xs, " "), k) <==> exists i :: 0 <= i < |xs| && Contains(xs[i], k)
  {
    if |xs| == 0 {
      assert !OccursAt("", k, 0);
    } else if |xs| > 1 {
      ContainsJoinedBySpace(xs[1..], k);
      ContainsAroundSpace(xs[0], Join(xs[1..], " "), k);
      if exists i :: 0 <= i < |xs| && Contains(xs[i], k) {
        var i :| 0 <= i < |xs| && Contains(xs[i], k);
        if i > 0 { assert xs[1..][i - 1] == xs[i]; }
      }
      if exists i :: 0 <= i < |xs| - 1 && Contains(xs[1..][i], k) {
        var i :| 0 <= i < |xs| - 1 && Contains(xs[1..][i], k);
        assert xs[i + 1] == xs[1..][i];
      }
    }
  }

  function DigitChar(d: int): char requires 0 <= d < 10 { ('0' as int + d) as char }

  predicate IsDigit(c: char) { '0' <= c <= '9' }

  function DigitValue(c: char): int requires IsDigit(c) { c as int - '0' as int }

  /** `String(n)` for a non-negative integer: its decimal digits, no leading zero. */
  function NatToString(n: nat): (r: string)
    ensures |r| > 0 && forall i :: 0 <= i < |r| ==> IsDigit(r[i])
    ensures (n < 10 <==> |r| == 1) && (10 <= n < 100 <==> |r| == 2)
    decreases n
  {
    if n < 10 then [DigitChar(n)] else NatToString(n / 10) + [DigitChar(n % 10)]
  }

  /** The number a string of decimal digits denotes (`parseInt` on it). */
  function DigitsValue(s: string): (v: nat)
    requires forall i :: 0 <= i < |s| ==> IsDigit(s[i])
  {
    if s == [] then 0 else DigitsValue(s[..|s| - 1]) * 10 + DigitValue(s[|s| - 1])
  }

  /** Reading back the decimal text of `n` gives `n`. */
  lemma {:induction false} NatToStringRoundTrip(n: nat)
    ensures DigitsValue(NatToString(n)) == n
    decreases n
  {
    var r := NatToString(n);
    if n >= 10 {
      NatToStringRoundTrip(n / 10);
      assert r[..|r| - 1] == NatToString(n / 10);
    }
  }

  /** `s.padStart(width, fill)`. */
  function PadStart(s: string, width: nat, fill: char): (r: string)
    ensures |r| == Max(|s|, width)
    ensures r[|r| - |s|..] == s
    ensures forall i :: 0 <= i < |r| - |s| ==> r[i] == fill
  {
    if |s| >= width then s else seq(width - |s|, _ => fill) + s
  }
}
