/** The JavaScript string built-ins the request handlers rely on, over
    `string` = `seq<char>`: the `\s` character class and `trim()`,
    `startsWith`/`endsWith`/`includes`, `join`/`split`, removal of `\D`,
    ASCII lower-casing, the decimal rendering of a natural number, and the
    truthiness that `||` tests. */
module Text {
  import opened Wrappers

  // ---------------------------------------------------------------------
  // Truthiness of strings, and `message || fallback`

  /** JavaScript truthiness of an optional string: present and not "". */
  predicate Truthy(s: Option<string>) {
    s.Some? && s.value != ""
  }

  /** `message || fallback`: the message unless it is empty. */
  function OrDefault(message: string, fallback: string): (r: string)
    ensures message != "" ==> r == message
    ensures message == "" ==> r == fallback
  {
    if message == "" then fallback else message
  }

  /** JavaScript's `\s` class, which is also the set `String.prototype.trim`
      strips: the WhiteSpace and LineTerminator code points of ECMAScript. */
  predicate IsWhitespace(c: char) {
    || c == ' ' || c == '\t' || c == '\n' || c == '\r'
    || c == '\U{000B}' || c == '\U{000C}' || c == '\U{00A0}' || c == '\U{1680}'
    || ('\U{2000}' <= c <= '\U{200A}')
    || c == '\U{2028}' || c == '\U{2029}' || c == '\U{202F}' || c == '\U{205F}'
    || c == '\U{3000}' || c == '\U{FEFF}'
  }

  /** The ASCII digits 0-9; `\D` is everything else. */
  predicate IsDigit(c: char) {
    '0' <= c <= '9'
  }

  predicate AllWhitespace(s: string) {
    forall k :: 0 <= k < |s| ==> IsWhitespace(s[k])
  }

  predicate AllDigits(s: string) {
    forall k :: 0 <= k < |s| ==> IsDigit(s[k])
  }

  // ---------------------------------------------------------------------
  // Prefix, suffix and substring tests

  /** `s.startsWith(p)` */
  predicate StartsWith(s: string, p: string) {
    |p| <= |s| && s[..|p|] == p
  }

  /** `s.endsWith(p)` */
  predicate EndsWith(s: string, p: string) {
    |p| <= |s| && s[|s| - |p|..] == p
  }

  /** `s.includes(p)`, written as a left-to-right search. */
  predicate Contains(s: string, p: string)
    decreases |s|
  {
    StartsWith(s, p) || (s != [] && Contains(s[1..], p))
  }

  /** The search finds `p` exactly when `p` occurs at some position of `s`. */
  lemma {:induction false} ContainsIffOccurs(s: string, p: string)
    ensures Contains(s, p) <==> exists i :: 0 <= i <= |s| && StartsWith(s[i..], p)
    decreases |s|
  {
    if s != [] {
      ContainsIffOccurs(s[1..], p);
      if Contains(s[1..], p) {
        var i :| 0 <= i <= |s[1..]| && StartsWith(s[1..][i..], p);
        assert s[1..][i..] == s[i + 1..];
      }
      if exists i :: 0 <= i <= |s| && StartsWith(s[i..], p) {
        var i :| 0 <= i <= |s| && StartsWith(s[i..], p);
        if i > 0 {
          assert s[1..][i - 1..] == s[i..];
        }
      }
    }
    if StartsWith(s, p) {
      assert s[0..] == s;
    }
  }

  // ---------------------------------------------------------------------
  // trim()

  /** Drops the leading whitespace. */
  function TrimStart(s: string): (r: string)
    ensures |r| <= |s| && r == s[|s| - |r|..]
    ensures AllWhitespace(s[..|s| - |r|])
    ensures r == [] || !IsWhitespace(r[0])
  {
    if s != [] && IsWhitespace(s[0]) then TrimStart(s[1..]) else s
  }

  /** Drops the trailing whitespace. */
  function TrimEnd(s: string): (r: string)
    ensures |r| <= |s| && r == s[..|r|]
    ensures AllWhitespace(s[|r|..])
    ensures r == [] || !IsWhitespace(r[|r| - 1])
  {
    if s != [] && IsWhitespace(s[|s| - 1]) then TrimEnd(s[..|s| - 1]) else s
  }

  /** How many whitespace characters `s` starts with. */
  function LeadingWhitespace(s: string): (n: nat)
    ensures n <= |s|
  {
    |s| - |TrimStart(s)|
  }

  /** `s.trim()`: the result is the slice of `s` left between a whitespace
      prefix and a whitespace suffix, and neither begins nor ends with
      whitespace. */
  function Trim(s: string): (r: string)
    ensures var i := LeadingWhitespace(s);
      && i + |r| <= |s| && r == s[i..i + |r|]
      && AllWhitespace(s[..i]) && AllWhitespace(s[i + |r|..])
    ensures r == [] || (!IsWhitespace(r[0]) && !IsWhitespace(r[|r| - 1]))
  {
    var t := TrimStart(s);
    var r := TrimEnd(t);
    MiddleSlice(s, t, r);
    r
  }

  /** `r`, a prefix of the suffix `t` of `s`, is a slice of `s`, and what
      follows it in `t` is what follows it in `s`. */
  lemma MiddleSlice(s: string, t: string, r: string)
    requires |t| <= |s| && t == s[|s| - |t|..]
    requires |r| <= |t| && r == t[..|r|]
    ensures var i := |s| - |t|;
      && r == s[i..i + |r|] && s[i + |r|..] == t[|r|..]
      && (r != [] ==> r[0] == t[0])
  {
  }

  /** `s` is the whitespace trimming removed in front, the trimmed string,
      and the whitespace removed behind. */
  lemma TrimSplit(s: string) returns (front: string, back: string)
    ensures s == front + Trim(s) + back
    ensures AllWhitespace(front) && AllWhitespace(back)
  {
    var r := Trim(s);
    var i := LeadingWhitespace(s);
    front, back := s[..i], s[i + |r|..];
    SliceThree(s, i, i + |r|);
  }

  lemma SliceThree(s: string, i: nat, j: nat)
    requires i <= j <= |s|
    ensures s == s[..i] + s[i..j] + s[j..]
  {
  }

  /** A string that neither begins nor ends with whitespace is its own trim. */
  lemma TrimOfTrimmed(s: string)
    requires s == [] || (!IsWhitespace(s[0]) && !IsWhitespace(s[|s| - 1]))
    ensures Trim(s) == s
  {
  }

  /** Whitespace in front is all `TrimStart` removes. */
  lemma {:induction false} TrimStartPadded(p: string, y: string)
    requires AllWhitespace(p) && (y == [] || !IsWhitespace(y[0]))
    ensures TrimStart(p + y) == y
    decreases |p|
  {
    if p == [] {
      assert p + y == y;
    } else {
      assert (p + y)[0] == p[0];
      assert (p + y)[1..] == p[1..] + y;
      TrimStartPadded(p[1..], y);
    }
  }

  /** Whitespace behind is all `TrimEnd` removes. */
  lemma {:induction false} TrimEndPadded(x: string, t: string)
    requires AllWhitespace(t) && (x == [] || !IsWhitespace(x[|x| - 1]))
    ensures TrimEnd(x + t) == x
    decreases |t|
  {
    if t == [] {
      assert x + t == x;
    } else {
      assert (x + t)[|x + t| - 1] == t[|t| - 1];
      assert (x + t)[..|x + t| - 1] == x + t[..|t| - 1];
      TrimEndPadded(x, t[..|t| - 1]);
    }
  }

  /** Trimming a string padded with whitespace on both sides gives back the
      string, when it neither begins nor ends with whitespace itself. */
  lemma TrimPadded(p: string, x: string, t: string)
    requires AllWhitespace(p) && AllWhitespace(t)
    requires x == [] || (!IsWhitespace(x[0]) && !IsWhitespace(x[|x| - 1]))
    ensures Trim(p + x + t) == x
  {
    if x != [] {
      assert p + x + t == p + (x + t);
      assert (x + t)[0] == x[0];
      TrimStartPadded(p, x + t);
      TrimEndPadded(x, t);
    }
  }

  lemma TrimIdempotent(s: string)
    ensures Trim(Trim(s)) == Trim(s)
  {
    TrimOfTrimmed(Trim(s));
  }

  // ---------------------------------------------------------------------
  // replace(/\D/g, '')

  /** Keeps only the ASCII digits of `s`, in order. */
  function DigitsOnly(s: string): (r: string)
    ensures |r| <= |s| && AllDigits(r)
  {
    if s == [] then []
    else if IsDigit(s[0]) then [s[0]] + DigitsOnly(s[1..])
    else DigitsOnly(s[1..])
  }

  /** One character is kept exactly when it is a digit. */
  lemma DigitsOnlyOfChar(c: char)
    ensures DigitsOnly([c]) == (if IsDigit(c) then [c] else [])
  {
    assert [c][1..] == [];
  }

  /** The filter works piece by piece: with `DigitsOnlyOfChar`, this pins
      down that every digit is kept, in order, and every other character
      dropped. */
  lemma {:induction false} DigitsOnlyAppend(a: string, b: string)
    ensures DigitsOnly(a + b) == DigitsOnly(a) + DigitsOnly(b)
    decreases |a|
  {
    if a == [] {
      assert a + b == b;
    } else {
      assert (a + b)[1..] == a[1..] + b;
      DigitsOnlyAppend(a[1..], b);
    }
  }

  lemma {:induction false} DigitsOnlyOfDigits(s: string)
    requires AllDigits(s)
    ensures DigitsOnly(s) == s
  {
    if s != [] {
      DigitsOnlyOfDigits(s[1..]);
    }
  }

  // ---------------------------------------------------------------------
  // toLowerCase()

  function LowerChar(c: char): (d: char)
    ensures 'A' <= c <= 'Z' ==> d as int == c as int + 32
    ensures !('A' <= c <= 'Z') ==> d == c
  {
    if 'A' <= c <= 'Z' then (c as int + 32) as char else c
  }

  /** ASCII lower-casing, character by character. */
  function Lower(s: string): (r: string)
    ensures |r| == |s| && forall k :: 0 <= k < |s| ==> r[k] == LowerChar(s[k])
  {
    seq(|s|, k requires 0 <= k < |s| => LowerChar(s[k]))
  }

  // ---------------------------------------------------------------------
  // Array.prototype.join and String.prototype.split

  /** `xs.join(sep)`: the empty array joins to "". */
  function Join(xs: seq<string>, sep: string): string
  {
    if |xs| == 0 then ""
    else if |xs| == 1 then xs[0]
    else xs[0] + sep + Join(xs[1..], sep)
  }

  lemma {:induction false} JoinSnoc(xs: seq<string>, x: string, sep: string)
    requires |xs| > 0
    ensures Join(xs + [x], sep) == Join(xs, sep) + sep + x
  {
    if |xs| == 1 {
      assert xs + [x] == [xs[0], x];
      assert ([xs[0], x])[1..] == [x];
    } else {
      assert (xs + [x])[1..] == xs[1..] + [x];
      JoinSnoc(xs[1..], x, sep);
    }
  }

  /** `s.split(c)` for a one-character separator; never empty. */
  function Split(s: string, c: char): (parts: seq<string>)
    ensures |parts| > 0
  {
    if s == [] then [""]
    else if s[0] == c then [""] + Split(s[1..], c)
    else
      var rest := Split(s[1..], c);
      [[s[0]] + rest[0]] + rest[1..]
  }

  lemma {:induction false} SplitAfterPiece(x: string, c: char, tail: string)
    requires c !in x
    ensures Split(x + [c] + tail, c) == [x] + Split(tail, c)
  {
    if x == [] {
      assert x + [c] + tail == [c] + tail;
      assert ([c] + tail)[1..] == tail;
    } else {
      assert (x + [c] + tail)[1..] == x[1..] + [c] + tail;
      SplitAfterPiece(x[1..], c, tail);
      assert [x[0]] + x[1..] == x;
    }
  }

  lemma {:induction false} SplitOfPiece(x: string, c: char)
    requires c !in x
    ensures Split(x, c) == [x]
  {
    if x != [] {
      SplitOfPiece(x[1..], c);
      assert [x[0]] + x[1..] == x;
    }
  }

  /** Splitting a join on a separator none of the pieces contains gives the
      pieces back. */
  lemma {:induction false} SplitJoin(xs: seq<string>, c: char)
    requires |xs| > 0
    requires forall k :: 0 <= k < |xs| ==> c !in xs[k]
    ensures Split(Join(xs, [c]), c) == xs
  {
    if |xs| == 1 {
      SplitOfPiece(xs[0], c);
    } else {
      SplitJoin(xs[1..], c);
      SplitAfterPiece(xs[0], c, Join(xs[1..], [c]));
      assert [xs[0]] + xs[1..] == xs;
    }
  }

  // ---------------------------------------------------------------------
  // Decimal rendering of a natural number (`${n}`)

  function DigitChar(d: nat): (c: char)
    requires d < 10
    ensures IsDigit(c) && c as int - '0' as int == d
  {
    ('0' as int + d) as char
  }

  /** The value of a string of decimal digits. */
  function DecimalValue(s: string): nat
    requires AllDigits(s)
  {
    if s == [] then 0
    else DecimalValue(s[..|s| - 1]) * 10 + (s[|s| - 1] as int - '0' as int)
  }

  /** `${n}`: decimal digits, without a leading zero. */
  function NatToString(n: nat): (r: string)
    ensures |r| > 0 && AllDigits(r)
    ensures r[0] == '0' ==> n == 0
  {
    if n < 10 then [DigitChar(n)] else NatToString(n / 10) + [DigitChar(n % 10)]
  }

  /** Reading the rendered digits back gives the number. */
  lemma {:induction false} NatToStringRoundTrip(n: nat)
    ensures DecimalValue(NatToString(n)) == n
  {
    if n >= 10 {
      NatToStringRoundTrip(n / 10);
      var r := NatToString(n);
      assert r[..|r| - 1] == NatToString(n / 10);
    }
  }
}
