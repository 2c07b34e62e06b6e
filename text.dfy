/**
 * String operations the client relies on, stated over `seq<char>`:
 * `String.prototype.trim`, ASCII `toLowerCase`, `includes`, number-to-string
 * conversion, `parseInt` (base 10), `Array.prototype.join` and the
 * `replace(/\s+/g, "_")` rewrite used for file names.
 */
module Text {

  /**
   * The characters `trim`, `parseInt` and the regular-expression class `\s`
   * treat as white space: ECMAScript's line terminators, tab, vertical tab,
   * form feed, the byte order mark and the space separators of Unicode
   * category Zs.
   */
  predicate IsSpace(c: char) {
    c in {'\t', '\n', '\U{000B}', '\U{000C}', '\r', ' ', '\U{00A0}', '\U{1680}',
          '\U{2028}', '\U{2029}', '\U{202F}', '\U{205F}', '\U{3000}', '\U{FEFF}'} ||
    '\U{2000}' <= c <= '\U{200A}'
  }

  predicate NoSpace(s: string) {
    forall i :: 0 <= i < |s| ==> !IsSpace(s[i])
  }

  /** Drops the leading white space. */
  function TrimStart(s: string): (r: string)
    ensures |r| <= |s| && r == s[|s| - |r|..]
    ensures forall i :: 0 <= i < |s| - |r| ==> IsSpace(s[i])
    ensures r != [] ==> !IsSpace(r[0])
  {
    if s != [] && IsSpace(s[0]) then TrimStart(s[1..]) else s
  }

  lemma TrimStartUnchanged(s: string)
    requires s == [] || !IsSpace(s[0])
    ensures TrimStart(s) == s
  {
  }

  /** Drops the trailing white space. */
  function TrimEnd(s: string): (r: string)
    ensures |r| <= |s| && r == s[..|r|]
    ensures forall i :: |r| <= i < |s| ==> IsSpace(s[i])
    ensures r != [] ==> !IsSpace(r[|r| - 1])
  {
    if s != [] && IsSpace(s[|s| - 1]) then TrimEnd(s[..|s| - 1]) else s
  }

  /** `s.trim()`: the piece of `s` left after removing white space at both ends. */
  function Trim(s: string): (r: string)
    ensures |r| <= |s|
    ensures r != [] ==> !IsSpace(r[0]) && !IsSpace(r[|r| - 1])
    ensures r == [] <==> forall i :: 0 <= i < |s| ==> IsSpace(s[i])
  {
    TrimBlank(s);
    TrimEnd(TrimStart(s))
  }

  /** Both trims together leave nothing exactly when every character is white space. */
  lemma TrimBlank(s: string)
    ensures TrimEnd(TrimStart(s)) == [] <==> forall i :: 0 <= i < |s| ==> IsSpace(s[i])
  {
    var t := TrimStart(s);
    if t != [] {
      assert !IsSpace(TrimEnd(t)[0]);
    }
  }

  /** What `trim` leaves is a piece of the original. */
  lemma TrimInside(s: string)
    ensures Contains(s, Trim(s))
  {
    var t := TrimStart(s);
    var u := TrimEnd(t);
    var at := |s| - |t|;
    assert 0 <= at <= |s| - |u| && u <= s[at..];
  }

  /** Trimming twice is trimming once. */
  lemma TrimIdempotent(s: string)
    ensures Trim(Trim(s)) == Trim(s)
  {
    var r := Trim(s);
    if r != [] {
      assert TrimStart(r) == r;
      assert TrimEnd(r) == r;
    }
  }

  function LowerChar(c: char): (r: char)
    ensures 'A' <= c <= 'Z' ==> r as int == c as int + 32
    ensures !('A' <= c <= 'Z') ==> r == c
  {
    if 'A' <= c <= 'Z' then (c as int + 32) as char else c
  }

  /** `s.toLowerCase()` restricted to the ASCII letters. */
  function ToLower(s: string): (r: string)
    ensures |r| == |s|
    ensures forall i :: 0 <= i < |s| ==> r[i] == LowerChar(s[i])
  {
    seq(|s|, i requires 0 <= i < |s| => LowerChar(s[i]))
  }

  /** `s.includes(sub)`: `sub` occurs in `s` at some position. */
  predicate Contains(s: string, sub: string) {
    exists i :: 0 <= i <= |s| - |sub| && sub <= s[i..]
  }

  /** Every string contains the empty string, so an empty search term filters nothing. */
  lemma ContainsEmpty(s: string)
    ensures Contains(s, "")
  {
    assert "" <= s[0..];
  }

  predicate IsDigit(c: char) {
    '0' <= c <= '9'
  }

  predicate AllDigits(s: string) {
    forall i :: 0 <= i < |s| ==> IsDigit(s[i])
  }

  function DigitChar(d: nat): (c: char)
    requires d < 10
    ensures IsDigit(c) && c as int - '0' as int == d
  {
    ('0' as int + d) as char
  }

  /** The value of a string of decimal digits. */
  function DigitsValue(s: string): (n: nat)
    requires AllDigits(s)
  {
    if s == [] then 0 else DigitsValue(s[..|s| - 1]) * 10 + (s[|s| - 1] as int - '0' as int)
  }

  /** The decimal rendering of a natural number, without leading zeros. */
  function NatToString(n: nat): (r: string)
    ensures r != [] && AllDigits(r)
    ensures |r| > 1 ==> r[0] != '0'
  {
    if n < 10 then [DigitChar(n)] else NatToString(n / 10) + [DigitChar(n % 10)]
  }

  /** `String(n)` / template interpolation of an integer. */
  function IntToString(n: int): (r: string)
    ensures r != []
    ensures n >= 0 ==> AllDigits(r)
    ensures n < 0 ==> r[0] == '-' && AllDigits(r[1..])
  {
    if n >= 0 then NatToString(n) else "-" + NatToString(-n)
  }

  lemma {:induction false} NatToStringValue(n: nat)
    ensures DigitsValue(NatToString(n)) == n
  {
    if n >= 10 {
      var s := NatToString(n);
      assert s[..|s| - 1] == NatToString(n / 10);
      NatToStringValue(n / 10);
    }
  }

  /** The length of the longest prefix of `s` made of digits. */
  function LeadingDigits(s: string): (k: nat)
    ensures k <= |s| && AllDigits(s[..k])
    ensures k < |s| ==> !IsDigit(s[k])
  {
    if s != [] && IsDigit(s[0]) then
      var k := 1 + LeadingDigits(s[1..]);
      assert s[..k] == [s[0]] + s[1..][..k - 1];
      k
    else 0
  }

  lemma {:induction false} LeadingDigitsAll(s: string)
    requires AllDigits(s)
    ensures LeadingDigits(s) == |s|
  {
    if s != [] {
      LeadingDigitsAll(s[1..]);
    }
  }

  /** What `Number.parseInt` yields: an integer or `NaN`. */
  datatype ParsedInt = NaN | Int(value: int)

  predicate IsSign(c: char) {
    c == '+' || c == '-'
  }

  /** A string `parseInt` reads a number from once white space is skipped: a digit, or a sign and a digit. */
  predicate StartsInteger(t: string) {
    (t != [] && IsDigit(t[0])) || (|t| >= 2 && IsSign(t[0]) && IsDigit(t[1]))
  }

  /**
   * `Number.parseInt(s)` in base 10: leading white space is skipped, an
   * optional sign is read, then the longest run of digits; no digits is NaN.
   */
  function ParseInt(s: string): (r: ParsedInt)
    ensures r.Int? <==> StartsInteger(TrimStart(s))
  {
    ReadInteger(TrimStart(s))
  }

  /** The sign and the longest run of digits at the start of `t`; no digits is NaN. */
  function ReadInteger(t: string): (r: ParsedInt)
    ensures r.Int? <==> StartsInteger(t)
  {
    var negative := t != [] && t[0] == '-';
    var body := if t != [] && IsSign(t[0]) then t[1..] else t;
    var k := LeadingDigits(body);
    if k == 0 then NaN
    else
      var v: int := DigitsValue(body[..k]);
      Int(if negative then -v else v)
  }

  /** A string of white space only, the empty one included, is `NaN`. */
  lemma ParseIntBlank(s: string)
    requires forall i :: 0 <= i < |s| ==> IsSpace(s[i])
    ensures ParseInt(s) == NaN
  {
    assert TrimStart(s) == [];
  }

  /** `parseInt` reads back what number-to-string writes. */
  lemma ParseIntOfIntToString(n: int)
    ensures ParseInt(IntToString(n)) == Int(n)
  {
    var m: nat := if n >= 0 then n else -n;
    var digits := NatToString(m);
    var s := IntToString(n);
    assert s[0] == '-' || IsDigit(s[0]);
    TrimStartUnchanged(s);
    var body := if n >= 0 then s else s[1..];
    assert body == digits;
    LeadingDigitsAll(digits);
    assert digits[..|digits|] == digits;
    NatToStringValue(m);
  }

  /** A run of white space in front of a text that does not start with white space is all `trim` drops. */
  lemma {:induction false} TrimStartSpaces(w: string, b: string)
    requires forall i :: 0 <= i < |w| ==> IsSpace(w[i])
    requires b == [] || !IsSpace(b[0])
    ensures TrimStart(w + b) == b
  {
    if w == [] {
      assert w + b == b;
    } else {
      assert (w + b)[1..] == w[1..] + b;
      TrimStartSpaces(w[1..], b);
    }
  }

  /** The digits in front of a text that does not continue with a digit are exactly those digits. */
  lemma LeadingDigitsPrefix(d: string, rest: string)
    requires AllDigits(d)
    requires rest == [] || !IsDigit(rest[0])
    ensures LeadingDigits(d + rest) == |d|
  {
    var s := d + rest;
    assert forall i :: 0 <= i < |d| ==> s[i] == d[i];
    assert rest != [] ==> s[|d|] == rest[0];
  }

  /** Neither a digit nor a sign is white space. */
  lemma DigitOrSignNotSpace(c: char)
    requires IsDigit(c) || IsSign(c)
    ensures !IsSpace(c)
  {
  }

  /** `parseInt` skips white space in front of a text that does not start with white space. */
  lemma ParseIntSkipsSpace(ws: string, t: string)
    requires forall i :: 0 <= i < |ws| ==> IsSpace(ws[i])
    requires t == [] || !IsSpace(t[0])
    ensures ParseInt(ws + t) == ParseInt(t)
  {
    TrimStartSpaces(ws, t);
    TrimStartUnchanged(t);
  }

  /** Unsigned digits followed by a rest that does not continue them are read as their value once white space is skipped. */
  lemma ReadIntegerUnsigned(d: string, rest: string)
    requires d != [] && AllDigits(d)
    requires rest == [] || !IsDigit(rest[0])
    ensures ReadInteger(d + rest) == Int(DigitsValue(d))
  {
    var t := d + rest;
    assert t[0] == d[0] && !IsSign(t[0]);
    LeadingDigitsPrefix(d, rest);
    assert t[..|d|] == d;
  }

  /** Digits followed by a rest that does not continue them read as their value. */
  lemma ParseIntUnsigned(d: string, rest: string)
    requires d != [] && AllDigits(d)
    requires rest == [] || !IsDigit(rest[0])
    ensures ParseInt(d + rest) == Int(DigitsValue(d))
  {
    var t := d + rest;
    assert t[0] == d[0];
    DigitOrSignNotSpace(t[0]);
    TrimStartUnchanged(t);
    ReadIntegerUnsigned(d, rest);
  }

  /** One sign in front of digits applies to their value. */
  lemma ParseIntSign(c: char, d: string, rest: string)
    requires IsSign(c)
    requires d != [] && AllDigits(d)
    requires rest == [] || !IsDigit(rest[0])
    ensures ParseInt([c] + (d + rest)) == Int(if c == '-' then -(DigitsValue(d) as int) else DigitsValue(d))
  {
    var t, body := [c] + (d + rest), d + rest;
    assert t[0] == c && t[1..] == body;
    DigitOrSignNotSpace(c);
    TrimStartUnchanged(t);
    assert body[0] == d[0];
    LeadingDigitsPrefix(d, rest);
    assert body[..|d|] == d;
  }

  /** `parseInt` of an optional sign, digits, and a rest that does not start with a digit. */
  lemma ParseIntSigned(sign: string, d: string, rest: string)
    requires sign == "" || sign == "+" || sign == "-"
    requires d != [] && AllDigits(d)
    requires rest == [] || !IsDigit(rest[0])
    ensures ParseInt(sign + d + rest) == Int(if sign == "-" then -(DigitsValue(d) as int) else DigitsValue(d))
  {
    if sign == "" {
      assert sign + d + rest == d + rest;
      ParseIntUnsigned(d, rest);
    } else {
      assert sign + d + rest == [sign[0]] + (d + rest);
      ParseIntSign(sign[0], d, rest);
    }
  }

  /**
   * What `parseInt` reads from a general text: leading white space is
   * skipped, an optional sign is applied to the longest run of digits, and
   * whatever follows the digits is ignored.
   */
  lemma ParseIntReads(ws: string, sign: string, d: string, rest: string)
    requires forall i :: 0 <= i < |ws| ==> IsSpace(ws[i])
    requires sign == "" || sign == "+" || sign == "-"
    requires d != [] && AllDigits(d)
    requires rest == [] || !IsDigit(rest[0])
    ensures ParseInt(ws + sign + d + rest) == Int(if sign == "-" then -(DigitsValue(d) as int) else DigitsValue(d))
  {
    var t := sign + d + rest;
    assert ws + sign + d + rest == ws + t;
    assert t[0] == (if sign == "" then d[0] else sign[0]);
    DigitOrSignNotSpace(t[0]);
    ParseIntSkipsSpace(ws, t);
    ParseIntSigned(sign, d, rest);
  }

  /** `parts.join(sep)`. */
  function Join(parts: seq<string>, sep: string): (r: string)
    ensures parts == [] ==> r == ""
    ensures |parts| == 1 ==> r == parts[0]
    ensures |parts| > 1 ==> parts[0] + sep <= r
  {
    if parts == [] then ""
    else if |parts| == 1 then parts[0]
    else parts[0] + sep + Join(parts[1..], sep)
  }

  /** Joining two non-empty runs of parts puts one separator between their joins. */
  lemma {:induction false} JoinAppend(a: seq<string>, b: seq<string>, sep: string)
    requires a != [] && b != []
    ensures Join(a + b, sep) == Join(a, sep) + sep + Join(b, sep)
  {
    assert (a + b)[0] == a[0] && (a + b)[1..] == a[1..] + b;
    if |a| > 1 {
      JoinAppend(a[1..], b, sep);
      var x, y, z := Join(a[1..], sep), Join(b, sep), a[0] + sep;
      assert Join(a + b, sep) == z + (x + sep + y);
      assert z + (x + sep + y) == (z + x) + sep + y;
    }
  }

  /** The number of occurrences of `c` in `s`. */
  function Count(c: char, s: string): (n: nat)
    ensures n <= |s|
  {
    if s == [] then 0 else (if s[0] == c then 1 else 0) + Count(c, s[1..])
  }

  lemma {:induction false} CountAppend(c: char, a: string, b: string)
    ensures Count(c, a + b) == Count(c, a) + Count(c, b)
  {
    if a == [] {
      assert a + b == b;
    } else {
      assert (a + b)[1..] == a[1..] + b;
      CountAppend(c, a[1..], b);
    }
  }

  /** The number of `c` in all of `parts`. */
  function CountAll(c: char, parts: seq<string>): nat {
    if parts == [] then 0 else Count(c, parts[0]) + CountAll(c, parts[1..])
  }

  /** Joining with a separator that holds no `c` adds no `c`. */
  lemma {:induction false} CountJoinPlain(c: char, parts: seq<string>, sep: string)
    requires Count(c, sep) == 0
    ensures Count(c, Join(parts, sep)) == CountAll(c, parts)
  {
    if |parts| == 1 {
      assert parts[1..] == [];
    } else if |parts| > 1 {
      var rest := Join(parts[1..], sep);
      CountAppend(c, parts[0], sep);
      CountAppend(c, parts[0] + sep, rest);
      CountJoinPlain(c, parts[1..], sep);
    }
  }

  /** Joining with the one-character separator `c` adds one `c` between each two parts. */
  lemma {:induction false} CountJoinSeparator(c: char, parts: seq<string>)
    requires parts != []
    ensures Count(c, Join(parts, [c])) == CountAll(c, parts) + |parts| - 1
  {
    if |parts| == 1 {
      assert parts[1..] == [];
    } else {
      var rest := Join(parts[1..], [c]);
      CountAppend(c, parts[0], [c]);
      CountAppend(c, parts[0] + [c], rest);
      CountJoinSeparator(c, parts[1..]);
    }
  }

  /** What one character of a text becomes, given whether the character after it is white space. */
  function RunPiece(c: char, nextIsSpace: bool): (r: string)
  {
    if !IsSpace(c) then [c] else if nextIsSpace then "" else "_"
  }

  /**
   * `s.replace(/\s+/g, "_")`, character by character: a white-space
   * character that ends a run becomes `_`, the rest of the run vanishes, and
   * every other character is kept.
   */
  function ReplaceSpaceRuns(s: string): (r: string)
  {
    if |s| == 0 then "" else RunPiece(s[0], |s| > 1 && IsSpace(s[1])) + ReplaceSpaceRuns(s[1..])
  }

  /**
   * The rewritten text holds no white space, is no longer than the original,
   * and a text without white space is left as it is.
   */
  lemma ReplaceSpaceRunsShape(s: string)
    ensures NoSpace(ReplaceSpaceRuns(s))
    ensures |ReplaceSpaceRuns(s)| <= |s|
    ensures NoSpace(s) ==> ReplaceSpaceRuns(s) == s
  {
    ReplaceSpaceRunsClean(s);
    if NoSpace(s) {
      ReplaceSpaceRunsKeeps(s);
    }
  }

  /** No white space is left, and nothing is added. */
  lemma {:induction false} ReplaceSpaceRunsClean(s: string)
    ensures NoSpace(ReplaceSpaceRuns(s)) && |ReplaceSpaceRuns(s)| <= |s|
  {
    if s != [] {
      ReplaceSpaceRunsClean(s[1..]);
      var p, q := RunPiece(s[0], |s| > 1 && IsSpace(s[1])), ReplaceSpaceRuns(s[1..]);
      assert forall i :: 0 <= i < |p + q| ==> (p + q)[i] == if i < |p| then p[i] else q[i - |p|];
    }
  }

  /** A text without white space is left as it is. */
  lemma {:induction false} ReplaceSpaceRunsKeeps(s: string)
    requires NoSpace(s)
    ensures ReplaceSpaceRuns(s) == s
  {
    if s != [] {
      assert NoSpace(s[1..]);
      ReplaceSpaceRunsKeeps(s[1..]);
      assert [s[0]] + s[1..] == s;
    }
  }

  /** Regrouping a concatenation of three texts. */
  lemma Regroup(p: string, q: string, r: string, whole: string, left: string)
    requires whole == p + (q + r) && left == p + q
    ensures whole == left + r
  {
  }

  /** The first character of a non-empty text and the rest are rewritten one after the other. */
  lemma ReplaceSpaceRunsCons(s: string)
    requires s != []
    ensures ReplaceSpaceRuns(s) == RunPiece(s[0], |s| > 1 && IsSpace(s[1])) + ReplaceSpaceRuns(s[1..])
  {
  }

  /**
   * One character of `x` is rewritten the same way whether `y` follows it or
   * not, as long as the two do not both touch white space where they meet.
   */
  lemma ReplaceSpaceRunsUnfold(x: string, y: string)
    requires x != []
    requires y == [] || !IsSpace(x[|x| - 1]) || !IsSpace(y[0])
    ensures ReplaceSpaceRuns(x + y) == RunPiece(x[0], |x| > 1 && IsSpace(x[1])) + ReplaceSpaceRuns(x[1..] + y)
  {
    var s := x + y;
    ReplaceSpaceRunsCons(s);
    assert s[0] == x[0];
    assert s[1..] == x[1..] + y;
    if |x| > 1 {
      assert s[1] == x[1];
    } else if y != [] {
      assert s[1] == y[0];
    }
  }

  /** Two pieces that do not both touch white space where they meet are rewritten on their own. */
  lemma {:induction false} ReplaceSpaceRunsAppend(x: string, y: string)
    requires x == [] || y == [] || !IsSpace(x[|x| - 1]) || !IsSpace(y[0])
    ensures ReplaceSpaceRuns(x + y) == ReplaceSpaceRuns(x) + ReplaceSpaceRuns(y)
  {
    if x == [] {
      assert x + y == y;
    } else {
      assert x[1..] != [] ==> x[1..][|x[1..]| - 1] == x[|x| - 1];
      ReplaceSpaceRunsAppend(x[1..], y);
      ReplaceSpaceRunsCons(x);
      ReplaceSpaceRunsUnfold(x, y);
      Regroup(RunPiece(x[0], |x| > 1 && IsSpace(x[1])), ReplaceSpaceRuns(x[1..]), ReplaceSpaceRuns(y),
              ReplaceSpaceRuns(x + y), ReplaceSpaceRuns(x));
    }
  }

  /** A non-empty run of white space alone becomes one `_`. */
  lemma {:induction false} ReplaceSpaceRunsOfRun(w: string)
    requires w != [] && forall i :: 0 <= i < |w| ==> IsSpace(w[i])
    ensures ReplaceSpaceRuns(w) == "_"
  {
    if |w| > 1 {
      ReplaceSpaceRunsOfRun(w[1..]);
    }
  }

  /**
   * `replace(/\s+/g, "_")` turns one maximal run of white space into exactly
   * one `_` and rewrites the pieces on either side of it on their own.
   */
  lemma ReplaceSpaceRunsSplit(a: string, w: string, b: string)
    requires a == [] || !IsSpace(a[|a| - 1])
    requires w != [] && forall i :: 0 <= i < |w| ==> IsSpace(w[i])
    requires b == [] || !IsSpace(b[0])
    ensures ReplaceSpaceRuns(a + w + b) == ReplaceSpaceRuns(a) + "_" + ReplaceSpaceRuns(b)
  {
    assert a + w + b == a + (w + b);
    ReplaceSpaceRunsAround(a, w, b);
  }

  /** `ReplaceSpaceRunsSplit` with the text grouped as `a + (w + b)`. */
  lemma ReplaceSpaceRunsAround(a: string, w: string, b: string)
    requires a == [] || !IsSpace(a[|a| - 1])
    requires w != [] && forall i :: 0 <= i < |w| ==> IsSpace(w[i])
    requires b == [] || !IsSpace(b[0])
    ensures ReplaceSpaceRuns(a + (w + b)) == ReplaceSpaceRuns(a) + "_" + ReplaceSpaceRuns(b)
  {
    ReplaceSpaceRunsOfRun(w);
    ReplaceSpaceRunsAppend(w, b);
    ReplaceSpaceRunsAppend(a, w + b);
    Regroup(ReplaceSpaceRuns(a), "_", ReplaceSpaceRuns(b), ReplaceSpaceRuns(a + (w + b)), ReplaceSpaceRuns(a) + "_");
  }
}
