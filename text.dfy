/** The string operations the loader applies to each line: substring tests
    (`sub in line`), `str.replace`, `str.split(' ')`, `str.split()`, and the
    conversions `int(token)` and `float(token)` for plain decimal tokens. */
module Text {
  import opened Common

  /** `sub` occurs in `s` starting at index `i`. */
  ghost predicate OccursAt(s: string, sub: string, i: int) {
    0 <= i && i + |sub| <= |s| && s[i..i + |sub|] == sub
  }

  /** Python's `sub in s`. */
  predicate Contains(s: string, sub: string)
    decreases |s|
  {
    if |sub| > |s| then false
    else s[..|sub|] == sub || Contains(s[1..], sub)
  }

  lemma {:induction false} ContainsIff(s: string, sub: string)
    ensures Contains(s, sub) <==> exists i :: OccursAt(s, sub, i)
    decreases |s|
  {
    if |sub| > |s| {
      forall i | OccursAt(s, sub, i) ensures false {
      }
    } else if s[..|sub|] == sub {
      assert OccursAt(s, sub, 0);
    } else {
      ContainsIff(s[1..], sub);
      if Contains(s[1..], sub) {
        var i :| OccursAt(s[1..], sub, i);
        assert s[1..][i..i + |sub|] == s[i + 1..i + 1 + |sub|];
        assert OccursAt(s, sub, i + 1);
      }
      if exists i :: OccursAt(s, sub, i) {
        var i :| OccursAt(s, sub, i);
        assert i != 0;
        assert s[1..][i - 1..i - 1 + |sub|] == s[i..i + |sub|];
        assert OccursAt(s[1..], sub, i - 1);
      }
    }
  }

  /** A substring of either half is a substring of the concatenation. */
  lemma ContainsInConcat(a: string, b: string, sub: string)
    requires Contains(a, sub) || Contains(b, sub)
    ensures Contains(a + b, sub)
  {
    ContainsIff(a, sub);
    ContainsIff(b, sub);
    ContainsIff(a + b, sub);
    if Contains(a, sub) {
      var i :| OccursAt(a, sub, i);
      assert (a + b)[i..i + |sub|] == a[i..i + |sub|];
      assert OccursAt(a + b, sub, i);
    } else {
      var i :| OccursAt(b, sub, i);
      assert (a + b)[|a| + i..|a| + i + |sub|] == b[i..i + |sub|];
      assert OccursAt(a + b, sub, |a| + i);
    }
  }

  /** A string lacking one of the characters of `sub` does not contain `sub`. */
  lemma MissingCharExcludes(s: string, sub: string, c: char)
    requires c in sub && c !in s
    ensures !Contains(s, sub)
  {
    ContainsIff(s, sub);
  }

  /** Python's `s.replace(from, to)` for single characters. */
  function ReplaceChar(s: string, from: char, to: char): (r: string)
    ensures |r| == |s|
    decreases |s|
  {
    if |s| == 0 then []
    else [if s[0] == from then to else s[0]] + ReplaceChar(s[1..], from, to)
  }

  /** Python's `s.split(sep)` with an explicit one-character separator:
      every occurrence separates, empty parts are kept. */
  function Split(s: string, sep: char): (parts: seq<string>)
    ensures |parts| >= 1
    decreases |s|
  {
    if |s| == 0 then [""]
    else
      var rest := Split(s[1..], sep);
      if s[0] == sep then [""] + rest
      else [[s[0]] + rest[0]] + rest[1..]
  }

  /** Python's `sep.join(parts)`. */
  function Join(parts: seq<string>, sep: char): string
    requires |parts| >= 1
    decreases |parts|
  {
    if |parts| == 1 then parts[0] else parts[0] + [sep] + Join(parts[1..], sep)
  }

  /** Splitting loses nothing: joining the parts gives the string back, and no
      part holds the separator. */
  lemma {:induction false} JoinSplit(s: string, sep: char)
    ensures Join(Split(s, sep), sep) == s
    ensures forall p :: p in Split(s, sep) ==> sep !in p
    decreases |s|
  {
    if |s| > 0 {
      JoinSplit(s[1..], sep);
      var rest := Split(s[1..], sep);
      if s[0] == sep {
        assert Split(s, sep)[1..] == rest;
      } else {
        var parts := Split(s, sep);
        if |rest| > 1 {
          assert parts[1..] == rest[1..];
          assert Join(rest, sep) == rest[0] + [sep] + Join(rest[1..], sep);
        }
        assert s == [s[0]] + s[1..];
      }
    }
  }

  lemma {:induction false} SplitPrefix(p: string, t: string, sep: char)
    requires sep !in p
    ensures Split(p + t, sep) == [p + Split(t, sep)[0]] + Split(t, sep)[1..]
    decreases |p|
  {
    if |p| > 0 {
      var u := p + t;
      assert u[0] == p[0] && p[0] != sep;
      assert u[1..] == p[1..] + t;
      SplitPrefix(p[1..], t, sep);
      var st := Split(t, sep);
      var rest := Split(u[1..], sep);
      assert Split(u, sep) == [[p[0]] + rest[0]] + rest[1..];
      Reassociate([p[0]], p[1..], st[0]);
      assert [p[0]] + p[1..] == p;
    } else {
      var st := Split(t, sep);
      assert p + t == t;
      assert p + st[0] == st[0];
      assert st == [st[0]] + st[1..];
    }
  }

  /** Joining parts that hold no separator and splitting again gives the
      parts back. */
  lemma {:induction false} SplitJoin(parts: seq<string>, sep: char)
    requires |parts| >= 1
    requires forall p :: p in parts ==> sep !in p
    ensures Split(Join(parts, sep), sep) == parts
    decreases |parts|
  {
    if |parts| == 1 {
      SplitPrefix(parts[0], "", sep);
      assert parts[0] + "" == parts[0];
    } else {
      SplitJoin(parts[1..], sep);
      var tail := [sep] + Join(parts[1..], sep);
      assert Join(parts, sep) == parts[0] + tail;
      SplitPrefix(parts[0], tail, sep);
      assert tail[1..] == Join(parts[1..], sep);
      assert Split(tail, sep) == [""] + parts[1..];
      assert parts[0] + Split(tail, sep)[0] == parts[0];
      assert Split(tail, sep)[1..] == parts[1..];
      assert parts == [parts[0]] + parts[1..];
    }
  }

  /** The tokenisation the loader applies to a line:
      `line.replace('\t', ' ').split(' ')` (lines carry no newline here). */
  function Tokens(line: string): seq<string> {
    Split(ReplaceChar(line, '\t', ' '), ' ')
  }

  /** The whitespace characters of `str.split()` (ASCII ones). */
  predicate IsSpace(c: char) {
    c == ' ' || c == '\t' || c == '\n' || c == '\r' || c as int == 11 || c as int == 12
  }

  predicate NoSpace(w: string) {
    forall i :: 0 <= i < |w| ==> !IsSpace(w[i])
  }

  /** The non-whitespace characters of `s`, in order. */
  function Visible(s: string): string
    decreases |s|
  {
    if |s| == 0 then "" else (if IsSpace(s[0]) then "" else [s[0]]) + Visible(s[1..])
  }

  function Concat(ws: seq<string>): string
    decreases |ws|
  {
    if |ws| == 0 then "" else ws[0] + Concat(ws[1..])
  }

  /** Python's `s.split()`: maximal runs of non-whitespace characters. */
  function Words(s: string): (ws: seq<string>)
    ensures |s| > 0 && !IsSpace(s[0]) ==> |ws| > 0
    ensures forall k :: 0 <= k < |ws| ==> ws[k] != "" && NoSpace(ws[k])
    decreases |s|
  {
    if |s| == 0 then []
    else if IsSpace(s[0]) then Words(s[1..])
    else
      var rest := Words(s[1..]);
      if |s| > 1 && !IsSpace(s[1]) then
        [[s[0]] + rest[0]] + rest[1..]
      else
        [[s[0]]] + rest
  }

  /** Splitting loses no visible character and invents none. */
  lemma {:induction false} WordsVisible(s: string)
    ensures Concat(Words(s)) == Visible(s)
    decreases |s|
  {
    if |s| > 0 {
      WordsVisible(s[1..]);
      var rest := Words(s[1..]);
      if !IsSpace(s[0]) && |s| > 1 && !IsSpace(s[1]) {
        var ws := Words(s);
        assert ws[1..] == rest[1..];
        assert Concat(rest) == rest[0] + Concat(rest[1..]);
        assert Concat(ws) == ([s[0]] + rest[0]) + Concat(rest[1..]);
      } else if !IsSpace(s[0]) {
        var ws := Words(s);
        assert ws[1..] == rest;
      }
    }
  }

  predicate IsDigit(c: char) {
    '0' <= c <= '9'
  }

  /** The length of the run of digits that starts at `s[i]`. */
  function DigitRun(s: string, i: nat): (n: nat)
    requires i <= |s|
    ensures i + n <= |s|
    decreases |s| - i
  {
    if i < |s| && IsDigit(s[i]) then 1 + DigitRun(s, i + 1) else 0
  }

  /** The value of the `n` decimal digits `s[i..i + n]`, most significant
      first. */
  function DigitsAt(s: string, i: nat, n: nat): int
    requires i + n <= |s|
    decreases n
  {
    if n == 0 then 0 else DigitsAt(s, i, n - 1) * 10 + ((s[i + n - 1] as int) - ('0' as int))
  }

  /** The decimal digits of `n`, without leading zeros. */
  function NatToDigits(n: nat): string
    decreases n
  {
    var d := [(('0' as int) + n % 10) as char];
    if n < 10 then d else NatToDigits(n / 10) + d
  }

  /** Python's `str(i)` for an integer. */
  function IntToString(i: int): string {
    if i < 0 then "-" + NatToDigits(-i) else NatToDigits(i)
  }

  /** Python's `int(...)` of the suffix `s[j..]`: an optional sign and at
      least one decimal digit, nothing else. */
  function ParseIntFrom(s: string, j: nat): Option<int>
    requires j <= |s|
  {
    var signed := j < |s| && (s[j] == '-' || s[j] == '+');
    var start := if signed then j + 1 else j;
    var n := |s| - start;
    if n > 0 && DigitRun(s, start) == n then
      var v := DigitsAt(s, start, n);
      Some(if signed && s[j] == '-' then -v else v)
    else None
  }

  /** Python's `int(s)` for a token. */
  function ParseInt(s: string): (r: Option<int>)
    ensures r.Some? ==> |s| > 0
  {
    ParseIntFrom(s, 0)
  }

  /** Digits that run to the end of `p` still do so once `t` follows. */
  lemma {:induction false} DigitRunAppend(p: string, t: string, i: nat)
    requires i <= |p| && DigitRun(p, i) == |p| - i
    ensures DigitRun(p + t, i) == |p| - i + DigitRun(t, 0)
    decreases |p| - i
  {
    if i < |p| {
      DigitRunAppend(p, t, i + 1);
    } else {
      DigitRunShift(p, t, 0);
    }
  }

  /** Scanning `a + t` past `a` scans `t`. */
  lemma {:induction false} DigitRunShift(a: string, t: string, i: nat)
    requires i <= |t|
    ensures DigitRun(a + t, |a| + i) == DigitRun(t, i)
    decreases |t| - i
  {
    if i < |t| {
      DigitRunShift(a, t, i + 1);
    }
  }

  lemma {:induction false} DigitsAtShift(a: string, t: string, i: nat, n: nat)
    requires i + n <= |t|
    ensures DigitsAt(a + t, |a| + i, n) == DigitsAt(t, i, n)
    decreases n
  {
    if n > 0 {
      DigitsAtShift(a, t, i, n - 1);
    }
  }

  lemma {:induction false} DigitsAtPrefix(p: string, t: string, i: nat, n: nat)
    requires i + n <= |p|
    ensures DigitsAt(p + t, i, n) == DigitsAt(p, i, n)
    decreases n
  {
    if n > 0 {
      DigitsAtPrefix(p, t, i, n - 1);
    }
  }

  /** `NatToDigits(n)` is all digits and reads back as `n`. */
  lemma {:induction false} NatToDigitsCorrect(n: nat)
    ensures var ds := NatToDigits(n);
      |ds| > 0 && DigitRun(ds, 0) == |ds| && DigitsAt(ds, 0, |ds|) == n
    decreases n
  {
    var d := [(('0' as int) + n % 10) as char];
    if n >= 10 {
      var p := NatToDigits(n / 10);
      NatToDigitsCorrect(n / 10);
      assert NatToDigits(n) == p + d;
      DigitRunAppend(p, d, 0);
      DigitsAtPrefix(p, d, 0, |p|);
    }
  }

  /** `int(str(i)) == i`. */
  lemma IntToStringRoundTrip(i: int)
    ensures ParseInt(IntToString(i)) == Some(i)
  {
    var ds := NatToDigits(if i < 0 then -i else i);
    NatToDigitsCorrect(if i < 0 then -i else i);
    if i < 0 {
      DigitRunShift("-", ds, 0);
      DigitsAtShift("-", ds, 0, |ds|);
    }
  }

  function Pow10(k: nat): (p: nat)
    ensures p >= 1
  {
    if k == 0 then 1 else 10 * Pow10(k - 1)
  }

  function Scale10(x: real, e: int): real {
    if e >= 0 then x * (Pow10(e) as real) else x / (Pow10(-e) as real)
  }

  /** The exponent part of a float literal starting at `s[j]`: nothing, or
      `e`/`E` and an integer. */
  function ExponentAt(s: string, j: nat): Option<int>
    requires j <= |s|
  {
    if j == |s| then Some(0)
    else if s[j] == 'e' || s[j] == 'E' then ParseIntFrom(s, j + 1)
    else None
  }

  /** Python's `float(s)` for decimal tokens: an optional sign, digits with an
      optional fraction (at least one digit overall), an optional exponent. */
  function ParseFloat(s: string): Option<real> {
    var signed := |s| > 0 && (s[0] == '-' || s[0] == '+');
    var start := if signed then 1 else 0;
    var k := DigitRun(s, start);
    var dot := start + k;
    var hasDot := dot < |s| && s[dot] == '.';
    var fracStart := if hasDot then dot + 1 else dot;
    var f := if hasDot then DigitRun(s, fracStart) else 0;
    if k + f == 0 then None
    else
      match ExponentAt(s, fracStart + f)
      case None => None
      case Some(e) =>
        var mantissa := DigitsAt(s, start, k) * Pow10(f) + DigitsAt(s, fracStart, f);
        var m := Scale10((mantissa as real) / (Pow10(f) as real), e);
        Some(if signed && s[0] == '-' then -m else m)
  }

  /** `float(str(i)) == i` for every integer. */
  lemma IntToStringParsesAsFloat(i: int)
    ensures ParseFloat(IntToString(i)) == Some(i as real)
  {
    var v := if i < 0 then -i else i;
    var ds := NatToDigits(v);
    NatToDigitsCorrect(v);
    if i < 0 {
      DigitRunShift("-", ds, 0);
      DigitsAtShift("-", ds, 0, |ds|);
      DigitsParseAsFloat(IntToString(i), 1, v);
    } else {
      DigitsParseAsFloat(IntToString(i), 0, v);
    }
  }

  /** An optional minus sign followed by digits only reads as their value. */
  lemma {:induction false} DigitsParseAsFloat(s: string, start: nat, v: nat)
    requires start < |s| && (start == 0 || (start == 1 && s[0] == '-'))
    requires start == 0 ==> IsDigit(s[0])
    requires DigitRun(s, start) == |s| - start && DigitsAt(s, start, |s| - start) == v
    ensures ParseFloat(s) == Some(if start == 1 then -(v as real) else v as real)
  {
    assert ExponentAt(s, |s|) == Some(0);
    assert Scale10((v as real) / (Pow10(0) as real), 0) == v as real;
  }
}
