/** Python string operations the core relies on, over `string == seq<char>`. */
module PyStrings {
  import opened Wrappers

  /** `s.split(c)`: the pieces between occurrences of `c`, never an empty list.
      Defined from the right, one character at a time. */
  function Split(s: string, c: char): (r: seq<string>)
    ensures |r| >= 1
    decreases |s|
  {
    if |s| == 0 then [""]
    else
      var pre := Split(s[..|s| - 1], c);
      var x := s[|s| - 1];
      if x == c then pre + [""]
      else pre[..|pre| - 1] + [pre[|pre| - 1] + [x]]
  }

  /** `c.join(parts)`. */
  function Join(parts: seq<string>, c: char): string
    decreases |parts|
  {
    if |parts| == 0 then ""
    else if |parts| == 1 then parts[0]
    else Join(parts[..|parts| - 1], c) + [c] + parts[|parts| - 1]
  }

  /** Joining the pieces of a split gives back the string. */
  lemma {:induction false} JoinSplit(s: string, c: char)
    ensures Join(Split(s, c), c) == s
    decreases |s|
  {
    if |s| > 0 {
      var s' := s[..|s| - 1];
      var x := s[|s| - 1];
      assert s == s' + [x];
      var pre := Split(s', c);
      JoinSplit(s', c);
      if x == c {
        var r := pre + [""];
        assert r[..|r| - 1] == pre;
      } else {
        var r := pre[..|pre| - 1] + [pre[|pre| - 1] + [x]];
        assert r[..|r| - 1] == pre[..|pre| - 1];
        if |pre| > 1 {
          assert Join(pre, c) == Join(pre[..|pre| - 1], c) + [c] + pre[|pre| - 1];
        }
      }
    }
  }

  /** No piece of a split contains the separator. */
  lemma {:induction false} SplitPiecesFree(s: string, c: char)
    ensures forall k :: 0 <= k < |Split(s, c)| ==> c !in Split(s, c)[k]
    decreases |s|
  {
    if |s| > 0 {
      SplitPiecesFree(s[..|s| - 1], c);
    }
  }

  /** A string without the separator splits into itself alone. */
  lemma {:induction false} SplitWithoutSeparator(s: string, c: char)
    requires c !in s
    ensures Split(s, c) == [s]
    decreases |s|
  {
    if |s| > 0 {
      var s' := s[..|s| - 1];
      assert s == s' + [s[|s| - 1]];
      SplitWithoutSeparator(s', c);
    }
  }

  /** One more character either starts a new piece or extends the last one. */
  lemma SplitSnoc(s: string, x: char, c: char)
    ensures Split(s + [x], c) == SplitStep(Split(s, c), x, c)
  {
    assert (s + [x])[..|s|] == s;
  }

  function SplitStep(pre: seq<string>, x: char, c: char): seq<string>
    requires |pre| >= 1
  {
    if x == c then pre + [""] else pre[..|pre| - 1] + [pre[|pre| - 1] + [x]]
  }

  lemma SplitStepAppend(p: seq<string>, q: seq<string>, x: char, c: char)
    requires |p| >= 1 && |q| >= 1
    ensures SplitStep(p + q, x, c) == p + SplitStep(q, x, c)
  {
    if x != c {
      assert (p + q)[..|p + q| - 1] == p + q[..|q| - 1];
    }
  }

  /** Splitting at a separator occurrence splits the two sides independently. */
  lemma {:induction false} SplitAtSeparator(a: string, b: string, c: char)
    ensures Split(a + [c] + b, c) == Split(a, c) + Split(b, c)
    decreases |b|
  {
    if |b| == 0 {
      assert a + [c] + b == a + [c];
      SplitSnoc(a, c, c);
    } else {
      var b' := b[..|b| - 1];
      var x := b[|b| - 1];
      assert a + [c] + b == (a + [c] + b') + [x];
      assert b == b' + [x];
      SplitAtSeparator(a, b', c);
      SplitSnoc(a + [c] + b', x, c);
      SplitSnoc(b', x, c);
      SplitStepAppend(Split(a, c), Split(b', c), x, c);
    }
  }

  /** `s.startswith(p)`. */
  predicate StartsWith(s: string, p: string) {
    |p| <= |s| && s[..|p|] == p
  }

  /** `s.endswith(p)`. */
  predicate EndsWith(s: string, p: string) {
    |p| <= |s| && s[|s| - |p|..] == p
  }

  /** `sub in s`. */
  predicate Contains(s: string, sub: string)
    decreases |s|
  {
    StartsWith(s, sub) || (|s| > 0 && Contains(s[1..], sub))
  }

  /** `sub` occurs in `s` starting at position `i`. */
  predicate OccursAt(s: string, sub: string, i: int) {
    0 <= i <= |s| - |sub| && s[i..i + |sub|] == sub
  }

  /** `Contains` holds exactly when `sub` occurs at some position of `s`. */
  lemma {:induction false} ContainsAt(s: string, sub: string)
    ensures Contains(s, sub) <==> exists i :: OccursAt(s, sub, i)
    decreases |s|
  {
    if StartsWith(s, sub) {
      assert OccursAt(s, sub, 0);
    } else if |s| > 0 {
      ContainsAt(s[1..], sub);
      if Contains(s[1..], sub) {
        var i :| OccursAt(s[1..], sub, i);
        assert s[i + 1..i + 1 + |sub|] == s[1..][i..i + |sub|];
        assert OccursAt(s, sub, i + 1);
      }
      if exists i :: OccursAt(s, sub, i) {
        var i :| OccursAt(s, sub, i);
        assert i != 0;
        assert s[1..][i - 1..i - 1 + |sub|] == s[i..i + |sub|];
        assert OccursAt(s[1..], sub, i - 1);
      }
    }
  }

  /** `os.path.split(p)[1]`: what follows the last `/`. */
  function Basename(p: string): string {
    var parts := Split(p, '/');
    parts[|parts| - 1]
  }

  /** The last name of a path ending in `/name` is that name. */
  lemma BasenameOfLastName(dir: string, name: string)
    requires '/' !in name
    ensures Basename(dir + ['/'] + name) == name
  {
    SplitAtSeparator(dir, name, '/');
    SplitWithoutSeparator(name, '/');
  }

  /** A path without `/` is its own basename. */
  lemma BasenameOfName(name: string)
    requires '/' !in name
    ensures Basename(name) == name
  {
    SplitWithoutSeparator(name, '/');
  }

  /** `fn.split('.')[0]`: the file name up to its first dot. */
  function Stem(fn: string): string {
    Split(fn, '.')[0]
  }

  /** `os.path.split(path)[1].split('.')[0].split('_')`: the underscore tokens of a file's stem. */
  function NameTokens(path: string): (r: seq<string>)
    ensures |r| >= 1
  {
    Split(Stem(Basename(path)), '_')
  }

  /** `tokens[k]` in Python, which raises IndexError past the end. */
  function Token(tokens: seq<string>, k: nat): Result<string, PyError> {
    if k < |tokens| then Ok(tokens[k]) else Err(IndexError)
  }

  // Decimal digits, as `str(n)` and `int(s)` read and write them.

  predicate IsDigit(ch: char) {
    '0' <= ch <= '9'
  }

  predicate AllDigits(s: string) {
    forall k :: 0 <= k < |s| ==> IsDigit(s[k])
  }

  function DigitChar(d: int): (ch: char)
    requires 0 <= d < 10
    ensures IsDigit(ch)
  {
    (48 + d) as char
  }

  function DigitValue(ch: char): (d: int)
    requires IsDigit(ch)
    ensures 0 <= d < 10 && DigitChar(d) == ch
  {
    ch as int - 48
  }

  /** The value of a string of decimal digits, most significant first. */
  function DigitsValue(s: string): (n: nat)
    requires AllDigits(s)
    decreases |s|
  {
    if |s| == 0 then 0 else DigitsValue(s[..|s| - 1]) * 10 + DigitValue(s[|s| - 1])
  }

  /** The value of a two-digit string. */
  lemma TwoDigits(s: string)
    requires |s| == 2 && AllDigits(s)
    ensures DigitsValue(s) == 10 * DigitValue(s[0]) + DigitValue(s[1])
  {
    assert s[..1][..0] == [];
    assert DigitsValue(s[..1]) == DigitValue(s[0]);
  }

  /** `str(n)` for a non-negative integer: shortest decimal form. */
  function NatString(n: nat): (s: string)
    decreases n
  {
    if n < 10 then [DigitChar(n)] else NatString(n / 10) + [DigitChar(n % 10)]
  }

  /** `str(n)` for any integer. */
  function IntString(n: int): string {
    if n < 0 then "-" + NatString(-n) else NatString(n)
  }

  /** `int(s)` for an optionally signed string of decimal digits; anything else raises ValueError. */
  function ParseInt(s: string): Result<int, PyError> {
    if |s| > 0 && (s[0] == '-' || s[0] == '+') then
      if |s| > 1 && AllDigits(s[1..]) then
        var v: int := if s[0] == '-' then 0 - DigitsValue(s[1..]) as int else DigitsValue(s[1..]);
        Ok(v)
      else Err(ValueError)
    else if |s| > 0 && AllDigits(s) then Ok(DigitsValue(s))
    else Err(ValueError)
  }

  /** The shortest decimal form is a non-empty digit string denoting n. */
  lemma {:induction false} NatStringDigits(n: nat)
    ensures |NatString(n)| >= 1 && AllDigits(NatString(n)) && DigitsValue(NatString(n)) == n
    ensures n >= 1000 && n < 10000 ==> |NatString(n)| == 4
    decreases n
  {
    NatStringLength(n);
    if n >= 10 {
      NatStringDigits(n / 10);
      var p := NatString(n / 10);
      var d := DigitChar(n % 10);
      var s := NatString(n);
      assert s == p + [d];
      assert s[..|s| - 1] == p;
      assert forall k :: 0 <= k < |s| ==> s[k] == if k < |p| then p[k] else d;
      assert DigitValue(d) == n % 10;
      assert DigitsValue(s) == DigitsValue(p) * 10 + DigitValue(d);
    }
  }

  /** How many digits the shortest decimal form of a number below 10000 has. */
  lemma {:induction false} NatStringLength(n: nat)
    ensures n < 10 ==> |NatString(n)| == 1
    ensures 10 <= n < 100 ==> |NatString(n)| == 2
    ensures 100 <= n < 1000 ==> |NatString(n)| == 3
    ensures 1000 <= n < 10000 ==> |NatString(n)| == 4
    decreases n
  {
    if n >= 10 {
      NatStringLength(n / 10);
    }
  }

  /** `int(str(n)) == n`. */
  lemma ParseIntString(n: int)
    ensures ParseInt(IntString(n)) == Ok(n)
  {
    if n < 0 {
      NatStringDigits(-n);
      assert IntString(n)[1..] == NatString(-n);
    } else {
      NatStringDigits(n);
    }
  }

  /** `n` written with exactly `w` decimal digits, leading zeros included. */
  function PadDigits(n: nat, w: nat): (s: string)
    ensures |s| == w && AllDigits(s)
    decreases w
  {
    if w == 0 then "" else PadDigits(n / 10, w - 1) + [DigitChar(n % 10)]
  }

  /** A digit string is the padded form of its own value. */
  lemma {:induction false} PadDigitsValue(s: string)
    requires AllDigits(s)
    ensures PadDigits(DigitsValue(s), |s|) == s
    decreases |s|
  {
    if |s| > 0 {
      var s' := s[..|s| - 1];
      PadDigitsValue(s');
      var n := DigitsValue(s);
      assert n / 10 == DigitsValue(s');
      assert n % 10 == DigitValue(s[|s| - 1]);
      assert s == s' + [s[|s| - 1]];
    }
  }

  function Pow10(w: nat): (p: nat)
    ensures p >= 1
  {
    if w == 0 then 1 else 10 * Pow10(w - 1)
  }

  /** The padded form of `n < 10^w` denotes n. */
  lemma {:induction false} DigitsValuePad(n: nat, w: nat)
    requires n < Pow10(w)
    ensures DigitsValue(PadDigits(n, w)) == n
    decreases w
  {
    if w > 0 {
      assert n / 10 < Pow10(w - 1);
      DigitsValuePad(n / 10, w - 1);
      var s := PadDigits(n, w);
      assert s[..|s| - 1] == PadDigits(n / 10, w - 1);
    }
  }
}
