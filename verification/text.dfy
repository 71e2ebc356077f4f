/** Python string primitives the application relies on, stated over `seq<char>`:
    `str.find` / `str.rfind` for one character, slicing, the `in` substring test,
    `str.split()` with no separator, `str.join`, splitting on one character and
    the decimal rendering of an integer by an f-string. */
module Text {

  // ---------------------------------------------------------------------------
  // find / rfind
  // ---------------------------------------------------------------------------

  /** `i` is the index of the first occurrence of `c` in `s`. */
  ghost predicate FirstAt(s: string, c: char, i: int) {
    0 <= i < |s| && s[i] == c && c !in s[..i]
  }

  /** `j` is the index of the last occurrence of `c` in `s`. */
  ghost predicate LastAt(s: string, c: char, j: int) {
    0 <= j < |s| && s[j] == c && c !in s[j + 1..]
  }

  /** `s.find(c)`: the index of the first `c`, or -1 when there is none. */
  function Find(s: string, c: char): (r: int)
    ensures -1 <= r < |s|
    ensures r == -1 <==> c !in s
    ensures r != -1 ==> FirstAt(s, c, r)
  {
    if |s| == 0 then -1
    else if s[0] == c then 0
    else
      var k := Find(s[1..], c);
      assert s == [s[0]] + s[1..];
      if k == -1 then -1
      else
        assert s[..k + 1] == [s[0]] + s[1..][..k];
        k + 1
  }

  /** `s.rfind(c)`: the index of the last `c`, or -1 when there is none. */
  function RFind(s: string, c: char): (r: int)
    ensures -1 <= r < |s|
    ensures r == -1 <==> c !in s
    ensures r != -1 ==> LastAt(s, c, r)
  {
    if |s| == 0 then -1
    else if s[|s| - 1] == c then |s| - 1
    else
      var k := RFind(s[..|s| - 1], c);
      assert s == s[..|s| - 1] + [s[|s| - 1]];
      if k == -1 then -1
      else
        assert s[k + 1..] == s[..|s| - 1][k + 1..] + [s[|s| - 1]];
        k
  }

  /** A character occurs first at one index only. */
  lemma FirstAtUnique(s: string, c: char, i: int, i': int)
    requires FirstAt(s, c, i) && FirstAt(s, c, i')
    ensures i == i'
  {
  }

  /** A character occurs last at one index only. */
  lemma LastAtUnique(s: string, c: char, j: int, j': int)
    requires LastAt(s, c, j) && LastAt(s, c, j')
    ensures j == j'
  {
  }

  // ---------------------------------------------------------------------------
  // slicing and the `in` test
  // ---------------------------------------------------------------------------

  /** `s[i:j]` for indices inside the string: empty when `j <= i`. */
  function PySlice(s: string, i: nat, j: nat): (r: string)
    requires i <= |s| && j <= |s|
    ensures |r| == if i <= j then j - i else 0
    ensures forall k :: 0 <= k < |r| ==> r[k] == s[i + k]
  {
    if i <= j then s[i..j] else []
  }

  /** `pat` occurs in `s` starting at index `i`. */
  ghost predicate OccursAt(s: string, pat: string, i: int) {
    0 <= i && i + |pat| <= |s| && s[i..i + |pat|] == pat
  }

  /** Python's `pat in s` for two strings. */
  function Contains(s: string, pat: string): (b: bool)
    ensures b <==> exists i :: OccursAt(s, pat, i)
    decreases |s|
  {
    if |s| < |pat| then
      assert forall i :: !OccursAt(s, pat, i);
      false
    else if s[..|pat|] == pat then
      assert OccursAt(s, pat, 0);
      true
    else
      var b := Contains(s[1..], pat);
      if b then
        assert exists j :: OccursAt(s, pat, j) by {
          var i :| OccursAt(s[1..], pat, i);
          assert s[1..][i..i + |pat|] == s[i + 1..i + 1 + |pat|];
          assert OccursAt(s, pat, i + 1);
        }
        true
      else
        assert forall i :: OccursAt(s, pat, i) ==> OccursAt(s[1..], pat, i - 1) by {
          forall i | OccursAt(s, pat, i)
            ensures OccursAt(s[1..], pat, i - 1)
          {
            assert i != 0;
            assert s[1..][i - 1..i - 1 + |pat|] == s[i..i + |pat|];
          }
        }
        false
  }

  /** `s.endswith(suffix)`. */
  predicate EndsWith(s: string, suffix: string) {
    |suffix| <= |s| && s[|s| - |suffix|..] == suffix
  }

  /** A string ends with what was appended last. */
  lemma EndsWithAppend(s: string, t: string)
    ensures EndsWith(s + t, t)
  {
    assert (s + t)[|s|..] == t;
  }

  /** A text framed by `head` and `tail` starts with the one and ends with the other. */
  lemma Framed(head: string, middle: string, tail: string)
    ensures head <= head + middle + tail
    ensures EndsWith(head + middle + tail, tail)
  {
    assert (head + middle + tail)[..|head|] == head;
    EndsWithAppend(head + middle, tail);
  }

  /** Appending pieces one after another is appending the rest to the first. */
  lemma Regroup(x0: string, x1: string, x2: string, x3: string, x4: string, x5: string)
    ensures x0 + (x1 + x2 + x3 + x4) + x5 == x0 + (x1 + (x2 + (x3 + (x4 + (x5 + "")))))
  {
    assert x5 + "" == x5;
    assert x4 + x5 == x4 + (x5 + "");
  }

  /** An occurrence inside a piece is an occurrence inside any text around it. */
  lemma OccursInContext(x: string, s: string, y: string, pat: string, i: int)
    requires OccursAt(s, pat, i)
    ensures OccursAt(x + s + y, pat, |x| + i)
  {
    assert (x + s + y)[|x| + i..|x| + i + |pat|] == s[i..i + |pat|];
  }

  /** An occurrence inside an occurrence is an occurrence in the whole. */
  lemma OccursWithin(s: string, t: string, u: string, i: int, j: int)
    requires OccursAt(s, t, i) && OccursAt(t, u, j)
    ensures OccursAt(s, u, i + j)
    ensures Contains(s, u)
  {
    forall k | 0 <= k < |u|
      ensures s[i + j + k] == u[k]
    {
      assert u[k] == t[j..j + |u|][k] == t[j + k];
      assert t[j + k] == s[i..i + |t|][j + k] == s[i + j + k];
    }
    assert s[i + j..i + j + |u|] == u;
    assert OccursAt(s, u, i + j);
  }

  // ---------------------------------------------------------------------------
  // str.split() with no separator
  // ---------------------------------------------------------------------------

  /** The characters `str.isspace` accepts, which are the ones `str.split()` breaks on. */
  predicate IsSpace(c: char) {
    || ('\t' <= c <= '\r')
    || ('\U{1C}' <= c <= '\U{1F}')
    || c == ' '
    || c == '\U{85}'
    || c == '\U{A0}'
    || c == '\U{1680}'
    || ('\U{2000}' <= c <= '\U{200A}')
    || c == '\U{2028}'
    || c == '\U{2029}'
    || c == '\U{202F}'
    || c == '\U{205F}'
    || c == '\U{3000}'
  }

  /** No character of `s` is whitespace. */
  ghost predicate IsWord(s: string) {
    forall k :: 0 <= k < |s| ==> !IsSpace(s[k])
  }

  /** Length of the longest whitespace-free prefix of `s`. */
  function WordLength(s: string): (n: nat)
    ensures n <= |s|
    ensures IsWord(s[..n])
    ensures n == |s| || IsSpace(s[n])
  {
    if |s| == 0 || IsSpace(s[0]) then 0
    else
      var n := WordLength(s[1..]);
      assert s[..n + 1] == [s[0]] + s[1..][..n];
      n + 1
  }

  /** `s.split()`: the maximal whitespace-free runs of `s`, in order. */
  function Tokens(s: string): (ts: seq<string>)
    ensures forall k :: 0 <= k < |ts| ==> ts[k] != [] && IsWord(ts[k])
    decreases |s|
  {
    if |s| == 0 then []
    else if IsSpace(s[0]) then Tokens(s[1..])
    else
      var n := WordLength(s);
      [s[..n]] + Tokens(s[n..])
  }

  /** Whitespace in `[j, k)` does not change the tokens of what follows `j`. */
  lemma {:induction false} TokensSkipSpace(s: string, j: nat, k: nat)
    requires j <= k <= |s|
    requires forall m :: j <= m < k ==> IsSpace(s[m])
    ensures Tokens(s[k..]) == Tokens(s[j..])
    decreases k - j
  {
    if j < k {
      TokensSkipSpace(s, j + 1, k);
      assert s[j..][1..] == s[j + 1..];
    }
  }

  /** A whitespace-free run ended by whitespace or the end of text is the first token. */
  lemma TokensWord(s: string, i: nat, j: nat)
    requires i < j <= |s|
    requires IsWord(s[i..j])
    requires j == |s| || IsSpace(s[j])
    ensures Tokens(s[i..]) == [s[i..j]] + Tokens(s[j..])
  {
    var t := s[i..];
    assert t[0] == s[i..j][0];
    var n := WordLength(t);
    assert t[..n] == s[i..j];
    assert t[n..] == s[j..];
  }

  // ---------------------------------------------------------------------------
  // str.join and splitting on one character
  // ---------------------------------------------------------------------------

  /** `sep.join(xs)`: nothing for no entries, the entry itself for one, and otherwise
      the first entry and a separator ahead of the rest. */
  function Join(xs: seq<string>, sep: string): (r: string)
    ensures xs == [] ==> r == ""
    ensures |xs| == 1 ==> r == xs[0]
    ensures |xs| > 1 ==> |r| >= |xs[0]| + |sep| + |xs[|xs| - 1]|
  {
    if |xs| == 0 then ""
    else if |xs| == 1 then xs[0]
    else
      assert xs[1..][|xs[1..]| - 1] == xs[|xs| - 1];
      xs[0] + sep + Join(xs[1..], sep)
  }

  /** Joining two non-empty runs of entries puts one separator between them. */
  lemma {:induction false} JoinAppend(xs: seq<string>, ys: seq<string>, sep: string)
    requires |xs| > 0 && |ys| > 0
    ensures Join(xs + ys, sep) == Join(xs, sep) + sep + Join(ys, sep)
  {
    if |xs| == 1 {
      assert (xs + ys)[1..] == ys;
    } else {
      JoinAppend(xs[1..], ys, sep);
      assert (xs + ys)[1..] == xs[1..] + ys;
    }
  }

  /** Entry `i` of `xs` appears whole in `sep.join(xs)`, right after the first `i` entries
      and their separators: joining truncates nothing. */
  lemma JoinEntry(xs: seq<string>, sep: string, i: nat)
    requires i < |xs|
    ensures OccursAt(Join(xs, sep), xs[i], if i == 0 then 0 else |Join(xs[..i], sep)| + |sep|)
  {
    var rest := xs[i..];
    assert xs == xs[..i] + rest;
    var tail := Join(rest, sep);
    var pre := if i == 0 then "" else Join(xs[..i], sep) + sep;
    if i == 0 {
      assert Join(xs, sep) == tail;
    } else {
      JoinAppend(xs[..i], rest, sep);
    }
    assert Join(xs, sep) == pre + tail;
    assert OccursAt(tail, xs[i], 0) by {
      if |rest| == 1 {
        assert tail == xs[i];
      } else {
        assert tail == xs[i] + (sep + Join(rest[1..], sep));
      }
    }
    OccursInContext(pre, tail, "", xs[i], 0);
    assert pre + tail + "" == Join(xs, sep);
  }

  /** The pieces of `s` between occurrences of `c`, as `s.split(c)` returns them. */
  function SplitOn(s: string, c: char): (parts: seq<string>)
    ensures |parts| > 0
    ensures forall k :: 0 <= k < |parts| ==> c !in parts[k]
    ensures Join(parts, [c]) == s
    decreases |s|
  {
    var i := Find(s, c);
    if i == -1 then [s]
    else
      var rest := SplitOn(s[i + 1..], c);
      assert s == s[..i] + [c] + s[i + 1..];
      [s[..i]] + rest
  }

  /** Splitting a join on a character that no entry contains gives back the entries. */
  lemma {:induction false} SplitJoin(xs: seq<string>, c: char)
    requires |xs| > 0
    requires forall k :: 0 <= k < |xs| ==> c !in xs[k]
    ensures SplitOn(Join(xs, [c]), c) == xs
  {
    if |xs| > 1 {
      SplitStep(xs[0], Join(xs[1..], [c]), c);
      SplitJoin(xs[1..], c);
      assert xs == [xs[0]] + xs[1..];
    }
  }

  /** Splitting at the first `c` separates the piece before it from the rest. */
  lemma SplitStep(head: string, tail: string, c: char)
    requires c !in head
    ensures SplitOn(head + [c] + tail, c) == [head] + SplitOn(tail, c)
  {
    var s := head + [c] + tail;
    assert s[|head|] == c;
    assert s[..|head|] == head;
    assert FirstAt(s, c, |head|);
    assert s[|head| + 1..] == tail;
  }

  // ---------------------------------------------------------------------------
  // decimal rendering of integers
  // ---------------------------------------------------------------------------

  /** The decimal digit character for `d`. */
  function DigitChar(d: nat): (c: char)
    requires d < 10
    ensures '0' <= c <= '9'
  {
    "0123456789"[d]
  }

  /** The value of a decimal digit character. */
  function DigitValue(c: char): nat
    requires '0' <= c <= '9'
  {
    c as int - '0' as int
  }

  ghost predicate IsDigits(s: string) {
    forall k :: 0 <= k < |s| ==> '0' <= s[k] <= '9'
  }

  /** `str(n)` for a natural number: its decimal digits, with no leading zero. */
  function NatToString(n: nat): (s: string)
    ensures |s| > 0 && IsDigits(s)
    ensures s[0] == '0' ==> n == 0
  {
    if n < 10 then [DigitChar(n)]
    else NatToString(n / 10) + [DigitChar(n % 10)]
  }

  /** `str(n)` for any integer: a minus sign before the digits of a negative number. */
  function IntToString(n: int): (s: string)
    ensures |s| > 0
  {
    if n < 0 then "-" + NatToString(-n) else NatToString(n)
  }

  /** The value of a string of decimal digits. */
  function ParseNat(s: string): nat
    requires IsDigits(s)
  {
    if |s| == 0 then 0
    else ParseNat(s[..|s| - 1]) * 10 + DigitValue(s[|s| - 1])
  }

  /** The value of a decimal integer with an optional leading minus sign. */
  function ParseInt(s: string): int
    requires |s| > 0
    requires s[0] == '-' ==> IsDigits(s[1..])
    requires s[0] != '-' ==> IsDigits(s)
  {
    if s[0] == '-' then -(ParseNat(s[1..]) as int) else ParseNat(s)
  }

  /** Reading back the digits of a natural number gives the number. */
  lemma {:induction false} ParseNatToString(n: nat)
    ensures ParseNat(NatToString(n)) == n
  {
    var s := NatToString(n);
    if n >= 10 {
      ParseNatToString(n / 10);
      assert s[..|s| - 1] == NatToString(n / 10);
      assert DigitValue(s[|s| - 1]) == n % 10;
    } else {
      assert DigitValue(s[0]) == n;
    }
  }

  /** Reading back the rendering of an integer gives the integer. */
  lemma ParseIntToString(n: int)
    ensures var s := IntToString(n);
            (s[0] == '-' ==> IsDigits(s[1..])) && (s[0] != '-' ==> IsDigits(s)) && ParseInt(s) == n
  {
    var s := IntToString(n);
    if n < 0 {
      ParseNatToString(-n);
      assert s[1..] == NatToString(-n);
    } else {
      ParseNatToString(n);
    }
  }
}
