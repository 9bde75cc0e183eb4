/** The Python string operations the backend relies on (`str.lower`,
    `str.title`, `str.strip`, `sep.join`, `needle in hay`, `str(int)`),
    modelled on the ASCII range. */
module Text {

  predicate IsUpper(c: char) { 'A' <= c <= 'Z' }
  predicate IsLower(c: char) { 'a' <= c <= 'z' }
  predicate IsLetter(c: char) { IsUpper(c) || IsLower(c) }

  /** The characters `str.isspace()` accepts in the ASCII range:
      tab, line feed, vertical tab, form feed, carriage return,
      the four separators 0x1C-0x1F, and space. */
  predicate IsSpace(c: char)
  {
    ('\t' <= c <= '\r') || ('\U{1C}' <= c <= '\U{1F}') || c == ' '
  }

  function LowerChar(c: char): (r: char)
    ensures !IsUpper(r)
    ensures IsLetter(c) <==> IsLetter(r)
    ensures IsUpper(c) || r == c
  {
    if IsUpper(c) then (c as int + 32) as char else c
  }

  function UpperChar(c: char): (r: char)
    ensures !IsLower(r)
    ensures IsLetter(c) <==> IsLetter(r)
    ensures IsLower(c) || r == c
  {
    if IsLower(c) then (c as int - 32) as char else c
  }

  /** `s.lower()`: every upper-case letter replaced by its lower-case form. */
  function Lower(s: string): (r: string)
    ensures |r| == |s|
    ensures forall i :: 0 <= i < |s| ==> r[i] == LowerChar(s[i])
  {
    if s == [] then [] else [LowerChar(s[0])] + Lower(s[1..])
  }

  lemma LowerAppend(a: string, b: string)
    ensures Lower(a + b) == Lower(a) + Lower(b)
  {
    var l, r := Lower(a + b), Lower(a) + Lower(b);
    forall i | 0 <= i < |a + b|
      ensures l[i] == r[i]
    {
      if i < |a| {
        assert (a + b)[i] == a[i];
      } else {
        assert (a + b)[i] == b[i - |a|];
      }
    }
    assert l == r;
  }

  /** A string with no upper-case letter is its own lower-case form. */
  predicate NoUpper(s: string)
  {
    forall i :: 0 <= i < |s| ==> !IsUpper(s[i])
  }

  lemma NoUpperAppend(a: string, b: string)
    requires NoUpper(a) && NoUpper(b)
    ensures NoUpper(a + b)
  {
  }

  lemma LowerOfNoUpper(s: string)
    requires NoUpper(s)
    ensures Lower(s) == s
  {
  }

  /** `s.title()`: a letter that follows a letter is lower-cased, any other
      letter is upper-cased; `afterLetter` says whether the character
      before `s` was a letter. */
  function TitleFrom(s: string, afterLetter: bool): (r: string)
    ensures |r| == |s|
    ensures s != [] ==> r[0] == (if afterLetter then LowerChar(s[0]) else UpperChar(s[0]))
    ensures forall i :: 0 < i < |s| ==>
      r[i] == (if IsLetter(s[i - 1]) then LowerChar(s[i]) else UpperChar(s[i]))
  {
    if s == [] then []
    else
      var c := if afterLetter then LowerChar(s[0]) else UpperChar(s[0]);
      [c] + TitleFrom(s[1..], IsLetter(s[0]))
  }

  function Title(s: string): string
  {
    TitleFrom(s, false)
  }

  /** For a lower-case word such as "oceans", `title()` capitalises the
      first letter and keeps the rest. */
  lemma TitleOfLowerWord(w: string)
    requires w != []
    requires forall i :: 0 <= i < |w| ==> IsLower(w[i])
    ensures Title(w) == [UpperChar(w[0])] + w[1..]
    ensures IsUpper(Title(w)[0])
  {
    var t := Title(w);
    forall i | 0 < i < |w|
      ensures t[i] == w[i]
    {
      assert IsLetter(w[i - 1]) && !IsUpper(w[i]);
    }
    assert t == [UpperChar(w[0])] + w[1..];
  }

  /** The total length of a list of strings. */
  function TotalLength(xs: seq<string>): nat
  {
    if xs == [] then 0 else |xs[0]| + TotalLength(xs[1..])
  }

  /** `sep.join(xs)`: the pieces in order with one separator between each
      neighbouring pair, so its length is the pieces' total length plus one
      separator fewer than there are pieces. */
  function Join(xs: seq<string>, sep: string): (r: string)
    ensures |r| == TotalLength(xs) + (if xs == [] then 0 else (|xs| - 1) * |sep|)
    ensures xs != [] ==> StartsWith(r, xs[0])
    ensures |xs| > 1 ==> StartsWith(r[|xs[0]|..], sep)
  {
    if xs == [] then "" else if |xs| == 1 then xs[0] else xs[0] + sep + Join(xs[1..], sep)
  }

  lemma JoinOneOrTwo(xs: seq<string>, sep: string)
    ensures |xs| == 1 ==> Join(xs, sep) == xs[0]
    ensures |xs| == 2 ==> Join(xs, sep) == xs[0] + sep + xs[1]
  {
  }

  /** Appending a piece to a non-empty list appends the separator and that
      piece to the joined text. Together with `Join([], sep) == ""` and
      the one-piece case this fixes `Join` on every list: every piece
      appears, in order, with one separator between neighbours. */
  lemma {:induction false} JoinSnoc(xs: seq<string>, x: string, sep: string)
    requires xs != []
    ensures Join(xs + [x], sep) == Join(xs, sep) + sep + x
  {
    var ys := xs + [x];
    if |xs| == 1 {
      assert ys[1..] == [x];
      assert Join(ys, sep) == ys[0] + sep + Join([x], sep);
    } else {
      var rest := xs[1..];
      assert ys[1..] == rest + [x];
      JoinSnoc(rest, x, sep);
      var a, b := Join(rest, sep), Join(ys[1..], sep);
      assert b == a + sep + x;
      assert Join(ys, sep) == xs[0] + sep + b;
      assert Join(xs, sep) == xs[0] + sep + a;
      assert xs[0] + sep + (a + sep + x) == (xs[0] + sep + a) + sep + x;
    }
  }

  predicate StartsWith(s: string, prefix: string)
  {
    |prefix| <= |s| && s[..|prefix|] == prefix
  }

  /** Python's substring test `needle in hay`. */
  predicate Contains(hay: string, needle: string)
  {
    StartsWith(hay, needle) || (hay != [] && Contains(hay[1..], needle))
  }

  lemma {:induction false} ContainsInside(p: string, m: string, q: string)
    ensures Contains(p + m + q, m)
  {
    if p == [] {
      assert p + m + q == m + q;
      assert (m + q)[..|m|] == m;
    } else {
      ContainsInside(p[1..], m, q);
      assert (p + m + q)[1..] == p[1..] + m + q;
    }
  }

  /** `s.lstrip()`: the longest suffix of `s` that does not start with
      whitespace. */
  function TrimStart(s: string): (r: string)
    ensures |r| <= |s| && r == s[|s| - |r|..]
    ensures forall k :: 0 <= k < |s| - |r| ==> IsSpace(s[k])
    ensures r != [] ==> !IsSpace(r[0])
  {
    if s != [] && IsSpace(s[0]) then TrimStart(s[1..]) else s
  }

  /** `s.rstrip()`: the longest prefix of `s` that does not end with
      whitespace. */
  function TrimEnd(s: string): (r: string)
    ensures |r| <= |s| && r == s[..|r|]
    ensures forall k :: |r| <= k < |s| ==> IsSpace(s[k])
    ensures r != [] ==> !IsSpace(r[|r| - 1])
  {
    if s != [] && IsSpace(s[|s| - 1]) then TrimEnd(s[..|s| - 1]) else s
  }

  /** Everything in `s` before index `i` and from index `j` on is
      whitespace. */
  predicate SpaceOutside(s: string, i: nat, j: nat)
    requires i <= j <= |s|
  {
    (forall k :: 0 <= k < i ==> IsSpace(s[k])) && (forall k :: j <= k < |s| ==> IsSpace(s[k]))
  }

  /** `s.strip()`: whitespace removed at both ends. The result is empty
      exactly when `s` is nothing but whitespace. */
  function Strip(s: string): (r: string)
    ensures |r| <= |s|
    ensures exists i: nat, j: nat :: i <= j <= |s| && r == s[i..j] && SpaceOutside(s, i, j)
    ensures r != [] ==> !IsSpace(r[0]) && !IsSpace(r[|r| - 1])
    ensures r == [] <==> forall k :: 0 <= k < |s| ==> IsSpace(s[k])
  {
    var t := TrimStart(s);
    var r := TrimEnd(t);
    assert t != [] ==> s[|s| - |t|] == t[0];
    assert t != [] ==> r != [];
    SliceOfTrims(s, t, r);
    r
  }

  /** A suffix `t` of `s` whose cut-off head is whitespace, and a prefix
      `r` of `t` whose cut-off tail is whitespace, make `r` a slice of `s`
      with only whitespace outside it. */
  lemma SliceOfTrims(s: string, t: string, r: string)
    requires |t| <= |s| && t == s[|s| - |t|..]
    requires forall k :: 0 <= k < |s| - |t| ==> IsSpace(s[k])
    requires |r| <= |t| && r == t[..|r|]
    requires forall k :: |r| <= k < |t| ==> IsSpace(t[k])
    ensures exists i: nat, j: nat :: i <= j <= |s| && r == s[i..j] && SpaceOutside(s, i, j)
  {
    var i: nat := |s| - |t|;
    var j: nat := i + |r|;
    forall k | 0 <= k < |r|
      ensures r[k] == s[i..j][k]
    {
      assert r[k] == t[k] == s[i + k];
    }
    assert r == s[i..j];
    forall k | j <= k < |s|
      ensures IsSpace(s[k])
    {
      assert s[k] == t[k - i];
    }
    assert SpaceOutside(s, i, j);
  }

  function DigitChar(d: nat): (c: char)
    requires d < 10
    ensures '0' <= c <= '9'
  {
    ('0' as int + d) as char
  }

  /** The number a string of decimal digits spells, most significant digit
      first. */
  function DecimalValue(s: string): nat
    requires forall i :: 0 <= i < |s| ==> '0' <= s[i] <= '9'
  {
    if s == [] then 0 else 10 * DecimalValue(s[..|s| - 1]) + (s[|s| - 1] as int - '0' as int)
  }

  /** `str(n)` for a natural number: its decimal digits, most significant
      first, with no leading zero, spelling `n`. */
  function NatToDecimal(n: nat): (r: string)
    ensures r != []
    ensures forall i :: 0 <= i < |r| ==> '0' <= r[i] <= '9'
    ensures |r| > 1 ==> r[0] != '0'
    ensures DecimalValue(r) == n
  {
    if n < 10 then [DigitChar(n)]
    else
      var r := NatToDecimal(n / 10) + [DigitChar(n % 10)];
      assert r[..|r| - 1] == NatToDecimal(n / 10);
      r
  }

  /** `str(i)` for any integer: a minus sign exactly for negative numbers,
      followed by the digits of the magnitude. */
  function IntToDecimal(i: int): (r: string)
    ensures r != [] && (r[0] == '-' <==> i < 0)
    ensures i >= 0 ==> r == NatToDecimal(i) && DecimalValue(r) == i
    ensures i < 0 ==> r[1..] == NatToDecimal(-i) && DecimalValue(r[1..]) == -i
  {
    if i < 0 then "-" + NatToDecimal(-i) else NatToDecimal(i)
  }
}
