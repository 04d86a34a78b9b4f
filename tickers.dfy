/** Ticker normalisation: the raw text box content is split on commas and each
    token is stripped of surrounding whitespace and upper-cased, in order. */
module Tickers {

  const Comma: char := ','

  /** Python's str.isspace() for one code point: the ASCII controls TAB..CR,
      the separators 0x1C..0x1F, SPACE, and the Unicode space characters. */
  predicate IsSpace(c: char) {
    var n := c as int;
    || 9 <= n <= 13
    || 28 <= n <= 32
    || n == 0x85 || n == 0xA0 || n == 0x1680
    || 0x2000 <= n <= 0x200A
    || n == 0x2028 || n == 0x2029 || n == 0x202F || n == 0x205F || n == 0x3000
  }

  predicate IsLower(c: char) {
    'a' <= c <= 'z'
  }

  predicate AllSpace(s: string) {
    forall k :: 0 <= k < |s| ==> IsSpace(s[k])
  }

  /** A trimmed string has no whitespace at either end. */
  predicate Trimmed(s: string) {
    |s| == 0 || (!IsSpace(s[0]) && !IsSpace(s[|s| - 1]))
  }

  predicate NoLower(s: string) {
    forall k :: 0 <= k < |s| ==> !IsLower(s[k])
  }

  /** A well-formed symbol as the normaliser produces it. */
  predicate IsSymbol(s: string) {
    Trimmed(s) && NoLower(s) && Comma !in s
  }

  function Occurrences(s: string, c: char): nat {
    if s == [] then 0 else (if s[0] == c then 1 else 0) + Occurrences(s[1..], c)
  }

  // ---------------------------------------------------------------------
  // str.split(sep)

  /** str.split(sep): the maximal comma-free pieces between separators, so an
      empty string yields one empty piece and adjacent commas an empty piece. */
  function Split(s: string, sep: char): (parts: seq<string>)
    ensures |parts| == Occurrences(s, sep) + 1
    ensures forall i :: 0 <= i < |parts| ==> sep !in parts[i]
  {
    if s == [] then [""]
    else
      var rest := Split(s[1..], sep);
      if s[0] == sep then [""] + rest
      else [[s[0]] + rest[0]] + rest[1..]
  }

  /** sep.join(parts), the inverse of Split. */
  function Join(parts: seq<string>, sep: char): string
    requires |parts| >= 1
  {
    if |parts| == 1 then parts[0] else parts[0] + [sep] + Join(parts[1..], sep)
  }

  lemma {:induction false} JoinSplit(s: string, sep: char)
    ensures Join(Split(s, sep), sep) == s
  {
    if s != [] {
      JoinSplit(s[1..], sep);
      var rest := Split(s[1..], sep);
      if s[0] != sep {
        if |rest| == 1 {
          assert Join(Split(s, sep), sep) == [s[0]] + rest[0];
        } else {
          calc {
            Join(Split(s, sep), sep);
            ([s[0]] + rest[0]) + [sep] + Join(rest[1..], sep);
            [s[0]] + (rest[0] + [sep] + Join(rest[1..], sep));
            [s[0]] + Join(rest, sep);
          }
        }
      }
    }
  }

  lemma {:induction false} SplitNoSep(a: string, sep: char)
    requires sep !in a
    ensures Split(a, sep) == [a]
  {
    if a != [] {
      assert sep !in a[1..];
      SplitNoSep(a[1..], sep);
      assert [a[0]] + a[1..] == a;
    }
  }

  lemma {:induction false} SplitAtSep(a: string, sep: char, b: string)
    requires sep !in a
    ensures Split(a + [sep] + b, sep) == [a] + Split(b, sep)
  {
    if a == [] {
      assert a + [sep] + b == [sep] + b;
      assert ([sep] + b)[1..] == b;
    } else {
      assert (a + [sep] + b)[1..] == a[1..] + [sep] + b;
      SplitAtSep(a[1..], sep, b);
      assert [a[0]] + a[1..] == a;
    }
  }

  lemma {:induction false} SplitJoin(parts: seq<string>, sep: char)
    requires |parts| >= 1
    requires forall i :: 0 <= i < |parts| ==> sep !in parts[i]
    ensures Split(Join(parts, sep), sep) == parts
  {
    if |parts| == 1 {
      SplitNoSep(parts[0], sep);
    } else {
      SplitJoin(parts[1..], sep);
      SplitAtSep(parts[0], sep, Join(parts[1..], sep));
    }
  }

  // ---------------------------------------------------------------------
  // str.strip()

  /** The index of the first non-whitespace character at or after k (|s| if
      there is none). */
  function SkipSpace(s: string, k: nat): (i: nat)
    requires k <= |s|
    ensures k <= i <= |s|
    ensures forall m :: k <= m < i ==> IsSpace(s[m])
    ensures i < |s| ==> !IsSpace(s[i])
    decreases |s| - k
  {
    if k == |s| || !IsSpace(s[k]) then k else SkipSpace(s, k + 1)
  }

  /** One past the last non-whitespace character before k (0 if there is none). */
  function SkipSpaceBack(s: string, k: nat): (j: nat)
    requires k <= |s|
    ensures j <= k
    ensures forall m :: j <= m < k ==> IsSpace(s[m])
    ensures j > 0 ==> !IsSpace(s[j - 1])
  {
    if k == 0 || !IsSpace(s[k - 1]) then k else SkipSpaceBack(s, k - 1)
  }

  /** The index of the first non-whitespace character (|s| if there is none). */
  function StripStart(s: string): (i: nat)
    ensures i <= |s|
    ensures forall k :: 0 <= k < i ==> IsSpace(s[k])
    ensures i < |s| ==> !IsSpace(s[i])
  {
    SkipSpace(s, 0)
  }

  /** One past the last non-whitespace character (0 if there is none). */
  function StripEnd(s: string): (j: nat)
    ensures j <= |s|
    ensures forall k :: j <= k < |s| ==> IsSpace(s[k])
    ensures j > 0 ==> !IsSpace(s[j - 1])
  {
    SkipSpaceBack(s, |s|)
  }

  /** s is whitespace before i, a trimmed part from i to j, and whitespace
      from j on. */
  predicate CutAt(s: string, i: nat, j: nat) {
    && i <= j <= |s|
    && s == s[..i] + s[i..j] + s[j..]
    && AllSpace(s[..i]) && AllSpace(s[j..])
    && Trimmed(s[i..j])
  }

  /** str.strip(): the part of s left after dropping whitespace at both ends.
      What is dropped is whitespace, what is kept is trimmed, and s is
      exactly the dropped head, the result and the dropped tail. */
  function Strip(s: string): (r: string)
    ensures Trimmed(r)
    ensures StripStart(s) + |r| <= |s|
    ensures r == s[StripStart(s)..StripStart(s) + |r|]
    ensures CutAt(s, StripStart(s), StripStart(s) + |r|)
    ensures StripStart(s) == |s| ==> r == []
    ensures StripStart(s) < |s| ==> StripStart(s) < StripEnd(s) && r == s[StripStart(s)..StripEnd(s)]
  {
    var i, j := StripStart(s), StripEnd(s);
    if i == |s| then
      Slices(s, i, i);
      []
    else
      StripOrder(s);
      Slices(s, i, j);
      s[i..j]
  }

  /** Some character is not whitespace, so the kept part is not empty. */
  lemma StripOrder(s: string)
    requires StripStart(s) < |s|
    ensures StripStart(s) < StripEnd(s)
  {
    assert !IsSpace(s[StripStart(s)]);
  }

  /** Cutting s at i and j when everything before i and from j on is
      whitespace and s[i..j] is empty or has no whitespace at its ends. */
  lemma Slices(s: string, i: nat, j: nat)
    requires i <= j <= |s|
    requires forall k :: 0 <= k < i ==> IsSpace(s[k])
    requires forall k :: j <= k < |s| ==> IsSpace(s[k])
    requires i < j ==> !IsSpace(s[i]) && !IsSpace(s[j - 1])
    ensures CutAt(s, i, j)
  {
    assert s == s[..i] + s[i..j] + s[j..];
    forall k | 0 <= k < |s[j..]| ensures IsSpace(s[j..][k]) {
      assert s[j..][k] == s[j + k];
    }
  }

  lemma {:induction false} SkipSpaceUnique(s: string, k: nat, i: nat)
    requires k <= i <= |s|
    requires forall m :: k <= m < i ==> IsSpace(s[m])
    requires i < |s| ==> !IsSpace(s[i])
    ensures SkipSpace(s, k) == i
    decreases i - k
  {
    if k < i {
      assert IsSpace(s[k]);
      SkipSpaceUnique(s, k + 1, i);
    }
  }

  lemma {:induction false} SkipSpaceBackUnique(s: string, k: nat, j: nat)
    requires j <= k <= |s|
    requires forall m :: j <= m < k ==> IsSpace(s[m])
    requires j > 0 ==> !IsSpace(s[j - 1])
    ensures SkipSpaceBack(s, k) == j
    decreases k - j
  {
    if j < k {
      assert IsSpace(s[k - 1]);
      SkipSpaceBackUnique(s, k - 1, j);
    }
  }

  /** Strip is determined by its contract: whenever s is whitespace, then a
      trimmed middle, then whitespace, Strip returns that middle. */
  lemma StripUnique(a: string, m: string, b: string)
    requires AllSpace(a) && AllSpace(b) && Trimmed(m)
    ensures Strip(a + m + b) == m
  {
    var s := a + m + b;
    var i, j := |a|, |a| + |m|;
    assert forall k :: 0 <= k < i ==> s[k] == a[k];
    assert forall k :: j <= k < |s| ==> s[k] == b[k - j];
    if m == [] {
      SkipSpaceUnique(s, 0, |s|);
    } else {
      assert s[i] == m[0] && s[j - 1] == m[|m| - 1];
      SkipSpaceUnique(s, 0, i);
      SkipSpaceBackUnique(s, |s|, j);
      assert s[i..j] == m;
    }
  }

  // ---------------------------------------------------------------------
  // str.upper()

  function ToUpper(c: char): (u: char)
    ensures !IsLower(u)
    ensures IsSpace(u) == IsSpace(c)
    ensures !IsLower(c) ==> u == c
    ensures IsLower(c) ==> u as int == c as int - 32
  {
    if IsLower(c) then (c as int - 32) as char else c
  }

  /** str.upper() on the ASCII letters: same length, each lower-case letter
      replaced by its capital, every other character kept. */
  function Upper(s: string): (r: string)
    ensures |r| == |s| && NoLower(r)
    ensures forall k :: 0 <= k < |s| ==> r[k] == ToUpper(s[k])
  {
    seq(|s|, k requires 0 <= k < |s| => ToUpper(s[k]))
  }

  lemma UpperKeepsTrimmed(s: string)
    requires Trimmed(s)
    ensures Trimmed(Upper(s))
  {
  }

  lemma UpperKeepsNoComma(s: string)
    requires Comma !in s
    ensures Comma !in Upper(s)
  {
    forall k | 0 <= k < |s| ensures Upper(s)[k] != Comma {
      assert s[k] != Comma;
    }
  }

  lemma UpperOfUpper(s: string)
    requires NoLower(s)
    ensures Upper(s) == s
  {
  }

  // ---------------------------------------------------------------------
  // The comprehension of streamlit_app.py line 21

  /** The symbol list of line 21: the text split at commas, each token
      stripped of surrounding whitespace and upper-cased. */
  function Normalise(raw: string): (stocks: seq<string>)
    ensures |stocks| == |Split(raw, Comma)|
    ensures forall i :: 0 <= i < |stocks| ==> stocks[i] == Upper(Strip(Split(raw, Comma)[i]))
  {
    var parts := Split(raw, Comma);
    seq(|parts|, i requires 0 <= i < |parts| => Upper(Strip(parts[i])))
  }

  /** A comma-free token becomes a well-formed symbol. */
  lemma TokenToSymbol(p: string)
    requires Comma !in p
    ensures IsSymbol(Upper(Strip(p)))
  {
    var st := Strip(p);
    SliceNoComma(p, StripStart(p), StripStart(p) + |st|);
    UpperKeepsTrimmed(st);
    UpperKeepsNoComma(st);
  }

  lemma SliceNoComma(p: string, i: nat, j: nat)
    requires Comma !in p && i <= j <= |p|
    ensures Comma !in p[i..j]
  {
    forall k | 0 <= k < j - i ensures p[i..j][k] != Comma {
      assert p[i..j][k] == p[i + k];
    }
  }

  /** One symbol per comma-separated token, in order, so never an empty list;
      every symbol is a well-formed symbol. */
  lemma NormaliseShape(raw: string)
    ensures |Normalise(raw)| == Occurrences(raw, Comma) + 1
    ensures |Normalise(raw)| >= 1
    ensures forall i :: 0 <= i < |Normalise(raw)| ==> IsSymbol(Normalise(raw)[i])
  {
    var parts := Split(raw, Comma);
    forall i | 0 <= i < |parts|
      ensures IsSymbol(Normalise(raw)[i])
    {
      TokenToSymbol(parts[i]);
    }
  }

  /** Joining well-formed symbols with commas and normalising gives them back. */
  lemma {:induction false} NormaliseJoin(stocks: seq<string>)
    requires |stocks| >= 1
    requires forall i :: 0 <= i < |stocks| ==> IsSymbol(stocks[i])
    ensures Normalise(Join(stocks, Comma)) == stocks
  {
    SplitJoin(stocks, Comma);
    forall i | 0 <= i < |stocks|
      ensures Upper(Strip(stocks[i])) == stocks[i]
    {
      StripUnique([], stocks[i], []);
      assert [] + stocks[i] + [] == stocks[i];
      UpperOfUpper(stocks[i]);
    }
  }

  /** Normalising is idempotent: re-normalising the joined output changes nothing. */
  lemma NormaliseIdempotent(raw: string)
    ensures Normalise(Join(Normalise(raw), Comma)) == Normalise(raw)
  {
    NormaliseShape(raw);
    NormaliseJoin(Normalise(raw));
  }
}
