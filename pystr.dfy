/** The parts of Python's `str` that the yield-table parser relies on:
    `strip()`, `split()` (runs of whitespace), `split(sep)` (an exact
    separator), `sep.join(...)` and the substring test `sub in s`. */
module PyStr {
  import opened Wrappers

  /** Python's `str.isspace` on one character (the characters that
      `strip()` and `split()` treat as whitespace). */
  predicate IsSpace(c: char) {
    var n := c as int;
    c == ' ' || 9 <= n <= 13 || 28 <= n <= 31 || n == 0x85 || n == 0xA0 ||
    n == 0x1680 || 0x2000 <= n <= 0x200A || n == 0x2028 || n == 0x2029 ||
    n == 0x202F || n == 0x205F || n == 0x3000
  }

  predicate NoSpace(s: string) {
    forall k :: 0 <= k < |s| ==> !IsSpace(s[k])
  }

  /** `s.lstrip()`: drops the leading whitespace and nothing else. */
  function TrimLeft(s: string): (r: string)
    ensures |r| <= |s| && r == s[|s| - |r|..]
    ensures forall k :: 0 <= k < |s| - |r| ==> IsSpace(s[k])
    ensures r == [] || !IsSpace(r[0])
  {
    if s != [] && IsSpace(s[0]) then TrimLeft(s[1..]) else s
  }

  /** `s.rstrip()`: drops the trailing whitespace and nothing else. */
  function TrimRight(s: string): (r: string)
    ensures |r| <= |s| && r == s[..|r|]
    ensures forall k :: |r| <= k < |s| ==> IsSpace(s[k])
    ensures r == [] || !IsSpace(r[|r| - 1])
  {
    if s != [] && IsSpace(s[|s| - 1]) then TrimRight(s[..|s| - 1]) else s
  }

  /** `s.strip()`: the longest slice of `s` that neither starts nor ends
      with whitespace, everything cut off on either side being whitespace. */
  function Strip(s: string): (r: string)
    ensures r == [] || (!IsSpace(r[0]) && !IsSpace(r[|r| - 1]))
    ensures exists i :: StrippedAt(s, r, i)
  {
    StripEnds(s);
    StripSlice(s);
    TrimRight(TrimLeft(s))
  }

  lemma StripEnds(s: string)
    ensures TrimRight(TrimLeft(s)) == [] || !IsSpace(TrimRight(TrimLeft(s))[0])
    ensures TrimRight(TrimLeft(s)) == [] || !IsSpace(TrimRight(TrimLeft(s))[|TrimRight(TrimLeft(s))| - 1])
  {
    var l := TrimLeft(s);
    var r := TrimRight(l);
    if r != [] {
      assert r[0] == l[0];
    }
  }

  lemma StripSlice(s: string)
    ensures StrippedAt(s, TrimRight(TrimLeft(s)), |s| - |TrimLeft(s)|)
  {
    var l := TrimLeft(s);
    var r := TrimRight(l);
    var i := |s| - |l|;
    assert Padding(s, i, i + |r|) by {
      forall k | i + |r| <= k < |s| ensures IsSpace(s[k]) {
        assert s[k] == l[k - i];
      }
    }
    assert r == s[i..i + |r|] by {
      assert l == s[i..];
    }
    assert 0 <= i <= |s| - |r|;
    assert StrippedAt(s, r, i);
  }

  /** `r` is the slice of `s` starting at `i`, and everything of `s`
      around it is whitespace. */
  predicate StrippedAt(s: string, r: string, i: int) {
    0 <= i <= |s| - |r| && r == s[i..i + |r|] && Padding(s, i, i + |r|)
  }

  /** A string that neither starts nor ends with whitespace is its own
      `strip()`. */
  lemma StripUnpadded(s: string)
    requires s == [] || (!IsSpace(s[0]) && !IsSpace(s[|s| - 1]))
    ensures Strip(s) == s
  {
    assert TrimLeft(s) == s;
    assert TrimRight(s) == s;
  }

  /** Everything of `s` outside `s[i..j]` is whitespace. */
  predicate Padding(s: string, i: int, j: int)
    requires 0 <= i <= j <= |s|
  {
    (forall k :: 0 <= k < i ==> IsSpace(s[k])) &&
    (forall k :: j <= k < |s| ==> IsSpace(s[k]))
  }

  /** Length of the run of non-whitespace characters at the start of `t`. */
  function TokenLength(t: string): (n: nat)
    ensures n <= |t|
    ensures forall k :: 0 <= k < n ==> !IsSpace(t[k])
    ensures n == |t| || IsSpace(t[n])
  {
    if t == [] || IsSpace(t[0]) then 0 else 1 + TokenLength(t[1..])
  }

  /** `s.split()` with no argument: the maximal runs of non-whitespace
      characters, in order; never an empty piece. */
  function SplitWhitespace(s: string): (r: seq<string>)
    ensures forall k :: 0 <= k < |r| ==> IsToken(r[k])
    decreases |s|
  {
    var t := TrimLeft(s);
    if t == [] then []
    else
      var n := TokenLength(t);
      var rest := SplitWhitespace(t[n..]);
      TokenCons(t[..n], rest);
      [t[..n]] + rest
  }

  /** `lstrip()` removes everything exactly when all of it is whitespace. */
  lemma TrimLeftBlank(s: string)
    ensures TrimLeft(s) == [] <==> forall k :: 0 <= k < |s| ==> IsSpace(s[k])
  {
    if TrimLeft(s) != [] {
      assert s[|s| - |TrimLeft(s)|] == TrimLeft(s)[0];
    }
  }

  /** `split()` gives no piece exactly when the string is all whitespace. */
  lemma SplitWhitespaceBlank(s: string)
    ensures SplitWhitespace(s) == [] <==> forall k :: 0 <= k < |s| ==> IsSpace(s[k])
  {
    TrimLeftBlank(s);
  }

  lemma TokenCons(t: string, rest: seq<string>)
    requires IsToken(t) && forall k :: 0 <= k < |rest| ==> IsToken(rest[k])
    ensures forall k :: 0 <= k < |[t] + rest| ==> IsToken(([t] + rest)[k])
  {
  }

  /** `sep.join(parts)`. */
  function Join(parts: seq<string>, sep: string): string {
    if |parts| == 0 then []
    else if |parts| == 1 then parts[0]
    else parts[0] + sep + Join(parts[1..], sep)
  }

  /** Joining non-empty, whitespace-free tokens with single spaces and
      splitting the result on whitespace gives the tokens back. */
  lemma {:induction false} SplitWhitespaceJoin(tokens: seq<string>)
    requires forall k :: 0 <= k < |tokens| ==> IsToken(tokens[k])
    ensures SplitWhitespace(Join(tokens, " ")) == tokens
  {
    if |tokens| == 1 {
      assert tokens[0] + [] == tokens[0];
      SplitWhitespaceCons(tokens[0], []);
    } else if |tokens| > 1 {
      var rest := tokens[1..];
      assert forall k :: 0 <= k < |rest| ==> rest[k] == tokens[k + 1];
      SplitWhitespaceJoin(rest);
      SplitWhitespaceJoinStep(tokens);
    }
  }

  lemma SplitWhitespaceJoinStep(tokens: seq<string>)
    requires |tokens| > 1 && IsToken(tokens[0])
    requires SplitWhitespace(Join(tokens[1..], " ")) == tokens[1..]
    ensures SplitWhitespace(Join(tokens, " ")) == tokens
  {
    var j := Join(tokens[1..], " ");
    var rest := [' '] + j;
    assert Join(tokens, " ") == tokens[0] + rest by {
      JoinCons(tokens, " ");
      assert " " == [' '];
    }
    SplitWhitespaceCons(tokens[0], rest);
    SplitWhitespaceSkip(' ', j);
    HeadTail(tokens);
  }

  lemma HeadTail<T>(xs: seq<T>)
    requires |xs| > 0
    ensures xs == [xs[0]] + xs[1..]
  {
  }

  /** A piece of `split()`'s output: non-empty and free of whitespace. */
  predicate IsToken(t: string) {
    t != [] && NoSpace(t)
  }

  lemma JoinCons(parts: seq<string>, sep: string)
    requires |parts| > 1
    ensures Join(parts, sep) == parts[0] + (sep + Join(parts[1..], sep))
  {
  }

  /** A token followed by nothing or by whitespace is split off first. */
  lemma SplitWhitespaceCons(t: string, rest: string)
    requires IsToken(t)
    requires rest == [] || IsSpace(rest[0])
    ensures SplitWhitespace(t + rest) == [t] + SplitWhitespace(rest)
  {
    var s := t + rest;
    assert s[0] == t[0];
    assert TrimLeft(s) == s;
    TokenLengthOf(t, rest);
    assert s[..|t|] == t;
    assert s[|t|..] == rest;
  }

  lemma TokenLengthOf(t: string, rest: string)
    requires t != [] && NoSpace(t)
    requires rest == [] || IsSpace(rest[0])
    ensures TokenLength(t + rest) == |t|
  {
    assert forall k :: 0 <= k < |t| ==> (t + rest)[k] == t[k];
    assert |t| < |t + rest| ==> (t + rest)[|t|] == rest[0];
  }

  /** Leading whitespace is skipped. With `SplitWhitespaceCons` and the
      all-whitespace case of `SplitWhitespace`, this fixes `split()` on
      every string. */
  lemma SplitWhitespaceSkip(c: char, s: string)
    requires IsSpace(c)
    ensures SplitWhitespace([c] + s) == SplitWhitespace(s)
  {
    assert ([c] + s)[1..] == s;
    assert TrimLeft([c] + s) == TrimLeft(s);
  }

  /** `sep` occurs in `s` at index `j`. */
  predicate OccursAt(s: string, sep: string, j: int) {
    0 <= j && j + |sep| <= |s| && s[j..j + |sep|] == sep
  }

  /** `s.find(sep)`: the first index at which `sep` occurs, if any. */
  function Find(s: string, sep: string): (r: Option<nat>)
    requires sep != []
    ensures r.Some? ==> OccursAt(s, sep, r.value)
    ensures r.Some? ==> forall j :: 0 <= j < r.value ==> !OccursAt(s, sep, j)
    ensures r.None? ==> forall j :: !OccursAt(s, sep, j)
  {
    if |s| < |sep| then None
    else if s[..|sep|] == sep then Some(0)
    else
      assert !OccursAt(s, sep, 0) by { assert s[0..|sep|] == s[..|sep|]; }
      var r := Find(s[1..], sep);
      ShiftOccurs(s, sep);
      match r
      case None => None
      case Some(i) => Some(i + 1)
  }

  lemma ShiftOccurs(s: string, sep: string)
    requires s != []
    ensures forall j :: 1 <= j ==> (OccursAt(s, sep, j) <==> OccursAt(s[1..], sep, j - 1))
  {
    forall j | 1 <= j
      ensures OccursAt(s, sep, j) <==> OccursAt(s[1..], sep, j - 1)
    {
      if j + |sep| <= |s| {
        assert s[1..][j - 1..j - 1 + |sep|] == s[j..j + |sep|];
      }
    }
  }

  /** Python's `sub in s`. */
  function Contains(s: string, sub: string): (b: bool)
    requires sub != []
    ensures b <==> exists j :: OccursAt(s, sub, j)
  {
    Find(s, sub).Some?
  }

  /** An occurrence of `sub` in `s` is also one in `s + rest`. */
  lemma ContainsExtends(s: string, rest: string, sub: string)
    requires sub != [] && Contains(s, sub)
    ensures Contains(s + rest, sub)
  {
    var j :| OccursAt(s, sub, j);
    assert (s + rest)[j..j + |sub|] == s[j..j + |sub|];
    assert OccursAt(s + rest, sub, j);
  }

  /** The pieces written one after the other (`"".join(parts)`). */
  function Concat(parts: seq<string>): (r: string)
    ensures parts != [] ==> r == parts[0] + Concat(parts[1..])
  {
    if parts == [] then [] else parts[0] + Concat(parts[1..])
  }

  /** An occurrence in `rest` is one in `a + rest`, shifted by `|a|`. */
  lemma OccursAfter(a: string, rest: string, sub: string, j: int)
    requires OccursAt(rest, sub, j)
    ensures OccursAt(a + rest, sub, |a| + j)
  {
    assert (a + rest)[|a| + j..|a| + j + |sub|] == rest[j..j + |sub|];
  }

  /** Every non-empty piece occurs in the concatenation. */
  lemma {:induction false} ContainsPart(parts: seq<string>, i: nat)
    requires i < |parts| && parts[i] != []
    ensures Contains(Concat(parts), parts[i])
  {
    var rest := Concat(parts[1..]);
    if i == 0 {
      assert Concat(parts)[0..|parts[0]|] == parts[0];
      assert OccursAt(Concat(parts), parts[0], 0);
    } else {
      ContainsPart(parts[1..], i - 1);
      var j :| OccursAt(rest, parts[i], j);
      OccursAfter(parts[0], rest, parts[i], j);
    }
  }

  /** `s.split(sep)` with an explicit separator: cut at each occurrence of
      `sep`, scanning left to right; an empty `s` gives `[""]`. */
  function SplitOn(s: string, sep: string): (r: seq<string>)
    requires sep != []
    ensures |r| > 0
    ensures forall k :: 0 <= k < |r| - 1 ==> CutAt(r[k], sep)
    decreases |s|
  {
    match Find(s, sep)
    case None => [s]
    case Some(i) =>
      var rest := SplitOn(s[i + |sep|..], sep);
      FirstCut(s, sep, i);
      CutCons(s[..i], rest, sep);
      [s[..i]] + rest
  }

  /** `x` is cut at the first occurrence of `sep` after it: in `x + sep`,
      `sep` first occurs at the end of `x`. */
  predicate CutAt(x: string, sep: string)
    requires sep != []
  {
    Find(x + sep, sep) == Some(|x|)
  }

  /** The piece before the first occurrence of `sep`, followed by `sep`,
      has its first occurrence of `sep` at its end. */
  lemma FirstCut(s: string, sep: string, i: nat)
    requires sep != [] && Find(s, sep) == Some(i)
    ensures CutAt(s[..i], sep)
  {
    var p := s[..i] + sep;
    assert OccursAt(p, sep, i) by { assert p[i..i + |sep|] == sep; }
    forall j | 0 <= j < i ensures !OccursAt(p, sep, j) {
      PrefixOccurs(s, sep, i, j);
    }
    FindAt(p, sep, i);
  }

  /** An occurrence of `sep` that ends within `s[..i] + sep` is one of `s`. */
  lemma PrefixOccurs(s: string, sep: string, i: nat, j: nat)
    requires sep != [] && OccursAt(s, sep, i) && j < i
    ensures OccursAt(s[..i] + sep, sep, j) ==> OccursAt(s, sep, j)
  {
    var p := s[..i] + sep;
    assert p == s[..i + |sep|] by { assert s[i..i + |sep|] == sep; }
    if OccursAt(p, sep, j) {
      assert p[j..j + |sep|] == s[j..j + |sep|];
    }
  }

  /** `Find` gives the occurrence with no occurrence before it. */
  lemma FindAt(s: string, sep: string, i: nat)
    requires sep != [] && OccursAt(s, sep, i)
    requires forall j :: 0 <= j < i ==> !OccursAt(s, sep, j)
    ensures Find(s, sep) == Some(i)
  {
  }

  lemma CutCons(x: string, rest: seq<string>, sep: string)
    requires sep != [] && CutAt(x, sep)
    requires |rest| > 0 && forall k :: 0 <= k < |rest| - 1 ==> CutAt(rest[k], sep)
    ensures forall k :: 0 <= k < |[x] + rest| - 1 ==> CutAt(([x] + rest)[k], sep)
  {
    forall k | 0 <= k < |[x] + rest| - 1
      ensures CutAt(([x] + rest)[k], sep)
    {
      if k > 0 { assert ([x] + rest)[k] == rest[k - 1]; }
    }
  }

  /** `split(sep)` loses nothing: joining the pieces with `sep` restores
      the string, and no piece contains `sep`. */
  lemma {:induction false} SplitOnJoin(s: string, sep: string)
    requires sep != []
    ensures Join(SplitOn(s, sep), sep) == s
    ensures forall k :: 0 <= k < |SplitOn(s, sep)| ==> !Contains(SplitOn(s, sep)[k], sep)
    decreases |s|
  {
    match Find(s, sep)
    case None =>
    case Some(i) =>
      var rest := s[i + |sep|..];
      SplitOnJoin(rest, sep);
      var tail := SplitOn(rest, sep);
      assert SplitOn(s, sep) == [s[..i]] + tail;
      assert s == s[..i] + sep + rest by {
        assert s[i..i + |sep|] == sep;
      }
      assert !Contains(s[..i], sep) by {
        forall j | OccursAt(s[..i], sep, j) ensures false {
          assert s[..i][j..j + |sep|] == s[j..j + |sep|];
          assert OccursAt(s, sep, j);
        }
      }
  }
}
