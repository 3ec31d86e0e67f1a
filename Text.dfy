/**
 * The handful of Python string operations the monitor relies on, written out
 * on `seq<char>`: slicing by a length, `startswith`, substring `in`,
 * `str.strip`, `str.split` on one character, `str.join`, and the tag remover
 * `re.sub(r'<[^>]+>', '', s)`.
 */
module Text {

  function Min(a: nat, b: nat): nat { if a <= b then a else b }

  /** Python's `s[:n]`: the first `n` characters, or all of `s` when it is shorter. */
  function Take(s: string, n: nat): (r: string)
    ensures |r| == Min(n, |s|)
    ensures r == s[..|r|]
  {
    if |s| <= n then s else s[..n]
  }

  /** Python's `s.startswith(prefix)`. */
  predicate StartsWith(s: string, prefix: string) {
    |prefix| <= |s| && s[..|prefix|] == prefix
  }

  /** Python's `t in s` on two strings: `t` occurs somewhere inside `s`. */
  predicate IsInfix(t: string, s: string) {
    exists i :: 0 <= i <= |s| - |t| && OccursAt(t, s, i)
  }

  /** `t` occurs in `s` starting at position `i`. */
  predicate OccursAt(t: string, s: string, i: nat) {
    i + |t| <= |s| && s[i..i + |t|] == t
  }

  /** Position of the first occurrence of `c` in `s`. */
  function IndexOf(s: string, c: char): (i: nat)
    requires c in s
    ensures i < |s| && s[i] == c
    ensures forall j :: 0 <= j < i ==> s[j] != c
  {
    if s[0] == c then 0 else 1 + IndexOf(s[1..], c)
  }

  // ---------------------------------------------------------------------------
  // str.strip

  /** The characters for which Python's `str.isspace()` holds; `str.strip()` removes these. */
  const PyWhitespace: set<char> := {
    '\t', '\n', '\U{B}', '\U{C}', '\r', '\U{1C}', '\U{1D}', '\U{1E}', '\U{1F}', ' ',
    '\U{85}', '\U{A0}', '\U{1680}',
    '\U{2000}', '\U{2001}', '\U{2002}', '\U{2003}', '\U{2004}', '\U{2005}',
    '\U{2006}', '\U{2007}', '\U{2008}', '\U{2009}', '\U{200A}',
    '\U{2028}', '\U{2029}', '\U{202F}', '\U{205F}', '\U{3000}'
  }

  /** The quote characters removed by `.strip('"\'')`. */
  const Quotes: set<char> := {'"', '\''}

  /** Drops the longest prefix of `s` made of characters in `cs`. */
  function TrimLeft(s: string, cs: set<char>): string {
    if s != [] && s[0] in cs then TrimLeft(s[1..], cs) else s
  }

  /** Drops the longest suffix of `s` made of characters in `cs`. */
  function TrimRight(s: string, cs: set<char>): string {
    if s != [] && s[|s| - 1] in cs then TrimRight(s[..|s| - 1], cs) else s
  }

  /** `TrimLeft` removes a prefix made only of characters in `cs`, and what remains does not start with one. */
  lemma {:induction false} TrimLeftShape(s: string, cs: set<char>)
    ensures |TrimLeft(s, cs)| <= |s| && TrimLeft(s, cs) == s[|s| - |TrimLeft(s, cs)|..]
    ensures forall i :: 0 <= i < |s| - |TrimLeft(s, cs)| ==> s[i] in cs
    ensures TrimLeft(s, cs) != [] ==> TrimLeft(s, cs)[0] !in cs
    decreases |s|
  {
    if s != [] && s[0] in cs {
      TrimLeftShape(s[1..], cs);
      assert forall i :: 1 <= i < |s| ==> s[i] == s[1..][i - 1];
    }
  }

  /** `TrimRight` removes a suffix made only of characters in `cs`, and what remains does not end with one. */
  lemma {:induction false} TrimRightShape(s: string, cs: set<char>)
    ensures |TrimRight(s, cs)| <= |s| && TrimRight(s, cs) == s[..|TrimRight(s, cs)|]
    ensures forall i :: |TrimRight(s, cs)| <= i < |s| ==> s[i] in cs
    ensures TrimRight(s, cs) != [] ==> TrimRight(s, cs)[|TrimRight(s, cs)| - 1] !in cs
    decreases |s|
  {
    if s != [] && s[|s| - 1] in cs {
      TrimRightShape(s[..|s| - 1], cs);
      assert forall i :: 0 <= i < |s| - 1 ==> s[i] == s[..|s| - 1][i];
    }
  }

  /** Python's `s.strip(chars)`: both ends trimmed of characters in `cs`. */
  function Strip(s: string, cs: set<char>): string {
    TrimRight(TrimLeft(s, cs), cs)
  }

  /**
   * What `Strip` keeps: one contiguous piece of the input whose two ends are
   * not in `cs`; it is empty only when every character of the input is in `cs`.
   */
  lemma StripKeepsCore(s: string, cs: set<char>)
    ensures IsInfix(Strip(s, cs), s)
    ensures Strip(s, cs) != [] ==> Strip(s, cs)[0] !in cs && Strip(s, cs)[|Strip(s, cs)| - 1] !in cs
    ensures Strip(s, cs) == [] ==> forall i :: 0 <= i < |s| ==> s[i] in cs
  {
    var l := TrimLeft(s, cs);
    var r := TrimRight(l, cs);
    TrimLeftShape(s, cs);
    TrimRightShape(l, cs);
    var lo := |s| - |l|;
    assert l == s[lo..];
    assert r == l[..|r|];
    assert s[lo..lo + |r|] == r;
    assert OccursAt(r, s, lo);
    if r != [] {
      assert r[0] == l[0];
    }
    assert forall i :: lo <= i < |s| ==> s[i] == l[i - lo];
  }

  // ---------------------------------------------------------------------------
  // str.split and str.join

  /** Python's `s.split(sep)` for a one-character separator: never empty, pieces free of `sep`. */
  function Split(s: string, sep: char): (r: seq<string>)
    ensures |r| >= 1
    ensures forall k :: 0 <= k < |r| ==> sep !in r[k]
    decreases |s|
  {
    if sep !in s then [s]
    else
      var i := IndexOf(s, sep);
      [s[..i]] + Split(s[i + 1..], sep)
  }

  /** Python's `sep.join(parts)`. */
  function Join(parts: seq<string>, sep: string): string
    decreases |parts|
  {
    if |parts| == 0 then ""
    else if |parts| == 1 then parts[0]
    else parts[0] + sep + Join(parts[1..], sep)
  }

  /** Joining the pieces of a split with the separator gives back the original string. */
  lemma {:induction false} JoinSplit(s: string, sep: char)
    ensures Join(Split(s, sep), [sep]) == s
    decreases |s|
  {
    if sep in s {
      var i := IndexOf(s, sep);
      var rest := Split(s[i + 1..], sep);
      JoinSplit(s[i + 1..], sep);
      assert Split(s, sep) == [s[..i]] + rest;
      assert ([s[..i]] + rest)[1..] == rest;
      assert s == s[..i] + [sep] + s[i + 1..];
    }
  }

  /** Splitting a join of separator-free pieces gives back the pieces. */
  lemma {:induction false} SplitJoin(parts: seq<string>, sep: char)
    requires |parts| >= 1
    requires forall k :: 0 <= k < |parts| ==> sep !in parts[k]
    ensures Split(Join(parts, [sep]), sep) == parts
    decreases |parts|
  {
    if |parts| > 1 {
      var s := Join(parts, [sep]);
      var tail := Join(parts[1..], [sep]);
      assert s == parts[0] + [sep] + tail;
      assert s[|parts[0]|] == sep;
      assert forall j :: 0 <= j < |parts[0]| ==> s[j] == parts[0][j];
      assert IndexOf(s, sep) == |parts[0]|;
      assert s[..|parts[0]|] == parts[0];
      assert s[|parts[0]| + 1..] == tail;
      SplitJoin(parts[1..], sep);
    }
  }

  /** Every piece appears in the joined string. */
  lemma {:induction false} JoinContainsParts(parts: seq<string>, sep: string, k: nat)
    requires k < |parts|
    ensures IsInfix(parts[k], Join(parts, sep))
    decreases |parts|
  {
    var s := Join(parts, sep);
    if |parts| == 1 {
      assert OccursAt(parts[0], s, 0);
    } else if k == 0 {
      assert s[0..|parts[0]|] == parts[0];
      assert OccursAt(parts[0], s, 0);
    } else {
      JoinContainsParts(parts[1..], sep, k - 1);
      var tail := Join(parts[1..], sep);
      var i :| 0 <= i <= |tail| - |parts[k]| && OccursAt(parts[k], tail, i);
      var off := |parts[0]| + |sep|;
      assert s == parts[0] + sep + tail;
      assert s[off + i..off + i + |parts[k]|] == tail[i..i + |parts[k]|];
      assert OccursAt(parts[k], s, off + i);
    }
  }

  /**
   * A lower bound on the length of a join: `n` pieces of at least `m`
   * characters each give at least `n * m + (n - 1) * |sep|` characters.
   */
  lemma {:induction false} JoinLengthAtLeast(parts: seq<string>, sep: string, m: nat)
    requires |parts| >= 1
    requires forall k :: 0 <= k < |parts| ==> |parts[k]| >= m
    ensures |Join(parts, sep)| >= |parts| * m + (|parts| - 1) * |sep|
    decreases |parts|
  {
    if |parts| > 1 {
      JoinLengthAtLeast(parts[1..], sep, m);
    }
  }

  // ---------------------------------------------------------------------------
  // re.sub(r'<[^>]+>', '', s)

  /**
   * The pattern `<[^>]+>` matches at position `i`: there is a `<` at `i`
   * and the first `>` after it exists and is not directly next to it.
   */
  predicate TagAt(s: string, i: nat) {
    i < |s| && s[i] == '<' && '>' in s[i + 1..] && IndexOf(s[i + 1..], '>') >= 1
  }

  /** No match of `<[^>]+>` anywhere in `s`. */
  predicate NoTags(s: string) {
    forall i :: 0 <= i < |s| ==> !TagAt(s, i)
  }

  /**
   * Python's `re.sub(r'<[^>]+>', '', s)`: scanning left to right, each
   * leftmost match is removed and the scan resumes after it.
   */
  function StripTags(s: string): string
    decreases |s|
  {
    if s == [] then ""
    else if TagAt(s, 0) then StripTags(s[IndexOf(s[1..], '>') + 2..])
    else [s[0]] + StripTags(s[1..])
  }

  /** Tag removal never lengthens the text, only keeps characters of it, and keeps a first character that is not `<`. */
  lemma {:induction false} StripTagsShape(s: string)
    ensures |StripTags(s)| <= |s|
    ensures forall k :: 0 <= k < |StripTags(s)| ==> StripTags(s)[k] in s
    ensures s != [] && s[0] != '<' ==> StripTags(s) != [] && StripTags(s)[0] == s[0]
    decreases |s|
  {
    if s != [] {
      if TagAt(s, 0) {
        var t := s[IndexOf(s[1..], '>') + 2..];
        StripTagsShape(t);
        assert forall k :: 0 <= k < |t| ==> t[k] in s;
      } else {
        StripTagsShape(s[1..]);
        assert forall k :: 0 <= k < |s[1..]| ==> s[1..][k] in s;
      }
    }
  }

  /** A `<` that is not a tag start stays one after the characters behind it are tag-stripped. */
  lemma KeptOpenerStaysInert(s: string)
    requires s != [] && s[0] == '<' && !TagAt(s, 0)
    ensures !TagAt([s[0]] + StripTags(s[1..]), 0)
  {
    var r := [s[0]] + StripTags(s[1..]);
    var rest := StripTags(s[1..]);
    assert r[1..] == rest;
    if '>' in s[1..] {
      assert IndexOf(s[1..], '>') == 0;
      assert s[1] == '>';
      StripTagsShape(s[1..]);
      assert rest != [] && rest[0] == '>';
      assert IndexOf(rest, '>') == 0;
    } else {
      StripTagsShape(s[1..]);
      assert '>' !in rest;
    }
  }

  /** Shifting by one kept character does not change whether a later position starts a tag. */
  lemma TagAtShift(c: char, t: string, i: nat)
    requires i < |t|
    ensures TagAt([c] + t, i + 1) == TagAt(t, i)
  {
    assert ([c] + t)[i + 2..] == t[i + 1..];
    assert ([c] + t)[i + 1] == t[i];
  }

  /** Stripping leaves no match of the pattern behind. */
  lemma {:induction false} StripTagsLeavesNoTags(s: string)
    ensures NoTags(StripTags(s))
    decreases |s|
  {
    if s == [] {
    } else if TagAt(s, 0) {
      StripTagsLeavesNoTags(s[IndexOf(s[1..], '>') + 2..]);
    } else {
      var rest := StripTags(s[1..]);
      var r := [s[0]] + rest;
      StripTagsLeavesNoTags(s[1..]);
      forall i | 0 <= i < |r| ensures !TagAt(r, i) {
        if i == 0 {
          if s[0] == '<' { KeptOpenerStaysInert(s); }
        } else {
          TagAtShift(s[0], rest, i - 1);
        }
      }
    }
  }

  /** A string without tags is left as it is. */
  lemma {:induction false} StripTagsFixesTagFree(s: string)
    requires NoTags(s)
    ensures StripTags(s) == s
    decreases |s|
  {
    if s != [] {
      assert !TagAt(s, 0);
      assert s == [s[0]] + s[1..];
      forall i | 0 <= i < |s[1..]| ensures !TagAt(s[1..], i) {
        TagAtShift(s[0], s[1..], i);
      }
      StripTagsFixesTagFree(s[1..]);
    }
  }

  /** A piece cut out of a string without tags has none either. */
  lemma InfixKeepsNoTags(s: string, lo: nat, hi: nat)
    requires lo <= hi <= |s| && NoTags(s)
    ensures NoTags(s[lo..hi])
  {
    var t := s[lo..hi];
    forall i | 0 <= i < |t| ensures !TagAt(t, i) {
      if t[i] == '<' && '>' in t[i + 1..] {
        var j := IndexOf(t[i + 1..], '>');
        var u := s[lo + i + 1..];
        assert t[i + 1..] == u[..|t| - i - 1];
        assert u[j] == '>';
        assert IndexOf(u, '>') == j;
        assert s[lo + i] == '<' && !TagAt(s, lo + i);
      }
    }
  }

  /** Stripping characters from the ends of a tag-free string leaves it tag-free. */
  lemma StripKeepsNoTags(s: string, cs: set<char>)
    requires NoTags(s)
    ensures NoTags(Strip(s, cs))
  {
    var l := TrimLeft(s, cs);
    var r := TrimRight(l, cs);
    TrimLeftShape(s, cs);
    TrimRightShape(l, cs);
    InfixKeepsNoTags(s, |s| - |l|, |s|);
    assert s[|s| - |l|..|s|] == l;
    InfixKeepsNoTags(l, 0, |r|);
    assert l[0..|r|] == r;
  }

  /** A prefix of a tag-free string is tag-free. */
  lemma TakeKeepsNoTags(s: string, n: nat)
    requires NoTags(s)
    ensures NoTags(Take(s, n))
  {
    InfixKeepsNoTags(s, 0, |Take(s, n)|);
  }

  /** Tag stripping is idempotent. */
  lemma StripTagsIdempotent(s: string)
    ensures StripTags(StripTags(s)) == StripTags(s)
  {
    StripTagsLeavesNoTags(s);
    StripTagsFixesTagFree(StripTags(s));
  }
}
