/**
 * The parts of Go's `strings` and `bytes` packages that the generator relies on:
 * `Title` (ASCII), `Split`, `Join`, `HasPrefix`, `HasSuffix`, `TrimSuffix` and
 * `ReplaceAll`, with the facts about them that the rest of the model uses.
 */
module GoStrings {

  /** An element of Go's `[]byte`. */
  newtype byte = x: int | 0 <= x < 256

  // ---------------------------------------------------------------------------
  // strings.Title

  predicate IsLetter(c: char) {
    ('a' <= c <= 'z') || ('A' <= c <= 'Z')
  }

  /**
   * Go's `isSeparator` restricted to what this model distinguishes: an ASCII
   * character separates words unless it is a letter, a digit or `_`; characters
   * beyond ASCII are treated as part of a word.
   */
  predicate IsSeparator(c: char) {
    c as int <= 0x7F && !(IsLetter(c) || ('0' <= c <= '9') || c == '_')
  }

  /** `unicode.ToTitle` on ASCII: lower-case letters become upper-case. */
  function Upper(c: char): (u: char)
    ensures 'a' <= c <= 'z' ==> 'A' <= u <= 'Z' && u as int == c as int - 32
    ensures !('a' <= c <= 'z') ==> u == c
  {
    if 'a' <= c <= 'z' then (c as int - 32) as char else c
  }

  /**
   * The `strings.Map` pass inside `strings.Title`: `boundary` says whether the
   * previous character was a separator (it starts out true, as if a space came
   * before the string).
   */
  function TitleFrom(boundary: bool, s: string): (r: string)
    ensures |r| == |s|
    decreases |s|
  {
    if s == [] then []
    else [if boundary then Upper(s[0]) else s[0]] + TitleFrom(IsSeparator(s[0]), s[1..])
  }

  /** `strings.Title`: upper-cases every letter that starts a word. */
  function Title(s: string): (r: string)
    ensures |r| == |s|
  {
    TitleFrom(true, s)
  }

  /** Whether position `i` of `s` starts a word. */
  predicate StartsWord(s: string, i: nat)
    requires i < |s|
  {
    i == 0 || IsSeparator(s[i - 1])
  }

  lemma {:induction false} TitleFromAt(boundary: bool, s: string, i: nat)
    requires i < |s|
    ensures TitleFrom(boundary, s)[i]
            == if (if i == 0 then boundary else IsSeparator(s[i - 1])) then Upper(s[i]) else s[i]
    decreases |s|
  {
    if i > 0 {
      TitleFromAt(IsSeparator(s[0]), s[1..], i - 1);
      assert s[1..][i - 1] == s[i];
      if i > 1 {
        assert s[1..][i - 2] == s[i - 1];
      }
    }
  }

  /** Title-casing, position by position: only the first character of a word changes. */
  lemma TitleAt(s: string, i: nat)
    requires i < |s|
    ensures Title(s)[i] == if StartsWord(s, i) then Upper(s[i]) else s[i]
  {
    TitleFromAt(true, s, i);
  }

  /** Title-casing a title-cased string changes nothing. */
  lemma TitleIdempotent(s: string)
    ensures Title(Title(s)) == Title(s)
  {
    var t := Title(s);
    forall i | 0 <= i < |s|
      ensures Title(t)[i] == t[i]
    {
      TitleAt(t, i);
      TitleAt(s, i);
      if i > 0 {
        TitleAt(s, i - 1);
      }
    }
  }

  /** A character that is not a letter occurs in `Title(s)` exactly where it occurs in `s`. */
  lemma TitleKeepsNonLetter(s: string, c: char, i: nat)
    requires !IsLetter(c) && i < |s|
    ensures Title(s)[i] == c <==> s[i] == c
  {
    TitleAt(s, i);
  }

  /** So `Title` neither adds nor removes a non-letter such as `_`. */
  lemma TitleContains(s: string, c: char)
    requires !IsLetter(c)
    ensures c in Title(s) <==> c in s
  {
    if c in s {
      var i :| 0 <= i < |s| && s[i] == c;
      TitleKeepsNonLetter(s, c, i);
    }
    if c in Title(s) {
      var i :| 0 <= i < |Title(s)| && Title(s)[i] == c;
      TitleKeepsNonLetter(s, c, i);
    }
  }

  // ---------------------------------------------------------------------------
  // strings.Split and strings.Join (single-character separator)

  /**
   * `strings.Split(s, string(sep))`: the pieces of `s` between occurrences of
   * `sep`, always at least one (the empty string splits to `[""]`).
   */
  function Split(s: string, sep: char): (parts: seq<string>)
    ensures |parts| >= 1
    decreases |s|
  {
    if s == [] then [""]
    else
      var init := Split(s[..|s| - 1], sep);
      var c := s[|s| - 1];
      if c == sep then init + [""]
      else init[..|init| - 1] + [init[|init| - 1] + [c]]
  }

  /** `strings.Join(parts, sep)`. */
  function Join(parts: seq<string>, sep: string): string
    decreases |parts|
  {
    if |parts| == 0 then ""
    else if |parts| == 1 then parts[0]
    else Join(parts[..|parts| - 1], sep) + sep + parts[|parts| - 1]
  }

  /** Whatever follows the last `c` in `s`; all of `s` when `c` does not occur. */
  function AfterLast(s: string, c: char): (r: string)
    ensures c !in r
    ensures |r| <= |s| && s[|s| - |r|..] == r
    ensures |r| < |s| ==> s[|s| - |r| - 1] == c
    ensures |r| == |s| <==> c !in s
    decreases |s|
  {
    if s == [] then []
    else if s[|s| - 1] == c then []
    else
      var r := AfterLast(s[..|s| - 1], c);
      assert s[..|s| - 1] == s[..|s| - 1];
      r + [s[|s| - 1]]
  }

  /** No piece of a split contains the separator. */
  lemma {:induction false} SplitNoSeparator(s: string, sep: char)
    ensures forall i :: 0 <= i < |Split(s, sep)| ==> sep !in Split(s, sep)[i]
    decreases |s|
  {
    if s != [] {
      SplitNoSeparator(s[..|s| - 1], sep);
    }
  }

  /** A string without the separator splits into itself alone. */
  lemma {:induction false} SplitWithoutSeparator(s: string, sep: char)
    requires sep !in s
    ensures Split(s, sep) == [s]
    decreases |s|
  {
    if s != [] {
      SplitWithoutSeparator(s[..|s| - 1], sep);
      assert s[..|s| - 1] + [s[|s| - 1]] == s;
    }
  }

  /** Joining the pieces with the separator gives back the string. */
  lemma {:induction false} SplitJoin(s: string, sep: char)
    ensures Join(Split(s, sep), [sep]) == s
    decreases |s|
  {
    if s != [] {
      var init := s[..|s| - 1];
      var c := s[|s| - 1];
      var p := Split(init, sep);
      SplitJoin(init, sep);
      assert init + [c] == s;
      if c == sep {
        assert (p + [""])[..|p|] == p;
      } else {
        var q := p[..|p| - 1] + [p[|p| - 1] + [c]];
        assert q[..|q| - 1] == p[..|p| - 1];
        if |p| > 1 {
          assert Join(p, [sep]) == Join(p[..|p| - 1], [sep]) + [sep] + p[|p| - 1];
        }
      }
    }
  }

  /** The last piece of a split is what follows the last separator. */
  lemma {:induction false} SplitLast(s: string, sep: char)
    ensures Split(s, sep)[|Split(s, sep)| - 1] == AfterLast(s, sep)
    decreases |s|
  {
    if s != [] {
      SplitLast(s[..|s| - 1], sep);
    }
  }

  /** The pieces after one more character: a new empty piece for `sep`, else a longer last piece. */
  function AddChar(p: seq<string>, c: char, sep: char): seq<string>
    requires |p| >= 1
  {
    if c == sep then p + [""] else p[..|p| - 1] + [p[|p| - 1] + [c]]
  }

  /** Splitting a string with one more character at its end. */
  lemma SplitSnoc(s: string, c: char, sep: char)
    ensures Split(s + [c], sep) == AddChar(Split(s, sep), c, sep)
  {
    assert (s + [c])[..|s|] == s;
  }

  /** Splitting around a separator splits each side on its own. */
  lemma {:induction false} SplitAround(a: string, b: string, sep: char)
    ensures Split(a + [sep] + b, sep) == Split(a, sep) + Split(b, sep)
    decreases |b|
  {
    if b == [] {
      SplitSnoc(a, sep, sep);
      assert a + [sep] + b == a + [sep];
    } else {
      var b', c := b[..|b| - 1], b[|b| - 1];
      SplitAround(a, b', sep);
      SplitAroundSnoc(Split(a, sep), Split(b', sep), a + [sep] + b', b', c, sep);
      SplitOffLast(a + [sep], b);
    }
  }

  lemma ConcatAssoc<T>(p: seq<T>, q: seq<T>, r: seq<T>)
    ensures (p + q) + r == p + (q + r)
  {
  }

  /** Taking the last element off the right operand of a concatenation. */
  lemma SplitOffLast<T>(p: seq<T>, b: seq<T>)
    requires |b| > 0
    ensures b == b[..|b| - 1] + [b[|b| - 1]]
    ensures p + b == (p + b[..|b| - 1]) + [b[|b| - 1]]
  {
  }

  /** The step of `SplitAround`: one more character after the separator. */
  lemma SplitAroundSnoc(x: seq<string>, y: seq<string>, s: string, b: string, c: char, sep: char)
    requires Split(s, sep) == x + y && Split(b, sep) == y
    ensures Split(s + [c], sep) == x + Split(b + [c], sep)
  {
    SplitSnoc(s, c, sep);
    SplitSnoc(b, c, sep);
    AddCharAfter(x, y, c, sep);
  }

  /** Adding a character touches only the pieces at the end. */
  lemma AddCharAfter(x: seq<string>, y: seq<string>, c: char, sep: char)
    requires |y| >= 1
    ensures AddChar(x + y, c, sep) == x + AddChar(y, c, sep)
  {
    var p := x + y;
    if c == sep {
      assert p + [""] == x + (y + [""]);
    } else {
      assert p[..|p| - 1] == x + y[..|y| - 1];
      assert p[|p| - 1] == y[|y| - 1];
    }
  }

  /** Joining with a trailing element appends the separator and that element. */
  lemma JoinSnoc(parts: seq<string>, last: string, sep: string)
    requires |parts| >= 1
    ensures Join(parts + [last], sep) == Join(parts, sep) + sep + last
  {
    assert (parts + [last])[..|parts|] == parts;
  }

  /** A character in neither the pieces nor the separator is not in the join. */
  lemma {:induction false} JoinAvoids(parts: seq<string>, sep: string, c: char)
    requires c !in sep
    requires forall i :: 0 <= i < |parts| ==> c !in parts[i]
    ensures c !in Join(parts, sep)
    decreases |parts|
  {
    if |parts| > 1 {
      JoinAvoids(parts[..|parts| - 1], sep, c);
    }
  }

  // ---------------------------------------------------------------------------
  // Prefixes and suffixes

  /** `strings.HasPrefix` / `bytes.HasPrefix`. */
  predicate HasPrefix<T(==)>(s: seq<T>, prefix: seq<T>) {
    |prefix| <= |s| && s[..|prefix|] == prefix
  }

  /** `strings.HasSuffix`. */
  predicate HasSuffix(s: string, suffix: string) {
    |suffix| <= |s| && s[|s| - |suffix|..] == suffix
  }

  /** `strings.TrimSuffix`: drops `suffix` once when `s` ends with it. */
  function TrimSuffix(s: string, suffix: string): (r: string)
    ensures HasSuffix(s, suffix) ==> r + suffix == s
    ensures !HasSuffix(s, suffix) ==> r == s
  {
    if HasSuffix(s, suffix) then s[..|s| - |suffix|] else s
  }

  // ---------------------------------------------------------------------------
  // bytes.ReplaceAll

  /** `pat` occurs in `s` starting at index `i`. */
  predicate OccursAt<T(==)>(s: seq<T>, pat: seq<T>, i: nat) {
    i + |pat| <= |s| && s[i..i + |pat|] == pat
  }

  /** `bytes.Contains`. */
  predicate Contains<T(==)>(s: seq<T>, pat: seq<T>) {
    exists i: nat | i <= |s| :: OccursAt(s, pat, i)
  }

  /**
   * `bytes.ReplaceAll(s, pat, rep)` for a non-empty `pat`: scanning left to
   * right, every occurrence of `pat` that does not overlap an earlier one is
   * replaced by `rep`.
   */
  function ReplaceAll<T(==)>(s: seq<T>, pat: seq<T>, rep: seq<T>): seq<T>
    requires |pat| > 0
    decreases |s|
  {
    if s == [] then []
    else if HasPrefix(s, pat) then rep + ReplaceAll(s[|pat|..], pat, rep)
    else [s[0]] + ReplaceAll(s[1..], pat, rep)
  }

  /** Input with no occurrence of the pattern comes out unchanged. */
  lemma {:induction false} ReplaceAllWithoutMatch<T>(s: seq<T>, pat: seq<T>, rep: seq<T>)
    requires |pat| > 0
    requires !Contains(s, pat)
    ensures ReplaceAll(s, pat, rep) == s
    decreases |s|
  {
    if s != [] {
      assert !OccursAt(s, pat, 0);
      assert !HasPrefix(s, pat);
      forall i: nat
        ensures !OccursAt(s[1..], pat, i)
      {
        assert !OccursAt(s, pat, i + 1);
        if i + |pat| <= |s[1..]| {
          assert s[1..][i..i + |pat|] == s[i + 1..i + 1 + |pat|];
        }
      }
      ReplaceAllWithoutMatch(s[1..], pat, rep);
    }
  }

  /** Neither of `a`, `b` is a prefix of the other: they differ before either ends. */
  predicate Clash<T(==)>(a: seq<T>, b: seq<T>) {
    exists i: nat :: i < |a| && i < |b| && a[i] != b[i]
  }

  /**
   * The condition under which replacing cannot leave or create an occurrence of
   * `pat`: no tail of `pat` can run into `rep`, and no tail of `rep` into `pat`.
   */
  predicate NoOverlap<T(==)>(pat: seq<T>, rep: seq<T>) {
    && (forall k: nat :: k < |pat| ==> Clash(pat[k..], rep))
    && (forall j: nat :: 0 < j < |rep| ==> Clash(rep[j..], pat))
  }

  /** If the replaced text starts with a tail of `pat`, so did the original. */
  lemma {:induction false} ReplacedPrefix<T>(t: seq<T>, pat: seq<T>, rep: seq<T>, k: nat)
    requires |pat| > 0 && NoOverlap(pat, rep) && k < |pat|
    ensures HasPrefix(ReplaceAll(t, pat, rep), pat[k..]) ==> HasPrefix(t, pat[k..])
    decreases |t|
  {
    var r := ReplaceAll(t, pat, rep);
    var q := pat[k..];
    if t == [] {
    } else if HasPrefix(t, pat) {
      assert r == rep + ReplaceAll(t[|pat|..], pat, rep);
      ClashBlocksPrefix(q, rep, ReplaceAll(t[|pat|..], pat, rep));
    } else {
      assert r == [t[0]] + ReplaceAll(t[1..], pat, rep);
      if k + 1 < |pat| {
        ReplacedPrefix(t[1..], pat, rep, k + 1);
        assert q[1..] == pat[k + 1..];
      } else {
        assert q[1..] == [];
      }
      if HasPrefix(r, q) {
        ConsPrefix(t, ReplaceAll(t[1..], pat, rep), q);
      }
    }
  }

  /** Text that starts with `rep` cannot start with anything that clashes with `rep`. */
  lemma ClashBlocksPrefix<T>(q: seq<T>, rep: seq<T>, rest: seq<T>)
    requires Clash(q, rep)
    ensures !HasPrefix(rep + rest, q)
  {
    var d: nat :| d < |q| && d < |rep| && q[d] != rep[d];
    assert (rep + rest)[d] == rep[d];
  }

  /** A prefix match after the first element carries back to the original text. */
  lemma ConsPrefix<T>(t: seq<T>, rest: seq<T>, q: seq<T>)
    requires |q| > 0 && |t| > 0
    requires HasPrefix([t[0]] + rest, q)
    requires HasPrefix(rest, q[1..]) ==> HasPrefix(t[1..], q[1..])
    ensures HasPrefix(t, q)
  {
    assert ([t[0]] + rest)[1..|q|] == rest[..|q| - 1];
    assert q == [q[0]] + q[1..];
    assert t[..|q|] == [t[0]] + t[1..][..|q| - 1];
  }

  /** After `ReplaceAll`, the pattern occurs nowhere, provided `pat` and `rep` cannot overlap. */
  lemma {:induction false} ReplaceAllLeavesNoMatch<T>(s: seq<T>, pat: seq<T>, rep: seq<T>)
    requires |pat| > 0 && NoOverlap(pat, rep)
    ensures !Contains(ReplaceAll(s, pat, rep), pat)
    decreases |s|
  {
    if s != [] {
      if HasPrefix(s, pat) {
        ReplaceAllLeavesNoMatch(s[|pat|..], pat, rep);
        NoMatchAfterReplacement(ReplaceAll(s[|pat|..], pat, rep), pat, rep);
        assert ReplaceAll(s, pat, rep) == rep + ReplaceAll(s[|pat|..], pat, rep);
      } else {
        ReplaceAllLeavesNoMatch(s[1..], pat, rep);
        ReplacedPrefix(s, pat, rep, 0);
        assert pat[0..] == pat;
        assert ReplaceAll(s, pat, rep) == [s[0]] + ReplaceAll(s[1..], pat, rep);
        NoMatchPrepend(s[0], ReplaceAll(s[1..], pat, rep), pat);
      }
    }
  }

  /** A replacement followed by text without the pattern contains no occurrence of it. */
  lemma NoMatchAfterReplacement<T>(rest: seq<T>, pat: seq<T>, rep: seq<T>)
    requires |pat| > 0 && NoOverlap(pat, rep) && !Contains(rest, pat)
    ensures !Contains(rep + rest, pat)
  {
    var r := rep + rest;
    forall i: nat
      ensures !OccursAt(r, pat, i)
    {
      if i >= |rep| {
        if i + |pat| <= |r| {
          assert r[i..i + |pat|] == rest[i - |rep|..i - |rep| + |pat|];
          assert !OccursAt(rest, pat, i - |rep|);
        }
      } else if i == 0 {
        assert Clash(pat[0..], rep);
        var d: nat :| d < |pat[0..]| && d < |rep| && pat[0..][d] != rep[d];
        assert r[d] == rep[d];
      } else {
        assert Clash(rep[i..], pat);
        var d: nat :| d < |rep[i..]| && d < |pat| && rep[i..][d] != pat[d];
        assert r[i + d] == rep[i + d];
      }
    }
  }

  /** One element before text without the pattern starts no occurrence unless the whole starts with it. */
  lemma NoMatchPrepend<T>(x: T, rest: seq<T>, pat: seq<T>)
    requires !HasPrefix([x] + rest, pat) && !Contains(rest, pat)
    ensures !Contains([x] + rest, pat)
  {
    var r := [x] + rest;
    forall i: nat
      ensures !OccursAt(r, pat, i)
    {
      if i >= 1 && i + |pat| <= |r| {
        assert r[i..i + |pat|] == rest[i - 1..i - 1 + |pat|];
        assert !OccursAt(rest, pat, i - 1);
      }
    }
  }
}
