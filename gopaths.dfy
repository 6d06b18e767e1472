/**
 * The parts of Go's `path/filepath` package (Unix separator) that the
 * generator relies on: `Base`, `Ext`, `Clean` and `Join`.
 */
module GoPaths {
  import opened GoStrings

  /** A name a directory can list: not empty, no separator, not `.` or `..`. */
  predicate PlainName(s: string) {
    s != "" && '/' !in s && s != "." && s != ".."
  }

  /** A path element as a directory listing gives it. */
  type FileName = s: string | PlainName(s) witness "a"

  function TrimTrailingSlashes(s: string): (r: string)
    ensures |r| <= |s| && r == s[..|r|]
    ensures r == [] || r[|r| - 1] != '/'
    decreases |s|
  {
    if s != [] && s[|s| - 1] == '/' then TrimTrailingSlashes(s[..|s| - 1]) else s
  }

  /**
   * `filepath.Base`: the last element of `p` after trailing separators are
   * removed; `.` for the empty path and `/` for a path of separators only.
   */
  function Base(p: string): (b: string)
    ensures b != ""
    ensures b == "/" || '/' !in b
  {
    if p == "" then "."
    else
      var q := TrimTrailingSlashes(p);
      if q == "" then "/" else AfterLast(q, '/')
  }

  /**
   * `filepath.Ext`: the suffix of `p` from its last `.` on, provided no separator
   * comes after that dot; empty otherwise.
   */
  function Ext(p: string): (e: string)
    ensures e == "" || (e[0] == '.' && '/' !in e && HasSuffix(p, e))
    decreases |p|
  {
    if p == [] || p[|p| - 1] == '/' then ""
    else if p[|p| - 1] == '.' then "."
    else
      var e := Ext(p[..|p| - 1]);
      if e == "" then "" else e + [p[|p| - 1]]
  }

  /**
   * The lexical part of `filepath.Clean` once the path is split at separators:
   * empty and `.` elements go, `..` removes the element before it, and a `..`
   * with nothing before it is dropped in a rooted path and kept otherwise.
   */
  function Resolve(segs: seq<string>, rooted: bool): (r: seq<string>)
    ensures forall i :: 0 <= i < |r| ==> r[i] != "" && r[i] != "."
    decreases |segs|
  {
    if segs == [] then []
    else
      var acc := Resolve(segs[..|segs| - 1], rooted);
      var e := segs[|segs| - 1];
      if e == "" || e == "." then acc
      else if e == ".." then
        if |acc| > 0 && acc[|acc| - 1] != ".." then acc[..|acc| - 1]
        else if rooted then acc
        else acc + [".."]
      else acc + [e]
  }

  /** `filepath.Clean`: the shortest path equivalent to `p` by lexical processing. */
  function Clean(p: string): (r: string)
    ensures r != ""
  {
    var rooted := |p| > 0 && p[0] == '/';
    var body := Join(Resolve(Split(p, '/'), rooted), "/");
    if rooted then "/" + body
    else if body == "" then "."
    else body
  }

  /**
   * `filepath.Join`: the non-empty elements joined with separators and
   * cleaned; the empty string when every element is empty.
   */
  function JoinPath(elems: seq<string>): string
    decreases |elems|
  {
    if elems == [] then ""
    else if elems[0] != "" then Clean(Join(elems, "/"))
    else JoinPath(elems[1..])
  }

  /** The text after the last separator of `dir + name` is `name` when `dir` ends at a separator. */
  lemma {:induction false} AfterLastName(dir: string, name: string)
    requires dir == [] || dir[|dir| - 1] == '/'
    requires '/' !in name
    ensures AfterLast(dir + name, '/') == name
    decreases |name|
  {
    if name == [] {
      assert dir + name == dir;
    } else {
      var name' := name[..|name| - 1];
      assert dir + name == (dir + name') + [name[|name| - 1]];
      assert (dir + name)[..|dir + name| - 1] == dir + name';
      AfterLastName(dir, name');
    }
  }

  /** `Base` of a path that ends in a plain name, after nothing or a separator, is that name. */
  lemma BaseEndingInName(dir: string, name: string)
    requires PlainName(name)
    requires dir == [] || dir[|dir| - 1] == '/'
    ensures Base(dir + name) == name
  {
    assert (dir + name)[|dir + name| - 1] == name[|name| - 1];
    assert name[|name| - 1] in name;
    AfterLastName(dir, name);
  }

  /** Resolving the elements of `dir/name` resolves those of `dir` and keeps `name` after them. */
  lemma ResolveKeepsLastName(dir: string, name: string, rooted: bool)
    requires PlainName(name)
    ensures Resolve(Split(dir + "/" + name, '/'), rooted) == Resolve(Split(dir, '/'), rooted) + [name]
  {
    SplitAround(dir, name, '/');
    SplitWithoutSeparator(name, '/');
    var segs := Split(dir, '/');
    assert (segs + [name])[..|segs|] == segs;
  }

  /** Joining elements that end in `name` puts `name` after nothing or after a separator. */
  lemma JoinLastName(acc: seq<string>, name: string)
    ensures var pre := if acc == [] then "" else Join(acc, "/") + "/";
            Join(acc + [name], "/") == pre + name
  {
    if acc == [] {
      assert [] + [name] == [name];
      assert "" + name == name;
    } else {
      JoinSnoc(acc, name, "/");
    }
  }

  /** `Clean` keeps a trailing plain name as the last element. */
  lemma CleanKeepsLastName(dir: string, name: string)
    requires PlainName(name)
    ensures Base(Clean(dir + "/" + name)) == name
  {
    var p := dir + "/" + name;
    var rooted := |p| > 0 && p[0] == '/';
    ResolveKeepsLastName(dir, name, rooted);
    var acc := Resolve(Split(dir, '/'), rooted);
    JoinLastName(acc, name);
    var pre := if acc == [] then "" else Join(acc, "/") + "/";
    assert Clean(p) == if rooted then "/" + (pre + name) else pre + name;
    if rooted {
      ConcatAssoc("/", pre, name);
      assert ("/" + pre)[|"/" + pre| - 1] == '/';
      BaseEndingInName("/" + pre, name);
    } else {
      BaseEndingInName(pre, name);
    }
  }

  /** `Clean` leaves a plain name alone. */
  lemma CleanName(name: string)
    requires PlainName(name)
    ensures Clean(name) == name
  {
    SplitWithoutSeparator(name, '/');
    assert Resolve([name], false) == [name] by {
      assert [name][..0] == [];
    }
    assert name[0] in name;
  }

  /** The last element of `filepath.Join(elems...)` is the last of `elems` when that is a plain name. */
  lemma {:induction false} BaseOfJoinPath(elems: seq<string>)
    requires |elems| >= 1 && PlainName(elems[|elems| - 1])
    ensures Base(JoinPath(elems)) == elems[|elems| - 1]
    decreases |elems|
  {
    var name := elems[|elems| - 1];
    if |elems| == 1 {
      CleanName(name);
      BaseEndingInName([], name);
      assert [] + name == name;
    } else if elems[0] == "" {
      assert elems[1..][|elems| - 2] == name;
      BaseOfJoinPath(elems[1..]);
    } else {
      var init := elems[..|elems| - 1];
      assert elems == init + [name];
      JoinSnoc(init, name, "/");
      CleanKeepsLastName(Join(init, "/"), name);
    }
  }

  /** Joining a directory with two different plain names gives two different paths. */
  lemma JoinPathInjective(dir: string, a: string, b: string)
    requires PlainName(a) && PlainName(b) && a != b
    ensures JoinPath([dir, a]) != JoinPath([dir, b])
  {
    BaseOfJoinPath([dir, a]);
    BaseOfJoinPath([dir, b]);
  }
}
