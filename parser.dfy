/**
 * parser.go: the skeleton scanner and the reconciler.
 *
 * The scanner walks the Go files of the generated skeleton: `api_*` files
 * become services whose functions enter a flat method index, `model_*` files
 * are remembered for copying. The reconciler then checks every operation of
 * the OpenAPI document against that index.
 *
 * Go's map iteration order is unspecified. Loops over maps pick an arbitrary
 * remaining key, and where the order shows in a result it is returned as a
 * ghost sequence so that the contracts can speak about it.
 */
module Parser {
  import opened Wrappers
  import opened GoStrings
  import opened GoPaths
  import opened Errors

  predicate Distinct<T(==)>(s: seq<T>) {
    forall i, j :: 0 <= i < j < |s| ==> s[i] != s[j]
  }

  function ToSet<T(!new)>(s: seq<T>): (r: set<T>)
    ensures forall x :: x in r <==> x in s
  {
    set x | x in s
  }

  // ---------------------------------------------------------------------------
  // What go/parser and the YAML decoder hand over

  /** `go/ast.ObjKind`. */
  datatype ObjKind = Bad | Pkg | Con | Typ | Var | Fun | Lbl

  /** A parsed Go file, reduced to the objects of its top-level scope. */
  datatype GoFile = GoFile(objects: map<string, ObjKind>)

  /** The names of the functions a file declares at top level. */
  function FunctionNames(file: GoFile): set<string> {
    set n | n in file.objects && file.objects[n] == Fun
  }

  /** A decoded YAML value; a mapping is `Specs`, Go's `map[interface{}]interface{}`. */
  datatype Yaml =
    | Str(s: string)
    | Int(i: int)
    | Bool(b: bool)
    | Null
    | List(items: seq<Yaml>)
    | Mapping(entries: map<Yaml, Yaml>)

  type Specs = map<Yaml, Yaml>

  /** The outcome of reading a file and decoding it as YAML. */
  datatype YamlFile = Unparsable | Document(specs: Specs)

  /**
   * What the file system and the two foreign parsers give the parser:
   * the directories that `goparser.ParseDir` reads successfully, each as its
   * files by name (the packages of a directory flattened into one map), and
   * the YAML files that can be read, by path.
   */
  datatype Sources = Sources(dirs: map<string, map<FileName, GoFile>>, docs: map<string, YamlFile>)

  // ---------------------------------------------------------------------------
  // The parser's records

  /** One query parameter of an operation. */
  datatype Query = Query(key: string, kind: string)

  /**
   * A method of a service, shared by reference between its service and the
   * flat method index. Only the name (Go's `Method` field) is ever set by the core.
   */
  class ServiceMethod {
    const name: string
    var pathVars: seq<string>
    var queries: seq<Query>
    var requestBody: string
    var response: string

    constructor (name: string)
      ensures this.name == name
      ensures pathVars == [] && queries == [] && requestBody == "" && response == ""
    {
      this.name := name;
      pathVars, queries, requestBody, response := [], [], "", "";
    }
  }

  /** A service: its name and its methods by name. */
  datatype ServiceInfo = ServiceInfo(name: string, methods: map<string, ServiceMethod>)

  /** Every method is filed under its own name. */
  ghost predicate SelfKeyed(m: map<string, ServiceMethod>) {
    forall n :: n in m ==> m[n].name == n
  }

  // ---------------------------------------------------------------------------
  // ServicePath.GetServiceName

  /** The file name of `path` without its extension. */
  function Stem(path: string): string {
    var file := Base(path);
    TrimSuffix(file, Ext(file))
  }

  function TitleAll(parts: seq<string>): (r: seq<string>)
    ensures |r| == |parts|
    ensures forall i :: 0 <= i < |parts| ==> r[i] == Title(parts[i])
  {
    seq(|parts|, i requires 0 <= i < |parts| => Title(parts[i]))
  }

  /**
   * The service name of an `api_<group>.go` file: the `_`-separated parts of
   * the file's stem, the first dropped, the rest title-cased and run together,
   * followed by `Service`.
   */
  function ServiceNameOf(path: string): string {
    NameFromParts(Split(Stem(path), '_'))
  }

  /** All parts but the first, title-cased, run together and followed by `Service`. */
  function NameFromParts(parts: seq<string>): string
    requires |parts| >= 1
  {
    Join(TitleAll(parts)[1..] + ["Service"], "")
  }

  /** `ServicePath.GetServiceName`, with its loop that title-cases the parts in place. */
  method GetServiceName(path: string) returns (name: string)
    ensures name == ServiceNameOf(path)
  {
    var filename := Base(path);
    filename := TrimSuffix(filename, Ext(filename));
    ghost var original := Split(filename, '_');
    var parts := Split(filename, '_');
    var i := 0;
    while i < |parts|
      invariant 0 <= i <= |parts| == |original|
      invariant forall j :: 0 <= j < i ==> parts[j] == Title(original[j])
      invariant forall j :: i <= j < |parts| ==> parts[j] == original[j]
    {
      parts := parts[i := Title(parts[i])];
      i := i + 1;
    }
    assert parts == TitleAll(original);
    parts := parts[1..];
    parts := parts + ["Service"];
    name := Join(parts, "");
  }

  /** `api_<x>.go` with no `_` in `x`, in any directory, names `Title(x) + "Service"`. */
  lemma ServiceNameOneGroup(dir: string, x: string)
    requires PlainName("api_" + x + ".go") && '_' !in x
    ensures ServiceNameOf(JoinPath([dir, "api_" + x + ".go"])) == Title(x) + "Service"
  {
    var stem := "api_" + x;
    StemOfGoFile(dir, stem);
    SplitApiOne(x);
    ServiceNameOfPart(JoinPath([dir, stem + ".go"]), "api", x);
  }

  /** The stem `api_<x>` splits into `api` and `x`. */
  lemma SplitApiOne(x: string)
    requires '_' !in x
    ensures Split("api_" + x, '_') == ["api", x]
  {
    assert "api_" + x == "api" + ['_'] + x;
    SplitTwo("api", x);
  }

  lemma SplitTwo(x: string, y: string)
    requires '_' !in x && '_' !in y
    ensures Split(x + ['_'] + y, '_') == [x, y]
  {
    SplitAround(x, y, '_');
    SplitWithoutSeparator(x, '_');
    SplitWithoutSeparator(y, '_');
  }

  lemma ServiceNameOfPart(path: string, first: string, x: string)
    requires Split(Stem(path), '_') == [first, x]
    ensures ServiceNameOf(path) == Title(x) + "Service"
  {
    NameFromTwoParts(first, x);
  }

  lemma NameFromTwoParts(first: string, x: string)
    ensures NameFromParts([first, x]) == Title(x) + "Service"
  {
    var titled := TitleAll([first, x]);
    assert titled[1..] + ["Service"] == [Title(x), "Service"];
    JoinTwo(Title(x), "Service");
  }

  /** `strings.Title` takes a dot for a word separator. */
  lemma TitleAfterDot()
    ensures Title("a.b") == "A.B"
  {
    TitleAt("a.b", 0);
    TitleAt("a.b", 1);
    TitleAt("a.b", 2);
  }

  /**
   * Only the last extension is removed, and a dot that stays in the stem
   * separates words for `strings.Title`: `api_a.b.go` names `A.BService`.
   */
  lemma ServiceNameKeepsDots(dir: string)
    ensures ServiceNameOf(JoinPath([dir, "api_a.b.go"])) == "A.BService"
  {
    TitleAfterDot();
    assert "api_a.b.go" == "api_" + "a.b" + ".go";
    assert "A.BService" == "A.B" + "Service";
    assert PlainName("api_a.b.go");
    ServiceNameOneGroupTitled(dir, "api_a.b.go", "a.b", "A.B");
  }

  lemma ServiceNameOneGroupTitled(dir: string, file: string, x: string, titled: string)
    requires file == "api_" + x + ".go" && PlainName(file) && '_' !in x && Title(x) == titled
    ensures ServiceNameOf(JoinPath([dir, file])) == titled + "Service"
  {
    ServiceNameOneGroup(dir, x);
  }

  lemma JoinTwo(x: string, y: string)
    ensures Join([x, y], "") == x + y
  {
    assert [x, y][..1] == [x];
    assert Join([x, y], "") == Join([x], "") + "" + y;
  }

  /** A service name always ends in `Service` and never contains `_` or a separator. */
  lemma ServiceNameShape(path: string)
    ensures HasSuffix(ServiceNameOf(path), "Service")
    ensures '_' !in ServiceNameOf(path) && '/' !in ServiceNameOf(path)
  {
    var parts := Split(Stem(path), '_');
    StemPartsAfterFirst(path);
    SplitNoSeparator(Stem(path), '_');
    NameFromPartsAvoids(parts, '_');
    NameFromPartsAvoids(parts, '/');
    JoinEndsWithLast(TitleAll(parts)[1..], "Service");
  }

  /** A non-letter absent from every part after the first is absent from the name. */
  lemma NameFromPartsAvoids(parts: seq<string>, c: char)
    requires |parts| >= 1 && !IsLetter(c)
    requires forall i :: 1 <= i < |parts| ==> c !in parts[i]
    ensures c !in NameFromParts(parts)
  {
    var all := TitleAll(parts)[1..] + ["Service"];
    forall i | 0 <= i < |all|
      ensures c !in all[i]
    {
      if i < |parts| - 1 {
        assert all[i] == Title(parts[i + 1]);
        TitleContains(parts[i + 1], c);
      } else {
        assert all[i] == "Service";
      }
    }
    JoinAvoids(all, "", c);
  }

  /** Joining without a separator ends with the last piece. */
  lemma JoinEndsWithLast(init: seq<string>, last: string)
    ensures HasSuffix(Join(init + [last], ""), last)
  {
    if init == [] {
      assert init + [last] == [last];
    } else {
      JoinSnoc(init, last, "");
      assert Join(init + [last], "") == Join(init, "") + last;
    }
  }

  /** Only the first part of a stem can contain a separator (when the stem is `/`). */
  lemma StemPartsAfterFirst(path: string)
    ensures forall i :: 0 < i < |Split(Stem(path), '_')| ==> '/' !in Split(Stem(path), '_')[i]
  {
    var b := Base(path);
    var stem := Stem(path);
    if b == "/" {
      assert Ext(b) == "";
      SplitWithoutSeparator(stem, '_');
    } else {
      var e := Ext(b);
      assert '/' !in stem by {
        if HasSuffix(b, e) {
          assert stem + e == b;
          assert forall k :: 0 <= k < |stem| ==> stem[k] == (stem + e)[k];
        }
      }
      SplitPiecesAvoid(stem, '_', '/');
    }
  }

  /** A character absent from a string is absent from every piece of its split. */
  lemma {:induction false} SplitPiecesAvoid(s: string, sep: char, c: char)
    requires c !in s
    ensures forall i :: 0 <= i < |Split(s, sep)| ==> c !in Split(s, sep)[i]
    decreases |s|
  {
    if s != [] {
      SplitPiecesAvoid(s[..|s| - 1], sep, c);
    }
  }

  /** A file without `_` in its stem is named just `Service`; no part of it survives. */
  lemma ServiceNameWithoutUnderscore(path: string)
    requires '_' !in Stem(path)
    ensures ServiceNameOf(path) == "Service"
  {
    SplitWithoutSeparator(Stem(path), '_');
  }

  /** The stem of a `.go` file in a directory is its name without `.go`. */
  lemma StemOfGoFile(dir: string, stem: string)
    requires PlainName(stem + ".go")
    ensures Stem(JoinPath([dir, stem + ".go"])) == stem
  {
    BaseOfJoinPath([dir, stem + ".go"]);
    ExtOfGoFile(stem);
    assert HasSuffix(stem + ".go", ".go");
  }

  /** The extension of `<stem>.go` is `.go`. */
  lemma ExtOfGoFile(stem: string)
    ensures Ext(stem + ".go") == ".go"
  {
    var p1 := stem + ".";
    assert Ext(p1) == ".";
    var p2 := stem + ".g";
    assert p2[..|p2| - 1] == p1;
    assert Ext(p2) == ".g";
    var p3 := stem + ".go";
    assert p3[..|p3| - 1] == p2;
  }

  /** Three `_`-separated words split into those three words. */
  lemma SplitThree(x: string, y: string, z: string)
    requires '_' !in x && '_' !in y && '_' !in z
    ensures Split(x + "_" + y + "_" + z, '_') == [x, y, z]
  {
    assert x + "_" + y + "_" + z == (x + ['_'] + y) + ['_'] + z;
    SplitAround(x + ['_'] + y, z, '_');
    SplitAround(x, y, '_');
    SplitWithoutSeparator(x, '_');
    SplitWithoutSeparator(y, '_');
    SplitWithoutSeparator(z, '_');
  }

  /**
   * The first part of the stem is dropped, and each remaining part appears,
   * title-cased, in order: `api_<a>_<b>.go` is named `Title(a) + Title(b) + "Service"`.
   */
  lemma ServiceNameTwoParts(dir: string, a: string, b: string)
    requires PlainName("api_" + a + "_" + b + ".go")
    requires '_' !in a && '_' !in b
    ensures ServiceNameOf(JoinPath([dir, "api_" + a + "_" + b + ".go"])) == Title(a) + Title(b) + "Service"
  {
    var stem := "api_" + a + "_" + b;
    StemOfGoFile(dir, stem);
    SplitApiStem(a, b);
    ServiceNameOfParts(JoinPath([dir, stem + ".go"]), "api", a, b);
  }

  /** The stem `api_<a>_<b>` splits into `api`, `a` and `b`. */
  lemma SplitApiStem(a: string, b: string)
    requires '_' !in a && '_' !in b
    ensures Split("api_" + a + "_" + b, '_') == ["api", a, b]
  {
    assert "api_" + a + "_" + b == "api" + "_" + a + "_" + b;
    SplitThree("api", a, b);
  }

  lemma ServiceNameOfParts(path: string, x: string, a: string, b: string)
    requires Split(Stem(path), '_') == [x, a, b]
    ensures ServiceNameOf(path) == Title(a) + Title(b) + "Service"
  {
    NameFromThreeParts(x, a, b);
  }

  lemma NameFromThreeParts(x: string, a: string, b: string)
    ensures NameFromParts([x, a, b]) == Title(a) + Title(b) + "Service"
  {
    var titled := TitleAll([x, a, b]);
    assert titled[1..] + ["Service"] == [Title(a), Title(b), "Service"];
    JoinThree(Title(a), Title(b), "Service");
  }

  lemma JoinThree(x: string, y: string, z: string)
    ensures Join([x, y, z], "") == x + y + z
  {
    assert [x, y][..1] == [x];
    assert Join([x, y], "") == x + y by {
      assert Join([x, y], "") == Join([x], "") + "" + y;
    }
    assert [x, y, z][..2] == [x, y];
    assert Join([x, y, z], "") == Join([x, y], "") + "" + z;
  }

  // ---------------------------------------------------------------------------
  // parseFile's dispatch

  datatype FileKind = ApiFile | ModelFile | RoutersFile | OtherFile

  /** No name carries both prefixes, and `routers.go` carries neither. */
  lemma PrefixesExclusive(name: string)
    ensures !(HasPrefix(name, "api_") && HasPrefix(name, "model_"))
    ensures name == "routers.go" ==> !HasPrefix(name, "api_") && !HasPrefix(name, "model_")
  {
    if HasPrefix(name, "api_") {
      assert name[0] == "api_"[0];
    }
    if HasPrefix(name, "model_") {
      assert name[0] == "model_"[0];
    }
  }

  /** How `parseFile` treats a file, decided by its base name alone. */
  function Classify(path: string): (k: FileKind)
    ensures k == ApiFile <==> HasPrefix(Base(path), "api_")
    ensures k == ModelFile <==> HasPrefix(Base(path), "model_")
    ensures k == RoutersFile <==> Base(path) == "routers.go"
  {
    var filename := Base(path);
    PrefixesExclusive(filename);
    if HasPrefix(filename, "api_") then ApiFile
    else if HasPrefix(filename, "model_") then ModelFile
    else if filename == "routers.go" then RoutersFile
    else OtherFile
  }

  /** The `api_` files among `names`. */
  function ApiNames(names: set<FileName>): set<FileName> {
    set n | n in names && HasPrefix(n, "api_")
  }

  /** The names of the functions that the `api_` files among `names` declare. */
  function DeclaredMethods(dir: map<FileName, GoFile>, names: set<FileName>): set<string> {
    set f, n | f in names && f in dir && HasPrefix(f, "api_") && n in FunctionNames(dir[f]) :: n
  }

  /** Adding one file to the scanned names adds its functions when it is an `api_` file. */
  lemma DeclaredAdd(dir: map<FileName, GoFile>, names: set<FileName>, name: FileName)
    requires name in dir
    ensures DeclaredMethods(dir, names + {name})
            == DeclaredMethods(dir, names) + (if HasPrefix(name, "api_") then FunctionNames(dir[name]) else {})
  {
    var extra := if HasPrefix(name, "api_") then FunctionNames(dir[name]) else {};
    forall n | n in DeclaredMethods(dir, names + {name})
      ensures n in DeclaredMethods(dir, names) + extra
    {
      var f :| f in names + {name} && f in dir && HasPrefix(f, "api_") && n in FunctionNames(dir[f]);
      if f != name {
        assert f in names;
      }
    }
    forall n | n in DeclaredMethods(dir, names) + extra
      ensures n in DeclaredMethods(dir, names + {name})
    {
      if n !in DeclaredMethods(dir, names) {
        assert name in names + {name} && name in dir && HasPrefix(name, "api_") && n in FunctionNames(dir[name]);
      } else {
        var f :| f in names && f in dir && HasPrefix(f, "api_") && n in FunctionNames(dir[f]);
        assert f in names + {name};
      }
    }
  }

  lemma ApiNamesAdd(names: set<FileName>, name: FileName)
    ensures ApiNames(names + {name}) == ApiNames(names) + (if HasPrefix(name, "api_") then {name} else {})
  {
  }

  /** The paths of the `model_` files in `order`, in that order. */
  function ModelPathsIn(srcpath: string, order: seq<FileName>): seq<string>
    decreases |order|
  {
    if order == [] then []
    else
      var rest := ModelPathsIn(srcpath, order[..|order| - 1]);
      var n := order[|order| - 1];
      if HasPrefix(n, "model_") then rest + [JoinPath([srcpath, n])] else rest
  }

  /** Visiting one more file appends its path when it is a `model_` file. */
  lemma ModelPathsSnoc(srcpath: string, order: seq<FileName>, name: FileName)
    ensures ModelPathsIn(srcpath, order + [name])
            == ModelPathsIn(srcpath, order) + (if HasPrefix(name, "model_") then [JoinPath([srcpath, name])] else [])
  {
    assert (order + [name])[..|order|] == order;
  }

  /** The model paths of a visit order are those of its `model_` files. */
  lemma {:induction false} ModelPathsInSet(srcpath: string, order: seq<FileName>)
    ensures ToSet(ModelPathsIn(srcpath, order))
            == set n | n in order && HasPrefix(n, "model_") :: JoinPath([srcpath, n])
    decreases |order|
  {
    if order != [] {
      var init := order[..|order| - 1];
      ModelPathsInSet(srcpath, init);
      assert forall x :: x in order <==> x in init || x == order[|order| - 1];
    }
  }

  /** Each model path of a visit order ends in a name the order visits. */
  lemma {:induction false} ModelPathsInBases(srcpath: string, order: seq<FileName>)
    ensures forall p :: p in ModelPathsIn(srcpath, order) ==> Base(p) in order
    decreases |order|
  {
    if order != [] {
      var init := order[..|order| - 1];
      var n := order[|order| - 1];
      ModelPathsInBases(srcpath, init);
      BaseOfJoinPath([srcpath, n]);
    }
  }

  /**
   * Whatever order the directory is visited in, the model paths collected are
   * the model files of the directory, each exactly once.
   */
  lemma {:induction false} ModelPathsAnyOrder(srcpath: string, order: seq<FileName>)
    requires Distinct(order)
    ensures Distinct(ModelPathsIn(srcpath, order))
    ensures ToSet(ModelPathsIn(srcpath, order))
            == set n | n in order && HasPrefix(n, "model_") :: JoinPath([srcpath, n])
    decreases |order|
  {
    ModelPathsInSet(srcpath, order);
    if order != [] {
      var init := order[..|order| - 1];
      var n := order[|order| - 1];
      assert Distinct(init);
      ModelPathsAnyOrder(srcpath, init);
      if HasPrefix(n, "model_") {
        var rest := ModelPathsIn(srcpath, init);
        BaseOfJoinPath([srcpath, n]);
        ModelPathsInBases(srcpath, init);
        assert n !in init;
        assert JoinPath([srcpath, n]) !in rest;
      }
    }
  }

  // ---------------------------------------------------------------------------
  // Specs.GetAPIs

  /** Every path item and every operation under `paths` is a mapping. */
  predicate AllMappings(paths: Specs) {
    forall p :: p in paths ==>
      paths[p].Mapping? && forall m :: m in paths[p].entries ==> paths[p].entries[m].Mapping?
  }

  /** The `ErrParserBadYaml` problem `GetAPIs` reports for a document, if any. */
  function ShapeError(specs: Specs): Option<Error> {
    if Str("paths") !in specs then Some(BadYaml(NoPaths))
    else if !specs[Str("paths")].Mapping? then Some(BadYaml(PathsNotMap))
    else if !AllMappings(specs[Str("paths")].entries) then Some(BadYaml(EntryNotMap))
    else None
  }

  /**
   * `apis` lists the operations under `paths`, the i-th being the one at
   * `origin[i]` (a path and a method key), and every operation exactly once.
   */
  ghost predicate Enumerates(paths: Specs, origin: seq<(Yaml, Yaml)>, apis: seq<Specs>) {
    && |origin| == |apis|
    && Distinct(origin)
    && (forall i :: 0 <= i < |origin| ==>
          && origin[i].0 in paths && paths[origin[i].0].Mapping?
          && origin[i].1 in paths[origin[i].0].entries
          && paths[origin[i].0].entries[origin[i].1] == Mapping(apis[i]))
    && (forall p, m :: p in paths && paths[p].Mapping? && m in paths[p].entries ==> (p, m) in origin)
  }

  /** Some listing of the operations under `paths` in some order. */
  ghost predicate Lists(paths: Specs, apis: seq<Specs>) {
    exists origin :: Enumerates(paths, origin, apis)
  }

  /**
   * `Specs.GetAPIs`: flattens `paths -> method -> operation`, failing with
   * `ErrParserBadYaml` when `paths` is missing or any level is not a mapping.
   * The order of the result is the (unspecified) map iteration order.
   */
  method GetAPIs(specs: Specs) returns (r: Result<seq<Specs>, Error>, ghost origin: seq<(Yaml, Yaml)>)
    ensures r.Failure? <==> ShapeError(specs).Some?
    ensures r.Failure? ==> Some(r.error) == ShapeError(specs)
    ensures r.Success? ==> Enumerates(specs[Str("paths")].entries, origin, r.value)
  {
    origin := [];
    if Str("paths") !in specs {
      return Failure(BadYaml(NoPaths)), origin;
    }
    var rawPaths := specs[Str("paths")];
    if !rawPaths.Mapping? {
      return Failure(BadYaml(PathsNotMap)), origin;
    }
    var paths := rawPaths.entries;
    var ret: seq<Specs> := [];
    var todo := paths.Keys;
    ghost var done: set<Yaml> := {};
    while todo != {}
      invariant todo + done == paths.Keys && todo !! done
      invariant forall p :: p in done ==>
                  paths[p].Mapping? && forall m :: m in paths[p].entries ==> paths[p].entries[m].Mapping?
      invariant |origin| == |ret| && Distinct(origin)
      invariant forall i :: 0 <= i < |origin| ==>
                  && origin[i].0 in done && paths[origin[i].0].Mapping?
                  && origin[i].1 in paths[origin[i].0].entries
                  && paths[origin[i].0].entries[origin[i].1] == Mapping(ret[i])
      invariant forall p, m :: p in done && m in paths[p].entries ==> (p, m) in origin
      decreases todo
    {
      var p :| p in todo;
      var rawPath := paths[p];
      if !rawPath.Mapping? {
        return Failure(BadYaml(EntryNotMap)), origin;
      }
      var ok, ops, keys := CollectOperations(p, rawPath.entries);
      if !ok {
        return Failure(BadYaml(EntryNotMap)), origin;
      }
      DistinctOrigins(origin, keys, done, p);
      ghost var origin0, ret0 := origin, ret;
      ret := ret + ops;
      origin := origin + keys;
      forall i | 0 <= i < |origin|
        ensures && origin[i].0 in done + {p} && paths[origin[i].0].Mapping?
                && origin[i].1 in paths[origin[i].0].entries
                && paths[origin[i].0].entries[origin[i].1] == Mapping(ret[i])
      {
        if i >= |origin0| {
          assert origin[i] == keys[i - |origin0|] && ret[i] == ops[i - |origin0|];
        } else {
          assert origin[i] == origin0[i] && ret[i] == ret0[i];
        }
      }
      todo := todo - {p};
      done := done + {p};
    }
    return Success(ret), origin;
  }

  /**
   * The inner loop of `Specs.GetAPIs` over the operations of one path item
   * `p`: all of them, each with its method key, or `ok == false` when one is
   * not a mapping.
   */
  method CollectOperations(p: Yaml, path: Specs) returns (ok: bool, ops: seq<Specs>, ghost keys: seq<(Yaml, Yaml)>)
    ensures ok <==> forall m :: m in path ==> path[m].Mapping?
    ensures ok ==> && |keys| == |ops| && Distinct(keys)
                   && (forall i :: 0 <= i < |keys| ==>
                         keys[i].0 == p && keys[i].1 in path && path[keys[i].1] == Mapping(ops[i]))
                   && (forall m :: m in path ==> (p, m) in keys)
  {
    ops, keys := [], [];
    var todo := path.Keys;
    ghost var done: set<Yaml> := {};
    while todo != {}
      invariant todo + done == path.Keys && todo !! done
      invariant forall m :: m in done ==> path[m].Mapping?
      invariant |keys| == |ops| && Distinct(keys)
      invariant forall i :: 0 <= i < |keys| ==>
                  keys[i].0 == p && keys[i].1 in done && path[keys[i].1] == Mapping(ops[i])
      invariant forall m :: m in done ==> (p, m) in keys
      decreases todo
    {
      var m :| m in todo;
      var rawInfo := path[m];
      if !rawInfo.Mapping? {
        return false, ops, keys;
      }
      ops := ops + [rawInfo.entries];
      keys := keys + [(p, m)];
      todo := todo - {m};
      done := done + {m};
    }
    return true, ops, keys;
  }

  /** Keys under an earlier path item and keys under a new one `p` never coincide. */
  lemma DistinctOrigins(a: seq<(Yaml, Yaml)>, b: seq<(Yaml, Yaml)>, done: set<Yaml>, p: Yaml)
    requires Distinct(a) && Distinct(b) && p !in done
    requires forall i :: 0 <= i < |a| ==> a[i].0 in done
    requires forall i :: 0 <= i < |b| ==> b[i].0 == p
    ensures Distinct(a + b)
  {
    forall i, j | 0 <= i < j < |a + b|
      ensures (a + b)[i] != (a + b)[j]
    {
      if i < |a| && j >= |a| {
        assert (a + b)[i].0 in done && (a + b)[j].0 == p;
      }
    }
  }

  /** Every service files its methods under their own names. */
  ghost predicate ServicesKeyed(services: map<string, ServiceInfo>) {
    forall f :: f in services ==> SelfKeyed(services[f].methods)
  }

  // ---------------------------------------------------------------------------
  // The effect of scanning on the service map and the method index

  /**
   * From `s0`/`m0` to `s1`/`m1`, the service of `filename` is (re)recorded
   * with the methods `names`, the index files each of them under the same
   * object as the service does (replacing older entries), and nothing else
   * changes.
   */
  ghost predicate Recorded(s0: map<string, ServiceInfo>, m0: map<string, ServiceMethod>,
                           s1: map<string, ServiceInfo>, m1: map<string, ServiceMethod>,
                           filename: string, names: set<string>)
  {
    && filename in s1
    && s1.Keys == s0.Keys + {filename}
    && (forall f :: f in s0 && f != filename ==> s1[f] == s0[f])
    && s1[filename].methods.Keys == names
    && m1.Keys == m0.Keys + names
    && (forall n :: n in names ==> m1[n] == s1[filename].methods[n])
    && (forall n :: n in m0 && n !in names ==> m1[n] == m0[n])
  }

  /** Filing a service under `filename` together with its index entries is a recording of it. */
  lemma RecordedByUpdate(s0: map<string, ServiceInfo>, m0: map<string, ServiceMethod>, filename: string,
                         info: ServiceInfo, index: map<string, ServiceMethod>, names: set<string>)
    requires info.methods.Keys == names
    requires index.Keys == m0.Keys + names
    requires forall n :: n in names ==> index[n] == info.methods[n]
    requires forall n :: n in m0 && n !in names ==> index[n] == m0[n]
    ensures Recorded(s0, m0, s0[filename := info], index, filename, names)
  {
  }

  lemma ServicesKeyedUpdate(services: map<string, ServiceInfo>, filename: string, info: ServiceInfo)
    requires ServicesKeyed(services) && SelfKeyed(info.methods)
    ensures ServicesKeyed(services[filename := info])
  {
  }

  /**
   * From `s0`/`m0` to `s1`/`m1`, the files `done` of `dir` have been scanned:
   * one service per `api_` file listing exactly its functions, the index
   * extended by all those functions, each entry shared with the service of
   * some `api_` file, and every other entry unchanged.
   */
  ghost predicate Scanned(dir: map<FileName, GoFile>, done: set<FileName>,
                          s0: map<string, ServiceInfo>, m0: map<string, ServiceMethod>,
                          s1: map<string, ServiceInfo>, m1: map<string, ServiceMethod>)
  {
    && done <= dir.Keys
    && ServicesScanned(dir, done, s0, s1)
    && MethodsScanned(dir, done, m0, s1, m1)
  }

  ghost predicate ServicesScanned(dir: map<FileName, GoFile>, done: set<FileName>,
                                  s0: map<string, ServiceInfo>, s1: map<string, ServiceInfo>)
    requires done <= dir.Keys
  {
    var apis := ApiNames(done);
    && s1.Keys == s0.Keys + apis
    && (forall f :: f in s0 && f !in apis ==> s1[f] == s0[f])
    && (forall f :: f in apis ==> s1[f].methods.Keys == FunctionNames(dir[f]))
  }

  ghost predicate MethodsScanned(dir: map<FileName, GoFile>, done: set<FileName>,
                                 m0: map<string, ServiceMethod>,
                                 s1: map<string, ServiceInfo>, m1: map<string, ServiceMethod>)
  {
    IndexExtended(dir, done, m0, m1) && IndexShared(dir, done, s1, m1)
  }

  ghost predicate IndexExtended(dir: map<FileName, GoFile>, done: set<FileName>,
                                m0: map<string, ServiceMethod>, m1: map<string, ServiceMethod>)
  {
    var declared := DeclaredMethods(dir, done);
    && m1.Keys == m0.Keys + declared
    && (forall n :: n in m0 && n !in declared ==> m1[n] == m0[n])
  }

  ghost predicate IndexShared(dir: map<FileName, GoFile>, done: set<FileName>,
                              s1: map<string, ServiceInfo>, m1: map<string, ServiceMethod>)
  {
    forall n :: n in DeclaredMethods(dir, done) ==>
      n in m1 && exists f :: f in ApiNames(done) && f in s1 && n in s1[f].methods && s1[f].methods[n] == m1[n]
  }

  /** Scanning nothing changes nothing. */
  lemma ScannedNothing(dir: map<FileName, GoFile>, s0: map<string, ServiceInfo>, m0: map<string, ServiceMethod>)
    ensures Scanned(dir, {}, s0, m0, s0, m0)
  {
    assert ApiNames({}) == {};
    assert DeclaredMethods(dir, {}) == {};
  }

  /** Scanning one more file: an `api_` file is recorded, any other leaves the maps alone. */
  lemma ScannedOneMore(dir: map<FileName, GoFile>, done: set<FileName>, name: FileName,
                       s0: map<string, ServiceInfo>, m0: map<string, ServiceMethod>,
                       sA: map<string, ServiceInfo>, mA: map<string, ServiceMethod>,
                       sB: map<string, ServiceInfo>, mB: map<string, ServiceMethod>)
    requires Scanned(dir, done, s0, m0, sA, mA)
    requires name in dir && name !in done
    requires HasPrefix(name, "api_") ==> Recorded(sA, mA, sB, mB, name, FunctionNames(dir[name]))
    requires !HasPrefix(name, "api_") ==> sB == sA && mB == mA
    ensures Scanned(dir, done + {name}, s0, m0, sB, mB)
  {
    if HasPrefix(name, "api_") {
      ServicesScannedApi(dir, done, name, s0, sA, sB);
      MethodsScannedApi(dir, done, name, m0, sA, mA, sB, mB);
    } else {
      ScannedOther(dir, done, name, s0, m0, sA, mA);
    }
  }

  lemma ScannedOther(dir: map<FileName, GoFile>, done: set<FileName>, name: FileName,
                     s0: map<string, ServiceInfo>, m0: map<string, ServiceMethod>,
                     s1: map<string, ServiceInfo>, m1: map<string, ServiceMethod>)
    requires Scanned(dir, done, s0, m0, s1, m1)
    requires name in dir && !HasPrefix(name, "api_")
    ensures Scanned(dir, done + {name}, s0, m0, s1, m1)
  {
    DeclaredAdd(dir, done, name);
    ApiNamesAdd(done, name);
    assert ApiNames(done + {name}) == ApiNames(done);
    assert DeclaredMethods(dir, done + {name}) == DeclaredMethods(dir, done);
    assert ServicesScanned(dir, done + {name}, s0, s1);
    assert IndexExtended(dir, done + {name}, m0, m1);
    assert IndexShared(dir, done + {name}, s1, m1);
  }

  lemma ServicesScannedApi(dir: map<FileName, GoFile>, done: set<FileName>, name: FileName,
                           s0: map<string, ServiceInfo>, sA: map<string, ServiceInfo>, sB: map<string, ServiceInfo>)
    requires done <= dir.Keys && ServicesScanned(dir, done, s0, sA)
    requires name in dir && name !in done && HasPrefix(name, "api_")
    requires name in sB && sB.Keys == sA.Keys + {name}
    requires forall f :: f in sA && f != name ==> sB[f] == sA[f]
    requires sB[name].methods.Keys == FunctionNames(dir[name])
    ensures ServicesScanned(dir, done + {name}, s0, sB)
  {
    ApiNamesAdd(done, name);
    var apis := ApiNames(done + {name});
    forall f | f in s0 && f !in apis
      ensures sB[f] == s0[f]
    {
      assert f != name && f !in ApiNames(done);
    }
    forall f | f in apis
      ensures sB[f].methods.Keys == FunctionNames(dir[f])
    {
      if f != name {
        assert f in ApiNames(done) && f in sA;
      }
    }
  }

  lemma MethodsScannedApi(dir: map<FileName, GoFile>, done: set<FileName>, name: FileName,
                          m0: map<string, ServiceMethod>,
                          sA: map<string, ServiceInfo>, mA: map<string, ServiceMethod>,
                          sB: map<string, ServiceInfo>, mB: map<string, ServiceMethod>)
    requires MethodsScanned(dir, done, m0, sA, mA)
    requires name in dir && name !in done && HasPrefix(name, "api_")
    requires Recorded(sA, mA, sB, mB, name, FunctionNames(dir[name]))
    ensures MethodsScanned(dir, done + {name}, m0, sB, mB)
  {
    IndexExtendedApi(dir, done, name, m0, mA, mB);
    IndexSharedApi(dir, done, name, sA, mA, sB, mB);
  }

  lemma IndexExtendedApi(dir: map<FileName, GoFile>, done: set<FileName>, name: FileName,
                         m0: map<string, ServiceMethod>, mA: map<string, ServiceMethod>, mB: map<string, ServiceMethod>)
    requires IndexExtended(dir, done, m0, mA)
    requires name in dir && HasPrefix(name, "api_")
    requires mB.Keys == mA.Keys + FunctionNames(dir[name])
    requires forall n :: n in mA && n !in FunctionNames(dir[name]) ==> mB[n] == mA[n]
    ensures IndexExtended(dir, done + {name}, m0, mB)
  {
    DeclaredAdd(dir, done, name);
  }

  lemma IndexSharedApi(dir: map<FileName, GoFile>, done: set<FileName>, name: FileName,
                       sA: map<string, ServiceInfo>, mA: map<string, ServiceMethod>,
                       sB: map<string, ServiceInfo>, mB: map<string, ServiceMethod>)
    requires IndexShared(dir, done, sA, mA)
    requires name in dir && name !in done && HasPrefix(name, "api_")
    requires Recorded(sA, mA, sB, mB, name, FunctionNames(dir[name]))
    ensures IndexShared(dir, done + {name}, sB, mB)
  {
    DeclaredAdd(dir, done, name);
    ApiNamesAdd(done, name);
    var apis := ApiNames(done + {name});
    var names := FunctionNames(dir[name]);
    forall n | n in DeclaredMethods(dir, done + {name})
      ensures n in mB && exists f :: f in apis && f in sB && n in sB[f].methods && sB[f].methods[n] == mB[n]
    {
      if n in names {
        assert name in apis && name in sB && n in sB[name].methods && sB[name].methods[n] == mB[n];
      } else {
        var f :| f in ApiNames(done) && f in sA && n in sA[f].methods && sA[f].methods[n] == mA[n];
        assert f != name;
        assert f in apis && f in sB && n in sB[f].methods && sB[f].methods[n] == mB[n];
      }
    }
  }

  /**
   * Starting from `s0`, `m0` and `mp0`, the files `done` of `dir` at `srcpath`
   * have been scanned in the order `order`, giving `s1`, `m1` and `mp1`.
   */
  ghost predicate ScanStateOf(dir: map<FileName, GoFile>, done: set<FileName>, order: seq<FileName>, srcpath: string,
                              s0: map<string, ServiceInfo>, m0: map<string, ServiceMethod>, mp0: seq<string>,
                              s1: map<string, ServiceInfo>, m1: map<string, ServiceMethod>, mp1: seq<string>)
  {
    && Distinct(order) && ToSet(order) == done
    && Scanned(dir, done, s0, m0, s1, m1)
    && mp1 == mp0 + ModelPathsIn(srcpath, order)
  }

  /** The scan state advances by one file according to how `parseFile` treats it. */
  lemma ScanAdvance(dir: map<FileName, GoFile>, done: set<FileName>, order: seq<FileName>, srcpath: string, name: FileName,
                    s0: map<string, ServiceInfo>, m0: map<string, ServiceMethod>, mp0: seq<string>,
                    sA: map<string, ServiceInfo>, mA: map<string, ServiceMethod>, mpA: seq<string>,
                    sB: map<string, ServiceInfo>, mB: map<string, ServiceMethod>, mpB: seq<string>)
    requires ScanStateOf(dir, done, order, srcpath, s0, m0, mp0, sA, mA, mpA)
    requires name in dir && name !in done
    requires HasPrefix(name, "api_") ==> Recorded(sA, mA, sB, mB, name, FunctionNames(dir[name])) && mpB == mpA
    requires !HasPrefix(name, "api_") ==> sB == sA && mB == mA
    requires !HasPrefix(name, "api_") ==>
               mpB == mpA + (if HasPrefix(name, "model_") then [JoinPath([srcpath, name])] else [])
    ensures ScanStateOf(dir, done + {name}, order + [name], srcpath, s0, m0, mp0, sB, mB, mpB)
  {
    PrefixesExclusive(name);
    ScannedOneMore(dir, done, name, s0, m0, sA, mA, sB, mB);
    ModelPathsSnoc(srcpath, order, name);
    assert forall x :: x in order + [name] <==> x in order || x == name;
  }

  // ---------------------------------------------------------------------------
  // The Parser object

  class Parser {
    var inpath: string
    var srcpath: string
    var yamlpath: string
    var services: map<string, ServiceInfo>
    var methods: map<string, ServiceMethod>
    var modelPaths: seq<string>

    /**
     * The method index and every service file each method under its own name.
     */
    ghost predicate Valid()
      reads this
    {
      SelfKeyed(methods) && ServicesKeyed(services)
    }

    /** `NewParser`: empty maps; the input path is set afterwards by the command line. */
    constructor ()
      ensures Valid()
      ensures inpath == "" && srcpath == "" && yamlpath == ""
      ensures services == map[] && methods == map[] && modelPaths == []
    {
      inpath, srcpath, yamlpath := "", "", "";
      services, methods, modelPaths := map[], map[], [];
    }

    /**
     * What `parseMethodNames` does to the state: the service of `filename`
     * holds a fresh method for each function of `file`,
     * the index files each of them under the same name (replacing any older
     * entry), and nothing else changes.
     */
    twostate predicate RecordedService(filename: string, file: GoFile)
      reads this
    {
      && Recorded(old(services), old(methods), services, methods, filename, FunctionNames(file))
      && (forall n :: n in FunctionNames(file) ==> fresh(methods[n]))
      && modelPaths == old(modelPaths)
    }

    twostate predicate PathsUnchanged()
      reads this
    {
      inpath == old(inpath) && srcpath == old(srcpath) && yamlpath == old(yamlpath)
    }

    /** `parseMethodNames`: records the functions of an `api_` file as a service named after the file. */
    method ParseMethodNames(filename: string, file: GoFile) returns (err: Option<Error>)
      requires Valid()
      modifies this
      ensures Valid() && PathsUnchanged() && err == None
      ensures RecordedService(filename, file)
      ensures services[filename].name == ServiceNameOf(filename)
    {
      var name := GetServiceName(filename);
      RecordService(filename, name, file);
      err := None;
    }

    /**
     * The loop of `parseMethodNames`: a fresh method per function of `file`,
     * filed under the service `filename` called `name` and in the index.
     */
    method RecordService(filename: string, name: string, file: GoFile)
      requires Valid()
      modifies this
      ensures Valid() && PathsUnchanged()
      ensures RecordedService(filename, file)
      ensures services[filename].name == name
    {
      var serviceMethods: map<string, ServiceMethod> := map[];
      var index := methods;
      var todo := file.objects.Keys;
      ghost var done: set<string> := {};
      while todo != {}
        modifies {}
        invariant todo + done == file.objects.Keys && todo !! done
        invariant forall n :: n in serviceMethods <==> n in done && file.objects[n] == Fun
        invariant SelfKeyed(serviceMethods) && SelfKeyed(index)
        invariant index.Keys == methods.Keys + serviceMethods.Keys
        invariant forall n :: n in serviceMethods ==> index[n] == serviceMethods[n] && fresh(serviceMethods[n])
        invariant forall n :: n in methods && n !in serviceMethods ==> index[n] == methods[n]
        decreases todo
      {
        var n :| n in todo;
        if file.objects[n] == Fun {
          var m := new ServiceMethod(n);
          serviceMethods := serviceMethods[n := m];
          index := index[n := m];
        }
        todo := todo - {n};
        done := done + {n};
      }
      assert serviceMethods.Keys == FunctionNames(file);
      var info := ServiceInfo(name, serviceMethods);
      RecordedByUpdate(services, methods, filename, info, index, FunctionNames(file));
      ServicesKeyedUpdate(services, filename, info);
      methods := index;
      services := services[filename := info];
    }

    /** `collectModel`: appends one model path. */
    method CollectModel(path: string)
      modifies this`modelPaths
      ensures modelPaths == old(modelPaths) + [path]
    {
      modelPaths := modelPaths + [path];
    }

    /** `parseRouters`: nothing is done with `routers.go` yet. */
    method ParseRouters(file: GoFile) returns (err: Option<Error>)
      ensures err == None
    {
      err := None;
    }

    /** `parseFile`: dispatches a file on its base name; it never fails. */
    method ParseFile(path: string, file: GoFile) returns (err: Option<Error>)
      requires Valid()
      modifies this
      ensures Valid() && PathsUnchanged() && err == None
      ensures Classify(path) == ApiFile ==>
                RecordedService(Base(path), file) && services[Base(path)].name == ServiceNameOf(Base(path))
      ensures Classify(path) == ModelFile ==>
                services == old(services) && methods == old(methods) && modelPaths == old(modelPaths) + [path]
      ensures Classify(path) in {RoutersFile, OtherFile} ==>
                services == old(services) && methods == old(methods) && modelPaths == old(modelPaths)
    {
      var filename := Base(path);
      if HasPrefix(filename, "api_") {
        err := ParseMethodNames(filename, file);
        return;
      }
      if HasPrefix(filename, "model_") {
        CollectModel(path);
        return None;
      }
      if filename == "routers.go" {
        err := ParseRouters(file);
        return;
      }
      return None;
    }

    /**
     * The effect of scanning directory `dir` at `srcpath` in the visit order
     * `order`: one service per `api_` file, the index extended by their
     * functions (each entry a fresh object shared with a service), and the
     * model paths appended in visit order.
     */
    twostate predicate ScannedDir(dir: map<FileName, GoFile>, order: seq<FileName>)
      reads this
    {
      && ScanState(dir, dir.Keys, order, old(services), old(methods), old(modelPaths))
      && (forall n :: n in DeclaredMethods(dir, dir.Keys) ==> n in methods && fresh(methods[n]))
    }

    /**
     * Starting from `s0`, `m0` and `mp0`, the files `done` of `dir` have been
     * scanned in the order `order`.
     */
    ghost predicate ScanState(dir: map<FileName, GoFile>, done: set<FileName>, order: seq<FileName>,
                              s0: map<string, ServiceInfo>, m0: map<string, ServiceMethod>, mp0: seq<string>)
      reads this
    {
      ScanStateOf(dir, done, order, srcpath, s0, m0, mp0, services, methods, modelPaths)
    }

    /**
     * One iteration of `parseGo`'s loop: the file `name` of `dir` is parsed at
     * its full path. The methods it creates are returned in `made`, so that
     * the caller can tell the index's new entries from the ones it had.
     */
    method ScanFile(dir: map<FileName, GoFile>, name: FileName,
                    ghost done: set<FileName>, ghost order: seq<FileName>,
                    ghost s0: map<string, ServiceInfo>, ghost m0: map<string, ServiceMethod>, ghost mp0: seq<string>,
                    ghost created: set<ServiceMethod>)
      returns (ghost made: set<ServiceMethod>)
      requires Valid() && name in dir && name !in done
      requires ScanState(dir, done, order, s0, m0, mp0)
      requires forall n :: n in DeclaredMethods(dir, done) ==> n in methods && methods[n] in created
      modifies this
      ensures Valid() && PathsUnchanged()
      ensures ScanState(dir, done + {name}, order + [name], s0, m0, mp0)
      ensures forall o :: o in made ==> fresh(o)
      ensures forall n :: n in DeclaredMethods(dir, done + {name}) ==> n in methods && methods[n] in created + made
    {
      var path := JoinPath([srcpath, name]);
      BaseOfJoinPath([srcpath, name]);
      ghost var servicesBefore, methodsBefore, modelPathsBefore := services, methods, modelPaths;
      var _ := ParseFile(path, dir[name]);
      ScanAdvance(dir, done, order, srcpath, name, s0, m0, mp0,
                  servicesBefore, methodsBefore, modelPathsBefore, services, methods, modelPaths);
      made := if HasPrefix(name, "api_") then set n | n in FunctionNames(dir[name]) :: methods[n] else {};
      DeclaredAdd(dir, done, name);
      forall n | n in DeclaredMethods(dir, done + {name})
        ensures n in methods && methods[n] in created + made
      {
        if !(HasPrefix(name, "api_") && n in FunctionNames(dir[name])) {
          assert n in DeclaredMethods(dir, done) && methods[n] == methodsBefore[n];
        }
      }
    }

    /**
     * `parseGo`: parses the source directory and scans every file in it.
     * Only the directory itself can fail to parse.
     */
    method ParseGo(dirs: map<string, map<FileName, GoFile>>) returns (err: Option<Error>, ghost order: seq<FileName>)
      requires Valid()
      modifies this
      ensures Valid() && PathsUnchanged()
      ensures srcpath !in dirs ==>
                err == Some(ParseDirFailed(srcpath)) &&
                services == old(services) && methods == old(methods) && modelPaths == old(modelPaths)
      ensures srcpath in dirs ==> err == None && ScannedDir(dirs[srcpath], order)
    {
      order := [];
      if srcpath !in dirs {
        return Some(ParseDirFailed(srcpath)), order;
      }
      var dir := dirs[srcpath];
      var todo := dir.Keys;
      ghost var done: set<FileName> := {};
      ghost var created: set<ServiceMethod> := {};
      ScannedNothing(dir, services, methods);
      while todo != {}
        invariant Valid() && PathsUnchanged()
        invariant done + todo == dir.Keys && done !! todo
        invariant ScanState(dir, done, order, old(services), old(methods), old(modelPaths))
        invariant forall o :: o in created ==> fresh(o)
        invariant forall n :: n in DeclaredMethods(dir, done) ==> n in methods && methods[n] in created
        decreases todo
      {
        var name :| name in todo;
        ghost var made := ScanFile(dir, name, done, order, old(services), old(methods), old(modelPaths), created);
        created := created + made;
        order := order + [name];
        done := done + {name};
        todo := todo - {name};
      }
      return None, order;
    }

    /**
     * `parseYaml`'s result for the operations `apis` in the order they are
     * visited: the first failing operation's error, or none.
     */
    function FirstFailure(apis: seq<Specs>): (err: Option<Error>)
      reads this
      ensures err == None <==> forall i :: 0 <= i < |apis| ==> ParseMethodInfo(apis[i]) == None
      decreases |apis|
    {
      if apis == [] then None
      else if ParseMethodInfo(apis[0]).Some? then ParseMethodInfo(apis[0])
      else
        var rest := FirstFailure(apis[1..]);
        assert forall i :: 1 <= i < |apis| ==> apis[i] == apis[1..][i - 1];
        rest
    }

    /**
     * `parseMethodInfo`: an operation needs an `operationId` whose title-cased
     * form names a scanned method. A non-string `operationId` makes the Go
     * type assertion panic.
     */
    function ParseMethodInfo(api: Specs): (err: Option<Error>)
      reads this
      ensures err == None <==>
                Str("operationId") in api && api[Str("operationId")].Str? &&
                Title(api[Str("operationId")].s) in methods
      ensures Str("operationId") !in api ==> err == Some(BadYaml(NoOperationId))
      ensures Str("operationId") in api && api[Str("operationId")].Str? ==>
                err == None || err == Some(BadYaml(UnknownMethod(Title(api[Str("operationId")].s))))
    {
      if Str("operationId") !in api then Some(BadYaml(NoOperationId))
      else
        var id := api[Str("operationId")];
        if !id.Str? then Some(Panic("interface conversion: operationId is not a string"))
        else
          var methodName := Title(id.s);
          if methodName !in methods then Some(BadYaml(UnknownMethod(methodName)))
          else None
    }

    /** Every operation under `paths` names a scanned method. */
    ghost predicate AllOperationsKnown(paths: Specs)
      reads this
      requires AllMappings(paths)
    {
      forall p, m :: p in paths && m in paths[p].entries ==>
        ParseMethodInfo(paths[p].entries[m].entries) == None
    }

    /** Whether `parseYaml` succeeds on the documents `docs`. */
    ghost predicate YamlAccepted(docs: map<string, YamlFile>)
      reads this
    {
      && yamlpath in docs && docs[yamlpath].Document?
      && ShapeError(docs[yamlpath].specs).None?
      && AllOperationsKnown(docs[yamlpath].specs[Str("paths")].entries)
    }

    /**
     * What `parseYaml` returns for the documents `docs`, when it lists the
     * operations as `apis`: a read error, a decoding error, the document's
     * shape error, or else the first failing operation of a listing of all
     * of them.
     */
    ghost predicate YamlChecked(docs: map<string, YamlFile>, apis: seq<Specs>, err: Option<Error>)
      reads this
    {
      && (yamlpath !in docs ==> err == Some(ReadFailed(yamlpath)))
      && (yamlpath in docs && docs[yamlpath].Unparsable? ==> err == Some(YamlSyntax(yamlpath)))
      && (yamlpath in docs && docs[yamlpath].Document? && ShapeError(docs[yamlpath].specs).Some? ==>
            err == ShapeError(docs[yamlpath].specs))
      && (yamlpath in docs && docs[yamlpath].Document? && ShapeError(docs[yamlpath].specs).None? ==>
            Lists(docs[yamlpath].specs[Str("paths")].entries, apis) && err == FirstFailure(apis))
    }

    /** A listing of operations has no failure exactly when every operation is known. */
    lemma ListedAllKnown(paths: Specs, apis: seq<Specs>)
      requires AllMappings(paths) && Lists(paths, apis)
      ensures FirstFailure(apis) == None <==> AllOperationsKnown(paths)
    {
      var origin :| Enumerates(paths, origin, apis);
      if FirstFailure(apis) == None {
        forall p, m | p in paths && m in paths[p].entries
          ensures ParseMethodInfo(paths[p].entries[m].entries) == None
        {
          assert (p, m) in origin;
          var i :| 0 <= i < |origin| && origin[i] == (p, m);
          assert ParseMethodInfo(apis[i]) == None;
        }
      }
    }

    /**
     * `parseYaml`: reads and decodes the document, flattens its operations and
     * checks them in the order `GetAPIs` returned, stopping at the first error.
     */
    method ParseYaml(docs: map<string, YamlFile>) returns (err: Option<Error>, ghost apis: seq<Specs>)
      ensures YamlChecked(docs, apis, err)
      ensures err == None <==> YamlAccepted(docs)
    {
      apis := [];
      if yamlpath !in docs {
        return Some(ReadFailed(yamlpath)), apis;
      }
      if docs[yamlpath].Unparsable? {
        return Some(YamlSyntax(yamlpath)), apis;
      }
      var specs := docs[yamlpath].specs;
      var r, origin := GetAPIs(specs);
      if r.Failure? {
        return Some(r.error), apis;
      }
      var list := r.value;
      apis := list;
      var paths := specs[Str("paths")].entries;
      assert Enumerates(paths, origin, list);
      err := CheckOperations(list);
      ListedAllKnown(paths, list);
    }

    /** The loop of `parseYaml`: checks the operations in order and stops at the first error. */
    method CheckOperations(list: seq<Specs>) returns (err: Option<Error>)
      ensures err == FirstFailure(list)
    {
      var i := 0;
      while i < |list|
        invariant 0 <= i <= |list|
        invariant forall j :: 0 <= j < i ==> ParseMethodInfo(list[j]) == None
      {
        var e := ParseMethodInfo(list[i]);
        if e.Some? {
          FirstFailureAt(list, i);
          return e;
        }
        i := i + 1;
      }
      return None;
    }

    /** The first failure is that of the first operation that fails. */
    lemma {:induction false} FirstFailureAt(apis: seq<Specs>, i: nat)
      requires i < |apis| && ParseMethodInfo(apis[i]).Some?
      requires forall j :: 0 <= j < i ==> ParseMethodInfo(apis[j]) == None
      ensures FirstFailure(apis) == ParseMethodInfo(apis[i])
      decreases i
    {
      if i > 0 {
        assert forall j :: 0 <= j < i - 1 ==> apis[1..][j] == apis[j + 1];
        FirstFailureAt(apis[1..], i - 1);
      }
    }

    /**
     * `Parse`: derives the source and document paths from the input path,
     * scans the Go sources, then checks the document against them. A failing
     * scan stops before the document is read.
     */
    method Parse(src: Sources) returns (err: Option<Error>, ghost order: seq<FileName>, ghost apis: seq<Specs>)
      requires Valid()
      modifies this
      ensures Valid() && inpath == old(inpath)
      ensures srcpath == JoinPath([inpath, "go"])
      ensures yamlpath == JoinPath([inpath, "api", "openapi.yaml"])
      ensures srcpath !in src.dirs ==>
                err == Some(ParseDirFailed(srcpath)) &&
                services == old(services) && methods == old(methods) && modelPaths == old(modelPaths)
      ensures srcpath in src.dirs ==> ScannedDir(src.dirs[srcpath], order) && YamlChecked(src.docs, apis, err)
      ensures err == None <==> srcpath in src.dirs && YamlAccepted(src.docs)
    {
      srcpath := JoinPath([inpath, "go"]);
      yamlpath := JoinPath([inpath, "api", "openapi.yaml"]);
      apis := [];
      err, order := ParseGo(src.dirs);
      if err.Some? {
        return;
      }
      err, apis := ParseYaml(src.docs);
    }
  }
}
