/**
 * codegen.go: the generator that drives the parser and writes the `ginapi`
 * package next to the input: one file per service, `common.go`, and a copy
 * of every model file with its package clause rewritten.
 */
module Codegen {
  import opened Wrappers
  import opened GoStrings
  import opened GoPaths
  import opened Errors
  import opened Parser

  /** `[]byte(s)` for a text of ASCII characters. */
  function Ascii(s: string): seq<byte>
    requires forall i | 0 <= i < |s| :: s[i] as int < 0x80
  {
    seq(|s|, i requires 0 <= i < |s| => s[i] as int as byte)
  }

  // ---------------------------------------------------------------------------
  // The package clause rewrite of copyModels

  const PackageOpenapi: seq<byte> := Ascii("package openapi")
  const PackageGinapi: seq<byte> := Ascii("package ginapi")

  /** The two clauses cannot overlap: a tail of either runs into the other at a differing byte. */
  lemma PackageClausesDoNotOverlap()
    ensures |PackageOpenapi| > 0 && NoOverlap(PackageOpenapi, PackageGinapi)
  {
    var pat, rep := PackageOpenapi, PackageGinapi;
    forall k: nat | k < |pat|
      ensures Clash(pat[k..], rep)
    {
      var d := if k == 0 then 8 else if k == 9 || k == 13 then 1 else 0;
      assert pat[k..][d] != rep[d];
    }
    forall j: nat | 0 < j < |rep|
      ensures Clash(rep[j..], pat)
    {
      var d := if j == 12 then 1 else 0;
      assert rep[j..][d] != pat[d];
    }
  }

  /** `bytes.ReplaceAll(indata, []byte("package openapi"), []byte("package ginapi"))`. */
  function RewritePackage(data: seq<byte>): seq<byte> {
    ReplaceAll(data, PackageOpenapi, PackageGinapi)
  }

  /** No `package openapi` survives the rewrite. */
  lemma RewriteLeavesNoOpenapi(data: seq<byte>)
    ensures !Contains(RewritePackage(data), PackageOpenapi)
  {
    PackageClausesDoNotOverlap();
    ReplaceAllLeavesNoMatch(data, PackageOpenapi, PackageGinapi);
  }

  /** A file without `package openapi` is copied byte for byte. */
  lemma RewriteKeepsOtherData(data: seq<byte>)
    requires !Contains(data, PackageOpenapi)
    ensures RewritePackage(data) == data
  {
    ReplaceAllWithoutMatch(data, PackageOpenapi, PackageGinapi);
  }

  /** Rewriting twice is rewriting once. */
  lemma RewriteIdempotent(data: seq<byte>)
    ensures RewritePackage(RewritePackage(data)) == RewritePackage(data)
  {
    RewriteLeavesNoOpenapi(data);
    RewriteKeepsOtherData(RewritePackage(data));
  }

  /** A leading `package openapi` becomes `package ginapi`, and the rest is rewritten alike. */
  lemma RewriteLeadingClause(rest: seq<byte>)
    ensures RewritePackage(PackageOpenapi + rest) == PackageGinapi + RewritePackage(rest)
  {
    var s := PackageOpenapi + rest;
    assert HasPrefix(s, PackageOpenapi) by {
      assert s[..|PackageOpenapi|] == PackageOpenapi;
    }
    assert s[|PackageOpenapi|..] == rest;
  }

  // ---------------------------------------------------------------------------
  // Writing files until the first error

  /** A call `ioutil.WriteFile(path, data, filePerm)`. */
  datatype FileWrite = FileWrite(path: string, data: seq<byte>)

  /** Why a step failed: its own error, or the write of its file. */
  function StepError(step: Result<FileWrite, Error>, unwritable: set<string>): Option<Error> {
    match step
    case Failure(e) => Some(e)
    case Success(w) => if w.path in unwritable then Some(WriteFailed(w.path)) else None
  }

  /**
   * Producing and writing the files `steps` describe, in order, until the first
   * step that fails or the first write that fails: the writes that happened and
   * the error returned.
   */
  function WriteAll(steps: seq<Result<FileWrite, Error>>, unwritable: set<string>): (seq<FileWrite>, Option<Error>)
    decreases |steps|
  {
    if steps == [] then ([], None)
    else
      var e := StepError(steps[0], unwritable);
      if e != None then ([], e)
      else
        var rest := WriteAll(steps[1..], unwritable);
        ([steps[0].value] + rest.0, rest.1)
  }

  /**
   * The writes are the files of the steps before the first failing one, and
   * the error is that step's; without a failing step every file is written.
   */
  lemma {:induction false} WriteAllStopsAtFirstFailure(steps: seq<Result<FileWrite, Error>>, unwritable: set<string>)
    ensures var r := WriteAll(steps, unwritable);
            && |r.0| <= |steps|
            && (forall i :: 0 <= i < |r.0| ==> steps[i] == Success(r.0[i]) && StepError(steps[i], unwritable) == None)
            && (r.1 == None ==> |r.0| == |steps|)
            && (r.1 != None ==> |r.0| < |steps| && r.1 == StepError(steps[|r.0|], unwritable))
    decreases |steps|
  {
    if steps != [] && StepError(steps[0], unwritable) == None {
      WriteAllStopsAtFirstFailure(steps[1..], unwritable);
    }
  }

  /** The steps succeed as a whole exactly when each of them succeeds. */
  lemma WriteAllSucceeds(steps: seq<Result<FileWrite, Error>>, unwritable: set<string>)
    ensures WriteAll(steps, unwritable).1 == None <==>
            forall i :: 0 <= i < |steps| ==> StepError(steps[i], unwritable) == None
  {
    WriteAllStopsAtFirstFailure(steps, unwritable);
    var r := WriteAll(steps, unwritable);
    if r.1 != None {
      assert StepError(steps[|r.0|], unwritable) != None;
    }
  }

  /** Running `a + b` runs `a`, then `b` only when `a` succeeded. */
  lemma {:induction false} WriteAllAppend(a: seq<Result<FileWrite, Error>>, b: seq<Result<FileWrite, Error>>, unwritable: set<string>)
    ensures WriteAll(a + b, unwritable) ==
            var ra := WriteAll(a, unwritable);
            if ra.1 == None then (ra.0 + WriteAll(b, unwritable).0, WriteAll(b, unwritable).1) else ra
    decreases |a|
  {
    if a == [] {
      assert a + b == b;
      assert [] + WriteAll(b, unwritable).0 == WriteAll(b, unwritable).0;
    } else {
      assert (a + b)[0] == a[0];
      assert (a + b)[1..] == a[1..] + b;
      WriteAllAppend(a[1..], b, unwritable);
      if StepError(a[0], unwritable) == None {
        var x, ra', rb := a[0].value, WriteAll(a[1..], unwritable), WriteAll(b, unwritable);
        if ra'.1 == None {
          assert [x] + (ra'.0 + rb.0) == ([x] + ra'.0) + rb.0;
        }
      }
    }
  }

  /**
   * The log went from `before` to `after` by running `steps`, which ended
   * with `err`.
   */
  predicate Ran(steps: seq<Result<FileWrite, Error>>, unwritable: set<string>,
                before: seq<FileWrite>, after: seq<FileWrite>, err: Option<Error>)
  {
    var r := WriteAll(steps, unwritable);
    after == before + r.0 && err == r.1
  }

  /** The log went from `before` to `after` by running one step, which ended with `err`. */
  predicate RanStep(step: Result<FileWrite, Error>, unwritable: set<string>,
                    before: seq<FileWrite>, after: seq<FileWrite>, err: Option<Error>)
  {
    err == StepError(step, unwritable) && after == if err == None then before + [step.value] else before
  }

  lemma RanNothing(unwritable: set<string>, log: seq<FileWrite>)
    ensures Ran([], unwritable, log, log, None)
  {
    assert log + [] == log;
  }

  lemma RanOne(step: Result<FileWrite, Error>, unwritable: set<string>,
               before: seq<FileWrite>, after: seq<FileWrite>, err: Option<Error>)
    requires RanStep(step, unwritable, before, after, err)
    ensures Ran([step], unwritable, before, after, err)
  {
    assert [step][1..] == [];
    assert before + [] == before;
  }

  /** A run that succeeded, followed by one more step. */
  lemma RanOneMore(steps: seq<Result<FileWrite, Error>>, step: Result<FileWrite, Error>, unwritable: set<string>,
                   before: seq<FileWrite>, mid: seq<FileWrite>, after: seq<FileWrite>, err: Option<Error>)
    requires Ran(steps, unwritable, before, mid, None)
    requires RanStep(step, unwritable, mid, after, err)
    ensures Ran(steps + [step], unwritable, before, after, err)
  {
    WriteAllAppend(steps, [step], unwritable);
    RanOne(step, unwritable, mid, after, err);
    var r, r1 := WriteAll(steps, unwritable), WriteAll([step], unwritable);
    assert after == mid + r1.0 == (before + r.0) + r1.0;
  }

  /** A run that failed is not continued by the steps after it. */
  lemma RanStopped(a: seq<Result<FileWrite, Error>>, b: seq<Result<FileWrite, Error>>, unwritable: set<string>,
                   before: seq<FileWrite>, after: seq<FileWrite>, err: Option<Error>)
    requires Ran(a, unwritable, before, after, err) && err != None
    ensures Ran(a + b, unwritable, before, after, err)
  {
    WriteAllAppend(a, b, unwritable);
  }

  /** Two runs one after the other are a run of both. */
  lemma RanThen(a: seq<Result<FileWrite, Error>>, b: seq<Result<FileWrite, Error>>, unwritable: set<string>,
                before: seq<FileWrite>, mid: seq<FileWrite>, after: seq<FileWrite>, err: Option<Error>)
    requires Ran(a, unwritable, before, mid, None)
    requires Ran(b, unwritable, mid, after, err)
    ensures Ran(a + b, unwritable, before, after, err)
  {
    WriteAllAppend(a, b, unwritable);
    ConcatAssoc(before, WriteAll(a, unwritable).0, WriteAll(b, unwritable).0);
  }

  // ---------------------------------------------------------------------------
  // The files the generator produces

  /** What executing a service's template and formatting the output yields. */
  datatype Rendered = Formatted(text: seq<byte>) | TemplateError(detail: string) | FormatError(detail: string)

  /** The file of one service: its rendered text under the service's file name in the output directory. */
  function ServiceStep(outpath: string, filename: string, rendered: Rendered): Result<FileWrite, Error> {
    match rendered
    case TemplateError(d) => Failure(TemplateFailed(d))
    case FormatError(d) => Failure(GofmtFailed(d))
    case Formatted(text) => Success(FileWrite(JoinPath([outpath, filename]), text))
  }

  /** The files of the services `order` lists, in that order. */
  function ServiceSteps(outpath: string, order: seq<string>, render: string -> Rendered): (r: seq<Result<FileWrite, Error>>)
    ensures |r| == |order|
    decreases |order|
  {
    if order == [] then []
    else
      var last := order[|order| - 1];
      ServiceSteps(outpath, order[..|order| - 1], render) + [ServiceStep(outpath, last, render(last))]
  }

  lemma ServiceStepsSnoc(outpath: string, order: seq<string>, filename: string, render: string -> Rendered)
    ensures ServiceSteps(outpath, order + [filename], render)
            == ServiceSteps(outpath, order, render) + [ServiceStep(outpath, filename, render(filename))]
  {
    assert (order + [filename])[..|order|] == order;
  }

  lemma {:induction false} ServiceStepsAppend(outpath: string, a: seq<string>, b: seq<string>, render: string -> Rendered)
    ensures ServiceSteps(outpath, a + b, render) == ServiceSteps(outpath, a, render) + ServiceSteps(outpath, b, render)
    decreases |b|
  {
    if b == [] {
      assert a + b == a;
    } else {
      var init, last := b[..|b| - 1], b[|b| - 1];
      assert b == init + [last];
      assert a + b == (a + init) + [last];
      ServiceStepsAppend(outpath, a, init, render);
      ServiceStepsSnoc(outpath, a + init, last, render);
      ServiceStepsSnoc(outpath, init, last, render);
    }
  }

  /** `common.go`: the formatted common template, or the formatter's complaint. */
  function CommonStep(outpath: string, formatted: Result<seq<byte>, string>): Result<FileWrite, Error> {
    match formatted
    case Failure(d) => Failure(GofmtFailed(d))
    case Success(text) => Success(FileWrite(JoinPath([outpath, "common.go"]), text))
  }

  /** Where a model file is copied to: the output directory, under the file's own name. */
  function ModelTarget(outpath: string, path: string): string {
    JoinPath([outpath, Base(path)])
  }

  /** The copy of one model file: read it, rewrite its package clause, write it. */
  function ModelStep(outpath: string, path: string, files: map<string, seq<byte>>): Result<FileWrite, Error> {
    if path !in files then Failure(ReadFailed(path))
    else Success(FileWrite(ModelTarget(outpath, path), RewritePackage(files[path])))
  }

  function ModelSteps(outpath: string, paths: seq<string>, files: map<string, seq<byte>>): (r: seq<Result<FileWrite, Error>>)
    ensures |r| == |paths|
  {
    seq(|paths|, i requires 0 <= i < |paths| => ModelStep(outpath, paths[i], files))
  }

  lemma ModelStepsPrefix(outpath: string, paths: seq<string>, files: map<string, seq<byte>>, i: nat)
    requires i < |paths|
    ensures ModelSteps(outpath, paths[..i + 1], files) == ModelSteps(outpath, paths[..i], files) + [ModelStep(outpath, paths[i], files)]
    ensures ModelSteps(outpath, paths, files) == ModelSteps(outpath, paths[..i + 1], files) + ModelSteps(outpath, paths[i + 1..], files)
  {
  }

  /**
   * When every model file can be read and every copy written, each model path
   * gives one write, in order, of its rewritten contents to its target.
   */
  lemma ModelCopiesInOrder(outpath: string, paths: seq<string>, files: map<string, seq<byte>>, unwritable: set<string>)
    requires forall i :: 0 <= i < |paths| ==> paths[i] in files && ModelTarget(outpath, paths[i]) !in unwritable
    ensures WriteAll(ModelSteps(outpath, paths, files), unwritable)
            == (seq(|paths|, i requires 0 <= i < |paths| =>
                  FileWrite(ModelTarget(outpath, paths[i]), RewritePackage(files[paths[i]]))), None)
  {
    var steps := ModelSteps(outpath, paths, files);
    WriteAllSucceeds(steps, unwritable);
    WriteAllStopsAtFirstFailure(steps, unwritable);
    var r := WriteAll(steps, unwritable);
    var copies := seq(|paths|, i requires 0 <= i < |paths| =>
                    FileWrite(ModelTarget(outpath, paths[i]), RewritePackage(files[paths[i]])));
    forall i | 0 <= i < |paths|
      ensures r.0[i] == copies[i]
    {
      assert steps[i] == ModelStep(outpath, paths[i], files);
    }
    assert r.0 == copies;
  }

  /**
   * The copies of the model files collected from a directory go to different
   * files, each named like its source.
   */
  lemma ModelTargetsDistinct(srcpath: string, outpath: string, order: seq<FileName>)
    requires Distinct(order)
    ensures var paths := ModelPathsIn(srcpath, order);
            && (forall i :: 0 <= i < |paths| ==> Base(ModelTarget(outpath, paths[i])) == Base(paths[i]))
            && Distinct(seq(|paths|, i requires 0 <= i < |paths| => ModelTarget(outpath, paths[i])))
  {
    var paths := ModelPathsIn(srcpath, order);
    ModelPathsAnyOrder(srcpath, order);
    forall i | 0 <= i < |paths|
      ensures exists n: FileName :: n in order && paths[i] == JoinPath([srcpath, n]) && Base(paths[i]) == n
    {
      assert paths[i] in ToSet(paths);
      var n: FileName :| n in order && HasPrefix(n, "model_") && paths[i] == JoinPath([srcpath, n]);
      BaseOfJoinPath([srcpath, n]);
    }
    forall i | 0 <= i < |paths|
      ensures Base(ModelTarget(outpath, paths[i])) == Base(paths[i])
    {
      var n: FileName :| n in order && paths[i] == JoinPath([srcpath, n]) && Base(paths[i]) == n;
      BaseOfJoinPath([outpath, n]);
    }
    var targets := seq(|paths|, i requires 0 <= i < |paths| => ModelTarget(outpath, paths[i]));
    forall i, j | 0 <= i < j < |paths|
      ensures targets[i] != targets[j]
    {
      var a: FileName :| a in order && paths[i] == JoinPath([srcpath, a]) && Base(paths[i]) == a;
      var b: FileName :| b in order && paths[j] == JoinPath([srcpath, b]) && Base(paths[j]) == b;
      assert a != b;
      JoinPathInjective(outpath, a, b);
    }
  }

  /** `Generate`'s files in the order it produces them: the services, `common.go`, the model copies. */
  function Plan(outpath: string, order: seq<string>, render: string -> Rendered,
                common: Result<seq<byte>, string>, modelPaths: seq<string>, files: map<string, seq<byte>>): seq<Result<FileWrite, Error>>
  {
    ServiceSteps(outpath, order, render) + [CommonStep(outpath, common)] + ModelSteps(outpath, modelPaths, files)
  }

  // ---------------------------------------------------------------------------
  // The world outside the core

  /** What `os.Stat` reports about a path. */
  datatype StatResult = Missing | StatFailed | Found(isDir: bool)

  /** Some sequence listing each element of `s` once. */
  lemma SomeOrder(s: set<string>) returns (o: seq<string>)
    ensures Distinct(o) && ToSet(o) == s
    decreases s
  {
    if s == {} {
      o := [];
    } else {
      var x :| x in s;
      var rest := SomeOrder(s - {x});
      o := [x] + rest;
    }
  }

  /** Two sequences without repeats and without common elements make one without repeats. */
  lemma DistinctAppend(a: seq<string>, b: seq<string>)
    requires Distinct(a) && Distinct(b) && ToSet(a) !! ToSet(b)
    ensures Distinct(a + b) && ToSet(a + b) == ToSet(a) + ToSet(b)
  {
    forall i, j | 0 <= i < j < |a + b|
      ensures (a + b)[i] != (a + b)[j]
    {
      if i < |a| && j >= |a| {
        assert (a + b)[i] in ToSet(a) && (a + b)[j] in ToSet(b);
      }
    }
  }

  /**
   * A service file that failed ends the run: completing the iteration order
   * with the services not reached leaves the run unchanged.
   */
  lemma ServicesStopped(outpath: string, order: seq<string>, filename: string, todo: set<string>, keys: set<string>,
                        render: string -> Rendered, unwritable: set<string>,
                        before: seq<FileWrite>, after: seq<FileWrite>, err: Option<Error>)
    returns (full: seq<string>)
    requires Distinct(order) && ToSet(order) !! todo && ToSet(order) + todo == keys && filename in todo
    requires Ran(ServiceSteps(outpath, order + [filename], render), unwritable, before, after, err) && err != None
    ensures Distinct(full) && ToSet(full) == keys
    ensures Ran(ServiceSteps(outpath, full, render), unwritable, before, after, err)
  {
    var rest := SomeOrder(todo - {filename});
    ServiceStepsAppend(outpath, order + [filename], rest, render);
    DistinctAppend(order, [filename]);
    DistinctAppend(order + [filename], rest);
    RanStopped(ServiceSteps(outpath, order + [filename], render), ServiceSteps(outpath, rest, render),
               unwritable, before, after, err);
    full := order + [filename] + rest;
  }

  /**
   * The file system and the libraries the generator calls: `os.Stat`, what
   * `go/parser` and the YAML decoder read, the files `ioutil.ReadFile` can read,
   * the paths `ioutil.WriteFile` fails on, template execution followed by
   * `go/format` for each service file and for the common file, and the log of
   * the writes made so far.
   */
  class Host {
    const stat: string -> StatResult
    const sources: Sources
    const files: map<string, seq<byte>>
    const unwritable: set<string>
    const render: string -> Rendered
    const common: Result<seq<byte>, string>
    var written: seq<FileWrite>

    constructor (stat: string -> StatResult, sources: Sources, files: map<string, seq<byte>>, unwritable: set<string>,
                 render: string -> Rendered, common: Result<seq<byte>, string>)
      ensures this.stat == stat && this.sources == sources && this.files == files
      ensures this.unwritable == unwritable && this.render == render && this.common == common
      ensures written == []
    {
      this.stat, this.sources, this.files := stat, sources, files;
      this.unwritable, this.render, this.common := unwritable, render, common;
      written := [];
    }

    /** `ioutil.ReadFile`. */
    function ReadFile(path: string): Result<seq<byte>, Error> {
      if path in files then Success(files[path]) else Failure(ReadFailed(path))
    }

    /** `ioutil.WriteFile`: fails on the unwritable paths, otherwise logs the write. */
    method WriteFile(path: string, data: seq<byte>) returns (err: Option<Error>)
      modifies this`written
      ensures path in unwritable ==> err == Some(WriteFailed(path)) && written == old(written)
      ensures path !in unwritable ==> err == None && written == old(written) + [FileWrite(path, data)]
    {
      if path in unwritable {
        return Some(WriteFailed(path));
      }
      written := written + [FileWrite(path, data)];
      return None;
    }
  }

  // ---------------------------------------------------------------------------
  // The Codegen object

  class Codegen {
    const parser: Parser
    var outpath: string
    var mode: string

    ghost predicate Valid()
      reads this, parser
    {
      parser.Valid()
    }

    /** `NewCodegen`: a fresh parser, no output path yet. */
    constructor ()
      ensures Valid() && fresh(parser)
      ensures parser.inpath == "" && parser.services == map[] && parser.methods == map[] && parser.modelPaths == []
      ensures outpath == "" && mode == ""
    {
      parser := new Parser();
      outpath, mode := "", "";
    }

    /**
     * `MkOutpath`: the input path must exist and be a directory; the output
     * goes to its `ginapi` subdirectory. A `Stat` failure other than a missing
     * path leaves no file information, which the source then dereferences.
     */
    method MkOutpath(host: Host) returns (err: Option<Error>)
      modifies this`outpath
      ensures host.stat(parser.inpath) == Missing ==>
                err == Some(InpathNotExists(parser.inpath)) && outpath == old(outpath)
      ensures host.stat(parser.inpath) == StatFailed ==>
                err == Some(Panic("nil pointer dereference: no file information")) && outpath == old(outpath)
      ensures host.stat(parser.inpath) == Found(false) ==>
                err == Some(InpathNotDir(parser.inpath)) && outpath == old(outpath)
      ensures host.stat(parser.inpath) == Found(true) ==>
                err == None && outpath == JoinPath([parser.inpath, "ginapi"])
    {
      var inpath := parser.inpath;
      var info := host.stat(inpath);
      if info == Missing {
        return Some(InpathNotExists(inpath));
      }
      if info == StatFailed {
        return Some(Panic("nil pointer dereference: no file information"));
      }
      if !info.isDir {
        return Some(InpathNotDir(inpath));
      }
      outpath := JoinPath([inpath, "ginapi"]);
      return None;
    }

    /** One iteration of `generateServices`: render, format and write the file of one service. */
    method WriteService(host: Host, filename: string) returns (err: Option<Error>)
      modifies host`written
      ensures RanStep(ServiceStep(outpath, filename, host.render(filename)), host.unwritable, old(host.written), host.written, err)
    {
      match host.render(filename) {
        case TemplateError(d) =>
          err := Some(TemplateFailed(d));
        case FormatError(d) =>
          err := Some(GofmtFailed(d));
        case Formatted(output) =>
          err := host.WriteFile(JoinPath([outpath, filename]), output);
      }
    }

    /**
     * `generateServices`: one file per service, in the map's iteration order
     * `order`, stopping at the first failure.
     */
    method GenerateServices(host: Host) returns (err: Option<Error>, ghost order: seq<string>)
      modifies host`written
      ensures Distinct(order) && ToSet(order) == parser.services.Keys
      ensures Ran(ServiceSteps(outpath, order, host.render), host.unwritable, old(host.written), host.written, err)
    {
      var todo := parser.services.Keys;
      order := [];
      RanNothing(host.unwritable, host.written);
      while todo != {}
        invariant Distinct(order) && ToSet(order) !! todo && ToSet(order) + todo == parser.services.Keys
        invariant Ran(ServiceSteps(outpath, order, host.render), host.unwritable, old(host.written), host.written, None)
        decreases todo
      {
        var filename :| filename in todo;
        ghost var before := ServiceSteps(outpath, order, host.render);
        ghost var mid := host.written;
        err := WriteService(host, filename);
        ghost var done := ServiceSteps(outpath, order + [filename], host.render);
        ServiceStepsSnoc(outpath, order, filename, host.render);
        RanOneMore(before, ServiceStep(outpath, filename, host.render(filename)), host.unwritable,
                   old(host.written), mid, host.written, err);
        if err.Some? {
          order := ServicesStopped(outpath, order, filename, todo, parser.services.Keys, host.render,
                                   host.unwritable, old(host.written), host.written, err);
          return;
        }
        order := order + [filename];
        todo := todo - {filename};
      }
      return None, order;
    }

    /** `generateCommon`: formats the common template and writes `common.go`. */
    method GenerateCommon(host: Host) returns (err: Option<Error>)
      modifies host`written
      ensures Ran([CommonStep(outpath, host.common)], host.unwritable, old(host.written), host.written, err)
    {
      if host.common.Failure? {
        err := Some(GofmtFailed(host.common.error));
      } else {
        err := host.WriteFile(JoinPath([outpath, "common.go"]), host.common.value);
      }
      RanOne(CommonStep(outpath, host.common), host.unwritable, old(host.written), host.written, err);
    }

    /** One iteration of `copyModels`: read a model file, rewrite its package clause, write the copy. */
    method CopyModel(host: Host, path: string) returns (err: Option<Error>)
      modifies host`written
      ensures RanStep(ModelStep(outpath, path, host.files), host.unwritable, old(host.written), host.written, err)
    {
      var indata := host.ReadFile(path);
      if indata.Failure? {
        return Some(indata.error);
      }
      var data := RewritePackage(indata.value);
      err := host.WriteFile(JoinPath([outpath, Base(path)]), data);
    }

    /** `copyModels`: copies the model files in collection order, stopping at the first failure. */
    method CopyModels(host: Host) returns (err: Option<Error>)
      modifies host`written
      ensures Ran(ModelSteps(outpath, parser.modelPaths, host.files), host.unwritable, old(host.written), host.written, err)
    {
      var paths := parser.modelPaths;
      var i := 0;
      RanNothing(host.unwritable, host.written);
      while i < |paths|
        invariant 0 <= i <= |paths|
        invariant Ran(ModelSteps(outpath, paths[..i], host.files), host.unwritable, old(host.written), host.written, None)
      {
        ghost var mid := host.written;
        err := CopyModel(host, paths[i]);
        ModelStepsPrefix(outpath, paths, host.files, i);
        RanOneMore(ModelSteps(outpath, paths[..i], host.files), ModelStep(outpath, paths[i], host.files), host.unwritable,
                   old(host.written), mid, host.written, err);
        if err.Some? {
          RanStopped(ModelSteps(outpath, paths[..i + 1], host.files), ModelSteps(outpath, paths[i + 1..], host.files),
                     host.unwritable, old(host.written), host.written, err);
          return;
        }
        i := i + 1;
      }
      assert paths[..i] == paths;
      return None;
    }

    /** `Generate`: the services, then `common.go`, then the model copies; the first error ends it. */
    method Generate(host: Host) returns (err: Option<Error>, ghost order: seq<string>)
      modifies host`written
      ensures Distinct(order) && ToSet(order) == parser.services.Keys
      ensures Ran(Plan(outpath, order, host.render, host.common, parser.modelPaths, host.files),
                  host.unwritable, old(host.written), host.written, err)
    {
      ghost var common := [CommonStep(outpath, host.common)];
      ghost var models := ModelSteps(outpath, parser.modelPaths, host.files);
      err, order := GenerateServices(host);
      ghost var services := ServiceSteps(outpath, order, host.render);
      if err.Some? {
        RanStopped(services, common + models, host.unwritable, old(host.written), host.written, err);
        assert services + common + models == services + (common + models);
        return;
      }
      ghost var afterServices := host.written;
      err := GenerateCommon(host);
      RanThen(services, common, host.unwritable, old(host.written), afterServices, host.written, err);
      if err.Some? {
        RanStopped(services + common, models, host.unwritable, old(host.written), host.written, err);
        return;
      }
      ghost var afterCommon := host.written;
      err := CopyModels(host);
      RanThen(services + common, models, host.unwritable, old(host.written), afterCommon, host.written, err);
    }

    /**
     * `Run`: `MkOutpath`, then the parser, then `Generate`; the first error is
     * returned and the later steps are skipped.
     */
    method Run(host: Host) returns (err: Option<Error>, ghost scanOrder: seq<FileName>, ghost apis: seq<Specs>,
                                    ghost serviceOrder: seq<string>)
      requires Valid()
      modifies this, parser, host`written
      ensures Valid() && parser.inpath == old(parser.inpath) && mode == old(mode)
      ensures host.stat(parser.inpath) != Found(true) ==>
                err.Some? && host.written == old(host.written) && outpath == old(outpath) &&
                parser.services == old(parser.services) && parser.methods == old(parser.methods) &&
                parser.modelPaths == old(parser.modelPaths) &&
                parser.srcpath == old(parser.srcpath) && parser.yamlpath == old(parser.yamlpath)
      ensures host.stat(parser.inpath) == Missing ==> err == Some(InpathNotExists(parser.inpath))
      ensures host.stat(parser.inpath) == StatFailed ==> err == Some(Panic("nil pointer dereference: no file information"))
      ensures host.stat(parser.inpath) == Found(false) ==> err == Some(InpathNotDir(parser.inpath))
      ensures host.stat(parser.inpath) == Found(true) ==>
                outpath == JoinPath([parser.inpath, "ginapi"]) &&
                parser.srcpath == JoinPath([parser.inpath, "go"]) &&
                parser.yamlpath == JoinPath([parser.inpath, "api", "openapi.yaml"]) &&
                (parser.srcpath in host.sources.dirs ==> parser.ScannedDir(host.sources.dirs[parser.srcpath], scanOrder))
      ensures host.stat(parser.inpath) == Found(true) && parser.srcpath !in host.sources.dirs ==>
                err == Some(ParseDirFailed(parser.srcpath)) &&
                parser.services == old(parser.services) && parser.methods == old(parser.methods) &&
                parser.modelPaths == old(parser.modelPaths)
      ensures host.stat(parser.inpath) == Found(true) &&
              parser.srcpath in host.sources.dirs && !parser.YamlAccepted(host.sources.docs) ==>
                parser.YamlChecked(host.sources.docs, apis, err)
      ensures host.stat(parser.inpath) == Found(true) &&
              !(parser.srcpath in host.sources.dirs && parser.YamlAccepted(host.sources.docs)) ==>
                err.Some? && host.written == old(host.written)
      ensures host.stat(parser.inpath) == Found(true) &&
              parser.srcpath in host.sources.dirs && parser.YamlAccepted(host.sources.docs) ==>
                Distinct(serviceOrder) && ToSet(serviceOrder) == parser.services.Keys &&
                Ran(Plan(outpath, serviceOrder, host.render, host.common, parser.modelPaths, host.files),
                    host.unwritable, old(host.written), host.written, err)
    {
      scanOrder, apis, serviceOrder := [], [], [];
      err := MkOutpath(host);
      if err.Some? {
        return;
      }
      err, scanOrder, apis := parser.Parse(host.sources);
      if err.Some? {
        return;
      }
      err, serviceOrder := Generate(host);
    }
  }

  // ---------------------------------------------------------------------------
  // The route table of a generated service file

  /** A `ginRegistry`: the HTTP method and URL of a route with its handlers around the main one. */
  datatype Registry<H> = Registry(httpMethod: string, url: string, preMain: seq<H>, main: H, postMain: seq<H>)

  /** A call `r.Handle(httpMethod, url, handlers...)`. */
  datatype Route<H> = Route(httpMethod: string, url: string, handlers: seq<H>)

  /**
   * The handler chain `new<Service>Routes` builds for one registry: the
   * pre-handlers, the main handler, the post-handlers, each in order.
   */
  method ComposeHandlers<H>(registry: Registry<H>) returns (handlers: seq<H>)
    ensures |handlers| == |registry.preMain| + 1 + |registry.postMain|
    ensures handlers[..|registry.preMain|] == registry.preMain
    ensures handlers[|registry.preMain|] == registry.main
    ensures handlers[|registry.preMain| + 1..] == registry.postMain
  {
    handlers := [];
    var i := 0;
    while i < |registry.preMain|
      invariant 0 <= i <= |registry.preMain|
      invariant handlers == registry.preMain[..i]
    {
      handlers := handlers + [registry.preMain[i]];
      i := i + 1;
    }
    handlers := handlers + [registry.main];
    var j := 0;
    while j < |registry.postMain|
      invariant 0 <= j <= |registry.postMain|
      invariant |handlers| == |registry.preMain| + 1 + j
      invariant handlers[..|registry.preMain|] == registry.preMain
      invariant handlers[|registry.preMain|] == registry.main
      invariant handlers[|registry.preMain| + 1..] == registry.postMain[..j]
    {
      handlers := handlers + [registry.postMain[j]];
      j := j + 1;
    }
  }

  /** The route a registry turns into: its method and URL with its whole handler chain. */
  function RouteOf<H>(reg: Registry<H>): Route<H> {
    Route(reg.httpMethod, reg.url, reg.preMain + [reg.main] + reg.postMain)
  }

  /** Routes listed one per registry key, in some order, are exactly the registries' routes. */
  lemma RoutesCoverRegistries<H>(registries: map<string, Registry<H>>, order: seq<string>, routes: seq<Route<H>>)
    requires ToSet(order) == registries.Keys && |routes| == |order|
    requires forall i :: 0 <= i < |order| ==> routes[i] == RouteOf(registries[order[i]])
    ensures forall k :: k in registries ==> RouteOf(registries[k]) in routes
    ensures forall r :: r in routes ==> exists k :: k in registries && r == RouteOf(registries[k])
  {
    forall k | k in registries
      ensures RouteOf(registries[k]) in routes
    {
      assert k in ToSet(order);
      var i :| 0 <= i < |order| && order[i] == k;
      assert routes[i] == RouteOf(registries[k]);
    }
    forall r | r in routes
      ensures exists k :: k in registries && r == RouteOf(registries[k])
    {
      var i :| 0 <= i < |routes| && routes[i] == r;
      assert order[i] in ToSet(order);
    }
  }

  /**
   * `new<Service>Routes`: one route per registry, in the map's iteration order
   * `order`, each with the handler chain of its registry.
   */
  method NewRoutes<H>(registries: map<string, Registry<H>>) returns (routes: seq<Route<H>>, ghost order: seq<string>)
    ensures Distinct(order) && ToSet(order) == registries.Keys && |routes| == |order|
    ensures forall i :: 0 <= i < |order| ==> routes[i] == RouteOf(registries[order[i]])
    ensures forall k :: k in registries ==> RouteOf(registries[k]) in routes
    ensures forall r :: r in routes ==> exists k :: k in registries && r == RouteOf(registries[k])
  {
    routes, order := [], [];
    var todo := registries.Keys;
    while todo != {}
      invariant Distinct(order) && ToSet(order) !! todo && ToSet(order) + todo == registries.Keys
      invariant |routes| == |order|
      invariant forall i :: 0 <= i < |order| ==> routes[i] == RouteOf(registries[order[i]])
      decreases todo
    {
      var key :| key in todo;
      var registry := registries[key];
      var handlers := ComposeHandlers(registry);
      assert handlers == registry.preMain + [registry.main] + registry.postMain;
      routes := routes + [Route(registry.httpMethod, registry.url, handlers)];
      order := order + [key];
      todo := todo - {key};
    }
    RoutesCoverRegistries(registries, order, routes);
  }
}
