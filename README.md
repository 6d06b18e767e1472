# ginapi generator core, modelled in Dafny

ginapi reads a Go server skeleton produced by an OpenAPI generator: the `go/` directory and
`api/openapi.yaml` under an input path. It then writes a `ginapi` package next to them. This
project models the core of that generator in three parts:

- **The type mapper** (`util.go`). It maps an OpenAPI schema to the Go type that stands for it:
  a `$ref` becomes its title-cased last segment, scalars map by type and format, arrays
  recurse into their items, and inline objects are rejected.
- **The skeleton scanner and reconciler** (`parser.go`).
  - Every `api_*` file of the Go sources becomes a service. The service is named after the
    file, and its functions are filed both in the service and in a flat method index, as one
    shared object per function.
  - Every `model_*` file is remembered for copying.
  - Each operation of the OpenAPI document must carry an `operationId` whose title-cased form
    names a scanned function.
- **Emission bookkeeping** (`codegen.go`).
  - The output directory is derived from the input path.
  - `Run` and `Generate` chain their steps and stop at the first error.
  - The files are written in order: one per service, `common.go`, then a copy of each model
    file with `package openapi` rewritten to `package ginapi`.
  - The routing code composes each route's handler chain.

The Dafny modules follow the source:

| module | contents |
|---|---|
| `Wrappers` | the `Option` and `Result` types |
| `GoStrings` | the parts of Go's `strings` and `bytes` packages the core calls |
| `GoPaths` | the parts of Go's `path/filepath` package the core calls |
| `Errors` | the error values |
| `Util` | `util.go` |
| `Parser` | `parser.go`, with the class `Parser` |
| `Codegen` | `codegen.go`, with the classes `Codegen` and `Host` |

How the Go code is represented:

- Objects whose fields the Go code updates in place are classes:
  - `Parser`, whose `services`, `methods` and `modelPaths` change;
  - `ServiceMethod`, shared by pointer between a service and the index;
  - `Codegen`, whose `outpath` changes.
- The loops are `while` loops with invariants.
- Go's map iteration order is unspecified, so loops over maps pick an arbitrary remaining key.
  Where the order becomes visible, the method returns it as a ghost sequence, and its contract
  holds for every order.
- Everything outside the core is an input:
  - `Sources` holds what `go/parser` and the YAML decoder deliver.
  - `Host` holds `os.Stat`, the readable files, the paths whose writes fail, and the outcome of
    executing the templates and running `go/format`. It also logs the writes made.

## Model

| member | source | states |
|---|---|---|
| Util.OapiRefToGoType | util.go:17-24 | never fails; the result is the title-cased text after the last `/` of the ref, or the whole ref title-cased when it has no `/` |
| Util.OapiToGoType | util.go:26-70 | succeeds exactly on the schemas `Mappable` accepts: a non-empty ref, `number` with `float`/`double`, `integer` with `int32`/`int64`, `string`, `boolean`, or an `array` whose items map |
| Util.RefTakesPrecedence | util.go:27-33 | with a non-empty ref, type, format, items and properties do not affect the result, which is the title-cased last segment of the ref |
| Util.ScalarMapping | util.go:38-56 | `string` gives `string` and `boolean` gives `bool` whatever the format; `number`/`integer` map through the table float→float32, double→float64, int32→int32, int64→int64; any other format, and any unknown non-array non-object type, gives `BadOapiSchemaType` with the type |
| Util.ObjectRejected | util.go:63-69 | an inline `object` gives `UseRef` when it has properties and `BadOapiSchemaType("object")` otherwise |
| Util.ArrayLevel | util.go:57-62 | an array maps to `[]` before the mapping of its items, and an error from the items comes out unchanged |
| Util.NestedArrays | util.go:57-62 | k nested arrays around a schema map to k copies of `[]` before the schema's mapping, and the schema's error comes out unchanged through every level |
| GoStrings.TitleAt | parser.go:113 | `strings.Title` changes only the first character of each word (the start of the string, or after an ASCII character that is not a letter, digit or `_`), upper-casing it |
| GoStrings.TitleIdempotent | parser.go:113 | title-casing twice is title-casing once |
| GoStrings.TitleContains | parser.go:113 | title-casing neither adds nor removes a non-letter such as `_` or `/` |
| GoStrings.SplitLast | util.go:18-23 | the last piece of `strings.Split` is the text after the last separator |
| GoStrings.SplitJoin | parser.go:111 | joining the pieces of a split with the separator gives the string back |
| GoStrings.SplitNoSeparator | parser.go:111 | no piece of a split contains the separator |
| GoStrings.SplitWithoutSeparator | parser.go:111 | a string without the separator splits into itself alone |
| GoStrings.SplitAround | parser.go:111 | splitting `a + sep + b` splits each side on its own |
| GoStrings.TrimSuffix | parser.go:109 | the suffix is removed exactly when the string ends with it |
| GoStrings.ReplaceAllWithoutMatch | codegen.go:248 | `bytes.ReplaceAll` leaves input without the pattern unchanged |
| GoStrings.ReplaceAllLeavesNoMatch | codegen.go:248 | when pattern and replacement cannot overlap, no occurrence of the pattern survives `bytes.ReplaceAll` |
| GoPaths.Base | parser.go:89 | `filepath.Base` is never empty and is either `/` or free of separators |
| GoPaths.Ext | parser.go:109 | `filepath.Ext` is empty or a `.`-led suffix of the path without separators |
| GoPaths.BaseOfJoinPath | codegen.go:250 | the base name of `filepath.Join(elems...)` is the last element when that is a plain name |
| GoPaths.JoinPathInjective | codegen.go:250 | joining one directory with two different plain names gives two different paths |
| Parser.GetServiceName | parser.go:107-120 | its loop title-cases the `_`-separated parts of the file's stem; the result is `ServiceNameOf(path)`: the parts after the first, title-cased and run together, then `Service` |
| Parser.ServiceNameShape | parser.go:107-120 | a service name ends in `Service` and contains neither `_` nor `/` |
| Parser.ServiceNameOneGroup | parser.go:107-120 | `api_<x>.go` with no `_` in `x`, in any directory, is named `Title(x) + "Service"` |
| Parser.ServiceNameKeepsDots | parser.go:107-120 | `api_a.b.go` in any directory is named `A.BService`: only the last extension is dropped and the dot separates words for `strings.Title` |
| Parser.ServiceNameTwoParts | parser.go:111-119 | `api_<a>_<b>.go` in any directory is named `Title(a) + Title(b) + "Service"`: the first part is dropped and the rest keep their order |
| Parser.ServiceNameWithoutUnderscore | parser.go:111-119 | a stem without `_` is a single part, which is dropped, leaving `Service` |
| Parser.StemOfGoFile | parser.go:108-109 | the stem of `dir/<stem>.go` is `<stem>` |
| Parser.PrefixesExclusive | parser.go:91-98 | no name has both the `api_` and the `model_` prefix, and `routers.go` has neither |
| Parser.Classify | parser.go:88-103 | a file is an api file iff its base name starts with `api_`, a model file iff it starts with `model_`, and the routers file iff it is `routers.go` |
| Parser.Parser.constructor | parser.go:48-53 | `NewParser`: empty service map, method index and model paths |
| Parser.Parser.RecordService | parser.go:128-139 | the loop over the file's objects files a fresh method for each function-kind object, and only those, in the service and in the index, as the same object; the service is stored under the file name; other entries stay unchanged |
| Parser.RecordedByUpdate | parser.go:135-139 | filing the service and its index entries is a recording of exactly the file's functions |
| Parser.Parser.ParseMethodNames | parser.go:122-141 | records the service of the file under its name, with the name `ServiceNameOf(filename)`, and never fails |
| Parser.Parser.CollectModel | parser.go:143-145 | appends exactly the given path to `modelPaths` |
| Parser.Parser.ParseRouters | parser.go:147-150 | does nothing and never fails |
| Parser.Parser.ParseFile | parser.go:88-103 | an `api_` file is recorded as a service under its base name, named `ServiceNameOf` that base name; otherwise a `model_` file's full path is appended to `modelPaths`; `routers.go` and other files leave the state unchanged; never fails |
| Parser.ModelPathsSnoc | parser.go:94-96 | visiting one more file appends its full path to the model paths exactly when it is a `model_` file |
| Parser.ModelPathsInSet | parser.go:77-83 | the model paths of a visit order are the full paths of its `model_` files |
| Parser.ModelPathsInBases | parser.go:89-96 | each collected model path ends in a name of the directory |
| Parser.ModelPathsAnyOrder | parser.go:77-83 | whatever the visit order, the collected model paths are the directory's `model_` files, each exactly once |
| Parser.DeclaredAdd | parser.go:128-136 | scanning one more `api_` file adds its function names to the declared methods |
| Parser.ScannedNothing | parser.go:77-83 | before any file is visited the scan state is the initial one |
| Parser.ScannedOneMore | parser.go:77-83 | one more visited file extends the scan state according to how `parseFile` treats it |
| Parser.ServicesScannedApi | parser.go:139 | after an `api_` file, the scanned service map has one more service, listing exactly that file's functions |
| Parser.MethodsScannedApi | parser.go:136 | after an `api_` file, the index is extended by its functions, each shared with the service of some `api_` file |
| Parser.ScanAdvance | parser.go:78-81 | the scan state, model paths included, advances by one file as `parseFile` treats it |
| Parser.Parser.ScanFile | parser.go:78-81 | one iteration of the files loop: the file is parsed at its full path and the scan state advances by it |
| Parser.Parser.ParseGo | parser.go:70-86 | fails only when the source directory does not parse; otherwise, for a visit order of all its files, there is one service per `api_` file, the index is extended by their functions as fresh shared objects, and the model paths are appended in visit order |
| Parser.GetAPIs | parser.go:154-191 | fails with `ErrParserBadYaml` exactly when `paths` is missing, is not a map, or holds a path item or operation that is not a map, with the matching reason; otherwise it lists every (path, method) operation exactly once |
| Parser.CollectOperations | parser.go:176-188 | the operations of one path item: succeeds exactly when every one of them is a mapping, and then lists each (path, method) key exactly once with the operation filed under it |
| Parser.Parser.ParseMethodInfo | parser.go:218-240 | succeeds iff `operationId` is present, is a string, and its title-cased form names a scanned method; a missing id gives `NoOperationId`, an unknown one `UnknownMethod(Title(id))`; reads the state and never changes it |
| Parser.Parser.FirstFailure | parser.go:209-213 | no error iff every operation in the list succeeds |
| Parser.Parser.FirstFailureAt | parser.go:209-213 | the error is that of the first failing operation |
| Parser.Parser.CheckOperations | parser.go:209-213 | the loop stops at the first failing operation and returns its error |
| Parser.Parser.ListedAllKnown | parser.go:204-213 | for any listing of the operations, the check succeeds iff every operation in the document names a scanned method |
| Parser.Parser.ParseYaml | parser.go:193-216 | an unreadable document gives `ReadFailed`, an undecodable one `YamlSyntax`, a badly shaped one its `GetAPIs` error; otherwise the first failing operation's error in `GetAPIs` order; success iff the document is accepted |
| Parser.Parser.Parse | parser.go:55-68 | sets `srcpath` to `inpath/go` and `yamlpath` to `inpath/api/openapi.yaml`; a failing Go scan returns `ParseDirFailed(srcpath)` and changes nothing; after a successful scan the error is exactly `parseYaml`'s (`ReadFailed`, `YamlSyntax`, the shape error, or the first failing operation of a listing of all of them); succeeds iff the sources parse and the document is accepted |
| Codegen.PackageClausesDoNotOverlap | codegen.go:248 | `package openapi` and `package ginapi` cannot overlap one another |
| Codegen.RewriteLeavesNoOpenapi | codegen.go:248 | no `package openapi` remains in a rewritten model file |
| Codegen.RewriteKeepsOtherData | codegen.go:248 | a file without `package openapi` is copied byte for byte |
| Codegen.RewriteIdempotent | codegen.go:248 | rewriting a rewritten file changes nothing |
| Codegen.RewriteLeadingClause | codegen.go:248 | a leading `package openapi` becomes `package ginapi` and the rest is rewritten alike |
| Codegen.WriteAllStopsAtFirstFailure | codegen.go:241-256 | the files written are those of the steps before the first failing step or write, in order, and the error is that step's; with no failure every step's file is written |
| Codegen.WriteAllSucceeds | codegen.go:241-256 | a sequence of steps succeeds iff each step succeeds |
| Codegen.WriteAllAppend | codegen.go:191-202 | running two groups of steps runs the second only when the first succeeded |
| Codegen.RanOneMore | codegen.go:205-225 | a successful run followed by one step is a run of both |
| Codegen.RanStopped | codegen.go:191-202 | steps after a failure are not run |
| Codegen.RanThen | codegen.go:191-202 | a successful run followed by a run is a run of both |
| Codegen.ModelCopiesInOrder | codegen.go:241-256 | when every model file is readable and every target writable, each model path yields one write, in `modelPaths` order, of its rewritten contents to the output directory under its base name |
| Codegen.ModelTargetsDistinct | codegen.go:250 | the copies of a directory's model files go to different files, each named like its source |
| Codegen.Host.WriteFile | codegen.go:251 | a write fails on an unwritable path and otherwise is logged |
| Codegen.Codegen.constructor | codegen.go:155-159 | `NewCodegen`: a fresh, empty parser and no output path |
| Codegen.Codegen.MkOutpath | codegen.go:161-176 | a missing input gives `InpathNotExists`, a non-directory `InpathNotDir`, any other stat failure the nil dereference; otherwise `outpath` is `inpath/ginapi` and there is no error |
| Codegen.Codegen.WriteService | codegen.go:206-224 | a template failure or a formatter failure is returned, otherwise the service's file is written to the output directory under the service's file name |
| Codegen.Codegen.GenerateServices | codegen.go:204-227 | for an iteration order listing every service once, the service files are written in that order up to the first failure, whose error is returned |
| Codegen.Codegen.GenerateCommon | codegen.go:229-239 | a formatter failure is returned, otherwise `common.go` is written |
| Codegen.Codegen.CopyModel | codegen.go:243-253 | a read failure is returned, otherwise the rewritten contents are written under the source's base name |
| Codegen.Codegen.CopyModels | codegen.go:241-256 | the model files are copied in `modelPaths` order up to the first read or write failure, whose error is returned |
| Codegen.Codegen.Generate | codegen.go:191-202 | services, then `common.go`, then the model copies, as one sequence of steps that ends at the first error |
| Codegen.Codegen.Run | codegen.go:178-189 | `MkOutpath`, then the parser, then `Generate`, returning the first error unchanged: a stat failure returns its error and changes neither the parser, `outpath` nor the files; a missing source directory returns `ParseDirFailed(srcpath)` and leaves the services, methods and model paths unchanged; a rejected document returns the `parseYaml` error; neither writes anything; otherwise the writes and the error are those of `Generate` over the scanned services and model paths; `mode` never changes |
| Codegen.ComposeHandlers | codegen.go:98-105 | the handler chain is the pre-handlers, the main handler right after the pre-handlers, then the post-handlers; its length is the count of pre-handlers plus the count of post-handlers plus one |
| Codegen.NewRoutes | codegen.go:96-109 | one route per registry, in some iteration order listing each registry once, each with its method, URL and composed handler chain; every registry has its route among the results and every result is some registry's route |

## Left out

- I/O is not modelled. `os.Stat`, `MkdirAll`, `ReadFile`, `WriteFile`, `goparser.ParseDir` and
  `yaml.Unmarshal` appear only through their results, given as inputs (`Host`, `Sources`). The
  ignored result of `MkdirAll` (codegen.go:173) has no counterpart.
- `text/template` and `go/format` (codegen.go:206-218, 230) are a foreign library. Their
  outcome for each service file and for the common file is an input. Parsing the constant
  service template (codegen.go:206-209) is taken to succeed. The template bodies are
  emitted text, not behaviour of the generator.
- Codegen.Codegen.GenerateServices: the source ranges over `c.Services` and writes
  `service.Filepath`, and neither is declared in parser.go. The model ranges over the
  parser's service map and writes under the map key, which is the file name of the service.
- Parser.Parser.ParseGo: the packages of the source directory are flattened into one map of
  files by name, so a file's place in a package and `go/ast` scoping are not modelled. A Go
  file is reduced to the kinds of its top-level objects.
- Parser.Parser.ParseMethodInfo: the debug `fmt.Println` (parser.go:238) is not modelled.
  A non-string `operationId` makes the Go type assertion panic. The model returns a `Panic`
  error there, with no more detail than that.
- Util.OapiToGoType: a `SchemaRef` with an empty ref and a nil `Value` makes the source
  dereference nil. The model has no nil `Value` and cannot express that case. An array
  without items is modelled as the nil dereference the source would hit.
- GoStrings.TitleAt: `strings.Title` is modelled for ASCII. Characters beyond ASCII count as
  letters of a word and are never changed, whereas Go consults the Unicode tables.
- GoStrings.ReplaceAllWithoutMatch: `bytes.ReplaceAll` with an empty pattern is not modelled.
  The core only calls it with `package openapi`.
- Parser.ServiceNameShape: states that a service name ends in `Service` and holds no `_`
  and no `/`. It does not say that no dot survives: only the last extension is removed,
  so a stem with further dots keeps them, and `strings.Title` takes the dot for a word
  separator. `api_a.b.go` is named `A.BService` (`Parser.ServiceNameKeepsDots`).
- Parser.Parser.ParseMethodNames: the service name is stated for the recorded service at
  the call. It is not carried through the scan invariants of `ParseGo`, which speak about
  service keys and methods.
- Parser.Parser.ParseGo: its contract does not state the names of the scanned services.
  `ParseMethodNames` states the name of each service at the call that records it, but the
  scan invariants carry only the service keys and the methods.
- GoPaths models `path/filepath` with the Unix separator `/` only. Windows separators and
  volume names are not modelled.
- The `ServiceMethod` fields other than its name (`PathVars`, `Queries`, `RequestBody`,
  `Response`) are never set by the core and keep their initial values.
- `mode` (codegen.go:152) is never assigned anywhere in the source. `CodegenModes`
  (codegen.go:139-142) is declared but never read. The model keeps `mode` as an untouched
  field (`Run` leaves it unchanged) and leaves `CodegenModes` out. The command line
  (cli.go), `internal/`, `utils/` and `examples/main.go` are not part of this model.
- Where the written specification and the code disagree, the model follows the code:
  - the model rewrite uses `bytes.ReplaceAll`, which replaces every occurrence, not the first;
  - util.go has no required/optional wrapping of types;
  - the route template chains `PreMain`, `Main`, `PostMain`, not global then operation
    middlewares;
  - errors are the source's own values rather than a `BadSpec`/`IO` classification.
