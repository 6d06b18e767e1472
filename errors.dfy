/**
 * The generator's error values. Each sentinel of the source is one
 * constructor; the text that `fmt.Errorf` wraps around a sentinel is kept
 * where it carries data that does not depend on map order (a type name, a
 * path, a method name).
 */
module Errors {

  /** What `ErrParserBadYaml` complains about. */
  datatype YamlProblem =
    | NoPaths                      // key "paths" missing
    | PathsNotMap                  // "paths" is not a mapping
    | EntryNotMap                  // a path item or an operation is not a mapping; the offending
                                   // value the source prints is dropped, since which one is met
                                   // first depends on the map's iteration order
    | NoOperationId                // key "operationId" missing
    | UnknownMethod(name: string)  // no scanned Go function has this name

  datatype Error =
    | UseRef                          // ErrUtilUseRef: inline object schema
    | BadOapiSchemaType(typ: string)  // ErrUtilBadOapiSchemaType, with the schema type
    | BadOapiRef(ref: string)         // ErrUtilBadOapiRef
    | BadYaml(problem: YamlProblem)   // ErrParserBadYaml
    | InpathNotExists(path: string)   // ErrCodegenInpathNotExists
    | InpathNotDir(path: string)      // ErrCodegenInpathNotDir
    | ParseDirFailed(dir: string)     // go/parser could not read or parse the directory
    | ReadFailed(path: string)        // ioutil.ReadFile failed
    | YamlSyntax(path: string)        // yaml.Unmarshal failed
    | WriteFailed(path: string)       // ioutil.WriteFile failed
    | TemplateFailed(detail: string)  // text/template execution failed
    | GofmtFailed(detail: string)     // go/format rejected the rendered text
    | Panic(reason: string)           // where the Go program would panic instead of returning
}
