/** The `Lambda` sub-document of the custom resource's properties: the
    parameter record handed to the function-management API, and the defaults
    a Create fills in when it has no code to deploy from S3. */
module Params {
  import opened Js
  import opened EchoFunction

  /** The default `Handler`, "index.handler": file "index", function "handler". */
  const DefaultFileName := "index"
  const DefaultFunctionName := "handler"
  const DefaultHandler := DefaultFileName + "." + DefaultFunctionName
  const DefaultDescription := "Initial \"echo\" lambda"
  const EchoRuntime := "nodejs"

  /** What the `ZipFile` property holds: an archive generated by
      `CreateEchoFunction`, or whatever the template supplied. */
  datatype ZipFile = Generated(archive: Archive) | Supplied(content: string)

  /** The `Code` property. */
  datatype CodeValue = CodeValue(
    s3Bucket: Option<string>,
    s3Key: Option<string>,
    s3ObjectVersion: Option<string>,
    zipFile: Option<ZipFile>)

  /** The parameter record; `extra` holds every other property (Role,
      MemorySize, Timeout, ...), which the handler passes on untouched. */
  datatype ParamsValue = ParamsValue(
    functionName: Option<string>,
    handler: Option<string>,
    description: Option<string>,
    runtime: Option<string>,
    code: Option<CodeValue>,
    extra: map<string, string>)

  /** No S3 location to deploy from: `Code` or `Code.S3Bucket` is falsy. */
  predicate NeedsEcho(p: ParamsValue) {
    p.code.None? || !Truthy(p.code.value.s3Bucket)
  }

  /** `{ZipFile: <echo archive for handler>}`: only the zip file is set. */
  function EchoCode(handler: string): (c: CodeValue)
    ensures c.s3Bucket.None? && c.s3Key.None? && c.s3ObjectVersion.None?
    ensures c.zipFile == Some(Generated(CreateEchoFunction(handler)))
  {
    CodeValue(None, None, None, Some(Generated(CreateEchoFunction(handler))))
  }

  /** The record after the four assignments of the echo branch. */
  function EchoDefaults(p: ParamsValue): (r: ParamsValue)
    ensures Truthy(p.handler) ==> r.handler == p.handler
    ensures !Truthy(p.handler) ==> r.handler == Some(DefaultHandler)
    ensures Truthy(p.description) ==> r.description == p.description
    ensures !Truthy(p.description) ==> r.description == Some(DefaultDescription)
    ensures r.runtime == Some(EchoRuntime)
    ensures Truthy(r.handler) && r.code == Some(EchoCode(r.handler.value))
    ensures r.functionName == p.functionName && r.extra == p.extra
    ensures NeedsEcho(r)
  {
    var handler := Or(p.handler, DefaultHandler);
    p.(handler := handler,
       code := Some(EchoCode(handler.value)),
       description := Or(p.description, DefaultDescription),
       runtime := Some(EchoRuntime))
  }

  /** The record `createFunction` receives: rewritten when there is no S3
      code, passed on unchanged otherwise. */
  function CreateParams(p: ParamsValue): (r: ParamsValue)
    ensures !NeedsEcho(p) ==> r == p
    ensures NeedsEcho(p) ==> r == EchoDefaults(p)
    ensures r.functionName == p.functionName && r.extra == p.extra
  {
    if NeedsEcho(p) then EchoDefaults(p) else p
  }

  /** Filling in the defaults a second time changes nothing. */
  lemma EchoDefaultsIdempotent(p: ParamsValue)
    ensures EchoDefaults(EchoDefaults(p)) == EchoDefaults(p)
  {
  }

  /** Preparing an already prepared record changes nothing. */
  lemma CreateParamsIdempotent(p: ParamsValue)
    ensures CreateParams(CreateParams(p)) == CreateParams(p)
  {
    if NeedsEcho(p) {
      EchoDefaultsIdempotent(p);
    }
  }

  /** The code generated for a handler "file.fn" with a dot-free file name
      is the zip holding only "file.js", exporting `fn`. */
  lemma EchoCodeOf(fileName: string, functionName: string)
    requires '.' !in fileName
    ensures EchoCode(fileName + "." + functionName).zipFile
         == Some(Generated(Archive([Entry(fileName + ".js", EchoModule(functionName))])))
  {
    EchoArchiveOf(fileName, functionName);
  }

  /** Without a handler of its own, a Create deploys the archive generated
      for "index.handler": the one file "index.js", exporting "handler". */
  lemma DefaultHandlerArchive(p: ParamsValue)
    requires NeedsEcho(p) && !Truthy(p.handler)
    ensures CreateParams(p).handler == Some(DefaultHandler)
    ensures CreateParams(p).code.value.zipFile
         == Some(Generated(Archive([Entry("index.js", EchoModule("handler"))])))
  {
    assert DefaultFileName + ".js" == "index.js";
    EchoCodeOf(DefaultFileName, DefaultFunctionName);
  }

  /** The parameter record as the mutable object the handler rewrites in place. */
  class LambdaParams {
    var functionName: Option<string>
    var handler: Option<string>
    var description: Option<string>
    var runtime: Option<string>
    var code: Option<CodeValue>
    var extra: map<string, string>

    constructor (v: ParamsValue)
      ensures Value() == v
    {
      functionName, handler, description, runtime, code, extra :=
        v.functionName, v.handler, v.description, v.runtime, v.code, v.extra;
    }

    /** The record the object currently holds. */
    function Value(): ParamsValue
      reads this
    {
      ParamsValue(functionName, handler, description, runtime, code, extra)
    }

    /** The echo branch of createLambda: assigns Handler, Code, Description
        and Runtime, in that order. */
    method ApplyEchoDefaults()
      modifies this
      ensures Value() == EchoDefaults(old(Value()))
      ensures functionName == old(functionName) && extra == old(extra)
    {
      handler := Or(handler, DefaultHandler);
      code := Some(EchoCode(handler.value));
      description := Or(description, DefaultDescription);
      runtime := Some(EchoRuntime);
    }
  }
}
