/** The placeholder "echo" function that a Create without S3 code deploys:
    the handler string names a file and the function it exports, and the
    generated archive holds that one file. */
module EchoFunction {
  import opened Js

  /** The two halves of a handler string such as "index.handler". */
  datatype HandlerName = HandlerName(fileName: string, functionName: string)

  /** Splits `handler` at its first '.', with `indexOf` and `substring`. */
  function SplitHandler(handler: string): (r: HandlerName)
    ensures '.' in handler ==>
      r.fileName + "." + r.functionName == handler && '.' !in r.fileName
    ensures '.' !in handler ==> r.fileName == "" && r.functionName == handler
  {
    var dotIndex := IndexOf(handler, '.');
    var r := HandlerName(Substring(handler, 0, dotIndex), Substring(handler, dotIndex + 1, |handler|));
    if dotIndex >= 0 then
      assert handler == handler[..dotIndex] + "." + handler[dotIndex + 1..];
      r
    else
      r
  }

  /** A dot-free file name and the first dot fix the split uniquely. */
  lemma {:induction false} DotJoinInjective(f1: string, g1: string, f2: string, g2: string)
    requires '.' !in f1 && '.' !in f2
    requires f1 + "." + g1 == f2 + "." + g2
    ensures f1 == f2 && g1 == g2
  {
    var h := f1 + "." + g1;
    assert |f1| == |f2| by {
      assert h[|f1|] == '.' && (f2 + "." + g2)[|f2|] == '.';
    }
    assert f1 == h[..|f1|] == f2;
    assert g1 == h[|f1| + 1..] == g2;
  }

  /** Joining a dot-free file name and a function name with '.' and splitting
      again gives both back. */
  lemma {:induction false} SplitJoin(fileName: string, functionName: string)
    requires '.' !in fileName
    ensures SplitHandler(fileName + "." + functionName) == HandlerName(fileName, functionName)
  {
    var h := fileName + "." + functionName;
    assert h[|fileName|] == '.';
    var r := SplitHandler(h);
    DotJoinInjective(r.fileName, r.functionName, fileName, functionName);
  }

  /** The first line of the generated source. */
  const Preamble := "'use strict';\n"

  /** The line that exports `name` as the handler function. */
  function ExportLine(name: string): string {
    "exports." + name + " = function(event, context) {\n"
  }

  /** The body that logs the event and succeeds with it. */
  const EchoBody := "   console.log('Event:', JSON.stringify(event));\n   context.succeed(event);\n};"

  /** The export line for `name` starts at position `i` of `src`. */
  ghost predicate ExportsAt(src: string, name: string, i: int) {
    0 <= i <= |src| - |ExportLine(name)| && src[i..i + |ExportLine(name)|] == ExportLine(name)
  }

  /** `src` contains the line that exports a function called `name`. */
  ghost predicate Exports(src: string, name: string) {
    exists i :: ExportsAt(src, name, i)
  }

  /** The generated module: a strict-mode file exporting `exportedName` as a
      function that logs its event and succeeds with it. */
  datatype EchoModule = EchoModule(exportedName: string) {

    /** The source text of the module. */
    function Text(): (src: string)
      ensures Exports(src, exportedName)
    {
      var src := Preamble + ExportLine(exportedName) + EchoBody;
      assert ExportsAt(src, exportedName, |Preamble|);
      src
    }
  }

  /** The text tells which function the module exports. */
  lemma {:induction false} TextInjective(a: EchoModule, b: EchoModule)
    requires a.Text() == b.Text()
    ensures a == b
  {
    var p := |Preamble| + |"exports."|;
    assert |a.exportedName| == |b.exportedName|;
    assert a.exportedName == a.Text()[p..p + |a.exportedName|];
    assert b.exportedName == b.Text()[p..p + |b.exportedName|];
  }

  /** One named file of a zip archive; the compressed bytes are not modelled. */
  datatype Entry = Entry(name: string, file: EchoModule)

  datatype Archive = Archive(entries: seq<Entry>)

  /** The archive built for `handler`: one file, named after the part before
      the first dot plus ".js", exporting the part after it. */
  function CreateEchoFunction(handler: string): (a: Archive)
    ensures |a.entries| == 1
    ensures a.entries[0].name == SplitHandler(handler).fileName + ".js"
    ensures a.entries[0].file.exportedName == SplitHandler(handler).functionName
  {
    var split := SplitHandler(handler);
    Archive([Entry(split.fileName + ".js", EchoModule(split.functionName))])
  }

  /** The one file of the archive exports the part of the handler after the first dot. */
  lemma ArchiveExportsHandler(handler: string)
    ensures Exports(CreateEchoFunction(handler).entries[0].file.Text(), SplitHandler(handler).functionName)
  {
  }

  /** A handler "file.fn" with a dot-free file name yields "file.js" exporting `fn`. */
  lemma EchoArchiveOf(fileName: string, functionName: string)
    requires '.' !in fileName
    ensures CreateEchoFunction(fileName + "." + functionName).entries
         == [Entry(fileName + ".js", EchoModule(functionName))]
  {
    SplitJoin(fileName, functionName);
  }

  /** A handler without a dot yields the file ".js" exporting the whole handler string. */
  lemma EchoArchiveWithoutDot(handler: string)
    requires '.' !in handler
    ensures CreateEchoFunction(handler).entries == [Entry(".js", EchoModule(handler))]
  {
    assert "" + ".js" == ".js";
  }
}
