/** The GUI-less PSI client object that model classes call back into: the
    `working` flag its status stubs keep, the registry of schema compilers
    keyed by schema root, and `ppJSON`. What the stubs write to the console
    is returned as the logged line. */
module PsiClient {
  import opened Wrappers
  import opened Json
  import opened PsiQuery
  import opened PsiSchema

  /** The schema root used when `getSchemaCompiler` is given none. */
  const DefaultSchemaRoot: string := "http://poseidon.cecs.anu.edu.au/schema"

  /** `uri || 'http://poseidon.cecs.anu.edu.au/schema'`: a missing or empty
      URI gives the default root; any other is kept. */
  function SchemaRootFor(uri: Option<string>): (root: string)
    ensures root != []
    ensures uri.Some? && uri.value != [] ==> root == uri.value
    ensures uri.None? || uri.value == [] ==> root == DefaultSchemaRoot
  {
    if uri.Some? && uri.value != [] then uri.value else DefaultSchemaRoot
  }

  /** `message ? message : fallback` for an optional string message. */
  function MessageOr(message: Option<string>, fallback: string): (line: string)
    ensures message.Some? && message.value != [] ==> line == message.value
    ensures message.None? || message.value == [] ==> line == fallback
  {
    if message.Some? && message.value != [] then message.value else fallback
  }

  /** `ppJSON(obj)`: a string is returned as it is, anything else is printed
      by `JSON.stringify(obj, null, 2)` (the `stringify` parameter). */
  function PpJSON(obj: JSON, stringify: JSON -> string): (text: string)
    ensures obj.Str? ==> text == obj.s
    ensures !obj.Str? ==> text == stringify(obj)
  {
    match obj
    case Str(s) => s
    case _ => stringify(obj)
  }

  /** The line `showError(message, details)` logs: the message, followed by
      the printed details when they are truthy. */
  function ErrorText(message: string, details: Option<JSON>, stringify: JSON -> string): (line: string)
    ensures !OptTruthy(details) ==> line == message
    ensures OptTruthy(details) ==> line == message + "\nDetails:\n" + PpJSON(details.value, stringify)
  {
    if OptTruthy(details) then message + "\nDetails:\n" + PpJSON(details.value, stringify) else message
  }

  /** The client object. The schema settings, the schema server and the
      codec stand for what `new schema.Compiler(uri)` picks up from its
      module; `prettyPrint` is `JSON.stringify(obj, null, 2)`, the indented
      printing `ppJSON` uses. */
  class Client {
    var working: bool
    var schemaCompilers: map<string, Compiler>
    const settings: SchemaSettings
    const remote: map<string, JSON>
    const codec: Codec
    const prettyPrint: JSON -> string

    /** Every registered compiler uses the root it is registered under. */
    predicate Valid()
      reads this, settings
    {
      settings.Valid() &&
      forall root | root in schemaCompilers :: schemaCompilers[root].schemaURI == root
    }

    /** Not working, and no compiler made yet. */
    constructor(settings: SchemaSettings, remote: map<string, JSON>, codec: Codec, prettyPrint: JSON -> string)
      requires settings.Valid()
      ensures Valid()
      ensures !working && schemaCompilers == map[]
      ensures this.settings == settings && this.remote == remote && this.codec == codec
      ensures this.prettyPrint == prettyPrint
    {
      working := false;
      schemaCompilers := map[];
      this.settings := settings;
      this.remote := remote;
      this.codec := codec;
      this.prettyPrint := prettyPrint;
    }

    /** `startWorking(message)`: the flag goes up; the logged line is the
        message, or "Working". */
    method StartWorking(message: Option<string>) returns (line: string)
      modifies this
      ensures working
      ensures schemaCompilers == old(schemaCompilers)
      ensures line == MessageOr(message, "Working")
    {
      working := true;
      line := MessageOr(message, "Working");
    }

    /** `stopWorking()`. */
    method StopWorking()
      modifies this
      ensures !working
      ensures schemaCompilers == old(schemaCompilers)
    {
      working := false;
    }

    /** `showSuccess(message)`: stops working; logs the message, or
        "Last action successful". */
    method ShowSuccess(message: Option<string>) returns (line: string)
      modifies this
      ensures !working
      ensures schemaCompilers == old(schemaCompilers)
      ensures line == MessageOr(message, "Last action successful")
    {
      StopWorking();
      line := MessageOr(message, "Last action successful");
    }

    /** `showError(message, details)`: stops working; logs the message and
        the printed details. */
    method ShowError(message: string, details: Option<JSON>) returns (line: string)
      modifies this
      ensures !working
      ensures schemaCompilers == old(schemaCompilers)
      ensures line == ErrorText(message, details, prettyPrint)
    {
      StopWorking();
      line := ErrorText(message, details, prettyPrint);
    }

    /** `showMessageDialog(message, title, type)`: stops working and logs the
        message; the title and type are ignored. */
    method ShowMessageDialog(message: string, title: Option<string>, kind: Option<string>) returns (line: string)
      modifies this
      ensures !working
      ensures schemaCompilers == old(schemaCompilers)
      ensures line == message
    {
      StopWorking();
      line := message;
    }

    /** `getSchemaCompiler(uri)`: the compiler registered for the root, made
        (with the default schema version) and registered only when there is
        none yet; other entries are left alone. */
    method GetSchemaCompiler(uri: Option<string>) returns (c: Compiler)
      requires Valid()
      modifies this
      ensures Valid()
      ensures c.schemaURI == SchemaRootFor(uri)
      ensures SchemaRootFor(uri) in old(schemaCompilers) ==>
                c == old(schemaCompilers)[SchemaRootFor(uri)] && schemaCompilers == old(schemaCompilers)
      ensures SchemaRootFor(uri) !in old(schemaCompilers) ==>
                fresh(c) && schemaCompilers == old(schemaCompilers)[SchemaRootFor(uri) := c]
      ensures SchemaRootFor(uri) in schemaCompilers && schemaCompilers[SchemaRootFor(uri)] == c
      ensures working == old(working)
    {
      var root := SchemaRootFor(uri);
      if root !in schemaCompilers {
        var made := new Compiler(root, None, settings, remote, codec);
        schemaCompilers := schemaCompilers[root := made];
      }
      c := schemaCompilers[root];
    }

    /** Asking twice for the same root gives the same compiler, and the
        second request registers nothing. */
    method GetSchemaCompilerTwice(uri: Option<string>) returns (c1: Compiler, c2: Compiler)
      requires Valid()
      modifies this
      ensures Valid()
      ensures c1 == c2 && c2.schemaURI == SchemaRootFor(uri)
      ensures schemaCompilers.Keys == old(schemaCompilers).Keys + {SchemaRootFor(uri)}
    {
      c1 := GetSchemaCompiler(uri);
      ghost var registered := schemaCompilers;
      c2 := GetSchemaCompiler(uri);
      assert schemaCompilers == registered;
    }
  }
}
