/**
 * The string logic of the project generator cmd/flux/scaffold.go: the
 * type names the Markdown documentation gives schemas, the normalised
 * names of generated controllers, middleware and services, the splice
 * that registers a new controller's routes in routes/main.go, the module
 * name read from go.mod, and the Markdown rendering of an OpenAPI
 * document.  File reads and writes are inputs and outputs here.
 */
module Scaffold {
  import opened Wrappers
  import opened Str
  import opened Sorting
  import opened OpenApi

  // ---------------------------------------------------------- getSchemaType

  /** getSchemaType: the short type description of a schema (None is a nil schema). */
  function SchemaType(s: Option<Schema>): (r: string)
    decreases s
    ensures s.None? ==> r == "unknown"
  {
    match s
    case None => "unknown"
    case Some(sc) =>
      if sc.typ == "array" then
        if sc.items.Some? then "array of " + SchemaType(sc.items) else "array"
      else if sc.typ == "object" then
        if |sc.properties| > 0 then "object"
        else if sc.additionalProperties.Some? then "map[string]" + SchemaType(sc.additionalProperties)
        else "object"
      else if sc.format != "" then sc.typ + " (" + sc.format + ")"
      else sc.typ
  }

  /** How the documentation describes a Go type, read directly off the type. */
  function DocType(t: GoType): string
  {
    match t
    case Basic(k) =>
      if k == String then "string"
      else if IsIntKind(k) then "integer"
      else if IsFloatKind(k) then "number"
      else if k == Bool then "boolean"
      else "unknown"
    case Struct(_) => "object"
    case Slice(e) => var d := DocType(e); if d == "unknown" then "array" else "array of " + d
    case Array(_, e) => var d := DocType(e); if d == "unknown" then "array" else "array of " + d
    case Map(_, v) => var d := DocType(v); if d == "unknown" then "object" else "map[string]" + d
    case Ptr(e) => DocType(e)
    case _ => "unknown"
  }

  /**
   * The schema generator and getSchemaType together describe a Go type as
   * DocType does: unsigned integers, channels, functions and interfaces
   * are "unknown", and a collection of those drops its element type.
   */
  lemma {:induction false} SchemaTypeOfGoType(t: GoType)
    ensures SchemaOf(t).None? <==> DocType(t) == "unknown"
    ensures SchemaType(SchemaOf(t)) == DocType(t)
  {
    match t
    case Basic(k) =>
    case Struct(_) =>
    case Slice(e) =>
      SchemaTypeOfGoType(e);
      assert ("array of " + DocType(e))[0] != "unknown"[0];
    case Array(_, e) =>
      SchemaTypeOfGoType(e);
      assert ("array of " + DocType(e))[0] != "unknown"[0];
    case Map(_, v) =>
      SchemaTypeOfGoType(v);
      assert ("map[string]" + DocType(v))[0] != "unknown"[0];
    case Ptr(e) =>
      SchemaTypeOfGoType(e);
    case Chan(_) =>
    case Func =>
    case Interface =>
  }

  // ---------------------------------------------------------- generated names

  /**
   * The name of a generated controller ("Controller"), middleware
   * ("Middleware") or service ("Service"): the first character
   * upper-cased and the suffix appended unless the name already ends
   * with it.  Go slices name[:1], which panics on an empty name.
   */
  function Normalize(name: string, suffix: string): (r: string)
    requires name != ""
    ensures r != "" && r[0] == Upper(name[0]) && !IsLowerLetter(r[0])
    ensures HasSuffix(r, suffix)
    ensures HasSuffix([Upper(name[0])] + name[1..], suffix) ==> r == [Upper(name[0])] + name[1..]
    ensures !HasSuffix([Upper(name[0])] + name[1..], suffix) ==> r == [Upper(name[0])] + name[1..] + suffix
  {
    var n := [Upper(name[0])] + name[1..];
    if HasSuffix(n, suffix) then n else n + suffix
  }

  /** Normalising a normalised name changes nothing. */
  lemma NormalizeIdempotent(name: string, suffix: string)
    requires name != ""
    ensures Normalize(Normalize(name, suffix), suffix) == Normalize(name, suffix)
  {
    var r := Normalize(name, suffix);
    assert [Upper(r[0])] + r[1..] == r;
  }

  /** A name that already has the suffix and an upper-case start is kept. */
  lemma NormalizeKeeps(name: string, suffix: string)
    requires name != "" && !IsLowerLetter(name[0]) && HasSuffix(name, suffix)
    ensures Normalize(name, suffix) == name
  {
    assert [Upper(name[0])] + name[1..] == name;
  }

  // ----------------------------------------------------- routes/main.go splice

  /** The call a controller's routes are registered with. */
  function RegisterCall(base: string): string
  {
    "Register" + base + "Routes"
  }

  /** The two lines the splice inserts. */
  function RegistrationLines(base: string): string
  {
    "\n\t// Register " + base + " routes\n" + "\t" + RegisterCall(base) + "(app)\n"
  }

  const RoutesMarker: string := "func RegisterAllRoutes"

  const RoutesFileHead: string :=
    "package routes\n\nimport (\n\t\"github.com/Fluxgo/flux/pkg/flux\"\n)\n\n"
    + "// RegisterAllRoutes registers all application routes\n"
    + "func RegisterAllRoutes(app *flux.Application) {\n"

  /** The routes file written when there is none: RegisterAllRoutes calling only this controller's routes. */
  function FreshRoutes(base: string): (r: string)
    ensures HasPrefix(r, RoutesFileHead)
  {
    RoutesFileHead + "\t// Register " + base + " routes\n" + "\t" + RegisterCall(base) + "(app)\n" + "}\n"
  }

  /**
   * The existing routes file with the registration lines inserted before
   * the first "}" after "func RegisterAllRoutes"; unchanged when the call
   * is already there, when the marker is missing or at index 0, or when no
   * "}" follows it.
   */
  function SpliceRoutes(content: string, base: string): (r: string)
    ensures Contains(content, RegisterCall(base)) ==> r == content
  {
    if Contains(content, RegisterCall(base)) then content
    else
      var fi := IndexOf(content, RoutesMarker);
      if fi > 0 then
        var ci := IndexOf(content[fi..], "}") + fi;
        if ci > fi then content[..ci] + RegistrationLines(base) + content[ci..] else content
      else content
  }

  /** Where the splice inserts, stated by positions: `fi` is the first marker and `ci` the first "}" after it. */
  lemma SpliceRoutesInserts(content: string, base: string, fi: int, ci: int)
    requires !Contains(content, RegisterCall(base))
    requires 0 < fi && OccursAt(content, RoutesMarker, fi)
    requires forall j :: 0 <= j < fi ==> !OccursAt(content, RoutesMarker, j)
    requires fi < ci < |content| && content[ci] == '}'
    requires forall j :: fi <= j < ci ==> content[j] != '}'
    ensures SpliceRoutes(content, base) == content[..ci] + RegistrationLines(base) + content[ci..]
  {
    assert IndexOf(content, RoutesMarker) == fi;
    var rest := content[fi..];
    assert forall j :: 0 <= j < ci - fi ==> rest[j] == content[fi + j];
    FirstCharAt(rest, '}', ci - fi);
    SpliceRoutesAt(content, base, fi, ci);
  }

  lemma SpliceRoutesAt(content: string, base: string, fi: int, ci: int)
    requires !Contains(content, RegisterCall(base))
    requires 0 < fi == IndexOf(content, RoutesMarker) && fi < ci <= |content|
    requires IndexOf(content[fi..], "}") == ci - fi
    ensures SpliceRoutes(content, base) == content[..ci] + RegistrationLines(base) + content[ci..]
  {
  }

  /** Without a marker past index 0 the file is unchanged. */
  lemma SpliceRoutesNoMarker(content: string, base: string)
    requires forall j :: 0 < j ==> !OccursAt(content, RoutesMarker, j)
    ensures SpliceRoutes(content, base) == content
  {
  }

  /** Without a "}" after the marker the file is unchanged. */
  lemma SpliceRoutesNoBrace(content: string, base: string, fi: int)
    requires OccursAt(content, RoutesMarker, fi)
    requires forall j :: 0 <= j < fi ==> !OccursAt(content, RoutesMarker, j)
    requires forall j :: fi <= j < |content| ==> content[j] != '}'
    ensures SpliceRoutes(content, base) == content
  {
    if !Contains(content, RegisterCall(base)) && fi > 0 {
      assert IndexOf(content, RoutesMarker) == fi;
      var rest := content[fi..];
      forall j | 0 <= j
        ensures !OccursAt(rest, "}", j)
      {
        if j + 1 <= |rest| {
          assert rest[j..j + 1] == [content[fi + j]];
        }
      }
    }
  }

  /** A changed file registers the controller's routes. */
  lemma SpliceRoutesRegisters(content: string, base: string)
    ensures SpliceRoutes(content, base) != content ==> Contains(SpliceRoutes(content, base), RegisterCall(base))
  {
    var r := SpliceRoutes(content, base);
    if r != content {
      var fi := IndexOf(content, RoutesMarker);
      var ci := IndexOf(content[fi..], "}") + fi;
      assert r == (content[..ci] + "\n\t// Register " + base + " routes\n" + "\t") + RegisterCall(base) + ("(app)\n" + content[ci..]);
      ContainsInfix(content[..ci] + "\n\t// Register " + base + " routes\n" + "\t", RegisterCall(base), "(app)\n" + content[ci..]);
    }
  }

  /** Splicing twice is splicing once. */
  lemma SpliceRoutesIdempotent(content: string, base: string)
    ensures SpliceRoutes(SpliceRoutes(content, base), base) == SpliceRoutes(content, base)
  {
    SpliceRoutesRegisters(content, base);
  }

  /** The fresh file registers the controller's routes, so a later splice leaves it alone. */
  lemma FreshRoutesRegisters(base: string)
    ensures Contains(FreshRoutes(base), RegisterCall(base))
    ensures SpliceRoutes(FreshRoutes(base), base) == FreshRoutes(base)
  {
    assert FreshRoutes(base) == (RoutesFileHead + "\t// Register " + base + " routes\n" + "\t") + RegisterCall(base) + "(app)\n}\n";
    ContainsInfix(RoutesFileHead + "\t// Register " + base + " routes\n" + "\t", RegisterCall(base), "(app)\n}\n");
  }

  /** What reading routes/main.go gave. */
  datatype RoutesFile = Missing | Unreadable(err: string) | Present(content: string)

  /** The new routes/main.go for a normalised controller name, or the read error. */
  function MainRoutes(file: RoutesFile, name: string): (r: Result<string, string>)
    ensures file.Unreadable? <==> r.Err?
    ensures file.Unreadable? ==> r.error == "failed to read main routes file: " + file.err
    ensures file.Missing? ==> r == Ok(FreshRoutes(TrimSuffix(name, "Controller")))
  {
    var base := TrimSuffix(name, "Controller");
    match file
    case Missing => Ok(FreshRoutes(base))
    case Unreadable(e) => Err("failed to read main routes file: " + e)
    case Present(c) => Ok(SpliceRoutes(c, base))
  }

  /** Generating the same controller again leaves the routes file as the first run wrote it. */
  lemma MainRoutesRerun(file: RoutesFile, name: string)
    requires MainRoutes(file, name).Ok?
    ensures MainRoutes(Present(MainRoutes(file, name).value), name) == MainRoutes(file, name)
  {
    var base := TrimSuffix(name, "Controller");
    if file.Missing? {
      FreshRoutesRegisters(base);
    } else {
      SpliceRoutesIdempotent(file.content, base);
    }
  }

  // ----------------------------------------------------- getCurrentModuleName

  /** getCurrentModuleName: the second field of go.mod's first line when the first is "module", else "app" (also for an unreadable go.mod). */
  function ModuleName(gomod: Option<string>): (r: string)
    ensures gomod.None? ==> r == "app"
    ensures r != "" && forall i :: 0 <= i < |r| ==> !IsSpace(r[i])
  {
    match gomod
    case None => "app"
    case Some(data) =>
      var parts := Fields(BeforeFirst(data, '\n'));
      if |parts| >= 2 && parts[0] == "module" then parts[1] else "app"
  }

  lemma {:induction false} BeforeFirstAppend(a: string, c: char, b: string)
    requires c !in a
    ensures BeforeFirst(a + [c] + b, c) == a
    decreases |a|
  {
    if a != [] {
      assert (a + [c] + b)[1..] == a[1..] + [c] + b;
      BeforeFirstAppend(a[1..], c, b);
    } else {
      assert (a + [c] + b)[0] == c;
    }
  }

  lemma {:induction false} WordAppend(w: string, s: string)
    requires forall i :: 0 <= i < |w| ==> !IsSpace(w[i])
    requires s == [] || IsSpace(s[0])
    ensures Word(w + s) == w
    decreases |w|
  {
    if w != [] {
      assert (w + s)[1..] == w[1..] + s;
      WordAppend(w[1..], s);
    } else {
      assert w + s == s;
    }
  }

  /** The fields of a line holding one word after a space. */
  lemma FieldsOneWord(m: string)
    requires m != "" && forall i :: 0 <= i < |m| ==> !IsSpace(m[i])
    ensures Fields(" " + m) == [m]
  {
    assert (" " + m)[1..] == m;
    assert SkipSpace(" " + m) == SkipSpace(m) == m;
    FieldsWord(m);
  }

  /** The fields of one word alone. */
  lemma FieldsWord(m: string)
    requires m != "" && forall i :: 0 <= i < |m| ==> !IsSpace(m[i])
    requires SkipSpace(m) == m
    ensures Fields(m) == [m]
  {
    WordAppend(m, []);
    assert m + [] == m;
    assert m[|m|..] == [];
  }

  lemma ModuleKeyword()
    ensures forall i :: 0 <= i < |"module"| ==> !IsSpace("module"[i])
  {
    assert "module" == ['m', 'o', 'd', 'u', 'l', 'e'];
  }

  /** The fields of two words separated by a space. */
  lemma FieldsTwoWords(a: string, b: string)
    requires a != "" && forall i :: 0 <= i < |a| ==> !IsSpace(a[i])
    requires b != "" && forall i :: 0 <= i < |b| ==> !IsSpace(b[i])
    ensures Fields(a + " " + b) == [a, b]
  {
    var line := a + " " + b;
    assert line == a + (" " + b);
    assert SkipSpace(line) == line;
    WordAppend(a, " " + b);
    assert line[|a|..] == " " + b;
    FieldsOneWord(b);
  }

  /** A go.mod that starts with "module <m>" names module <m>. */
  lemma ModuleNameOf(m: string, rest: string)
    requires m != "" && forall i :: 0 <= i < |m| ==> !IsSpace(m[i])
    ensures ModuleName(Some("module " + m + "\n" + rest)) == m
  {
    var line := "module " + m;
    assert '\n' !in line by {
      assert forall i :: 0 <= i < |m| ==> m[i] != '\n';
    }
    BeforeFirstAppend(line, '\n', rest);
    assert "module " + m + "\n" + rest == line + ['\n'] + rest;
    ModuleKeyword();
    FieldsTwoWords("module", m);
    assert line == "module" + " " + m;
  }

  // ------------------------------------------------------------ api.md output

  const EndpointsHeading: string := "## Endpoints\n\n"

  /** The document heading: title, description and version. */
  function Header(info: Info): string
  {
    "# API Documentation\n\n" + "## " + info.title + "\n\n" + info.description + "\n\n"
    + "Version: " + info.version + "\n\n" + EndpointsHeading
  }

  /** The request-body lines; the schema tables Go adds after them are left out. */
  function RequestBodyText(body: Option<RequestBody>): string
  {
    if body.None? then "" else "**Request Body:**\n\n" + "Description: " + "\n\n" + "Content Type: application/json\n\n"
  }

  const ResponsesHeader: string :=
    "**Responses:**\n\n" + "| Status Code | Description | Schema |\n" + "| ----------- | ----------- | ------ |\n"

  /** The schema cell of a response: the schema of its first content type, or "No content". */
  ghost function ResponseCell(content: map<string, Schema>): string
  {
    if |content| == 0 then "No content" else SchemaType(Some(content[SortedKeys(content.Keys)[0]]))
  }

  function ResponseRow(code: string, description: string, cell: string): string
  {
    "| " + code + " | " + description + " | " + cell + " |\n"
  }

  /** The rows for the codes `codes`, in that order. */
  ghost function ResponseRows(responses: map<string, Response>, codes: seq<string>): string
    requires forall c :: c in codes ==> c in responses
  {
    if codes == [] then ""
    else
      var c := codes[|codes| - 1];
      ResponseRows(responses, codes[..|codes| - 1]) + ResponseRow(c, responses[c].description, ResponseCell(responses[c].content))
  }

  /** An endpoint's heading, empty description, request body lines and the responses table header. */
  function OperationHead(verb: string, path: string, op: Operation): string
  {
    "### " + verb + " " + path + "\n\n" + "**Description:** " + "\n\n" + RequestBodyText(op.requestBody) + ResponsesHeader
  }

  const EndpointRule: string := "\n---\n\n"

  /** One endpoint: heading, description, request body, the responses by sorted code, and a rule. */
  ghost function OperationText(verb: string, path: string, op: Operation): string
  {
    OperationHead(verb, path, op) + ResponseRows(op.responses, SortedKeys(op.responses.Keys)) + EndpointRule
  }

  /** The path item's operations in the fixed order GET, POST, PUT, DELETE, PATCH. */
  function Verbs(item: PathItem): (r: seq<(string, Option<Operation>)>)
    ensures |r| == 5
  {
    [("GET", item.get), ("POST", item.post), ("PUT", item.put), ("DELETE", item.delete), ("PATCH", item.patch)]
  }

  /** The endpoints of one path for the verbs `ops`, skipping absent operations. */
  ghost function OperationsText(path: string, ops: seq<(string, Option<Operation>)>): string
  {
    if ops == [] then ""
    else
      var (verb, op) := ops[|ops| - 1];
      OperationsText(path, ops[..|ops| - 1]) + (if op.None? then "" else OperationText(verb, path, op.value))
  }

  /** The endpoints of the paths `keys`, in that order. */
  ghost function EndpointsText(paths: map<string, PathItem>, keys: seq<string>): string
    requires forall p :: p in keys ==> p in paths
  {
    if keys == [] then ""
    else
      var p := keys[|keys| - 1];
      EndpointsText(paths, keys[..|keys| - 1]) + OperationsText(p, Verbs(paths[p]))
  }

  const PropertiesHeader: string :=
    "| Property | Type | Description | Required |\n" + "| -------- | ---- | ----------- | -------- |\n"

  function BoolText(b: bool): string { if b then "true" else "false" }

  /** A property row: name, type, an empty description, and whether the schema requires it. */
  function PropertyRow(name: string, prop: Schema, required: seq<string>): string
  {
    "| " + name + " | " + SchemaType(Some(prop)) + " |  | " + BoolText(name in required) + " |\n"
  }

  ghost function PropertyRows(schema: Schema, names: seq<string>): string
    requires forall n :: n in names ==> n in schema.properties
  {
    if names == [] then ""
    else
      var n := names[|names| - 1];
      PropertyRows(schema, names[..|names| - 1]) + PropertyRow(n, schema.properties[n], schema.required)
  }

  /** A model's property table by sorted name; empty without properties. */
  ghost function PropertiesTable(schema: Schema): string
  {
    if |schema.properties| > 0
    then PropertiesHeader + PropertyRows(schema, SortedKeys(schema.properties.Keys)) + "\n"
    else ""
  }

  /** A model: its heading and, when it has properties, their table. */
  ghost function ModelText(name: string, schema: Schema): string
  {
    "### " + name + "\n\n" + PropertiesTable(schema)
  }

  ghost function ModelsText(schemas: map<string, Schema>, names: seq<string>): string
    requires forall n :: n in names ==> n in schemas
  {
    if names == [] then ""
    else
      var n := names[|names| - 1];
      ModelsText(schemas, names[..|names| - 1]) + ModelText(n, schemas[n])
  }

  lemma OperationsTextStep(path: string, ops: seq<(string, Option<Operation>)>, j: int)
    requires 0 <= j < |ops|
    ensures OperationsText(path, ops[..j + 1]) ==
      OperationsText(path, ops[..j]) + (if ops[j].1.None? then "" else OperationText(ops[j].0, path, ops[j].1.value))
  {
    TakeStep(ops, j);
  }

  lemma ModelsTextStep(schemas: map<string, Schema>, names: seq<string>, k: int)
    requires forall n :: n in names ==> n in schemas
    requires 0 <= k < |names|
    ensures ModelsText(schemas, names[..k + 1]) == ModelsText(schemas, names[..k]) + ModelText(names[k], schemas[names[k]])
  {
    TakeStep(names, k);
  }

  lemma EndpointsTextStep(paths: map<string, PathItem>, keys: seq<string>, i: int)
    requires forall p :: p in keys ==> p in paths
    requires 0 <= i < |keys|
    ensures EndpointsText(paths, keys[..i + 1]) == EndpointsText(paths, keys[..i]) + OperationsText(keys[i], Verbs(paths[keys[i]]))
  {
    TakeStep(keys, i);
  }

  /** The Models section: absent without schemas, else every model by sorted name. */
  ghost function ModelsSection(schemas: map<string, Schema>): string
  {
    if |schemas| == 0 then "" else "## Models\n\n" + ModelsText(schemas, SortedKeys(schemas.Keys))
  }

  /** api.md for a document: the heading, the endpoints by sorted path, then the models. */
  ghost function Markdown(doc: Document): string
  {
    Header(doc.info) + EndpointsText(doc.paths, SortedKeys(doc.paths.Keys)) + ModelsSection(doc.schemas)
  }

  /** The schema cell, from the content types collected and sorted. */
  method WriteResponseCell(content: map<string, Schema>) returns (cell: string)
    ensures cell == ResponseCell(content)
  {
    cell := "No content";
    if |content| > 0 {
      var types := SortedKeysOf(content.Keys);
      cell := SchemaType(Some(content[types[0]]));
    }
  }

  /** The response rows by sorted code. */
  method WriteResponseRows(responses: map<string, Response>) returns (rows: string)
    ensures rows == ResponseRows(responses, SortedKeys(responses.Keys))
  {
    rows := "";
    var codes := SortedKeysOf(responses.Keys);
    var i := 0;
    while i < |codes|
      invariant 0 <= i <= |codes|
      invariant rows == ResponseRows(responses, codes[..i])
    {
      var response := responses[codes[i]];
      var schemaType := WriteResponseCell(response.content);
      TakeStep(codes, i);
      rows := rows + ResponseRow(codes[i], response.description, schemaType);
      i := i + 1;
    }
    assert codes[..|codes|] == codes;
  }

  /** The text for one operation. */
  method WriteOperation(verb: string, path: string, op: Operation) returns (text: string)
    ensures text == OperationText(verb, path, op)
  {
    var rows := WriteResponseRows(op.responses);
    text := OperationHead(verb, path, op) + rows + EndpointRule;
  }

  /** The property rows by sorted name. */
  method WritePropertyRows(schema: Schema) returns (rows: string)
    ensures rows == PropertyRows(schema, SortedKeys(schema.properties.Keys))
  {
    rows := "";
    var propNames := SortedKeysOf(schema.properties.Keys);
    var i := 0;
    while i < |propNames|
      invariant 0 <= i <= |propNames|
      invariant rows == PropertyRows(schema, propNames[..i])
    {
      TakeStep(propNames, i);
      rows := rows + PropertyRow(propNames[i], schema.properties[propNames[i]], schema.required);
      i := i + 1;
    }
    assert propNames[..|propNames|] == propNames;
  }

  /** The text for one model. */
  method WriteModel(name: string, schema: Schema) returns (text: string)
    ensures text == ModelText(name, schema)
  {
    var table := "";
    if |schema.properties| > 0 {
      var rows := WritePropertyRows(schema);
      table := PropertiesHeader + rows + "\n";
    }
    text := "### " + name + "\n\n" + table;
  }

  /** One verb's endpoint, or nothing when the path item lacks that operation. */
  method WriteVerb(path: string, verbOp: (string, Option<Operation>)) returns (part: string)
    ensures part == if verbOp.1.None? then "" else OperationText(verbOp.0, path, verbOp.1.value)
  {
    part := "";
    if verbOp.1.Some? {
      part := WriteOperation(verbOp.0, path, verbOp.1.value);
    }
  }

  /** The endpoints of one path in the fixed verb order. */
  method WritePath(path: string, item: PathItem) returns (text: string)
    ensures text == OperationsText(path, Verbs(item))
  {
    var ops := Verbs(item);
    text := "";
    var j := 0;
    while j < |ops|
      invariant 0 <= j <= |ops|
      invariant text == OperationsText(path, ops[..j])
    {
      OperationsTextStep(path, ops, j);
      var part := WriteVerb(path, ops[j]);
      text := text + part;
      j := j + 1;
    }
    assert ops[..|ops|] == ops;
  }

  /** The endpoints of every path by sorted path. */
  method WriteEndpoints(paths: map<string, PathItem>) returns (text: string)
    ensures text == EndpointsText(paths, SortedKeys(paths.Keys))
  {
    text := "";
    var keys := SortedKeysOf(paths.Keys);
    var i := 0;
    while i < |keys|
      invariant 0 <= i <= |keys|
      invariant text == EndpointsText(paths, keys[..i])
    {
      EndpointsTextStep(paths, keys, i);
      var part := WritePath(keys[i], paths[keys[i]]);
      text := text + part;
      i := i + 1;
    }
    assert keys[..|keys|] == keys;
  }

  /** The models named by `names`, in that order. */
  method WriteModelList(schemas: map<string, Schema>, names: seq<string>) returns (models: string)
    requires forall n :: n in names ==> n in schemas
    ensures models == ModelsText(schemas, names)
  {
    models := "";
    var k := 0;
    while k < |names|
      invariant 0 <= k <= |names|
      invariant models == ModelsText(schemas, names[..k])
    {
      ModelsTextStep(schemas, names, k);
      var part := WriteModel(names[k], schemas[names[k]]);
      models := models + part;
      k := k + 1;
    }
    assert names[..|names|] == names;
  }

  /** The Models section: a heading and the models by sorted name, or nothing without models. */
  method WriteModels(schemas: map<string, Schema>) returns (text: string)
    ensures text == ModelsSection(schemas)
  {
    text := "";
    if |schemas| > 0 {
      var names := SortedKeysOf(schemas.Keys);
      var models := WriteModelList(schemas, names);
      text := "## Models\n\n" + models;
    }
  }

  /** generateMarkdownDocumentation. */
  method GenerateMarkdown(doc: Document) returns (md: string)
    ensures md == Markdown(doc)
  {
    var endpoints := WriteEndpoints(doc.paths);
    var models := WriteModels(doc.schemas);
    md := Header(doc.info) + endpoints + models;
  }
}
