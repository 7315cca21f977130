/**
 * The OpenAPI document builder of pkg/forge/openapi.go: Schema Objects
 * (OpenAPI Specification 3.0.0, section 4.7.24) generated from Go types,
 * the verb annotations read off method names, and the assembly of the
 * document's paths.
 *
 * A reflected Go type is an inductive datatype, so the schema recursion
 * terminates by construction.  A reflected method is its name, its package
 * path (empty for exported methods) and the types of its inputs, receiver
 * first.
 */
module OpenApi {
  import opened Wrappers
  import opened Str

  // ------------------------------------------------------------ Go types

  datatype Kind =
    | Bool | Int | Int8 | Int16 | Int32 | Int64
    | Uint | Uint8 | Uint16 | Uint32 | Uint64 | Uintptr
    | Float32 | Float64 | Complex64 | Complex128
    | String | UnsafePointer

  /** One struct field: its Go name, the text of its `json` tag ("" when absent) and its type. */
  datatype Field = Field(name: string, tag: string, typ: GoType)

  datatype GoType =
    | Basic(kind: Kind)
    | Struct(fields: seq<Field>)
    | Slice(elem: GoType)
    | Array(length: nat, elem: GoType)
    | Map(key: GoType, value: GoType)
    | Ptr(elem: GoType)
    | Chan(elem: GoType)
    | Func
    | Interface

  /** A Schema Object, with the fields the generator sets. */
  datatype Schema = Schema(
    typ: string,
    format: string,
    properties: map<string, Schema>,
    items: Option<Schema>,
    required: seq<string>,
    additionalProperties: Option<Schema>)

  function TypeOnly(typ: string): Schema
  {
    Schema(typ, "", map[], None, [], None)
  }

  predicate IsIntKind(k: Kind) { k == Int || k == Int8 || k == Int16 || k == Int32 || k == Int64 }
  predicate IsFloatKind(k: Kind) { k == Float32 || k == Float64 }

  // ----------------------------------------------------- schema generation

  /** The property name: the tag text before the first comma, or the field's Go name when that is empty. */
  function FieldName(f: Field): (r: string)
    ensures r != [] || f.name == []
    ensures BeforeFirst(f.tag, ',') != [] ==> r == BeforeFirst(f.tag, ',')
  {
    var name := BeforeFirst(f.tag, ',');
    if name == "" then f.name else name
  }

  /** generateSchemaFromType on a non-nil type; None stands for a nil schema. */
  function SchemaOf(t: GoType): (r: Option<Schema>)
    decreases t, 1
    ensures t.Basic? && t.kind == String ==> r == Some(TypeOnly("string"))
    ensures t.Basic? && IsIntKind(t.kind) ==> r == Some(TypeOnly("integer"))
    ensures t.Basic? && IsFloatKind(t.kind) ==> r == Some(TypeOnly("number"))
    ensures t.Basic? && t.kind == Bool ==> r == Some(TypeOnly("boolean"))
    ensures t.Struct? ==> r.Some? && r.value.typ == "object" && r.value.items == None && r.value.additionalProperties == None
    ensures t.Slice? || t.Array? ==> r == Some(TypeOnly("array").(items := SchemaOf(t.elem)))
    ensures t.Map? ==> r == Some(TypeOnly("object").(additionalProperties := SchemaOf(t.value)))
    ensures t.Ptr? ==> r == SchemaOf(t.elem)
  {
    match t
    case Basic(k) =>
      if k == String then Some(TypeOnly("string"))
      else if IsIntKind(k) then Some(TypeOnly("integer"))
      else if IsFloatKind(k) then Some(TypeOnly("number"))
      else if k == Bool then Some(TypeOnly("boolean"))
      else None
    case Struct(fields) =>
      var (props, req) := FieldsSchema(t, |fields|);
      Some(Schema("object", "", props, None, req, None))
    case Slice(e) => Some(TypeOnly("array").(items := SchemaOf(e)))
    case Array(_, e) => Some(TypeOnly("array").(items := SchemaOf(e)))
    case Map(_, v) => Some(TypeOnly("object").(additionalProperties := SchemaOf(v)))
    case Ptr(e) => SchemaOf(e)
    case _ => None
  }

  /** A field that enters the schema: not tagged "-" and with a non-nil schema. */
  predicate Included(f: Field)
  {
    f.tag != "-" && SchemaOf(f.typ).Some?
  }

  /** An included field is required unless its tag mentions "omitempty". */
  predicate RequiredField(f: Field)
  {
    Included(f) && !Contains(f.tag, "omitempty")
  }

  /** The Properties map and the Required list after the first `n` fields of a struct. */
  function FieldsSchema(t: GoType, n: nat): (r: (map<string, Schema>, seq<string>))
    requires t.Struct? && n <= |t.fields|
    decreases t, 0, n
  {
    if n == 0 then (map[], [])
    else
      var (props, req) := FieldsSchema(t, n - 1);
      var f := t.fields[n - 1];
      assert f in t.fields;
      if f.tag == "-" then (props, req)
      else
        match SchemaOf(f.typ)
        case None => (props, req)
        case Some(fs) =>
          (props[FieldName(f) := fs], if Contains(f.tag, "omitempty") then req else req + [FieldName(f)])
  }

  /** Some of the first `n` fields is included under `name`. */
  predicate SomeIncluded(t: GoType, n: nat, name: string)
    requires t.Struct? && n <= |t.fields|
  {
    exists i :: 0 <= i < n && Included(t.fields[i]) && FieldName(t.fields[i]) == name
  }

  /** Some of the first `n` fields is required under `name`. */
  predicate SomeRequired(t: GoType, n: nat, name: string)
    requires t.Struct? && n <= |t.fields|
  {
    exists i :: 0 <= i < n && RequiredField(t.fields[i]) && FieldName(t.fields[i]) == name
  }

  /** What one more field adds to the Properties map and the Required list. */
  lemma FieldsSchemaStep(t: GoType, n: nat, name: string)
    requires t.Struct? && 0 < n <= |t.fields|
    ensures var f := t.fields[n - 1];
      && (name in FieldsSchema(t, n).0 <==> name in FieldsSchema(t, n - 1).0 || (Included(f) && FieldName(f) == name))
      && (name in FieldsSchema(t, n).1 <==> name in FieldsSchema(t, n - 1).1 || (RequiredField(f) && FieldName(f) == name))
  {
  }

  lemma SomeIncludedSnoc(t: GoType, n: nat, name: string)
    requires t.Struct? && 0 < n <= |t.fields|
    ensures SomeIncluded(t, n, name)
      <==> (SomeIncluded(t, n - 1, name) || (Included(t.fields[n - 1]) && FieldName(t.fields[n - 1]) == name))
  {
    var f := (fl: Field) => Included(fl) && FieldName(fl) == name;
    SomeBelowSnoc(t.fields, n, f);
    assert SomeIncluded(t, n, name) <==> exists i :: 0 <= i < n && f(t.fields[i]);
    assert SomeIncluded(t, n - 1, name) <==> exists i :: 0 <= i < n - 1 && f(t.fields[i]);
  }

  lemma SomeRequiredSnoc(t: GoType, n: nat, name: string)
    requires t.Struct? && 0 < n <= |t.fields|
    ensures SomeRequired(t, n, name)
      <==> (SomeRequired(t, n - 1, name) || (RequiredField(t.fields[n - 1]) && FieldName(t.fields[n - 1]) == name))
  {
    var f := (fl: Field) => RequiredField(fl) && FieldName(fl) == name;
    SomeBelowSnoc(t.fields, n, f);
    assert SomeRequired(t, n, name) <==> exists i :: 0 <= i < n && f(t.fields[i]);
    assert SomeRequired(t, n - 1, name) <==> exists i :: 0 <= i < n - 1 && f(t.fields[i]);
  }

  /** A name is a property exactly when some included field has it. */
  lemma FieldsSchemaProperties(t: GoType, n: nat, name: string)
    requires t.Struct? && n <= |t.fields|
    ensures name in FieldsSchema(t, n).0 <==> exists i :: 0 <= i < n && Included(t.fields[i]) && FieldName(t.fields[i]) == name
  {
    FieldsIncludedNames(t, n, name);
  }

  lemma {:induction false} FieldsIncludedNames(t: GoType, n: nat, name: string)
    requires t.Struct? && n <= |t.fields|
    ensures name in FieldsSchema(t, n).0 <==> SomeIncluded(t, n, name)
    decreases n
  {
    if n > 0 {
      FieldsIncludedNames(t, n - 1, name);
      FieldsSchemaStep(t, n, name);
      SomeIncludedSnoc(t, n, name);
      var f := t.fields[n - 1];
      StepIff(name in FieldsSchema(t, n).0, name in FieldsSchema(t, n - 1).0,
        SomeIncluded(t, n - 1, name), SomeIncluded(t, n, name), Included(f) && FieldName(f) == name);
    }
  }

  /**
   * A name is required exactly when some required field has it, and it is
   * then a property too; the list has at most one name per field, in
   * declaration order.
   */
  lemma FieldsSchemaRequired(t: GoType, n: nat, name: string)
    requires t.Struct? && n <= |t.fields|
    ensures name in FieldsSchema(t, n).1 <==> exists i :: 0 <= i < n && RequiredField(t.fields[i]) && FieldName(t.fields[i]) == name
    ensures name in FieldsSchema(t, n).1 ==> name in FieldsSchema(t, n).0
    ensures |FieldsSchema(t, n).1| <= n
  {
    FieldsRequiredNames(t, n, name);
    FieldsRequiredProperties(t, n, name);
  }

  lemma {:induction false} FieldsRequiredNames(t: GoType, n: nat, name: string)
    requires t.Struct? && n <= |t.fields|
    ensures name in FieldsSchema(t, n).1 <==> SomeRequired(t, n, name)
    decreases n
  {
    if n > 0 {
      FieldsRequiredNames(t, n - 1, name);
      FieldsSchemaStep(t, n, name);
      SomeRequiredSnoc(t, n, name);
      var f := t.fields[n - 1];
      StepIff(name in FieldsSchema(t, n).1, name in FieldsSchema(t, n - 1).1,
        SomeRequired(t, n - 1, name), SomeRequired(t, n, name), RequiredField(f) && FieldName(f) == name);
    }
  }

  lemma {:induction false} FieldsRequiredProperties(t: GoType, n: nat, name: string)
    requires t.Struct? && n <= |t.fields|
    ensures name in FieldsSchema(t, n).1 ==> name in FieldsSchema(t, n).0
    ensures |FieldsSchema(t, n).1| <= n
    decreases n
  {
    if n > 0 {
      FieldsRequiredProperties(t, n - 1, name);
    }
  }

  /** Some of the first `n` elements satisfies `f`: one of the first n - 1, or element n - 1. */
  lemma SomeBelowSnoc<T>(xs: seq<T>, n: nat, f: T -> bool)
    requires 0 < n <= |xs|
    ensures (exists i :: 0 <= i < n && f(xs[i])) <==> ((exists i :: 0 <= i < n - 1 && f(xs[i])) || f(xs[n - 1]))
  {
    if exists i :: 0 <= i < n && f(xs[i]) {
      var i :| 0 <= i < n && f(xs[i]);
      if i < n - 1 {
        assert exists i :: 0 <= i < n - 1 && f(xs[i]);
      }
    }
  }

  /** The schema a property gets is the one of the last included field with that name. */
  lemma {:induction false} FieldsSchemaLastWins(t: GoType, n: nat, i: nat)
    requires t.Struct? && i < n <= |t.fields|
    requires Included(t.fields[i])
    requires forall j :: i < j < n ==> !Included(t.fields[j]) || FieldName(t.fields[j]) != FieldName(t.fields[i])
    ensures var props := FieldsSchema(t, n).0;
      FieldName(t.fields[i]) in props && props[FieldName(t.fields[i])] == SchemaOf(t.fields[i].typ).value
    decreases n
  {
    if n - 1 > i {
      FieldsSchemaLastWins(t, n - 1, i);
    }
  }

  /** The Go types the generator describes: every other kind gives a nil schema. */
  predicate Described(t: GoType)
  {
    match t
    case Basic(k) => k == String || IsIntKind(k) || IsFloatKind(k) || k == Bool
    case Struct(_) => true
    case Slice(_) => true
    case Array(_, _) => true
    case Map(_, _) => true
    case Ptr(e) => Described(e)
    case _ => false
  }

  lemma {:induction false} SchemaOfDescribed(t: GoType)
    ensures SchemaOf(t).Some? <==> Described(t)
  {
    if t.Ptr? {
      SchemaOfDescribed(t.elem);
    }
  }

  /** generateSchemaFromType with its field loop; the nil type gives a nil schema. */
  method GenerateSchemaFromType(t: Option<GoType>) returns (r: Option<Schema>)
    ensures t.None? ==> r.None?
    ensures t.Some? ==> r == SchemaOf(t.value)
  {
    if t.None? {
      return None;
    }
    r := GenerateSchema(t.value);
  }

  method GenerateSchema(t: GoType) returns (r: Option<Schema>)
    ensures r == SchemaOf(t)
    decreases t
  {
    match t
    case Basic(k) =>
      if k == String {
        r := Some(TypeOnly("string"));
      } else if IsIntKind(k) {
        r := Some(TypeOnly("integer"));
      } else if IsFloatKind(k) {
        r := Some(TypeOnly("number"));
      } else if k == Bool {
        r := Some(TypeOnly("boolean"));
      } else {
        r := None;
      }
    case Struct(fields) =>
      var props: map<string, Schema> := map[];
      var req: seq<string> := [];
      var i := 0;
      while i < |fields|
        invariant 0 <= i <= |fields|
        invariant (props, req) == FieldsSchema(t, i)
      {
        var f := fields[i];
        assert f in fields;
        if f.tag != "-" {
          var name := BeforeFirst(f.tag, ',');
          if name == "" {
            name := f.name;
          }
          var fs := GenerateSchema(f.typ);
          if fs.Some? {
            props := props[name := fs.value];
            if !Contains(f.tag, "omitempty") {
              req := req + [name];
            }
          }
        }
        i := i + 1;
      }
      r := Some(Schema("object", "", props, None, req, None));
    case Slice(e) =>
      var items := GenerateSchema(e);
      r := Some(TypeOnly("array").(items := items));
    case Array(_, e) =>
      var items := GenerateSchema(e);
      r := Some(TypeOnly("array").(items := items));
    case Map(_, v) =>
      var ap := GenerateSchema(v);
      r := Some(TypeOnly("object").(additionalProperties := ap));
    case Ptr(e) =>
      r := GenerateSchema(e);
    case Chan(_) =>
      r := None;
    case Func =>
      r := None;
    case Interface =>
      r := None;
  }

  // ------------------------------------------------------------ annotations

  /** The verbs the document generator looks for, in this order. */
  const DocVerbs: seq<string> := ["Get", "Post", "Put", "Delete", "Patch"]

  /** The annotations after looking at the first `n` verbs: those prefixing the method name, in order. */
  function AnnotationsUpTo(methodName: string, n: nat): (r: seq<string>)
    requires n <= |DocVerbs|
    ensures forall a :: a in r ==> a in DocVerbs && HasPrefix(methodName, a)
    ensures r == [] <==> forall i :: 0 <= i < n ==> !HasPrefix(methodName, DocVerbs[i])
  {
    if n == 0 then []
    else AnnotationsUpTo(methodName, n - 1) + (if HasPrefix(methodName, DocVerbs[n - 1]) then [DocVerbs[n - 1]] else [])
  }

  function Annotations(methodName: string): seq<string>
  {
    AnnotationsUpTo(methodName, |DocVerbs|)
  }

  /** getMethodAnnotations with its loop. */
  method GetMethodAnnotations(methodName: string) returns (annotations: seq<string>)
    ensures annotations == Annotations(methodName)
  {
    annotations := [];
    var i := 0;
    while i < |DocVerbs|
      invariant 0 <= i <= |DocVerbs|
      invariant annotations == AnnotationsUpTo(methodName, i)
    {
      if HasPrefix(methodName, DocVerbs[i]) {
        annotations := annotations + [DocVerbs[i]];
      }
      i := i + 1;
    }
  }

  /** No two of the verbs can prefix the same name: their first two letters already differ. */
  lemma DocVerbsExclusive(methodName: string, i: int, j: int)
    requires 0 <= i < j < |DocVerbs|
    ensures !(HasPrefix(methodName, DocVerbs[i]) && HasPrefix(methodName, DocVerbs[j]))
  {
    if i == 0 {
      assert DocVerbs[j][0] != 'G';
    } else if i == 1 {
      assert DocVerbs[j][1] != 'o';
    } else if i == 2 {
      assert DocVerbs[j][1] != 'u';
    } else {
      assert DocVerbs[j][0] != 'D';
    }
    assert HasPrefix(methodName, DocVerbs[i]) ==> methodName[0] == DocVerbs[i][0] && methodName[1] == DocVerbs[i][1];
    assert HasPrefix(methodName, DocVerbs[j]) ==> methodName[0] == DocVerbs[j][0] && methodName[1] == DocVerbs[j][1];
  }

  /** getMethodAnnotations returns at most one verb. */
  lemma {:induction false} AtMostOneAnnotation(methodName: string, n: nat)
    requires n <= |DocVerbs|
    ensures |AnnotationsUpTo(methodName, n)| <= 1
    decreases n
  {
    if n > 0 {
      AtMostOneAnnotation(methodName, n - 1);
      if HasPrefix(methodName, DocVerbs[n - 1]) {
        forall i | 0 <= i < n - 1
          ensures !HasPrefix(methodName, DocVerbs[i])
        {
          DocVerbsExclusive(methodName, i, n - 1);
        }
      }
    }
  }

  /** A reflected method: its name, its package path ("" when exported) and its input types, receiver first. */
  datatype MethodInfo = MethodInfo(name: string, pkgPath: string, inputs: seq<GoType>)

  /** The first annotation whose upper-cased form is not empty, upper-cased; "" when there is none. */
  function FirstUpper(annotations: seq<string>): (r: string)
    ensures r != "" ==> exists k :: 0 <= k < |annotations| && r == ToUpper(annotations[k])
    ensures annotations != [] && annotations[0] != "" ==> r == ToUpper(annotations[0])
  {
    if annotations == [] then ""
    else if ToUpper(annotations[0]) != "" then ToUpper(annotations[0])
    else FirstUpper(annotations[1..])
  }

  /** getHTTPMethodFromAnnotations: "" for an unexported method, else the first non-empty annotation upper-cased. */
  function HttpMethodOf(m: MethodInfo): string
  {
    if m.pkgPath != "" then "" else FirstUpper(Annotations(m.name))
  }

  /** getHTTPMethodFromAnnotations with its loop over the annotations. */
  method GetHTTPMethodFromAnnotations(m: MethodInfo) returns (r: string)
    ensures r == HttpMethodOf(m)
  {
    if m.pkgPath != "" {
      return "";
    }
    var annotations := GetMethodAnnotations(m.name);
    var i := 0;
    while i < |annotations|
      invariant 0 <= i <= |annotations|
      invariant FirstUpper(annotations[i..]) == FirstUpper(annotations)
    {
      var httpMethod := ToUpper(annotations[i]);
      if httpMethod != "" {
        return httpMethod;
      }
      assert annotations[i..][1..] == annotations[i + 1..];
      i := i + 1;
    }
    return "";
  }

  /** The document verb is "" or one of the five upper-case verbs with a PathItem slot. */
  lemma HttpMethodShape(m: MethodInfo)
    ensures HttpMethodOf(m) in ["", "GET", "POST", "PUT", "DELETE", "PATCH"]
    ensures HttpMethodOf(m) != "" <==> m.pkgPath == "" && exists i :: 0 <= i < |DocVerbs| && HasPrefix(m.name, DocVerbs[i])
  {
    var a := Annotations(m.name);
    if m.pkgPath == "" && a != [] {
      assert a[0] in DocVerbs;
      assert a[0] != "";
      assert ToUpper("Get") == "GET";
      assert ToUpper("Post") == "POST";
      assert ToUpper("Put") == "PUT";
      assert ToUpper("Delete") == "DELETE";
      assert ToUpper("Patch") == "PATCH";
    }
  }

  /** A handler named by the routing convention ("Handle…") never has a document verb. */
  lemma HandleMethodsSkipped(m: MethodInfo)
    requires HasPrefix(m.name, "Handle")
    ensures HttpMethodOf(m) == ""
  {
    forall i | 0 <= i < |DocVerbs|
      ensures !HasPrefix(m.name, DocVerbs[i])
    {
      assert m.name[0] == 'H' && DocVerbs[i][0] != 'H';
    }
  }

  // -------------------------------------------------------------- document

  datatype Info = Info(title: string, description: string, version: string)
  datatype RequestBody = RequestBody(required: bool, content: map<string, Option<Schema>>)
  datatype Response = Response(description: string, content: map<string, Schema>)
  datatype Operation = Operation(
    summary: string,
    operationId: string,
    requestBody: Option<RequestBody>,
    responses: map<string, Response>)
  datatype PathItem = PathItem(get: Option<Operation>, post: Option<Operation>, put: Option<Operation>,
                               delete: Option<Operation>, patch: Option<Operation>)
  datatype SecurityScheme = SecurityScheme(typ: string, description: string, scheme: string, bearerFormat: string)
  datatype Document = Document(
    openapi: string,
    info: Info,
    paths: map<string, PathItem>,
    schemas: map<string, Schema>,
    securitySchemes: map<string, SecurityScheme>)

  /** A controller type as reflection shows it: the type's Name() and its methods. */
  datatype ControllerType = ControllerType(typeName: string, methods: seq<MethodInfo>)

  const EmptyItem: PathItem := PathItem(None, None, None, None, None)

  const BearerAuth: SecurityScheme := SecurityScheme("http", "JWT token for authentication", "bearer", "JWT")

  /** The schema of every "200" response: an object with "success" and "data". */
  const SuccessSchema: Schema :=
    TypeOnly("object").(properties := map["success" := TypeOnly("boolean"), "data" := TypeOnly("object")])

  const SuccessResponse: Response := Response("Successful operation", map["application/json" := SuccessSchema])

  /** getRequestTypeFromMethod: the second declared parameter, In(2), when there is one. */
  function RequestType(m: MethodInfo): (r: Option<GoType>)
    ensures r.Some? <==> |m.inputs| >= 3
  {
    if |m.inputs| < 3 then None else Some(m.inputs[2])
  }

  function OperationPath(typeName: string, methodName: string): (r: string)
    ensures HasPrefix(r, "/" + ToLower(typeName) + "/")
  {
    "/" + ToLower(typeName) + "/" + ToLower(methodName)
  }

  /** The operation for a method with a document verb. */
  function OperationFor(typeName: string, m: MethodInfo, verb: string): Operation
  {
    var path := OperationPath(typeName, m.name);
    var body :=
      if (verb == "POST" || verb == "PUT" || verb == "PATCH") && RequestType(m).Some? then
        Some(RequestBody(true, map["application/json" := SchemaOf(RequestType(m).value)]))
      else None;
    Operation(verb + " " + path, ToLower(typeName) + "_" + ToLower(m.name), body, map["200" := SuccessResponse])
  }

  /** The verb switch: the operation goes into its verb's slot. */
  function SetOp(item: PathItem, verb: string, op: Operation): (r: PathItem)
  {
    if verb == "GET" then item.(get := Some(op))
    else if verb == "POST" then item.(post := Some(op))
    else if verb == "PUT" then item.(put := Some(op))
    else if verb == "DELETE" then item.(delete := Some(op))
    else if verb == "PATCH" then item.(patch := Some(op))
    else item
  }

  /** The paths after one method: unchanged without a verb, else its operation put into its path's item. */
  function AddMethod(paths: map<string, PathItem>, typeName: string, m: MethodInfo): map<string, PathItem>
  {
    var verb := HttpMethodOf(m);
    if verb == "" then paths
    else
      var path := OperationPath(typeName, m.name);
      var item := if path in paths then paths[path] else EmptyItem;
      paths[path := SetOp(item, verb, OperationFor(typeName, m, verb))]
  }

  function AddMethods(paths: map<string, PathItem>, typeName: string, ms: seq<MethodInfo>): map<string, PathItem>
    decreases |ms|
  {
    if ms == [] then paths
    else AddMethod(AddMethods(paths, typeName, ms[..|ms| - 1]), typeName, ms[|ms| - 1])
  }

  function PathsFor(cs: seq<ControllerType>): map<string, PathItem>
    decreases |cs|
  {
    if cs == [] then map[]
    else AddMethods(PathsFor(cs[..|cs| - 1]), cs[|cs| - 1].typeName, cs[|cs| - 1].methods)
  }

  /** One pass of the inner loop: the method's operation stored under its path. */
  method AddOperation(paths: map<string, PathItem>, typeName: string, m: MethodInfo) returns (r: map<string, PathItem>)
    ensures r == AddMethod(paths, typeName, m)
  {
    r := paths;
    var verb := GetHTTPMethodFromAnnotations(m);
    if verb == "" {
      return;
    }
    var path := "/" + ToLower(typeName) + "/" + ToLower(m.name);
    var body: Option<RequestBody> := None;
    if verb == "POST" || verb == "PUT" || verb == "PATCH" {
      if |m.inputs| >= 3 {
        var schema := GenerateSchemaFromType(Some(m.inputs[2]));
        body := Some(RequestBody(true, map["application/json" := schema]));
      }
    }
    var op := Operation(verb + " " + path, ToLower(typeName) + "_" + ToLower(m.name), body, map["200" := SuccessResponse]);
    assert op == OperationFor(typeName, m, verb);
    var item := EmptyItem;
    if path in r {
      item := r[path];
    }
    if verb == "GET" {
      item := item.(get := Some(op));
    } else if verb == "POST" {
      item := item.(post := Some(op));
    } else if verb == "PUT" {
      item := item.(put := Some(op));
    } else if verb == "DELETE" {
      item := item.(delete := Some(op));
    } else if verb == "PATCH" {
      item := item.(patch := Some(op));
    }
    r := r[path := item];
  }

  /** The inner loop over one controller's methods. */
  method AddController(paths: map<string, PathItem>, c: ControllerType) returns (r: map<string, PathItem>)
    ensures r == AddMethods(paths, c.typeName, c.methods)
  {
    r := paths;
    var j := 0;
    while j < |c.methods|
      invariant 0 <= j <= |c.methods|
      invariant r == AddMethods(paths, c.typeName, c.methods[..j])
    {
      assert c.methods[..j + 1][..j] == c.methods[..j];
      r := AddOperation(r, c.typeName, c.methods[j]);
      j := j + 1;
    }
    assert c.methods[..j] == c.methods;
  }

  /** GenerateOpenAPI with its loops over controllers and methods. */
  method GenerateOpenAPI(info: Info, controllers: seq<ControllerType>) returns (doc: Document)
    ensures doc.openapi == "3.0.0" && doc.info == info && doc.schemas == map[]
    ensures doc.securitySchemes == map["bearerAuth" := BearerAuth]
    ensures doc.paths == PathsFor(controllers)
  {
    var paths: map<string, PathItem> := map[];
    var i := 0;
    while i < |controllers|
      invariant 0 <= i <= |controllers|
      invariant paths == PathsFor(controllers[..i])
    {
      assert controllers[..i + 1][..i] == controllers[..i];
      paths := AddController(paths, controllers[i]);
      i := i + 1;
    }
    assert controllers[..i] == controllers;
    doc := Document("3.0.0", info, paths, map[], map["bearerAuth" := BearerAuth]);
  }

  // ------------------------------------------------------ document lemmas

  /** Putting an operation in a slot leaves the other four slots alone; the slot keeps only the last one. */
  lemma SetOpSlots(item: PathItem, verb: string, a: Operation, b: Operation)
    requires verb in ["GET", "POST", "PUT", "DELETE", "PATCH"]
    ensures SetOp(SetOp(item, verb, a), verb, b) == SetOp(item, verb, b)
    ensures verb != "GET" ==> SetOp(item, verb, a).get == item.get
    ensures verb != "POST" ==> SetOp(item, verb, a).post == item.post
    ensures verb != "PUT" ==> SetOp(item, verb, a).put == item.put
    ensures verb != "DELETE" ==> SetOp(item, verb, a).delete == item.delete
    ensures verb != "PATCH" ==> SetOp(item, verb, a).patch == item.patch
  {
  }

  /** An operation as the generator builds it: a "200" response, and a request body only for POST, PUT or PATCH with a request type. */
  predicate GoodOperation(op: Operation)
  {
    && "200" in op.responses && op.responses["200"] == SuccessResponse
    && (op.requestBody.Some? ==> exists v :: v in ["POST", "PUT", "PATCH"] && HasPrefix(op.summary, v + " "))
  }

  predicate GoodSlot(o: Option<Operation>)
  {
    o.Some? ==> GoodOperation(o.value)
  }

  predicate GoodItem(item: PathItem)
  {
    GoodSlot(item.get) && GoodSlot(item.post) && GoodSlot(item.put) && GoodSlot(item.delete) && GoodSlot(item.patch)
  }

  predicate GoodPaths(paths: map<string, PathItem>)
  {
    forall p :: p in paths ==> GoodItem(paths[p])
  }

  lemma OperationForGood(typeName: string, m: MethodInfo, verb: string)
    ensures GoodOperation(OperationFor(typeName, m, verb))
  {
    var op := OperationFor(typeName, m, verb);
    if op.requestBody.Some? {
      assert HasPrefix(op.summary, verb + " ");
    }
  }

  lemma {:induction false} AddMethodsGood(paths: map<string, PathItem>, typeName: string, ms: seq<MethodInfo>)
    requires GoodPaths(paths)
    ensures GoodPaths(AddMethods(paths, typeName, ms))
    decreases |ms|
  {
    if ms != [] {
      AddMethodsGood(paths, typeName, ms[..|ms| - 1]);
      AddMethodGood(AddMethods(paths, typeName, ms[..|ms| - 1]), typeName, ms[|ms| - 1]);
    }
  }

  lemma AddMethodGood(paths: map<string, PathItem>, typeName: string, m: MethodInfo)
    requires GoodPaths(paths)
    ensures GoodPaths(AddMethod(paths, typeName, m))
  {
    var verb := HttpMethodOf(m);
    if verb != "" {
      var path := OperationPath(typeName, m.name);
      var item := if path in paths then paths[path] else EmptyItem;
      OperationForGood(typeName, m, verb);
      SetOpGood(item, verb, OperationFor(typeName, m, verb));
    }
  }

  lemma SetOpGood(item: PathItem, verb: string, op: Operation)
    requires GoodItem(item) && GoodOperation(op)
    ensures GoodItem(SetOp(item, verb, op))
  {
  }

  /** Every operation in a generated document has the "200" response, and request bodies only on POST, PUT and PATCH. */
  lemma {:induction false} PathsForGood(cs: seq<ControllerType>)
    ensures GoodPaths(PathsFor(cs))
    decreases |cs|
  {
    if cs != [] {
      PathsForGood(cs[..|cs| - 1]);
      AddMethodsGood(PathsFor(cs[..|cs| - 1]), cs[|cs| - 1].typeName, cs[|cs| - 1].methods);
    }
  }

  /** The method has a document verb and its operation lives at path `p`. */
  predicate Contributes(typeName: string, m: MethodInfo, p: string)
  {
    HttpMethodOf(m) != "" && p == OperationPath(typeName, m.name)
  }

  /** The paths a controller's methods contribute: one per method with a document verb. */
  function MethodPaths(typeName: string, ms: seq<MethodInfo>): set<string>
    decreases |ms|
  {
    if ms == [] then {}
    else
      var m := ms[|ms| - 1];
      MethodPaths(typeName, ms[..|ms| - 1]) + (if HttpMethodOf(m) != "" then {OperationPath(typeName, m.name)} else {})
  }

  /** Some method of the list contributes path `p`. */
  predicate SomeMethodContributes(typeName: string, ms: seq<MethodInfo>, p: string)
  {
    exists i :: 0 <= i < |ms| && Contributes(typeName, ms[i], p)
  }

  /** A path is contributed exactly when some method with a document verb has it. */
  lemma {:induction false} MethodPathsSpec(typeName: string, ms: seq<MethodInfo>, p: string)
    ensures p in MethodPaths(typeName, ms) <==> SomeMethodContributes(typeName, ms, p)
    decreases |ms|
  {
    if ms != [] {
      var init, last := ms[..|ms| - 1], ms[|ms| - 1];
      MethodPathsSpec(typeName, init, p);
      MethodPathsStep(typeName, ms, p);
      SomeContributesSnoc(typeName, ms, init, last, p);
      StepIff(p in MethodPaths(typeName, ms), p in MethodPaths(typeName, init),
        SomeMethodContributes(typeName, init, p), SomeMethodContributes(typeName, ms, p), Contributes(typeName, last, p));
    }
  }

  /** An inductive step of an if-and-only-if: both sides grow by the same alternative. */
  lemma StepIff(whole: bool, part: bool, somePart: bool, someWhole: bool, next: bool)
    requires whole <==> part || next
    requires part <==> somePart
    requires someWhole <==> somePart || next
    ensures whole <==> someWhole
  {
  }

  /** Some method of a non-empty list contributes `p`: one of the earlier ones, or the last. */
  lemma SomeContributesSnoc(typeName: string, ms: seq<MethodInfo>, init: seq<MethodInfo>, last: MethodInfo, p: string)
    requires ms != [] && init == ms[..|ms| - 1] && last == ms[|ms| - 1]
    ensures SomeMethodContributes(typeName, ms, p)
      <==> (SomeMethodContributes(typeName, init, p) || Contributes(typeName, last, p))
  {
    var f := (m: MethodInfo) => Contributes(typeName, m, p);
    SomeSnoc(ms, init, f);
    assert SomeMethodContributes(typeName, ms, p) <==> (exists i :: 0 <= i < |ms| && f(ms[i]));
    assert SomeMethodContributes(typeName, init, p) <==> (exists i :: 0 <= i < |init| && f(init[i]));
  }

  /** Some element of a non-empty list satisfies `f`: one of the earlier ones, or the last. */
  lemma SomeSnoc<T>(xs: seq<T>, init: seq<T>, f: T -> bool)
    requires xs != [] && init == xs[..|xs| - 1]
    ensures (exists i :: 0 <= i < |xs| && f(xs[i]))
      <==> ((exists i :: 0 <= i < |init| && f(init[i])) || f(xs[|xs| - 1]))
  {
    if exists i :: 0 <= i < |xs| && f(xs[i]) {
      var i :| 0 <= i < |xs| && f(xs[i]);
      if i < |init| {
        assert init[i] == xs[i];
      }
    }
    if exists i :: 0 <= i < |init| && f(init[i]) {
      var i :| 0 <= i < |init| && f(init[i]);
      assert xs[i] == init[i];
    }
  }

  lemma MethodPathsStep(typeName: string, ms: seq<MethodInfo>, p: string)
    requires ms != []
    ensures p in MethodPaths(typeName, ms)
      <==> p in MethodPaths(typeName, ms[..|ms| - 1]) || Contributes(typeName, ms[|ms| - 1], p)
  {
  }

  /** The methods add their paths to the map and remove none. */
  lemma {:induction false} AddMethodsKeys(paths: map<string, PathItem>, typeName: string, ms: seq<MethodInfo>)
    ensures AddMethods(paths, typeName, ms).Keys == paths.Keys + MethodPaths(typeName, ms)
    decreases |ms|
  {
    if ms != [] {
      AddMethodsKeys(paths, typeName, ms[..|ms| - 1]);
    }
  }

  /** The document's paths are those of every controller's methods with a document verb. */
  function DocumentPaths(cs: seq<ControllerType>): set<string>
    decreases |cs|
  {
    if cs == [] then {}
    else DocumentPaths(cs[..|cs| - 1]) + MethodPaths(cs[|cs| - 1].typeName, cs[|cs| - 1].methods)
  }

  lemma {:induction false} PathsForKeys(cs: seq<ControllerType>)
    ensures PathsFor(cs).Keys == DocumentPaths(cs)
    decreases |cs|
  {
    if cs != [] {
      PathsForKeys(cs[..|cs| - 1]);
      AddMethodsKeys(PathsFor(cs[..|cs| - 1]), cs[|cs| - 1].typeName, cs[|cs| - 1].methods);
    }
  }

  /** A path is in the generated document exactly when some controller has a method with a document verb at that path. */
  lemma {:induction false} DocumentPathsSpec(cs: seq<ControllerType>, p: string)
    ensures p in PathsFor(cs) <==> exists k :: 0 <= k < |cs| && SomeMethodContributes(cs[k].typeName, cs[k].methods, p)
    decreases |cs|
  {
    PathsForKeys(cs);
    if cs != [] {
      var init, last := cs[..|cs| - 1], cs[|cs| - 1];
      DocumentPathsSpec(init, p);
      PathsForKeys(init);
      MethodPathsSpec(last.typeName, last.methods, p);
      var f := (c: ControllerType) => SomeMethodContributes(c.typeName, c.methods, p);
      SomeSnoc(cs, init, f);
      StepIff(p in DocumentPaths(cs), p in DocumentPaths(init),
        exists k :: 0 <= k < |init| && f(init[k]),
        exists k :: 0 <= k < |cs| && f(cs[k]),
        f(last));
    }
  }

  /** A controller whose methods are all "Handle…" contributes no path. */
  lemma HandleControllerAddsNothing(paths: map<string, PathItem>, typeName: string, ms: seq<MethodInfo>)
    requires forall i :: 0 <= i < |ms| ==> HasPrefix(ms[i].name, "Handle")
    ensures AddMethods(paths, typeName, ms) == paths
  {
    forall i | 0 <= i < |ms|
      ensures HttpMethodOf(ms[i]) == ""
    {
      HandleMethodsSkipped(ms[i]);
    }
    AddMethodsUnchanged(paths, typeName, ms);
  }

  lemma {:induction false} AddMethodsUnchanged(paths: map<string, PathItem>, typeName: string, ms: seq<MethodInfo>)
    requires forall i :: 0 <= i < |ms| ==> HttpMethodOf(ms[i]) == ""
    ensures AddMethods(paths, typeName, ms) == paths
    decreases |ms|
  {
    if ms != [] {
      AddMethodsUnchanged(paths, typeName, ms[..|ms| - 1]);
    }
  }
}
