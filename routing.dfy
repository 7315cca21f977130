/**
 * The application side of pkg/flux/app.go: the route-name convention of
 * RegisterController (parseRouteFromMethodName), the generated route
 * descriptions, the body-limit parser and the default error handler.
 *
 * A controller value is reduced to what reflection shows of it: its type
 * name and its exported methods, in the order reflection lists them.
 */
module Routing {
  import opened Wrappers
  import opened Str
  import opened AppErrors
  import opened Controllers

  /** The verbs looked for, in this order, at the start of an action name. */
  const VerbNames: seq<string> := ["Get", "Post", "Put", "Delete", "Patch", "Options", "Head"]

  /** The first of `names` that prefixes `s`. */
  function FirstPrefix(s: string, names: seq<string>): (r: Option<string>)
    ensures r.Some? ==> r.value in names && HasPrefix(s, r.value)
    ensures r.None? <==> forall i :: 0 <= i < |names| ==> !HasPrefix(s, names[i])
  {
    if names == [] then None
    else if HasPrefix(s, names[0]) then Some(names[0])
    else FirstPrefix(s, names[1..])
  }

  /** The name FirstPrefix picks is the earliest in the list that prefixes s. */
  lemma {:induction false} FirstPrefixEarliest(s: string, names: seq<string>)
    ensures FirstPrefix(s, names).Some? ==>
      exists i :: (0 <= i < |names| && names[i] == FirstPrefix(s, names).value &&
        forall j :: 0 <= j < i ==> !HasPrefix(s, names[j]))
  {
    if names != [] && !HasPrefix(s, names[0]) {
      var r := FirstPrefix(s, names[1..]);
      FirstPrefixEarliest(s, names[1..]);
      if r.Some? {
        var i :| 0 <= i < |names[1..]| && names[1..][i] == r.value &&
          forall j :: 0 <= j < i ==> !HasPrefix(s, names[1..][j]);
        forall j | 0 <= j < i + 1
          ensures !HasPrefix(s, names[j])
        {
          if j > 0 { assert names[j] == names[1..][j - 1]; }
        }
        assert names[i + 1] == r.value;
      }
    }
  }


  // ----------------------------------------------------- capital marking

  function CaseChar(c: char, lower: bool): char
  {
    if lower then Lower(c) else c
  }

  /**
   * The strings.Builder loops of parseRouteFromMethodName (sep '-',
   * lower-casing) and descriptionFromMethod (sep ' ', no case change): the
   * separator goes before every 'A'..'Z' after position 0.
   */
  function MarkCaps(s: string, sep: char, lower: bool): string
    decreases |s|
  {
    if s == [] then []
    else
      var c := s[|s| - 1];
      MarkCaps(s[..|s| - 1], sep, lower)
        + (if |s| > 1 && IsUpper(c) then [sep] else [])
        + [CaseChar(c, lower)]
  }

  lemma MarkCapsSnoc(t: string, c: char, sep: char, lower: bool)
    ensures MarkCaps(t + [c], sep, lower)
         == MarkCaps(t, sep, lower) + (if t != [] && IsUpper(c) then [sep] else []) + [CaseChar(c, lower)]
  {
    assert (t + [c])[..|t|] == t;
  }

  /** The builder loop shared by the two functions. */
  method MarkCapitals(s: string, sep: char, lower: bool) returns (r: string)
    ensures r == MarkCaps(s, sep, lower)
  {
    r := [];
    var i := 0;
    while i < |s|
      invariant 0 <= i <= |s|
      invariant r == MarkCaps(s[..i], sep, lower)
    {
      assert s[..i + 1] == s[..i] + [s[i]];
      MarkCapsSnoc(s[..i], s[i], sep, lower);
      if i > 0 && IsUpper(s[i]) {
        r := r + [sep];
      }
      r := r + [CaseChar(s[i], lower)];
      i := i + 1;
    }
    assert s[..i] == s;
  }

  function CaseWord(w: string, lower: bool): (r: string)
    ensures |r| == |w|
  {
    if lower then ToLower(w) else w
  }

  function CaseAll(ws: seq<string>, lower: bool): (r: seq<string>)
    ensures |r| == |ws|
    ensures forall i :: 0 <= i < |ws| ==> r[i] == CaseWord(ws[i], lower)
  {
    seq(|ws|, i requires 0 <= i < |ws| => CaseWord(ws[i], lower))
  }

  lemma CaseWordSnoc(w: string, c: char, lower: bool)
    ensures CaseWord(w + [c], lower) == CaseWord(w, lower) + [CaseChar(c, lower)]
  {
    if lower {
      ToLowerAppend(w, [c]);
    }
  }

  /** A capital after position 0 opens a new word. */
  lemma JoinCaseOpen(p: seq<string>, c: char, sep: char, lower: bool)
    requires p != []
    ensures Join(CaseAll(p + [[c]], lower), [sep]) == Join(CaseAll(p, lower), [sep]) + [sep] + [CaseChar(c, lower)]
  {
    CaseWordSnoc([], c, lower);
    assert CaseAll(p + [[c]], lower) == CaseAll(p, lower) + [CaseWord([c], lower)];
    JoinSnoc(CaseAll(p, lower), CaseWord([c], lower), [sep]);
  }

  /** A first character is a word of its own. */
  lemma JoinCaseSingle(c: char, sep: char, lower: bool)
    ensures Join(CaseAll([[c]], lower), [sep]) == [CaseChar(c, lower)]
  {
    CaseWordSnoc([], c, lower);
    assert CaseAll([[c]], lower) == [CaseWord([c], lower)];
  }

  /** Any other character extends the last word. */
  lemma JoinCaseExtend(p: seq<string>, c: char, sep: char, lower: bool)
    requires p != []
    ensures Join(CaseAll(p[..|p| - 1] + [p[|p| - 1] + [c]], lower), [sep])
         == Join(CaseAll(p, lower), [sep]) + [CaseChar(c, lower)]
  {
    var n := |p|;
    var init := p[..n - 1];
    var last := p[n - 1];
    assert p == init + [last];
    CaseWordSnoc(last, c, lower);
    var q := init + [last + [c]];
    assert CaseAll(q, lower) == CaseAll(init, lower) + [CaseWord(last, lower) + [CaseChar(c, lower)]];
    assert CaseAll(p, lower) == CaseAll(init, lower) + [CaseWord(last, lower)];
    if init != [] {
      JoinSnoc(CaseAll(init, lower), CaseWord(last, lower) + [CaseChar(c, lower)], [sep]);
      JoinSnoc(CaseAll(init, lower), CaseWord(last, lower), [sep]);
    } else {
      assert CaseAll(q, lower) == [CaseWord(last, lower) + [CaseChar(c, lower)]];
      assert CaseAll(p, lower) == [CaseWord(last, lower)];
    }
  }

  /**
   * Marking capitals is joining the camel-case words of the input with the
   * separator (lower-cased when asked): the hyphenated route fragment and
   * the spaced description are both built from the words splitCamelCase
   * finds.
   */
  lemma {:induction false} MarkCapsJoinsWords(s: string, sep: char, lower: bool)
    ensures MarkCaps(s, sep, lower) == Join(CaseAll(SplitCamel(s), lower), [sep])
    decreases |s|
  {
    if s != [] {
      var t := s[..|s| - 1];
      var c := s[|s| - 1];
      assert s == t + [c];
      MarkCapsJoinsWords(t, sep, lower);
      MarkCapsJoinStep(t, c, sep, lower);
    }
  }

  /** One more character keeps marking capitals equal to joining the words. */
  lemma MarkCapsJoinStep(t: string, c: char, sep: char, lower: bool)
    requires MarkCaps(t, sep, lower) == Join(CaseAll(SplitCamel(t), lower), [sep])
    ensures MarkCaps(t + [c], sep, lower) == Join(CaseAll(SplitCamel(t + [c]), lower), [sep])
  {
    MarkCapsSnoc(t, c, sep, lower);
    SplitCamelSnoc(t, c);
    SplitCamelEmpty(t);
    var p := SplitCamel(t);
    if t != [] && IsUpper(c) {
      JoinCaseOpen(p, c, sep, lower);
    } else if p == [] {
      JoinCaseSingle(c, sep, lower);
    } else {
      JoinCaseExtend(p, c, sep, lower);
    }
  }

  // ------------------------------------------------------ route derivation

  datatype RouteInfo = RouteInfo(httpMethod: string, path: string)

  /** The verb of an action name (GET when none prefixes it) and what follows the verb. */
  function SplitVerb(action: string): (r: (string, string))
  {
    match FirstPrefix(action, VerbNames)
    case Some(v) => (ToUpper(v), action[|v|..])
    case None => ("GET", action)
  }

  /** The path for the text after the verb. */
  function PathFor(rest: string, basePath: string): string
  {
    if rest == [] then basePath
    else
      var fragment := MarkCaps(rest, '-', true);
      if fragment == "index" || fragment == "" then basePath
      else if Contains(fragment, "by-id") then basePath + "/:id"
      else basePath + "/" + fragment
  }

  /** parseRouteFromMethodName */
  function RouteFor(methodName: string, basePath: string): RouteInfo
  {
    var (verb, rest) := SplitVerb(TrimPrefix(methodName, "Handle"));
    RouteInfo(verb, PathFor(rest, basePath))
  }

  /** The verb loop of parseRouteFromMethodName and descriptionFromMethod: the first verb name prefixing the action, and the action without it. */
  method StripVerb(action: string) returns (verb: Option<string>, rest: string)
    ensures verb == FirstPrefix(action, VerbNames)
    ensures rest == SplitVerb(action).1
  {
    verb := None;
    var i := 0;
    while i < |VerbNames| && verb.None?
      invariant 0 <= i <= |VerbNames|
      invariant verb.None? ==> FirstPrefix(action, VerbNames) == FirstPrefix(action, VerbNames[i..])
      invariant verb.Some? ==> verb == FirstPrefix(action, VerbNames)
    {
      if HasPrefix(action, VerbNames[i]) {
        verb := Some(VerbNames[i]);
      } else {
        assert VerbNames[i..][1..] == VerbNames[i + 1..];
      }
      i := i + 1;
    }
    if verb.None? {
      assert VerbNames[i..] == [];
      rest := action;
    } else {
      rest := action[|verb.value|..];
    }
  }

  /** parseRouteFromMethodName with its verb loop and builder loop. */
  method ParseRouteFromMethodName(methodName: string, basePath: string) returns (info: RouteInfo)
    ensures info == RouteFor(methodName, basePath)
  {
    var verb, rest := StripVerb(TrimPrefix(methodName, "Handle"));
    var httpMethod := "GET";
    if verb.Some? {
      httpMethod := ToUpper(verb.value);
    }
    if rest != [] {
      var fragment := MarkCapitals(rest, '-', true);
      if fragment == "index" || fragment == "" {
        return RouteInfo(httpMethod, basePath);
      }
      if Contains(fragment, "by-id") {
        return RouteInfo(httpMethod, basePath + "/:id");
      }
      return RouteInfo(httpMethod, basePath + "/" + fragment);
    }
    return RouteInfo(httpMethod, basePath);
  }

  /** Each verb name upper-cases to the router verb at the same position. */
  lemma UpperVerbName(i: int)
    requires 0 <= i < |VerbNames|
    ensures ToUpper(VerbNames[i]) == RouterVerbs[i]
  {
    if i < 4 {
      UpperVerbNameLow(i);
    } else {
      UpperVerbNameHigh(i);
    }
  }

  lemma UpperVerbNameLow(i: int)
    requires 0 <= i < 4
    ensures ToUpper(VerbNames[i]) == RouterVerbs[i]
  {
    if i == 0 {
      assert ToUpper("Get") == "GET";
    } else if i == 1 {
      assert ToUpper("Post") == "POST";
    } else if i == 2 {
      assert ToUpper("Put") == "PUT";
    } else {
      assert ToUpper("Delete") == "DELETE";
    }
  }

  lemma UpperVerbNameHigh(i: int)
    requires 4 <= i < 7
    ensures ToUpper(VerbNames[i]) == RouterVerbs[i]
  {
    if i == 4 {
      assert ToUpper("Patch") == "PATCH";
    } else if i == 5 {
      assert ToUpper("Options") == "OPTIONS";
    } else {
      assert ToUpper("Head") == "HEAD";
    }
  }

  /** The verb is always one the router binds; it is GET exactly when no verb name prefixes the action. */
  lemma RouteVerbIsBound(methodName: string, basePath: string)
    ensures RouteFor(methodName, basePath).httpMethod in RouterVerbs
    ensures FirstPrefix(TrimPrefix(methodName, "Handle"), VerbNames).None? ==> RouteFor(methodName, basePath).httpMethod == "GET"
  {
    var action := TrimPrefix(methodName, "Handle");
    match FirstPrefix(action, VerbNames)
    case None =>
    case Some(v) =>
      var i :| 0 <= i < |VerbNames| && VerbNames[i] == v;
      UpperVerbName(i);
  }

  /**
   * The three shapes of a path: the base path, the base path with "/:id",
   * or the base path, "/" and the lower-cased camel words of the text after
   * the verb joined by "-".
   */
  lemma RoutePathShape(methodName: string, basePath: string)
    ensures var rest := SplitVerb(TrimPrefix(methodName, "Handle")).1;
      var fragment := Join(CaseAll(SplitCamel(rest), true), "-");
      var path := RouteFor(methodName, basePath).path;
      && (rest == [] || fragment == "index" ==> path == basePath)
      && (rest != [] && fragment != "index" && Contains(fragment, "by-id") ==> path == basePath + "/:id")
      && (rest != [] && fragment != "index" && !Contains(fragment, "by-id") ==> path == basePath + "/" + fragment)
  {
    var rest := SplitVerb(TrimPrefix(methodName, "Handle")).1;
    MarkCapsJoinsWords(rest, '-', true);
    MarkCapsLength(rest, '-', true);
  }

  lemma {:induction false} MarkCapsLength(s: string, sep: char, lower: bool)
    ensures |MarkCaps(s, sep, lower)| >= |s|
    decreases |s|
  {
    if s != [] {
      MarkCapsLength(s[..|s| - 1], sep, lower);
    }
  }

  // --------------------------------------------------- worked route names

  /** An action starting with "Get" has verb GET and keeps the text after it. */
  lemma SplitVerbGet(action: string)
    requires HasPrefix(action, "Get")
    ensures SplitVerb(action) == ("GET", action[3..])
  {
    UpperVerbName(0);
  }

  /** An action whose first letter starts no verb name keeps its text and gets GET. */
  lemma SplitVerbNone(action: string)
    requires action == [] || action[0] !in "GPDOH"
    ensures SplitVerb(action) == ("GET", action)
  {
    VerbInitials();
    forall i | 0 <= i < |VerbNames|
      ensures !HasPrefix(action, VerbNames[i])
    {
      var v := VerbNames[i];
      assert v != [] && v[0] in "GPDOH";
      if action != [] && |v| <= |action| {
        assert action[..|v|][0] == action[0];
      }
    }
    assert FirstPrefix(action, VerbNames).None?;
  }

  /** Every verb name starts with one of G, P, D, O, H. */
  lemma VerbInitials()
    ensures forall i :: 0 <= i < |VerbNames| ==> VerbNames[i] != [] && VerbNames[i][0] in "GPDOH"
  {
  }

  /** "Handle", then "Get", then the rest: GET with the path of the rest. */
  lemma RouteGet(rest: string, basePath: string)
    ensures RouteFor("Handle" + "Get" + rest, basePath) == RouteInfo("GET", PathFor(rest, basePath))
  {
    assert "Handle" + "Get" + rest == "Handle" + ("Get" + rest);
    SplitVerbGet("Get" + rest);
    assert ("Get" + rest)[3..] == rest;
  }

  /** "Handle" and an action no verb name can prefix: GET with the path of the whole action. */
  lemma RouteNoVerb(action: string, basePath: string)
    requires action == [] || action[0] !in "GPDOH"
    ensures RouteFor("Handle" + action, basePath) == RouteInfo("GET", PathFor(action, basePath))
  {
    SplitVerbNone(action);
  }

  /** The path for text whose camel words are known. */
  lemma PathOfWords(rest: string, basePath: string, words: seq<string>)
    requires SplitCamel(rest) == words && words != []
    ensures var fragment := Join(CaseAll(words, true), "-");
      PathFor(rest, basePath)
        == if fragment == "index" then basePath
           else if Contains(fragment, "by-id") then basePath + "/:id"
           else basePath + "/" + fragment
  {
    assert rest != [];
    MarkCapsJoinsWords(rest, '-', true);
    MarkCapsLength(rest, '-', true);
  }

  lemma FragmentUserById()
    ensures Join(CaseAll(["User", "By", "Id"], true), "-") == "user-by-id"
    ensures Contains("user-by-id", "by-id")
  {
    assert ToLower("User") == "user" && ToLower("By") == "by" && ToLower("Id") == "id";
    var ws := CaseAll(["User", "By", "Id"], true);
    assert ws == ["user", "by", "id"];
    assert ws[1..] == ["by", "id"];
    assert Join(ws[1..], "-") == "by-id";
    ContainsInfix("user-", "by-id", "");
    assert "user-" + "by-id" + "" == "user-by-id";
  }

  lemma PathUserById()
    ensures PathFor("User" + "By" + "Id", "/user") == "/user/:id"
  {
    SplitUserById();
    FragmentUserById();
    PathOfWords("User" + "By" + "Id", "/user", ["User", "By", "Id"]);
  }

  /** HandleGetUserById under "/user": the by-id rule gives GET "/user/:id". */
  lemma RouteUserById()
    ensures RouteFor("Handle" + "Get" + "User" + "By" + "Id", "/user") == RouteInfo("GET", "/user/:id")
  {
    assert "Handle" + "Get" + "User" + "By" + "Id" == "Handle" + "Get" + ("User" + "By" + "Id");
    RouteGet("User" + "By" + "Id", "/user");
    PathUserById();
  }

  lemma FragmentCreateUser()
    ensures Join(CaseAll(["Create", "User"], true), "-") == "create-user"
    ensures !Contains("create-user", "by-id")
  {
    assert ToLower("Create") == "create" && ToLower("User") == "user";
    assert CaseAll(["Create", "User"], true) == ["create", "user"];
    AbsentChar("create-user", "by-id", 'b');
  }

  lemma SplitCreateUser()
    ensures SplitCamel("Create" + "User") == ["Create", "User"]
  {
    SplitCamelWord("User");
    SplitCamelCons("Create", "User");
  }

  lemma PathCreateUser()
    ensures PathFor("Create" + "User", "/user") == "/user/create-user"
  {
    SplitCreateUser();
    FragmentCreateUser();
    PathOfWords("Create" + "User", "/user", ["Create", "User"]);
    var fragment := Join(CaseAll(["Create", "User"], true), "-");
    assert fragment == "create-user" && |fragment| != |"index"|;
    assert "/user" + "/" + "create-user" == "/user/create-user";
  }

  /** HandleCreateUser under "/user": "Create" is no verb, so GET "/user/create-user". */
  lemma RouteCreateUser()
    ensures RouteFor("Handle" + "Create" + "User", "/user") == RouteInfo("GET", "/user/create-user")
  {
    assert "Handle" + "Create" + "User" == "Handle" + ("Create" + "User");
    RouteNoVerb("Create" + "User", "/user");
    PathCreateUser();
  }

  lemma FragmentHello()
    ensures Join(CaseAll(["Hello"], true), "-") == "hello"
    ensures !Contains("hello", "by-id")
  {
    assert ToLower("Hello") == "hello";
    assert CaseAll(["Hello"], true) == ["hello"];
    AbsentChar("hello", "by-id", 'b');
  }

  lemma PathHello()
    ensures PathFor("Hello", "/hello") == "/hello/hello"
  {
    SplitCamelWord("Hello");
    FragmentHello();
    PathOfWords("Hello", "/hello", ["Hello"]);
  }

  /** HandleGetHello under "/hello" is GET "/hello/hello". */
  lemma RouteGetHello()
    ensures RouteFor("Handle" + "Get" + "Hello", "/hello") == RouteInfo("GET", "/hello/hello")
  {
    RouteGet("Hello", "/hello");
    PathHello();
  }

  lemma FragmentByCapitalID()
    ensures Join(CaseAll(["By", "I", "D"], true), "-") == "by-i-d"
    ensures !Contains("by-i-d", "by-id")
  {
    assert ToLower("By") == "by" && ToLower("I") == "i" && ToLower("D") == "d";
    assert CaseAll(["By", "I", "D"], true) == ["by", "i", "d"];
    forall j | 0 <= j <= |"by-i-d"| - |"by-id"|
      ensures !OccursAt("by-i-d", "by-id", j)
    {
      if j == 0 {
        assert "by-i-d"[4] != "by-id"[4];
      } else {
        assert "by-i-d"[1] != "by-id"[0];
      }
    }
  }

  lemma SplitByCapitalID()
    ensures SplitCamel("By" + "I" + "D") == ["By", "I", "D"]
  {
    SplitCamelWord("D");
    SplitCamelCons("I", "D");
    assert "By" + "I" + "D" == "By" + ("I" + "D");
    SplitCamelCons("By", "I" + "D");
  }

  lemma PathByCapitalID()
    ensures PathFor("By" + "I" + "D", "/user") == "/user/by-i-d"
  {
    SplitByCapitalID();
    FragmentByCapitalID();
    PathOfWords("By" + "I" + "D", "/user", ["By", "I", "D"]);
    assert "/user" + "/" + "by-i-d" == "/user/by-i-d";
  }

  /** "ByID" splits into By, I, D: the fragment "by-i-d" does not trigger the by-id rule. */
  lemma RouteByCapitalID()
    ensures RouteFor("Handle" + "Get" + "By" + "I" + "D", "/user") == RouteInfo("GET", "/user/by-i-d")
  {
    assert "Handle" + "Get" + "By" + "I" + "D" == "Handle" + "Get" + ("By" + "I" + "D");
    RouteGet("By" + "I" + "D", "/user");
    PathByCapitalID();
  }

  lemma PathIndex(basePath: string)
    ensures PathFor("Index", basePath) == basePath
  {
    SplitCamelWord("Index");
    assert ToLower("Index") == "index";
    assert CaseAll(["Index"], true) == ["index"];
    PathOfWords("Index", basePath, ["Index"]);
  }

  /** "Handle", "HandleGet" and "HandleGetIndex" all map to the base path. */
  lemma RouteBasePaths(basePath: string)
    ensures RouteFor("Handle", basePath) == RouteInfo("GET", basePath)
    ensures RouteFor("Handle" + "Get", basePath) == RouteInfo("GET", basePath)
    ensures RouteFor("Handle" + "Get" + "Index", basePath) == RouteInfo("GET", basePath)
  {
    RouteNoVerb("", basePath);
    assert "Handle" + "" == "Handle";
    RouteGet("", basePath);
    assert "Handle" + "Get" + "" == "Handle" + "Get";
    RouteGet("Index", basePath);
    PathIndex(basePath);
  }

  // ---------------------------------------------------------- descriptions

  /**
   * descriptionFromMethod: the text after the verb, spaced before each
   * capital, unless one of the fixed phrases replaces it.
   */
  function DescriptionFor(controllerName: string, methodName: string): string
  {
    Describe(controllerName, MarkCaps(SplitVerb(TrimPrefix(methodName, "Handle")).1, ' ', false))
  }

  /** The phrase rules applied to the spaced text `d`. */
  function Describe(controllerName: string, d: string): string
  {
    var c := ToLower(controllerName);
    if d == "Index" then "List all " + c + "s"
    else if d == "ById" || d == "By Id" then "Get a specific " + c + " by ID"
    else if Contains(ToLower(d), "create") then "Create a new " + c
    else if Contains(ToLower(d), "update") then "Update a " + c
    else if Contains(ToLower(d), "delete") then "Delete a " + c
    else d
  }

  /** descriptionFromMethod with its verb loop and builder loop. */
  method DescriptionFromMethod(controllerName: string, methodName: string) returns (r: string)
    ensures r == DescriptionFor(controllerName, methodName)
  {
    var verb, action := StripVerb(TrimPrefix(methodName, "Handle"));
    var d := MarkCapitals(action, ' ', false);
    var c := ToLower(controllerName);
    if d == "Index" {
      return "List all " + c + "s";
    } else if d == "ById" || d == "By Id" {
      return "Get a specific " + c + " by ID";
    } else if Contains(ToLower(d), "create") {
      return "Create a new " + c;
    } else if Contains(ToLower(d), "update") {
      return "Update a " + c;
    } else if Contains(ToLower(d), "delete") {
      return "Delete a " + c;
    }
    return d;
  }

  /** Without lower-casing, every capital after the first character follows the separator. */
  lemma {:induction false} MarkCapsSpaced(s: string, sep: char)
    requires !IsUpper(sep)
    ensures var r := MarkCaps(s, sep, false);
      forall i :: 0 < i < |r| && IsUpper(r[i]) ==> r[i - 1] == sep
    decreases |s|
  {
    if s != [] {
      var t := s[..|s| - 1];
      var c := s[|s| - 1];
      assert s == t + [c];
      MarkCapsSpaced(t, sep);
      MarkCapsSnoc(t, c, sep, false);
    }
  }

  lemma MarkCapsSpacedAt(s: string, sep: char, i: int)
    requires !IsUpper(sep)
    requires 0 < i < |MarkCaps(s, sep, false)| && IsUpper(MarkCaps(s, sep, false)[i])
    ensures MarkCaps(s, sep, false)[i - 1] == sep
  {
    MarkCapsSpaced(s, sep);
  }

  /** The spaced text is never "ById": the builder always puts a space before the 'I'. */
  lemma DescriptionNeverById(action: string)
    ensures MarkCaps(action, ' ', false) != "ById"
  {
    var r := MarkCaps(action, ' ', false);
    if r == "ById" {
      MarkCapsSpacedAt(action, ' ', 2);
    }
  }

  /** The spaced text is the camel words of the action joined by single spaces. */
  lemma DescriptionWords(action: string)
    ensures MarkCaps(action, ' ', false) == Join(SplitCamel(action), " ")
  {
    MarkCapsJoinsWords(action, ' ', false);
    var ws := SplitCamel(action);
    assert CaseAll(ws, false) == ws;
  }

  /** A single camel word is its own spaced text. */
  lemma SpacedWord(w: string)
    requires CamelWord(w)
    ensures MarkCaps(w, ' ', false) == w
  {
    SplitCamelWord(w);
    DescriptionWords(w);
  }

  /** "Handle", then "Get", then the rest: the rules see the spaced rest. */
  lemma DescriptionGet(controllerName: string, rest: string)
    ensures DescriptionFor(controllerName, "Handle" + "Get" + rest) == Describe(controllerName, MarkCaps(rest, ' ', false))
  {
    assert "Handle" + "Get" + rest == "Handle" + ("Get" + rest);
    SplitVerbGet("Get" + rest);
    assert ("Get" + rest)[3..] == rest;
  }

  /** "Handle" and an action no verb name can prefix: the rules see the whole spaced action. */
  lemma DescriptionNoVerb(controllerName: string, action: string)
    requires action == [] || action[0] !in "GPDOH"
    ensures DescriptionFor(controllerName, "Handle" + action) == Describe(controllerName, MarkCaps(action, ' ', false))
  {
    SplitVerbNone(action);
  }

  /** "Handle", then "Delete", then the rest: the verb is stripped, so the rules see only the spaced rest. */
  lemma DescriptionDelete(controllerName: string, rest: string)
    ensures DescriptionFor(controllerName, "Handle" + "Delete" + rest) == Describe(controllerName, MarkCaps(rest, ' ', false))
  {
    assert "Handle" + "Delete" + rest == "Handle" + ("Delete" + rest);
    SplitVerbDelete("Delete" + rest);
    assert ("Delete" + rest)[6..] == rest;
  }

  lemma SpacedCreateUser()
    ensures MarkCaps("Create" + "User", ' ', false) == "Create User"
  {
    DescriptionWords("Create" + "User");
    SplitCreateUser();
    assert Join(["Create", "User"], " ") == "Create User";
  }

  lemma PhraseCreateUser()
    ensures Describe("User", "Create User") == "Create a new user"
  {
    assert ToLower("Create User") == "" + "create" + " user";
    ContainsInfix("", "create", " user");
    assert ToLower("User") == "user";
  }

  /** HandleCreateUser on UserController is described as "Create a new user". */
  lemma DescriptionCreateUser()
    ensures DescriptionFor("User", "Handle" + "Create" + "User") == "Create a new user"
  {
    assert "Handle" + "Create" + "User" == "Handle" + ("Create" + "User");
    DescriptionNoVerb("User", "Create" + "User");
    SpacedCreateUser();
    PhraseCreateUser();
  }

  /** An action starting with "Delete" has verb DELETE and keeps the text after it. */
  lemma SplitVerbDelete(action: string)
    requires HasPrefix(action, "Delete")
    ensures SplitVerb(action) == ("DELETE", action[6..])
  {
    forall i | 0 <= i < |VerbNames| && HasPrefix(action, VerbNames[i])
      ensures i == 3
    {
      assert action[0] == 'D' && VerbNames[i][0] == action[0];
    }
    assert HasPrefix(action, VerbNames[3]);
    var r := FirstPrefix(action, VerbNames);
    assert r == Some("Delete");
    UpperVerbName(3);
  }

  lemma PhraseUser()
    ensures Describe("User", "User") == "User"
  {
    assert ToLower("User") == "user";
    AbsentChar("user", "create", 'c');
    AbsentChar("user", "update", 'p');
    AbsentChar("user", "delete", 'd');
  }

  /**
   * HandleDeleteUser on UserController is described as just "User": the
   * verb "Delete" is stripped before the phrases are looked for.
   */
  lemma DescriptionDeleteUser()
    ensures DescriptionFor("User", "Handle" + "Delete" + "User") == "User"
  {
    DescriptionDelete("User", "User");
    SpacedWord("User");
    PhraseUser();
  }

  lemma SpacedIndex()
    ensures MarkCaps("Index", ' ', false) == "Index"
  {
    SpacedWord("Index");
  }

  lemma PhraseIndex()
    ensures Describe("User", "Index") == "List all users"
  {
    assert ToLower("User") == "user";
  }

  /** HandleGetIndex on UserController is described as "List all users". */
  lemma DescriptionIndex()
    ensures DescriptionFor("User", "Handle" + "Get" + "Index") == "List all users"
  {
    DescriptionGet("User", "Index");
    SpacedIndex();
    PhraseIndex();
  }

  // ----------------------------------------------------- RegisterController

  /** A controller as reflection shows it: its type name and its exported methods, in reflection order. */
  datatype ControllerValue = ControllerValue(typeName: string, methods: seq<MethodRef>)

  /** The type name without one trailing "Controller". */
  function BaseName(typeName: string): (r: string)
    ensures HasSuffix(typeName, "Controller") ==> typeName == r + "Controller"
    ensures !HasSuffix(typeName, "Controller") ==> r == typeName
  {
    TrimSuffix(typeName, "Controller")
  }

  /** The base path: "/" and the lower-cased base name. */
  function BasePath(typeName: string): (r: string)
    ensures r == "/" + ToLower(BaseName(typeName))
    ensures |r| == |BaseName(typeName)| + 1 && r[0] == '/'
    ensures forall i :: 0 <= i < |r| ==> !IsUpper(r[i])
  {
    "/" + ToLower(TrimSuffix(typeName, "Controller"))
  }

  /** The route-table entry for one Handle method. */
  function EntryFor(typeName: string, methodName: string): LogEntry
  {
    var info := RouteFor(methodName, BasePath(typeName));
    LogEntry(info.httpMethod, info.path, typeName + "." + methodName, DescriptionFor(BaseName(typeName), methodName))
  }

  /** The server binding for one Handle method. */
  function BindingFor(typeName: string, m: MethodRef): Binding
  {
    var info := RouteFor(m.name, BasePath(typeName));
    Binding(info.httpMethod, info.path, Direct(m.body))
  }

  /** The entries RegisterController adds: one per method whose name starts with "Handle", in order. */
  function EntriesFor(typeName: string, methods: seq<MethodRef>): seq<LogEntry>
    decreases |methods|
  {
    if methods == [] then []
    else
      var m := methods[|methods| - 1];
      EntriesFor(typeName, methods[..|methods| - 1])
        + (if HasPrefix(m.name, "Handle") then [EntryFor(typeName, m.name)] else [])
  }

  /** The bindings RegisterController makes: one per method whose name starts with "Handle", in order. */
  function BindingsFor(typeName: string, methods: seq<MethodRef>): seq<Binding>
    decreases |methods|
  {
    if methods == [] then []
    else
      var m := methods[|methods| - 1];
      BindingsFor(typeName, methods[..|methods| - 1])
        + (if HasPrefix(m.name, "Handle") then [BindingFor(typeName, m)] else [])
  }

  /** The number of methods whose name starts with "Handle". */
  function HandleCount(methods: seq<MethodRef>): nat
    decreases |methods|
  {
    if methods == [] then 0
    else HandleCount(methods[..|methods| - 1]) + (if HasPrefix(methods[|methods| - 1].name, "Handle") then 1 else 0)
  }

  lemma EntriesSnoc(typeName: string, ms: seq<MethodRef>, m: MethodRef)
    ensures EntriesFor(typeName, ms + [m])
         == EntriesFor(typeName, ms) + (if HasPrefix(m.name, "Handle") then [EntryFor(typeName, m.name)] else [])
    ensures BindingsFor(typeName, ms + [m])
         == BindingsFor(typeName, ms) + (if HasPrefix(m.name, "Handle") then [BindingFor(typeName, m)] else [])
    ensures HandleCount(ms + [m]) == HandleCount(ms) + (if HasPrefix(m.name, "Handle") then 1 else 0)
  {
    assert (ms + [m])[..|ms|] == ms;
  }

  /** EntriesSnoc at the i-th method of a list. */
  lemma EntriesStep(typeName: string, ms: seq<MethodRef>, i: int)
    requires 0 <= i < |ms|
    ensures EntriesFor(typeName, ms[..i + 1])
         == EntriesFor(typeName, ms[..i]) + (if HasPrefix(ms[i].name, "Handle") then [EntryFor(typeName, ms[i].name)] else [])
    ensures BindingsFor(typeName, ms[..i + 1])
         == BindingsFor(typeName, ms[..i]) + (if HasPrefix(ms[i].name, "Handle") then [BindingFor(typeName, ms[i])] else [])
  {
    assert ms[..i + 1] == ms[..i] + [ms[i]];
    EntriesSnoc(typeName, ms[..i], ms[i]);
  }

  /** Entries and bindings pair up one to one, with the same verb and path, and every bound verb is one the router knows. */
  predicate Paired(es: seq<LogEntry>, bs: seq<Binding>)
  {
    && |es| == |bs|
    && forall k :: 0 <= k < |es| ==>
      && es[k].verb == bs[k].verb && es[k].path == bs[k].path && bs[k].verb in RouterVerbs
  }

  lemma PairedSnoc(es: seq<LogEntry>, bs: seq<Binding>, e: LogEntry, b: Binding)
    requires Paired(es, bs)
    requires e.verb == b.verb && e.path == b.path && b.verb in RouterVerbs
    ensures Paired(es + [e], bs + [b])
  {
    forall k | 0 <= k < |es|
      ensures (es + [e])[k] == es[k] && (bs + [b])[k] == bs[k]
    {
    }
  }

  /**
   * Each Handle method gets exactly one route-table entry and exactly one
   * server binding, with the same verb and path, and every bound verb is
   * one of the seven the router knows.
   */
  lemma {:induction false} EntriesMatchBindings(typeName: string, methods: seq<MethodRef>)
    ensures |EntriesFor(typeName, methods)| == HandleCount(methods)
    ensures Paired(EntriesFor(typeName, methods), BindingsFor(typeName, methods))
    decreases |methods|
  {
    if methods != [] {
      var init := methods[..|methods| - 1];
      var m := methods[|methods| - 1];
      assert methods == init + [m];
      EntriesSnoc(typeName, init, m);
      EntriesMatchBindings(typeName, init);
      if HasPrefix(m.name, "Handle") {
        RouteVerbIsBound(m.name, BasePath(typeName));
        PairedSnoc(EntriesFor(typeName, init), BindingsFor(typeName, init), EntryFor(typeName, m.name), BindingFor(typeName, m));
      }
    }
  }

  /** The application state RegisterController touches. */
  class Application {
    var controllers: seq<ControllerValue>
    var routes: RouteLog
    var server: Router

    constructor ()
      ensures controllers == [] && routes.entries == [] && server.bindings == []
      ensures fresh(routes) && fresh(server)
    {
      controllers := [];
      routes := new RouteLog();
      server := new Router();
    }

    /** One turn of RegisterController's method loop: one route-table entry and one binding. */
    method RegisterMethod(typeName: string, baseName: string, basePath: string, m: MethodRef)
      requires baseName == BaseName(typeName) && basePath == BasePath(typeName)
      modifies routes, server
      ensures routes.entries == old(routes.entries) + [EntryFor(typeName, m.name)]
      ensures server.bindings == old(server.bindings) + [BindingFor(typeName, m)]
    {
      var info := ParseRouteFromMethodName(m.name, basePath);
      var description := DescriptionFromMethod(baseName, m.name);
      routes.Add(info.httpMethod, info.path, typeName + "." + m.name, description);
      RouteVerbIsBound(m.name, basePath);
      server.Bind(info.httpMethod, info.path, Direct(m.body));
    }

    /** A Handle method is registered; any other method is skipped. */
    method RegisterIfHandle(typeName: string, baseName: string, basePath: string, m: MethodRef)
      requires baseName == BaseName(typeName) && basePath == BasePath(typeName)
      modifies routes, server
      ensures routes.entries == old(routes.entries) + (if HasPrefix(m.name, "Handle") then [EntryFor(typeName, m.name)] else [])
      ensures server.bindings == old(server.bindings) + (if HasPrefix(m.name, "Handle") then [BindingFor(typeName, m)] else [])
    {
      if HasPrefix(m.name, "Handle") {
        RegisterMethod(typeName, baseName, basePath, m);
      }
    }

    /**
     * RegisterController: records the controller, then for each Handle
     * method in order adds its route-table entry and binds its handler.
     */
    method RegisterController(c: ControllerValue)
      modifies this, routes, server
      ensures routes == old(routes) && server == old(server)
      ensures controllers == old(controllers) + [c]
      ensures routes.entries == old(routes.entries) + EntriesFor(c.typeName, c.methods)
      ensures server.bindings == old(server.bindings) + BindingsFor(c.typeName, c.methods)
    {
      controllers := controllers + [c];
      var baseName := TrimSuffix(c.typeName, "Controller");
      var basePath := "/" + ToLower(baseName);
      var i := 0;
      while i < |c.methods|
        invariant 0 <= i <= |c.methods|
        invariant routes == old(routes) && server == old(server)
        invariant controllers == old(controllers) + [c]
        invariant routes.entries == old(routes.entries) + EntriesFor(c.typeName, c.methods[..i])
        invariant server.bindings == old(server.bindings) + BindingsFor(c.typeName, c.methods[..i])
      {
        var m := c.methods[i];
        EntriesStep(c.typeName, c.methods, i);
        ghost var entry: seq<LogEntry> := if HasPrefix(m.name, "Handle") then [EntryFor(c.typeName, m.name)] else [];
        ghost var binding: seq<Binding> := if HasPrefix(m.name, "Handle") then [BindingFor(c.typeName, m)] else [];
        AppendAssoc(old(routes.entries), EntriesFor(c.typeName, c.methods[..i]), entry);
        AppendAssoc(old(server.bindings), BindingsFor(c.typeName, c.methods[..i]), binding);
        RegisterIfHandle(c.typeName, baseName, basePath, m);
        i := i + 1;
      }
      assert c.methods[..i] == c.methods;
    }
  }

  // ------------------------------------------------------------ body limit

  /** The white space of Go's fmt scanner. */
  predicate ScanSpace(c: char)
  {
    || ('\t' <= c <= '\r') || c == ' ' || c == '\U{85}' || c == '\U{A0}' || c == '\U{1680}'
    || ('\U{2000}' <= c <= '\U{200A}') || c == '\U{2028}' || c == '\U{2029}'
    || c == '\U{202F}' || c == '\U{205F}' || c == '\U{3000}'
  }

  /** The scanner's SkipSpace in Sscanf: blanks go, a newline is an error (None). */
  function SkipBlanks(s: string): (r: Option<string>)
    ensures r.Some? ==> |r.value| <= |s| && s[|s| - |r.value|..] == r.value
    ensures r.Some? && r.value != [] ==> !ScanSpace(r.value[0])
    ensures s != [] && !ScanSpace(s[0]) ==> r == Some(s)
  {
    if s == [] then Some([])
    else if s[0] == '\n' then None
    else if ScanSpace(s[0]) then SkipBlanks(s[1..])
    else Some(s)
  }

  /** The leading run of non-space characters: what the %s verb reads. */
  function Token(s: string): (r: string)
    ensures HasPrefix(s, r)
    ensures forall i :: 0 <= i < |r| ==> !ScanSpace(r[i])
    ensures |r| < |s| ==> ScanSpace(s[|r|])
  {
    if s == [] || ScanSpace(s[0]) then [] else [s[0]] + Token(s[1..])
  }

  lemma {:induction false} TokenWhole(s: string)
    requires forall i :: 0 <= i < |s| ==> !ScanSpace(s[i])
    ensures Token(s) == s
    decreases |s|
  {
    if s != [] {
      TokenWhole(s[1..]);
    }
  }

  const MinInt64: int := -0x8000_0000_0000_0000
  const MaxInt64: int := 0x7FFF_FFFF_FFFF_FFFF

  /** The %d verb: an optional sign and at least one decimal digit, within int64; the value and the rest. */
  function ScanInt(s: string): (r: Option<(int, string)>)
    ensures r.Some? ==> MinInt64 <= r.value.0 <= MaxInt64 && |r.value.1| < |s|
  {
    var signed := s != [] && (s[0] == '+' || s[0] == '-');
    var body := if signed then s[1..] else s;
    var digits := LeadingDigits(body);
    if digits == [] then None
    else
      var v: int := if signed && s[0] == '-' then -(DigitsValue(digits) as int) else DigitsValue(digits);
      if v < MinInt64 || v > MaxInt64 then None
      else Some((v, body[|digits|..]))
  }

  /** fmt.Sscanf(s, "%d%s", &value, &unit), None when it reports an error. */
  function ScanIntWord(s: string): (r: Option<(int, string)>)
    ensures r.Some? ==> MinInt64 <= r.value.0 <= MaxInt64
    ensures r.Some? ==> r.value.1 != [] && forall i :: 0 <= i < |r.value.1| ==> !ScanSpace(r.value.1[i])
  {
    match SkipBlanks(s)
    case None => None
    case Some(t) =>
      match ScanInt(t)
      case None => None
      case Some((v, rest)) =>
        match SkipBlanks(rest)
        case None => None
        case Some(u) => if u == [] then None else Some((v, Token(u)))
  }

  /** The unit table, on the upper-cased unit. */
  function UnitFactor(unit: string): (r: Option<int>)
    ensures r.Some? <==> unit in ["B", "KB", "MB", "GB"]
    ensures r.Some? ==> r.value in [1, 1024, 1024 * 1024, 1024 * 1024 * 1024]
  {
    if unit == "B" then Some(1)
    else if unit == "KB" then Some(1024)
    else if unit == "MB" then Some(1024 * 1024)
    else if unit == "GB" then Some(1024 * 1024 * 1024)
    else None
  }

  const DefaultBodyLimit: int := 4 * 1024 * 1024

  /** Go's int arithmetic: the value taken modulo 2^64 into the int64 range. */
  function Wrap64(x: int): (r: int)
    ensures MinInt64 <= r <= MaxInt64
    ensures MinInt64 <= x <= MaxInt64 ==> r == x
    ensures (r - x) % 0x1_0000_0000_0000_0000 == 0
  {
    (x - MinInt64) % 0x1_0000_0000_0000_0000 + MinInt64
  }

  /** fiberBodyLimitToInt */
  function BodyLimit(bodyLimit: string): (r: int)
    ensures MinInt64 <= r <= MaxInt64
    ensures ScanIntWord(bodyLimit).None? ==> r == DefaultBodyLimit
    ensures ScanIntWord(bodyLimit).Some? && UnitFactor(ToUpper(ScanIntWord(bodyLimit).value.1)).None? ==> r == DefaultBodyLimit
  {
    match ScanIntWord(bodyLimit)
    case None => DefaultBodyLimit
    case Some((value, unit)) =>
      match UnitFactor(ToUpper(unit))
      case None => DefaultBodyLimit
      case Some(f) => Wrap64(value * f)
  }

  /** A unit the table knows is made of letters. */
  lemma UnitLetters(unit: string)
    requires UnitFactor(ToUpper(unit)).Some?
    ensures unit != [] && !IsDigit(unit[0])
    ensures forall i :: 0 <= i < |unit| ==> !ScanSpace(unit[i]) && (IsUpper(unit[i]) || IsLowerLetter(unit[i]))
  {
    var u := ToUpper(unit);
    forall i | 0 <= i < |unit|
      ensures IsUpper(unit[i]) || IsLowerLetter(unit[i])
    {
      assert u[i] == Upper(unit[i]);
      assert u[i] in "BKMG" by {
        assert u == "B" || u == "KB" || u == "MB" || u == "GB";
      }
    }
  }

  /** A number written by NatToString scans back as itself, leaving what follows it. */
  lemma ScanIntOf(n: nat, tail: string)
    requires n <= MaxInt64
    requires tail == [] || !IsDigit(tail[0])
    ensures ScanInt(NatToString(n) + tail) == Some((n, tail))
  {
    var d := NatToString(n);
    var s := d + tail;
    assert s[0] == d[0];
    LeadingDigitsAppend(d, tail);
    DigitsValueNatToString(n);
    assert s[|d|..] == tail;
  }

  lemma {:induction false} SkipSpaces(spaces: string, rest: string)
    requires forall i :: 0 <= i < |spaces| ==> spaces[i] == ' '
    requires rest == [] || !ScanSpace(rest[0])
    ensures SkipBlanks(spaces + rest) == Some(rest)
    decreases |spaces|
  {
    if spaces == [] {
      assert spaces + rest == rest;
    } else {
      var s := spaces + rest;
      assert s[0] == ' ';
      assert s[1..] == spaces[1..] + rest;
      SkipSpaces(spaces[1..], rest);
    }
  }

  /**
   * A number, optional spaces and a known unit in any case give the number
   * times the unit's factor, in int64 arithmetic.
   */
  lemma BodyLimitOf(n: nat, spaces: string, unit: string)
    requires n <= MaxInt64
    requires forall i :: 0 <= i < |spaces| ==> spaces[i] == ' '
    requires UnitFactor(ToUpper(unit)).Some?
    ensures BodyLimit(NatToString(n) + spaces + unit) == Wrap64(n * UnitFactor(ToUpper(unit)).value)
  {
    UnitLetters(unit);
    ScanIntWordOf(n, spaces, unit);
  }

  /** Sscanf reads back the number and the unit. */
  lemma ScanIntWordOf(n: nat, spaces: string, unit: string)
    requires n <= MaxInt64
    requires forall i :: 0 <= i < |spaces| ==> spaces[i] == ' '
    requires unit != [] && !IsDigit(unit[0]) && forall i :: 0 <= i < |unit| ==> !ScanSpace(unit[i])
    ensures ScanIntWord(NatToString(n) + spaces + unit) == Some((n, unit))
  {
    var d := NatToString(n);
    var tail := spaces + unit;
    SpacesBeforeUnit(spaces, unit);
    ScanIntOf(n, tail);
    NumberUnskipped(d, tail);
    TokenWhole(unit);
    AppendAssoc(d, spaces, unit);
    ScanIntWordSteps(d + tail, n, tail, unit);
  }

  /** The scan's three steps: no blanks before the number, the number, then blanks and the unit. */
  lemma ScanIntWordSteps(s: string, n: int, tail: string, unit: string)
    requires SkipBlanks(s) == Some(s) && ScanInt(s) == Some((n, tail))
    requires SkipBlanks(tail) == Some(unit) && unit != [] && Token(unit) == unit
    ensures ScanIntWord(s) == Some((n, unit))
  {
  }

  /** Spaces then a unit: the unit starts with no digit, and skipping blanks reaches it. */
  lemma SpacesBeforeUnit(spaces: string, unit: string)
    requires forall i :: 0 <= i < |spaces| ==> spaces[i] == ' '
    requires unit != [] && !IsDigit(unit[0]) && forall i :: 0 <= i < |unit| ==> !ScanSpace(unit[i])
    ensures var tail := spaces + unit; (tail == [] || !IsDigit(tail[0])) && SkipBlanks(tail) == Some(unit)
  {
    var tail := spaces + unit;
    if spaces == [] {
      assert tail == unit;
    } else {
      assert tail[0] == ' ';
    }
    SkipSpaces(spaces, unit);
  }

  /** A number's text starts with no blank, so skipping blanks leaves it whole. */
  lemma NumberUnskipped(d: string, tail: string)
    requires d != [] && IsDigit(d[0])
    ensures SkipBlanks(d + tail) == Some(d + tail)
  {
    assert (d + tail)[0] == d[0];
  }

  /** A number with no unit after it is a scan error: the default limit. */
  lemma BodyLimitNoUnit(n: nat, spaces: string)
    requires n <= MaxInt64
    requires forall i :: 0 <= i < |spaces| ==> spaces[i] == ' '
    ensures BodyLimit(NatToString(n) + spaces) == DefaultBodyLimit
  {
    ScanIntOf(n, spaces);
    assert !ScanSpace(NatToString(n)[0]);
    SkipSpaces([], NatToString(n) + spaces);
    assert spaces == spaces + [];
    SkipSpaces(spaces, []);
  }

  /** The microservice default "1MB" is 1048576 bytes. */
  lemma BodyLimitOneMB()
    ensures BodyLimit("1" + "MB") == 1048576
  {
    assert NatToString(1) == "1";
    assert ToUpper("MB") == "MB";
    BodyLimitOf(1, "", "MB");
    AppendEmptyMiddle("1", "MB");
  }

  // ------------------------------------------------------- error handler

  /** The JSON body of an error response. */
  datatype ErrorBody = ErrorBody(error: bool, message: string)

  /**
   * defaultErrorHandler: a *fiber.Error held directly gives its code, every
   * other error (an AppError, or a fiber error wrapped in another) gives
   * 500; the body carries the error's text.
   */
  function DefaultErrorHandler(err: GoError): (r: (int, ErrorBody))
    ensures r.1 == ErrorBody(true, ErrorText(err))
    ensures r.0 != 500 ==> err.Fiber? && r.0 == err.code
  {
    match err
    case Fiber(code, _) => (code, ErrorBody(true, ErrorText(err)))
    case _ => (500, ErrorBody(true, ErrorText(err)))
  }

  /**
   * An AppError's own status is ignored by the default handler, while
   * HandleError answers with it.
   */
  lemma DefaultHandlerIgnoresAppStatus(cat: Catalog, a: AppError)
    requires cat.Valid()
    ensures DefaultErrorHandler(App(a)).0 == 500
    ensures HandleError(cat, App(a)).0 == a.statusCode
  {
  }

  /** The type assertion does not look through wrapping: a wrapped fiber error gives 500. */
  lemma DefaultHandlerWrappedFiber(message: string, code: int, text: string)
    ensures DefaultErrorHandler(Wrapped(message, Fiber(code, text))).0 == 500
    ensures DefaultErrorHandler(Fiber(code, text)).0 == code
  {
  }
}
