/**
 * The main.go edit of cmd/flux/newcontroller.go: after generating a
 * controller, the generator adds the controllers package to main.go's
 * import block and registers the controller before the "// Start the
 * server" comment.  The controller name is normalised as in
 * cmd/flux/scaffold.go, and the module name is read from go.mod the same
 * way.  The generated controller, model and types files are templates
 * written to disk and are not modelled.
 */
module NewController {
  import opened Wrappers
  import opened Str
  import opened Scaffold

  const ImportSection: string := "import ("
  const StartServerComment: string := "// Start the server"

  /** The import line for the module's controllers package. */
  function ControllersImport(moduleName: string): string
  {
    "\"" + moduleName + "/app/controllers\""
  }

  // ------------------------------------------------------------ import splice

  /**
   * The import splice as written: when the import is absent and the file
   * has "import (", the import line goes before the first ")" of the whole
   * file, if that is past index 0.
   */
  function SpliceImport(content: string, imp: string): (r: string)
    ensures Contains(content, imp) || !Contains(content, ImportSection) ==> r == content
  {
    if !Contains(content, imp) && Contains(content, ImportSection) then
      var e := IndexOf(content, ")");
      if e > 0 then content[..e] + "\t" + imp + "\n" + content[e..] else content
    else content
  }

  /** Where the splice inserts: `e` is the first ")" of the file. */
  lemma SpliceImportInserts(content: string, imp: string, e: int)
    requires !Contains(content, imp) && Contains(content, ImportSection)
    requires 0 < e < |content| && content[e] == ')'
    requires forall j :: 0 <= j < e ==> content[j] != ')'
    ensures SpliceImport(content, imp) == content[..e] + "\t" + imp + "\n" + content[e..]
  {
    FirstCharAt(content, ')', e);
  }

  /** A changed file holds the import. */
  lemma SpliceImportAdds(content: string, imp: string)
    ensures SpliceImport(content, imp) != content ==> Contains(SpliceImport(content, imp), imp)
  {
    var r := SpliceImport(content, imp);
    if r != content {
      var e := IndexOf(content, ")");
      assert r == (content[..e] + "\t") + imp + ("\n" + content[e..]);
      ContainsInfix(content[..e] + "\t", imp, "\n" + content[e..]);
    }
  }

  /** Splicing the import twice is splicing it once. */
  lemma SpliceImportIdempotent(content: string, imp: string)
    ensures SpliceImport(SpliceImport(content, imp), imp) == SpliceImport(content, imp)
  {
    SpliceImportAdds(content, imp);
  }

  /**
   * The first ")" of the file need not close the import block: with a ")"
   * before "import (", the import line lands before the block.
   */
  lemma SpliceImportBeforeBlock(imp: string)
    requires '"' in imp
    ensures var content := "x)import (";
      SpliceImport(content, imp) == "x\t" + imp + "\n)import ("
  {
    var content := "x)import (";
    AbsentChar(content, imp, '"');
    assert OccursAt(content, ImportSection, 2) by {
      assert content[2..10] == ImportSection;
    }
    assert !OccursAt(content, ")", 0) by {
      assert content[0..1] == "x";
    }
    assert OccursAt(content, ")", 1) by {
      assert content[1..2] == ")";
    }
    assert IndexOf(content, ")") == 1;
    assert content[..1] == "x" && content[1..] == ")import (";
  }

  /**
   * The import splice as intended: the import line goes before the first
   * ")" after "import (", i.e. at the end of the import block.
   */
  function SpliceImportInBlock(content: string, imp: string): (r: string)
    ensures Contains(content, imp) || !Contains(content, ImportSection) ==> r == content
  {
    if !Contains(content, imp) && Contains(content, ImportSection) then
      var e := BlockClose(content);
      if e >= 0 then content[..e] + "\t" + imp + "\n" + content[e..] else content
    else content
  }

  /** The index of the first ")" after the first "import (", or -1. */
  function BlockClose(content: string): (e: int)
    requires Contains(content, ImportSection)
    ensures e < |content|
  {
    ContainsIndexOf(content, ImportSection);
    var s := IndexOf(content, ImportSection);
    var k := IndexOf(content[s..], ")");
    if k >= 0 then s + k else -1
  }

  /** A one-character word occurs exactly where that character is. */
  lemma OccursChar(t: string, c: char, j: int)
    requires 0 <= j < |t|
    ensures OccursAt(t, [c], j) <==> t[j] == c
  {
    assert t[j..j + 1] == [t[j]];
  }

  lemma NoParenInImportSection()
    ensures forall j :: 0 <= j < |ImportSection| ==> ImportSection[j] != ')'
  {
    assert ImportSection == ['i', 'm', 'p', 'o', 'r', 't', ' ', '('];
  }

  /** The intended splice inserts at the first ")" after the first "import (", never before the block. */
  lemma SpliceImportInBlockPlacement(content: string, imp: string)
    requires SpliceImportInBlock(content, imp) != content
    ensures var s := IndexOf(content, ImportSection);
      var k := IndexOf(content[s..], ")");
      0 <= s && |ImportSection| <= k && s + k < |content| && content[s + k] == ')'
      && SpliceImportInBlock(content, imp) == content[..s + k] + "\t" + imp + "\n" + content[s + k..]
  {
    var s, k := InBlockChanged(content, imp);
    var t := content[s..];
    assert OccursAt(t, ImportSection, 0) by {
      assert t[..|ImportSection|] == content[s..s + |ImportSection|];
    }
    CloseParenAfterImport(t, k);
    assert content[s + k] == t[k];
  }

  /** When the intended splice changes the file, "import (" and a later ")" were both found. */
  lemma InBlockChanged(content: string, imp: string) returns (s: int, k: int)
    requires SpliceImportInBlock(content, imp) != content
    ensures s == IndexOf(content, ImportSection) && OccursAt(content, ImportSection, s)
    ensures k == IndexOf(content[s..], ")") && k >= 0
    ensures SpliceImportInBlock(content, imp) == content[..s + k] + "\t" + imp + "\n" + content[s + k..]
  {
    assert !Contains(content, imp) && Contains(content, ImportSection);
    ContainsIndexOf(content, ImportSection);
    s := IndexOf(content, ImportSection);
    k := IndexOf(content[s..], ")");
    assert BlockClose(content) == if k >= 0 then s + k else -1;
  }

  /** In text starting with "import (", the first ")" comes after it. */
  lemma CloseParenAfterImport(t: string, k: int)
    requires OccursAt(t, ImportSection, 0)
    requires k == IndexOf(t, ")") && k >= 0
    ensures |ImportSection| <= k < |t| && t[k] == ')'
  {
    assert t[k..k + 1] == ")";
    NoParenAfterImport(t);
  }

  /** Text that starts with "import (" has no ")" among its first |"import ("| characters. */
  lemma NoParenAfterImport(t: string)
    requires OccursAt(t, ImportSection, 0)
    ensures forall j :: 0 <= j < |ImportSection| ==> !OccursAt(t, ")", j)
  {
    NoParenInImportSection();
    forall j | 0 <= j < |ImportSection|
      ensures !OccursAt(t, ")", j)
    {
      assert t[j] == t[..|ImportSection|][j] == ImportSection[j];
      OccursChar(t, ')', j);
    }
  }

  /** A changed file holds the import, so the intended splice is idempotent too. */
  lemma SpliceImportInBlockIdempotent(content: string, imp: string)
    ensures SpliceImportInBlock(SpliceImportInBlock(content, imp), imp) == SpliceImportInBlock(content, imp)
  {
    var r := SpliceImportInBlock(content, imp);
    if r != content {
      var e := BlockClose(content);
      assert r == (content[..e] + "\t") + imp + ("\n" + content[e..]);
      ContainsInfix(content[..e] + "\t", imp, "\n" + content[e..]);
    }
  }

  /** On the file of SpliceImportBeforeBlock the intended splice leaves the file alone: there is no ")" after "import (". */
  lemma SpliceImportInBlockAfterBlock(imp: string)
    requires '"' in imp
    ensures SpliceImportInBlock("x)import (", imp) == "x)import ("
  {
    var content := "x)import (";
    AbsentChar(content, imp, '"');
    ImportSectionAtTwo();
    assert content[2..] == ImportSection;
    NoParenAfterImport(content[2..]);
    assert IndexOf(content[2..], ")") == -1;
  }

  lemma ImportSectionAtTwo()
    ensures IndexOf("x)import (", ImportSection) == 2
  {
    var content := "x)import (";
    assert OccursAt(content, ImportSection, 2) by {
      assert content[2..10] == ImportSection;
    }
    assert !OccursAt(content, ImportSection, 0) by { assert content[0] == 'x'; }
    assert !OccursAt(content, ImportSection, 1) by { assert content[1] == ')'; }
  }

  // ------------------------------------------------------ registration splice

  /** The call that registers the controller named `name`. */
  function RegistrationCall(name: string): string
  {
    "app.RegisterController(&controllers." + name + "{}"
  }

  /** The comment line and indentation before the call. */
  function RegistrationHead(name: string): string
  {
    "\t// Register " + TrimSuffix(name, "Controller") + " controller\n\t"
  }

  /** The lines put before "// Start the server". */
  function ControllerRegistration(name: string): string
  {
    RegistrationHead(name) + RegistrationCall(name) + ")\n\n\t"
  }

  lemma Regroup(a: string, b: string, c: string, d: string, e: string)
    ensures a + (b + c + d) + e == (a + b) + c + (d + e)
  {
  }

  /** The registration splice: once, before the first "// Start the server", when the marker is there and the call is not. */
  function SpliceRegistration(content: string, name: string): (r: string)
    ensures !Contains(content, StartServerComment) || Contains(content, RegistrationCall(name)) ==> r == content
  {
    if Contains(content, StartServerComment) && !Contains(content, RegistrationCall(name)) then
      ReplaceFirst(content, StartServerComment, ControllerRegistration(name) + StartServerComment)
    else content
  }

  /** A change inserts the registration lines right before the first marker, and nothing else. */
  lemma SpliceRegistrationInserts(content: string, name: string)
    requires Contains(content, StartServerComment) && !Contains(content, RegistrationCall(name))
    ensures var i := IndexOf(content, StartServerComment);
      0 <= i && OccursAt(content, StartServerComment, i)
      && SpliceRegistration(content, name) == content[..i] + ControllerRegistration(name) + content[i..]
  {
    ReplaceFirstInserts(content, StartServerComment, ControllerRegistration(name));
  }

  /** Splicing the registration twice is splicing it once. */
  lemma SpliceRegistrationIdempotent(content: string, name: string)
    ensures SpliceRegistration(SpliceRegistration(content, name), name) == SpliceRegistration(content, name)
  {
    if Contains(content, StartServerComment) && !Contains(content, RegistrationCall(name)) {
      SpliceRegistrationInserts(content, name);
      var i := IndexOf(content, StartServerComment);
      var head, call, tail := RegistrationHead(name), RegistrationCall(name), ")\n\n\t";
      Regroup(content[..i], head, call, tail, content[i..]);
      ContainsInfix(content[..i] + head, call, tail + content[i..]);
    }
  }

  // ------------------------------------------------------------- main.go

  /** What reading main.go gave: absent, unreadable, or its text. */
  datatype MainFile = NoMain | UnreadableMain(err: string) | MainContent(content: string)

  /**
   * The main.go update for controller `name` (normalised) in module
   * `moduleName`: None when there is no main.go, the read error, or the
   * new text with the import and then the registration spliced in, the
   * import by the splice as written.
   */
  function UpdateMain(file: MainFile, name: string, moduleName: string): (r: Result<Option<string>, string>)
    ensures file.NoMain? <==> r == Ok(None)
    ensures file.UnreadableMain? <==> r.Err?
    ensures file.UnreadableMain? ==> r.error == "failed to read main.go: " + file.err
    ensures file.MainContent? ==>
      r == Ok(Some(SpliceRegistration(SpliceImport(file.content, ControllersImport(moduleName)), name)))
  {
    match file
    case NoMain => Ok(None)
    case UnreadableMain(e) => Err("failed to read main.go: " + e)
    case MainContent(c) =>
      Ok(Some(SpliceRegistration(SpliceImport(c, ControllersImport(moduleName)), name)))
  }

  lemma NoParenInComment()
    ensures ')' !in StartServerComment
  {
    assert StartServerComment
      == ['/', '/', ' ', 'S', 't', 'a', 'r', 't', ' ', 't', 'h', 'e', ' ', 's', 'e', 'r', 'v', 'e', 'r'];
  }

  /** The import splice never breaks the "// Start the server" marker: it inserts at a ")", which the marker lacks. */
  lemma SpliceImportKeepsMarker(content: string, imp: string)
    requires Contains(content, StartServerComment)
    ensures Contains(SpliceImport(content, imp), StartServerComment)
  {
    if SpliceImport(content, imp) != content {
      var e := IndexOf(content, ")");
      assert content[e] == ')' by {
        assert content[e..e + 1] == ")";
      }
      NoParenInComment();
      var ins := "\t" + imp + "\n";
      assert SpliceImport(content, imp) == content[..e] + ins + content[e..];
      InsertKeeps(content, e, ins, StartServerComment);
    }
  }

  /** Whenever main.go has the marker, the updated text registers the controller, whether or not it did before. */
  lemma UpdateMainRegisters(content: string, name: string, moduleName: string)
    requires Contains(content, StartServerComment)
    ensures var r := UpdateMain(MainContent(content), name, moduleName);
      r.Ok? && r.value.Some? && Contains(r.value.value, RegistrationCall(name))
  {
    var x := SpliceImport(content, ControllersImport(moduleName));
    SpliceImportKeepsMarker(content, ControllersImport(moduleName));
    if !Contains(x, RegistrationCall(name)) {
      SpliceRegistrationInserts(x, name);
      var i := IndexOf(x, StartServerComment);
      var head, call, tail := RegistrationHead(name), RegistrationCall(name), ")\n\n\t";
      Regroup(x[..i], head, call, tail, x[i..]);
      ContainsInfix(x[..i] + head, call, tail + x[i..]);
    }
  }

  // ------------------------------------------------------------------ rerun

  /** Every "/" is followed by a character other than "/": no empty path element and no trailing slash. */
  predicate SingleSlashes(s: string)
  {
    forall k :: 0 <= k < |s| && s[k] == '/' ==> k + 1 < |s| && s[k + 1] != '/'
  }

  /** A module path with single slashes gives an import line with single slashes. */
  lemma ImportSingleSlashes(moduleName: string)
    requires SingleSlashes(moduleName)
    ensures SingleSlashes(ControllersImport(moduleName))
  {
    var tail := "/app/controllers\"";
    var imp := ControllersImport(moduleName);
    var n := |moduleName|;
    assert imp == "\"" + moduleName + tail;
    assert tail == ['/', 'a', 'p', 'p', '/', 'c', 'o', 'n', 't', 'r', 'o', 'l', 'l', 'e', 'r', 's', '"'];
    forall k | 0 <= k < |imp| && imp[k] == '/'
      ensures k + 1 < |imp| && imp[k + 1] != '/'
    {
      if 1 <= k <= n {
        assert imp[k] == moduleName[k - 1];
        if k < n {
          assert imp[k + 1] == moduleName[k];
        }
      } else if k > n {
        assert imp[k] == tail[k - n - 1] && imp[k + 1] == tail[k - n];
      }
    }
  }

  /** An occurrence of a word with single slashes cannot straddle the start of "// Start the server". */
  lemma MarkerAvoids(s: string, w: string, j: int, i: int)
    requires OccursAt(s, w, j) && OccursAt(s, StartServerComment, i) && SingleSlashes(w)
    ensures j + |w| <= i || i <= j
  {
    assert s[i] == '/' && s[i + 1] == '/' by {
      assert s[i] == s[i..i + |StartServerComment|][0] == StartServerComment[0];
      assert s[i + 1] == s[i..i + |StartServerComment|][1] == StartServerComment[1];
    }
    forall k | j <= k < j + |w|
      ensures s[k] == w[k - j]
    {
      assert s[k] == s[j..j + |w|][k - j];
    }
    assert !(j < i < j + |w|);
  }

  /** With an import block and a ")" past the first character, the file holds the import after the splice. */
  lemma SpliceImportHas(content: string, imp: string)
    requires Contains(content, ImportSection) && 0 < IndexOf(content, ")")
    ensures Contains(SpliceImport(content, imp), imp)
  {
    if !Contains(content, imp) {
      var e := IndexOf(content, ")");
      assert |SpliceImport(content, imp)| == |content| + |imp| + 2;
      SpliceImportAdds(content, imp);
    }
  }

  /** The registration splice never shortens the file. */
  lemma SpliceRegistrationGrows(content: string, name: string)
    ensures |SpliceRegistration(content, name)| >= |content|
  {
    if Contains(content, StartServerComment) && !Contains(content, RegistrationCall(name)) {
      SpliceRegistrationInserts(content, name);
    }
  }

  /**
   * Running the main.go update again changes nothing, when main.go starts
   * with its package clause, has an import block and a ")" (as any Go file
   * with an import block does), and the module path has single slashes.
   */
  lemma UpdateMainRerun(content: string, name: string, moduleName: string)
    requires HasPrefix(content, "package") && Contains(content, ImportSection) && Contains(content, ")")
    requires SingleSlashes(moduleName)
    ensures var r := UpdateMain(MainContent(content), name, moduleName);
      r.Ok? && r.value.Some? && UpdateMain(MainContent(r.value.value), name, moduleName) == r
  {
    var imp := ControllersImport(moduleName);
    ContainsIndexOf(content, ")");
    var e := IndexOf(content, ")");
    assert e != 0 by {
      assert content[0] == 'p';
    }
    SpliceImportHas(content, imp);
    var x := SpliceImport(content, imp);
    var t := SpliceRegistration(x, name);
    if t != x {
      SpliceRegistrationInserts(x, name);
      var i := IndexOf(x, StartServerComment);
      ContainsIndexOf(x, imp);
      var j := IndexOf(x, imp);
      ImportSingleSlashes(moduleName);
      MarkerAvoids(x, imp, j, i);
      InsertKeepsAt(x, i, ControllerRegistration(name), imp, j);
    }
    assert Contains(t, imp);
    SpliceRegistrationIdempotent(x, name);
  }

  /** The registration block starts with a tab and holds a ")". */
  lemma RegistrationParen(name: string)
    ensures var reg := ControllerRegistration(name); reg[0] == '\t' && ')' in reg
  {
    var reg := ControllerRegistration(name);
    assert reg[|reg| - 4] == ')';
  }

  /** For a name without '"', the comment line of the registration has no '"' either. */
  lemma HeadUnquoted(name: string)
    requires '"' !in name
    ensures '"' !in RegistrationHead(name)
  {
    var base := TrimSuffix(name, "Controller");
    forall k | 0 <= k < |base| ensures base[k] != '"' {
      if HasSuffix(name, "Controller") {
        assert base[k] == (base + "Controller")[k];
      }
    }
    assert '"' !in "\t// Register " && '"' !in " controller\n\t";
  }

  /** For a name without '"', the registration block has no '"' either. */
  lemma RegistrationUnquoted(name: string)
    requires '"' !in name
    ensures '"' !in ControllerRegistration(name)
  {
    HeadUnquoted(name);
    assert '"' !in "app.RegisterController(&controllers." && '"' !in "{}";
  }

  /** Text inserted after a part without ")" brings the first ")", which is past index 0. */
  lemma ParenInInsert(a: string, reg: string, b: string)
    requires ')' !in a && ')' in reg && reg[0] != ')'
    ensures 0 < IndexOf(a + reg + b, ")")
  {
    var t := a + reg + b;
    var r :| 0 <= r < |reg| && reg[r] == ')';
    assert t[|a| + r..|a| + r + 1] == [t[|a| + r]] == ")";
    ContainsAt(t, ")", |a| + r);
    ContainsIndexOf(t, ")");
    var e := IndexOf(t, ")");
    assert t[e] == t[e..e + 1][0];
    if |a| == 0 { assert t[0] == reg[0]; } else { assert t[0] == a[0]; }
  }

  /** A rerun on a main.go with the block, a ")" past index 0 and no import grows the file. */
  lemma RerunGrows(t: string, name: string, imp: string)
    requires Contains(t, ImportSection) && !Contains(t, imp) && 0 < IndexOf(t, ")")
    ensures |SpliceRegistration(SpliceImport(t, imp), name)| > |t|
  {
    SpliceRegistrationGrows(SpliceImport(t, imp), name);
  }

  /** Registering at the marker keeps the import block. */
  lemma RegistrationKeepsBlock(content: string, i: int, reg: string)
    requires Contains(content, ImportSection) && OccursAt(content, StartServerComment, i)
    ensures Contains(content[..i] + reg + content[i..], ImportSection)
  {
    var j :| 0 <= j <= |content| - |ImportSection| && OccursAt(content, ImportSection, j);
    assert SingleSlashes(ImportSection) by { assert '/' !in ImportSection; }
    MarkerAvoids(content, ImportSection, j, i);
    InsertKeepsAt(content, i, reg, ImportSection, j);
  }

  /** Without a ")" the first run places no import and only registers the controller. */
  lemma FirstRunOnlyRegisters(content: string, name: string, imp: string)
    requires Contains(content, StartServerComment) && ')' !in content
    requires !Contains(content, RegistrationCall(name))
    ensures var i := IndexOf(content, StartServerComment);
      0 <= i && OccursAt(content, StartServerComment, i)
      && SpliceRegistration(SpliceImport(content, imp), name) == content[..i] + ControllerRegistration(name) + content[i..]
  {
    LacksChar(content, ")", 0);
    ContainsIndexOf(content, ")");
    assert SpliceImport(content, imp) == content;
    SpliceRegistrationInserts(content, name);
  }

  /**
   * As written, a rerun of the main.go update is not idempotent on a main.go
   * whose import block has no ")": the first run cannot place the import but
   * registers the controller, whose call brings a ")", and the second run
   * then places the import before it.
   */
  lemma UpdateMainRerunChanges(content: string, name: string, moduleName: string)
    requires Contains(content, ImportSection) && Contains(content, StartServerComment)
    requires ')' !in content && '"' !in content && '"' !in name
    requires !Contains(content, RegistrationCall(name))
    ensures var once := UpdateMain(MainContent(content), name, moduleName);
      once.Ok? && once.value.Some? && UpdateMain(MainContent(once.value.value), name, moduleName) != once
  {
    var imp := ControllersImport(moduleName);
    FirstRunOnlyRegisters(content, name, imp);
    var i := IndexOf(content, StartServerComment);
    var reg := ControllerRegistration(name);
    var t := content[..i] + reg + content[i..];
    assert UpdateMain(MainContent(content), name, moduleName) == Ok(Some(t));
    RegistrationKeepsBlock(content, i, reg);
    RegistrationParen(name);
    RegistrationUnquoted(name);
    assert '"' !in content[..i] && '"' !in content[i..];
    assert imp[0] == '"';
    LacksChar(t, imp, 0);
    assert ')' !in content[..i];
    ParenInInsert(content[..i], reg, content[i..]);
    RerunGrows(t, name, imp);
    assert UpdateMain(MainContent(t), name, moduleName) == Ok(Some(SpliceRegistration(SpliceImport(t, imp), name)));
  }

  /** The smallest such main.go: the import block is open and the marker follows. */
  function OpenImportMain(): string
  {
    ImportSection + "\n" + StartServerComment + "\n"
  }

  /** The import opener has no ")" and no '"'. */
  lemma ImportSectionPlain()
    ensures ')' !in ImportSection && '"' !in ImportSection
  {
    assert ImportSection == ['i', 'm', 'p', 'o', 'r', 't', ' ', '('];
  }

  /** The marker has no ")" and no '"'. */
  lemma MarkerPlain()
    ensures ')' !in StartServerComment && '"' !in StartServerComment
  {
    assert StartServerComment == ['/', '/', ' ', 'S', 't', 'a', 'r', 't', ' ', 't', 'h', 'e', ' ', 's', 'e', 'r', 'v', 'e', 'r'];
  }

  /** The open-block main.go has the block and the marker, and no ")" or '"'. */
  lemma OpenImportMainShape()
    ensures Contains(OpenImportMain(), ImportSection) && Contains(OpenImportMain(), StartServerComment)
    ensures ')' !in OpenImportMain() && '"' !in OpenImportMain()
  {
    var content := OpenImportMain();
    ContainsAt(content, ImportSection, 0);
    ContainsInfix(ImportSection + "\n", StartServerComment, "\n");
    ImportSectionPlain();
    MarkerPlain();
  }

  /** Rerunning the update for XController in module m on that main.go changes it. */
  lemma UpdateMainRerunWithoutParen()
    ensures var once := UpdateMain(MainContent(OpenImportMain()), "XController", "m");
      once.Ok? && once.value.Some? && UpdateMain(MainContent(once.value.value), "XController", "m") != once
  {
    OpenImportMainShape();
    assert !Contains(OpenImportMain(), RegistrationCall("XController")) by {
      assert |RegistrationCall("XController")| > |OpenImportMain()|;
    }
    assert '"' !in "XController";
    UpdateMainRerunChanges(OpenImportMain(), "XController", "m");
  }
}
