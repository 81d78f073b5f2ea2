/** Free helpers of the client (functions.go) and the file-name rule UploadDocument uses. */
module Functions {
  import opened Types

  /** `MakeDocumentPath`: project, then the folder if there is one, then the name, joined by "/". */
  function MakeDocumentPath(doc: CreateDocumentBody): (path: string)
    ensures doc.folder == "" ==> path == doc.project + "/" + doc.name
    ensures doc.folder != "" ==> path == doc.project + "/" + doc.folder + "/" + doc.name
    ensures |path| == |doc.project| + 1 + |doc.name| + (if doc.folder == "" then 0 else |doc.folder| + 1)
    ensures path[..|doc.project| + 1] == doc.project + "/"
    ensures path[|path| - |doc.name|..] == doc.name
  {
    var folder := if doc.folder != "" then doc.folder + "/" else "";
    doc.project + "/" + folder + doc.name
  }

  /** The folder counterpart; it follows the same composition rule as documents. */
  function MakeFolderPath(body: CreateFolderBody): (path: string)
    ensures body.folder == "" ==> path == body.project + "/" + body.name
    ensures body.folder != "" ==> path == body.project + "/" + body.folder + "/" + body.name
  {
    MakeDocumentPath(CreateDocumentBody(body.name, body.project, body.folder, ""))
  }

  /** The insignificant whitespace of RFC 8259, section 2. */
  predicate IsJsonSpace(ch: char)
  {
    ch == ' ' || ch == '\t' || ch == '\n' || ch == '\r'
  }

  /** The characters a JSON value can begin with (RFC 8259, sections 3 to 7). */
  const ValueStarts: set<char> := {'{', '[', '"', '-', '0', '1', '2', '3', '4', '5', '6', '7', '8', '9', 't', 'f', 'n'}

  /** The text with its leading whitespace dropped. */
  function SkipSpace(s: string): (t: string)
    ensures |t| <= |s| && t == s[|s| - |t|..]
    ensures t != [] ==> !IsJsonSpace(t[0])
  {
    if s != [] && IsJsonSpace(s[0]) then SkipSpace(s[1..]) else s
  }

  /** The rest of the grammar `json.Valid` of the Go standard library checks (a value's full
      syntax and nothing but whitespace after it): kept uninterpreted. */
  const JsonGrammar: string -> bool

  /** `IsValidJsonString`: whether a string is JSON text. JSON text is a value between optional
      whitespace, so a valid text has a first non-space character and it opens a value. */
  function IsValidJsonString(s: string): (valid: bool)
    ensures valid ==> 0 < |SkipSpace(s)| <= |s| && !IsJsonSpace(s[|s| - |SkipSpace(s)|])
  {
    var t := SkipSpace(s);
    t != [] && t[0] in ValueStarts && JsonGrammar(s)
  }

  /** SkipSpace drops only whitespace: every character before its result is a space. */
  lemma {:induction false} SkipSpaceDropsOnlySpace(s: string)
    ensures forall i | 0 <= i < |s| - |SkipSpace(s)| :: IsJsonSpace(s[i])
    decreases |s|
  {
    if s != [] && IsJsonSpace(s[0]) {
      SkipSpaceDropsOnlySpace(s[1..]);
      forall i | 0 <= i < |s| - |SkipSpace(s)|
        ensures IsJsonSpace(s[i])
      {
        if i > 0 {
          assert s[i] == s[1..][i - 1];
        }
      }
    }
  }

  /** In valid JSON text the first character after the leading whitespace opens a value. */
  lemma ValidTextOpensAValue(s: string)
    requires IsValidJsonString(s)
    ensures 0 < |SkipSpace(s)| <= |s| && s[|s| - |SkipSpace(s)|] in ValueStarts
  {
    var t := SkipSpace(s);
    assert s[|s| - |t|] == t[0];
  }

  /** Whitespace-only text has nothing left once its leading whitespace is skipped. */
  lemma {:induction false} BlankSkipsToEmpty(s: string)
    requires forall i | 0 <= i < |s| :: IsJsonSpace(s[i])
    ensures SkipSpace(s) == []
    decreases |s|
  {
    if s != [] {
      assert forall i | 0 <= i < |s[1..]| :: IsJsonSpace(s[1..][i]) by {
        forall i | 0 <= i < |s[1..]| ensures IsJsonSpace(s[1..][i]) {
          assert s[1..][i] == s[i + 1];
        }
      }
      BlankSkipsToEmpty(s[1..]);
    }
  }

  /** Empty and blank content is never JSON text. */
  lemma BlankIsInvalid(s: string)
    requires forall i | 0 <= i < |s| :: IsJsonSpace(s[i])
    ensures !IsValidJsonString(s)
  {
    BlankSkipsToEmpty(s);
  }

  // ---------- filepath.Base on a Unix path ----------

  function TrimTrailingSlashes(p: string): (t: string)
    ensures |t| <= |p| && t == p[..|t|]
    ensures t != [] ==> t[|t| - 1] != '/'
    ensures forall i | |t| <= i < |p| :: p[i] == '/'
  {
    if p != [] && p[|p| - 1] == '/' then
      var t := TrimTrailingSlashes(p[..|p| - 1]);
      assert p[..|p| - 1][..|t|] == p[..|t|];
      t
    else p
  }

  /** The characters after the last '/'. */
  function LastElement(p: string): (e: string)
    ensures |e| <= |p| && e == p[|p| - |e|..]
    ensures '/' !in e
    ensures |e| == |p| || p[|p| - |e| - 1] == '/'
    ensures p != [] && p[|p| - 1] != '/' ==> e != []
  {
    if p == [] || p[|p| - 1] == '/' then []
    else
      var init := p[..|p| - 1];
      var e := LastElement(init);
      assert init[|init| - |e|..] + [p[|p| - 1]] == p[|p| - |e| - 1..];
      e + [p[|p| - 1]]
  }

  /** `filepath.Base`: "." for the empty path, "/" for a path of slashes only, otherwise the last
      element after trailing slashes are dropped. */
  function Base(p: string): (b: string)
    ensures p == "" ==> b == "."
    ensures p != "" && TrimTrailingSlashes(p) == "" ==> b == "/"
    ensures TrimTrailingSlashes(p) != "" ==>
              var t := TrimTrailingSlashes(p);
              b != "" && '/' !in b && |b| <= |t| && b == t[|t| - |b|..] && (|b| == |t| || t[|t| - |b| - 1] == '/')
  {
    if p == "" then "."
    else
      var t := TrimTrailingSlashes(p);
      if t == "" then "/" else LastElement(t)
  }

  /** A base name is never empty, and it holds no '/' unless it is "/" itself. */
  lemma BaseIsAName(p: string)
    ensures Base(p) != ""
    ensures Base(p) != "/" ==> '/' !in Base(p)
  {
  }

  /** A bare file name, the usual upload argument, is its own base name. */
  lemma BaseOfBareName(p: string)
    requires p != "" && '/' !in p
    ensures Base(p) == p
  {
    assert p[|p| - 1] in p;
  }

  /** The base name is what follows the last '/' of the path, after trailing slashes. */
  lemma {:induction false} BaseOfJoin(dir: string, name: string)
    requires name != "" && '/' !in name
    ensures Base(dir + "/" + name) == name
  {
    var p := dir + "/" + name;
    assert TrimTrailingSlashes(p) == p;
    LastElementOfJoin(dir, name);
  }

  lemma {:induction false} LastElementOfJoin(dir: string, name: string)
    requires '/' !in name
    ensures LastElement(dir + "/" + name) == name
    decreases |name|
  {
    var p := dir + "/" + name;
    if name == [] {
    } else {
      var last := name[|name| - 1];
      assert p[..|p| - 1] == dir + "/" + name[..|name| - 1];
      assert last in name;
      LastElementOfJoin(dir, name[..|name| - 1]);
      assert name == name[..|name| - 1] + [last];
    }
  }
}
