// Guards applied to every query: refusal categories, PII masking, the grounding
// requirement, sandboxed file paths, and their combination.

module Policy {
  import opened Wrappers
  import Text
  import Pii
  import Paths

  // ---------------------------------------------------------------------
  // Refusal patterns

  /** One alternative of a refusal regex: a literal word, or `first.*second`
      (where `.` does not cross a line break). */
  datatype Alt = Word(w: string) | Then(first: string, second: string)

  /** A regex written as alternatives separated by `|`. */
  type Pattern = seq<Alt>

  /** No line break in `s[a..b]`. */
  predicate NoNewline(s: string, a: int, b: int)
    requires 0 <= a && b <= |s|
  {
    forall q :: a <= q < b ==> s[q] != '\n'
  }

  /** `.*y` matches at the start of `u`: `y` occurs before any line break. */
  predicate OnSameLine(y: string, u: string)
    decreases |u|
  {
    Text.StartsWith(u, y) || (|u| > 0 && u[0] != '\n' && OnSameLine(y, u[1..]))
  }

  /** `re.search("x.*y", s)` as a left-to-right scan. */
  predicate Follows(x: string, y: string, s: string)
    decreases |s|
  {
    (Text.StartsWith(s, x) && OnSameLine(y, s[|x|..])) || (|s| > 0 && Follows(x, y, s[1..]))
  }

  predicate AltMatches(a: Alt, s: string) {
    match a
    case Word(w) => Text.Occurs(w, s)
    case Then(x, y) => Follows(x, y, s)
  }

  /** `re.search(pattern, s)` succeeds. */
  predicate PatternMatches(p: Pattern, s: string) {
    exists k :: 0 <= k < |p| && AltMatches(p[k], s)
  }

  datatype Category = Legal | Medical | Financial | DocumentGeneration

  /** The reason string returned with a refusal. */
  function CategoryName(c: Category): string {
    match c
    case Legal => "legal"
    case Medical => "medical"
    case Financial => "financial"
    case DocumentGeneration => "document_generation"
  }

  /** The refusal table, tried in order. */
  const RefuseTable: seq<(Pattern, Category)> := [
    ([Word("legal advice"), Word("lawyer"), Word("legal counsel"), Word("sue"), Word("lawsuit"),
      Word("legal opinion")], Legal),
    ([Word("medical advice"), Word("diagnose"), Word("prescription"), Word("treatment"),
      Word("doctor"), Word("symptom"), Word("disease"), Word("medicine")], Medical),
    ([Word("financial advice"), Word("investment"), Word("trading"), Word("stock pick"),
      Then("buy", "stock"), Then("sell", "stock")], Financial),
    ([Then("generate", "letter"), Then("write", "contract"), Then("draft", "document"),
      Then("create", "legal")], DocumentGeneration)
  ]

  /** The first row at or after `i` whose pattern matches `s`. */
  function FirstRefusal(s: string, i: nat): Option<Category>
    requires i <= |RefuseTable|
    decreases |RefuseTable| - i
  {
    if i == |RefuseTable| then None
    else if PatternMatches(RefuseTable[i].0, s) then Some(RefuseTable[i].1)
    else FirstRefusal(s, i + 1)
  }

  /** The category a query is refused for, matched on its lower-cased text. */
  function Refusal(query: string): Option<Category> {
    FirstRefusal(Text.Lower(query), 0)
  }

  /** `check_refuse_patterns`: tries the table in order and stops at the first match. */
  method CheckRefusePatterns(query: string) returns (refuse: bool, reason: Option<Category>)
    ensures reason == Refusal(query)
    ensures refuse <==> reason.Some?
  {
    var lower := Text.Lower(query);
    for i := 0 to |RefuseTable|
      invariant FirstRefusal(lower, i) == FirstRefusal(lower, 0)
    {
      if PatternMatches(RefuseTable[i].0, lower) {
        return true, Some(RefuseTable[i].1);
      }
    }
    return false, None;
  }

  /** A query is refused for category `c` exactly when the row for `c` matches
      and no earlier row does. */
  lemma {:induction false} FirstRefusalIff(s: string, i: nat, c: Category)
    requires i <= |RefuseTable|
    ensures FirstRefusal(s, i) == Some(c) <==>
      exists r :: i <= r < |RefuseTable| && RefuseTable[r].1 == c && PatternMatches(RefuseTable[r].0, s) &&
        forall e :: i <= e < r ==> !PatternMatches(RefuseTable[e].0, s)
    decreases |RefuseTable| - i
  {
    if i < |RefuseTable| && !PatternMatches(RefuseTable[i].0, s) {
      FirstRefusalIff(s, i + 1, c);
      if FirstRefusal(s, i) == Some(c) {
        var r :| i + 1 <= r < |RefuseTable| && RefuseTable[r].1 == c && PatternMatches(RefuseTable[r].0, s) &&
          forall e :: i + 1 <= e < r ==> !PatternMatches(RefuseTable[e].0, s);
        assert forall e :: i <= e < r ==> !PatternMatches(RefuseTable[e].0, s);
      }
    }
  }

  /** A query passes exactly when no row of the table matches it. */
  lemma {:induction false} FirstRefusalNoneIff(s: string, i: nat)
    requires i <= |RefuseTable|
    ensures FirstRefusal(s, i) == None <==> forall r :: i <= r < |RefuseTable| ==> !PatternMatches(RefuseTable[r].0, s)
    decreases |RefuseTable| - i
  {
    if i < |RefuseTable| {
      FirstRefusalNoneIff(s, i + 1);
    }
  }

  /** "sue" anywhere in the lower-cased query refuses it as legal, even inside
      another word such as "issue" or "pursue". */
  lemma SueRefusedAsLegal(query: string)
    requires Text.Occurs("sue", Text.Lower(query))
    ensures Refusal(query) == Some(Legal)
  {
    assert AltMatches(RefuseTable[0].0[3], Text.Lower(query));
  }

  // `.*` and the line-break restriction, stated declaratively.

  lemma {:induction false} OnSameLineIff(y: string, u: string)
    ensures OnSameLine(y, u) <==> exists j :: Text.OccursAt(y, u, j) && NoNewline(u, 0, j)
    decreases |u|
  {
    if Text.StartsWith(u, y) {
      assert Text.OccursAt(y, u, 0) && NoNewline(u, 0, 0);
    } else if |u| > 0 {
      OnSameLineIff(y, u[1..]);
      if OnSameLine(y, u) {
        var j :| Text.OccursAt(y, u[1..], j) && NoNewline(u[1..], 0, j);
        assert u[1..][j..j + |y|] == u[j + 1..j + 1 + |y|];
        assert Text.OccursAt(y, u, j + 1) && NoNewline(u, 0, j + 1);
      }
      if exists j :: Text.OccursAt(y, u, j) && NoNewline(u, 0, j) {
        var j :| Text.OccursAt(y, u, j) && NoNewline(u, 0, j);
        assert j != 0 ==> u[1..][j - 1..j - 1 + |y|] == u[j..j + |y|];
        assert j != 0 ==> Text.OccursAt(y, u[1..], j - 1) && NoNewline(u[1..], 0, j - 1);
      }
    }
  }

  /** `x` occurs and `y` occurs after it with no line break in between. */
  predicate FollowsAt(x: string, y: string, s: string, i: int, j: int) {
    Text.OccursAt(x, s, i) && i + |x| <= j && Text.OccursAt(y, s, j) && NoNewline(s, i + |x|, j)
  }

  /** A match of `x.*y` found by the scan has such a pair of occurrences. */
  lemma {:induction false} FollowsSound(x: string, y: string, s: string)
    requires Follows(x, y, s)
    ensures exists i, j :: FollowsAt(x, y, s, i, j)
    decreases |s|
  {
    if Text.StartsWith(s, x) && OnSameLine(y, s[|x|..]) {
      var t := s[|x|..];
      OnSameLineIff(y, t);
      var j :| Text.OccursAt(y, t, j) && NoNewline(t, 0, j);
      assert t[j..j + |y|] == s[|x| + j..|x| + j + |y|];
      assert FollowsAt(x, y, s, 0, |x| + j);
    } else {
      FollowsSound(x, y, s[1..]);
      var i, j :| FollowsAt(x, y, s[1..], i, j);
      assert s[1..][i..i + |x|] == s[i + 1..i + 1 + |x|];
      assert s[1..][j..j + |y|] == s[j + 1..j + 1 + |y|];
      assert FollowsAt(x, y, s, i + 1, j + 1);
    }
  }

  /** Any such pair of occurrences is found by the scan. */
  lemma {:induction false} FollowsComplete(x: string, y: string, s: string, i: int, j: int)
    requires FollowsAt(x, y, s, i, j)
    ensures Follows(x, y, s)
    decreases i
  {
    if i == 0 {
      var t := s[|x|..];
      assert Text.StartsWith(s, x);
      OnSameLineIff(y, t);
      assert t[j - |x|..j - |x| + |y|] == s[j..j + |y|];
      assert NoNewline(t, 0, j - |x|) by {
        forall q | 0 <= q < j - |x| ensures t[q] != '\n' {
          assert t[q] == s[|x| + q];
        }
      }
      assert Text.OccursAt(y, t, j - |x|);
      assert OnSameLine(y, t);
    } else {
      var u := s[1..];
      assert u[i - 1..i - 1 + |x|] == s[i..i + |x|];
      assert u[j - 1..j - 1 + |y|] == s[j..j + |y|];
      assert NoNewline(u, i - 1 + |x|, j - 1) by {
        forall q | i - 1 + |x| <= q < j - 1 ensures u[q] != '\n' {
          assert u[q] == s[q + 1];
        }
      }
      FollowsComplete(x, y, u, i - 1, j - 1);
    }
  }

  /** `x.*y` matches exactly when `x` occurs and `y` occurs after it with no
      line break in between. */
  lemma FollowsIff(x: string, y: string, s: string)
    ensures Follows(x, y, s) <==> exists i, j :: FollowsAt(x, y, s, i, j)
  {
    if Follows(x, y, s) {
      FollowsSound(x, y, s);
    }
    if exists i, j :: FollowsAt(x, y, s, i, j) {
      var i, j :| FollowsAt(x, y, s, i, j);
      FollowsComplete(x, y, s, i, j);
    }
  }

  // ---------------------------------------------------------------------
  // PII masking

  /** The patterns of `kinds` substituted in turn, each over the previous result. */
  function MaskWith(text: string, kinds: seq<Pii.Kind>): string
    decreases |kinds|
  {
    if |kinds| == 0 then text else MaskWith(Pii.Substitute(kinds[0], text, 0), kinds[1..])
  }

  /** `mask_pii`: email, then SSN, then phone, then credit-card numbers. */
  function Masked(text: string): string {
    MaskWith(text, Pii.PiiTable)
  }

  /** `mask_pii`: substitutes a pattern only when `re.findall` reports a match. */
  method MaskPii(text: string) returns (masked: string)
    ensures masked == Masked(text)
  {
    masked := text;
    for i := 0 to |Pii.PiiTable|
      invariant MaskWith(masked, Pii.PiiTable[i..]) == Masked(text)
    {
      var kind := Pii.PiiTable[i];
      assert Pii.PiiTable[i..][1..] == Pii.PiiTable[i + 1..];
      if Pii.HasMatchFrom(kind, masked, 0) {
        masked := Pii.Substitute(kind, masked, 0);
      } else {
        Pii.SubstituteNoMatch(kind, masked, 0);
      }
    }
  }

  /** Text in which no pattern of `kinds` matches passes through unchanged. */
  lemma {:induction false} MaskWithNoMatch(text: string, kinds: seq<Pii.Kind>)
    requires forall k :: 0 <= k < |kinds| ==> !Pii.HasMatchFrom(kinds[k], text, 0)
    ensures MaskWith(text, kinds) == text
    decreases |kinds|
  {
    if |kinds| > 0 {
      Pii.SubstituteNoMatch(kinds[0], text, 0);
      assert forall k :: 0 <= k < |kinds[1..]| ==> kinds[1..][k] == kinds[k + 1];
      MaskWithNoMatch(text, kinds[1..]);
    }
  }

  /** Text with no e-mail address, SSN, phone or card number is returned as it is. */
  lemma MaskedNoPii(text: string)
    requires forall k :: 0 <= k < |Pii.PiiTable| ==> !Pii.HasMatchFrom(Pii.PiiTable[k], text, 0)
    ensures Masked(text) == text
  {
    MaskWithNoMatch(text, Pii.PiiTable);
  }

  /** Masking is the e-mail pass followed by the three fixed-width passes. */
  lemma MaskedPassOrder(text: string)
    ensures Masked(text) ==
      Pii.Substitute(Pii.CreditCard,
        Pii.Substitute(Pii.Phone,
          Pii.Substitute(Pii.Ssn,
            Pii.Substitute(Pii.Email, text, 0), 0), 0), 0)
  {
    var t := Pii.PiiTable;
    assert t[1..][1..][1..][1..] == [];
  }

  // ---------------------------------------------------------------------
  // Grounding

  /** Intents that ask for facts, which must come from retrieved documents. */
  const FactualPatterns: seq<Pattern> := [
    [Word("what is"), Word("how much"), Word("when"), Word("where"), Word("who"), Word("explain"),
     Word("describe")],
    [Word("policy"), Word("procedure"), Word("allowance"), Word("rate"), Word("formula")]
  ]

  const GroundingError: string := "Query requires grounding but no documents retrieved"

  predicate FactualIntent(query: string) {
    exists p :: 0 <= p < |FactualPatterns| && PatternMatches(FactualPatterns[p], Text.Lower(query))
  }

  /** The error of `check_grounding_required`, if it fails. */
  function Grounding<C>(query: string, chunks: seq<C>): Option<string> {
    if |chunks| == 0 && FactualIntent(query) then Some(GroundingError) else None
  }

  /** `check_grounding_required`: only an empty retrieval of a factual query fails. */
  method CheckGroundingRequired<C>(query: string, chunks: seq<C>) returns (grounded: bool, error: Option<string>)
    ensures error == Grounding(query, chunks)
    ensures grounded <==> |chunks| > 0 || !FactualIntent(query)
    ensures grounded <==> error.None?
  {
    if |chunks| == 0 {
      var lower := Text.Lower(query);
      for p := 0 to |FactualPatterns|
        invariant forall e :: 0 <= e < p ==> !PatternMatches(FactualPatterns[e], lower)
      {
        if PatternMatches(FactualPatterns[p], lower) {
          return false, Some(GroundingError);
        }
      }
    }
    return true, None;
  }

  // ---------------------------------------------------------------------
  // Refusal responses

  /** The words every refusal template opens with. */
  const RefusalOpening: string := "I cannot "

  /** The rest of the template for a reason, or of the generic refusal. */
  function RefusalBody(reason: string): string {
    if reason == "legal" then
      "provide legal advice. For legal questions, please consult "
      + "with a qualified attorney. I can help answer questions about company "
      + "policies and procedures based on our internal documents."
    else if reason == "medical" then
      "provide medical advice or diagnoses. For medical questions, "
      + "please consult with a qualified healthcare provider. I can help answer "
      + "questions about company policies and procedures."
    else if reason == "financial" then
      "provide financial or investment advice. For financial questions, "
      + "please consult with a qualified financial advisor. I can help answer "
      + "questions about company policies and procedures."
    else if reason == "document_generation" then
      "generate legal documents, contracts, or letters. For document "
      + "generation needs, please consult with appropriate legal or administrative "
      + "resources. I can help answer questions about company policies and procedures."
    else "assist with this request."
  }

  /** `create_refusal_response`: the template for a reason, or a generic
      refusal; every one of them says "I cannot". */
  function RefusalResponse(reason: string): (r: string)
    ensures Text.StartsWith(r, "I cannot ")
  {
    RefusalOpening + RefusalBody(reason)
  }

  /** An unknown reason gets the generic refusal. */
  lemma RefusalUnknownReason(reason: string)
    requires forall c: Category :: reason != CategoryName(c)
    ensures RefusalResponse(reason) == "I cannot assist with this request."
  {
    assert reason != CategoryName(Legal) && reason != CategoryName(Medical);
    assert reason != CategoryName(Financial) && reason != CategoryName(DocumentGeneration);
  }

  // ---------------------------------------------------------------------
  // Sandboxed file paths

  /** Where the process runs: its working directory and the components of the
      project root, under which `data/sandbox` is the sandbox. */
  datatype Env = Env(cwd: string, projectRoot: seq<string>)

  /** `SANDBOX_DIR.resolve()` */
  function Sandbox(env: Env): seq<string> {
    Paths.Normalize(env.projectRoot + ["data", "sandbox"])
  }

  const NullByteError: string := "Invalid path: embedded null byte"

  /** `validate_file_path`: the path is accepted when its resolved form lies
      under the resolved sandbox; a NUL character makes resolution fail. */
  function ValidateFilePath(path: string, env: Env): (bool, Option<string>) {
    if '\0' in path then (false, Some(NullByteError))
    else if Sandbox(env) <= Paths.Resolve(path, env.cwd) then (true, None)
    else (false, Some("Path " + path + " is outside sandbox directory " + Paths.Render(Sandbox(env))))
  }

  /** The project root's components come from a real path: none holds a '/'. */
  predicate RootComponents(env: Env) {
    forall k :: 0 <= k < |env.projectRoot| ==> '/' !in env.projectRoot[k]
  }

  lemma SandboxCanonical(env: Env)
    requires RootComponents(env)
    ensures Paths.Canonical(Sandbox(env))
  {
    Paths.NormalizeCanonical(env.projectRoot + ["data", "sandbox"]);
  }

  /** The sandbox is the resolved project root followed by `data/sandbox`. */
  lemma SandboxShape(env: Env)
    ensures Sandbox(env) == Paths.Normalize(env.projectRoot) + ["data", "sandbox"]
  {
    assert env.projectRoot + ["data", "sandbox"] == (env.projectRoot + ["data"]) + ["sandbox"];
    Paths.NormalizeAppendPlain(env.projectRoot + ["data"], "sandbox");
    Paths.NormalizeAppendPlain(env.projectRoot, "data");
  }

  /** The result is valid exactly when no error is reported; every rejection
      other than a NUL character is an "outside sandbox" message. */
  lemma ValidateFilePathVerdict(path: string, env: Env)
    ensures ValidateFilePath(path, env).0 <==> ValidateFilePath(path, env).1.None?
    ensures ValidateFilePath(path, env).0 <==> '\0' !in path && Sandbox(env) <= Paths.Resolve(path, env.cwd)
    ensures !ValidateFilePath(path, env).0 && '\0' !in path ==>
      Text.Occurs("outside sandbox", ValidateFilePath(path, env).1.value)
  {
    if !ValidateFilePath(path, env).0 && '\0' !in path {
      OutsideMessage(path, Paths.Render(Sandbox(env)));
    }
  }

  lemma OutsideMessage(path: string, dir: string)
    ensures Text.Occurs("outside sandbox", "Path " + path + " is outside sandbox directory " + dir)
  {
    var m := "Path " + path + " is outside sandbox directory " + dir;
    var head, tail := "Path " + path + " is ", " directory " + dir;
    assert m == head + "outside sandbox" + tail;
    assert m[|head|..|head| + 15] == "outside sandbox";
    Text.OccursFromWitness("outside sandbox", m, |head|);
  }

  /** `/etc/passwd` is rejected wherever the project lives. */
  lemma EtcPasswdRejected(env: Env)
    ensures !ValidateFilePath("/etc/passwd", env).0
  {
    SandboxShape(env);
    ResolveEtcPasswd(env.cwd);
    var sb := Sandbox(env);
    assert |sb| > 2 || sb[0] == "data";
    assert !(sb <= ["etc", "passwd"]);
  }

  lemma ResolveEtcPasswd(cwd: string)
    ensures Paths.Resolve("/etc/passwd", cwd) == ["etc", "passwd"]
  {
    var parts := ["etc", "passwd"];
    RenderEtcPasswd();
    assert Paths.Canonical(parts) by {
      assert Paths.Plain(parts[0]) && Paths.Plain(parts[1]);
    }
    SplitRender(parts);
    NormalizeLeadingEmpty(parts);
    Paths.CanonicalFixed(parts);
    calc {
      Paths.Resolve("/etc/passwd", cwd);
      Paths.Normalize(Paths.Split(Paths.Render(parts)));
      Paths.Normalize([""] + parts);
      parts;
    }
  }

  lemma RenderEtcPasswd()
    ensures Paths.Render(["etc", "passwd"]) == "/etc/passwd"
  {
    var parts := ["etc", "passwd"];
    assert parts[..1] == ["etc"];
    assert Text.Join(parts, "/") == "etc" + "/" + "passwd";
  }

  /** An absolute path to a file directly inside the sandbox is accepted. */
  lemma SandboxFileAccepted(env: Env, name: string)
    requires Paths.Plain(name) && '\0' !in name
    requires RootComponents(env) && '\0' !in Paths.Render(Sandbox(env))
    ensures ValidateFilePath(Paths.Render(Sandbox(env)) + "/" + name, env) == (true, None)
  {
    var sb := Sandbox(env);
    SandboxCanonical(env);
    var p := Paths.Render(sb) + "/" + name;
    RenderResolves(sb, env.cwd);
    assert Paths.Split(name) == [name];
    Paths.SplitJoin(Paths.Render(sb), name);
    Paths.NormalizeAppendPlain(Paths.Split(Paths.Render(sb)), name);
    assert Paths.Resolve(p, env.cwd) == sb + [name];
  }

  /** Leaving the sandbox with ".." is rejected. */
  lemma ParentEscapeRejected(env: Env, name: string)
    requires Paths.Plain(name) && name != "sandbox" && '\0' !in name
    requires RootComponents(env) && '\0' !in Paths.Render(Sandbox(env))
    ensures !ValidateFilePath(Paths.Render(Sandbox(env)) + "/../" + name, env).0
  {
    var sb := Sandbox(env);
    SandboxCanonical(env);
    var r := Paths.Render(sb);
    var p := r + "/../" + name;
    RenderResolves(sb, env.cwd);
    SandboxShape(env);
    assert p == (r + "/" + "..") + "/" + name;
    Paths.SplitJoin(r + "/" + "..", name);
    Paths.SplitJoin(r, "..");
    assert Paths.SlashIndex("..") == 2;
    assert Paths.Split("..") == [".."];
    assert Paths.Split(name) == [name];
    var parts := Paths.Split(r);
    assert Paths.Split(p) == parts + [".."] + [name];
    Paths.NormalizeAppendPlain(parts + [".."], name);
    Paths.NormalizeAppendParent(parts);
    assert Paths.Resolve(p, env.cwd) == sb[..|sb| - 1] + [name];
  }

  /** Resolving the rendering of a resolved path gives the path back. */
  lemma RenderResolves(parts: seq<string>, cwd: string)
    requires Paths.Canonical(parts)
    ensures Paths.IsAbsolute(Paths.Render(parts))
    ensures Paths.Normalize(Paths.Split(Paths.Render(parts))) == parts
  {
    if |parts| == 0 {
      assert Paths.Render(parts) == "/";
      assert "/" == "" + "/" + "";
      Paths.SplitJoin("", "");
      assert Paths.Split("") == [""];
      assert Paths.Split("/") == ["", ""];
      assert ["", ""][..1] == [""];
    } else {
      SplitRender(parts);
      NormalizeLeadingEmpty(parts);
      Paths.CanonicalFixed(parts);
    }
  }

  lemma {:induction false} SplitRender(parts: seq<string>)
    requires Paths.Canonical(parts) && |parts| > 0
    ensures Paths.Split(Paths.Render(parts)) == [""] + parts
    decreases |parts|
  {
    if |parts| == 1 {
      SplitRenderOne(parts[0]);
      assert Paths.Render(parts) == "/" + parts[0];
    } else {
      var init := parts[..|parts| - 1];
      var last := parts[|parts| - 1];
      assert Paths.Canonical(init);
      SplitRender(init);
      assert Paths.Render(parts) == Paths.Render(init) + "/" + last;
      Paths.SplitJoin(Paths.Render(init), last);
      SplitPlain(last);
      assert [""] + init + [last] == [""] + parts;
    }
  }

  lemma SplitRenderOne(name: string)
    requires Paths.Plain(name)
    ensures Paths.Split("/" + name) == ["", name]
  {
    assert "/" + name == "" + "/" + name;
    Paths.SplitJoin("", name);
    SplitPlain(name);
    assert Paths.Split("") == [""];
  }

  lemma SplitPlain(name: string)
    requires Paths.Plain(name)
    ensures Paths.Split(name) == [name]
  {
    assert Paths.SlashIndex(name) == |name|;
  }

  lemma {:induction false} NormalizeLeadingEmpty(parts: seq<string>)
    ensures Paths.Normalize([""] + parts) == Paths.Normalize(parts)
    decreases |parts|
  {
    if |parts| > 0 {
      var init := parts[..|parts| - 1];
      NormalizeLeadingEmpty(init);
      assert ([""] + parts)[..|parts|] == [""] + init;
    }
  }

  // ---------------------------------------------------------------------
  // All guards together

  /** `(passed, message, masked_query)` of `apply_guards`. */
  datatype GuardResult = GuardResult(passed: bool, message: Option<string>, maskedQuery: Option<string>)

  /** The error of the first path in `paths` that fails validation. */
  function FirstPathError(paths: seq<string>, env: Env): Option<string>
    decreases |paths|
  {
    if |paths| == 0 then None
    else if !ValidateFilePath(paths[0], env).0 then ValidateFilePath(paths[0], env).1
    else FirstPathError(paths[1..], env)
  }

  /** `apply_guards`: refusal first, then masking, then grounding (when chunks are
      given, on the unmasked query), then each file path in order. */
  function Guarded<C>(query: string, chunks: Option<seq<C>>, paths: Option<seq<string>>, env: Env): GuardResult {
    var refusal := Refusal(query);
    if refusal.Some? then GuardResult(false, Some(RefusalResponse(CategoryName(refusal.value))), None)
    else
      var masked := Masked(query);
      if chunks.Some? && Grounding(query, chunks.value).Some? then
        GuardResult(false, Grounding(query, chunks.value), Some(masked))
      else if paths.Some? && FirstPathError(paths.value, env).Some? then
        GuardResult(false, FirstPathError(paths.value, env), Some(masked))
      else GuardResult(true, None, Some(masked))
  }

  method ApplyGuards<C>(query: string, chunks: Option<seq<C>>, paths: Option<seq<string>>, env: Env)
    returns (result: GuardResult)
    ensures result == Guarded(query, chunks, paths, env)
  {
    var refuse, reason := CheckRefusePatterns(query);
    if refuse {
      return GuardResult(false, Some(RefusalResponse(CategoryName(reason.value))), None);
    }
    var masked := MaskPii(query);
    if chunks.Some? {
      var grounded, error := CheckGroundingRequired(query, chunks.value);
      if !grounded {
        return GuardResult(false, error, Some(masked));
      }
    }
    if paths.Some? {
      var ps := paths.value;
      for i := 0 to |ps|
        invariant FirstPathError(ps[i..], env) == FirstPathError(ps, env)
      {
        assert ps[i..][1..] == ps[i + 1..];
        var valid, error := ValidateFilePath(ps[i], env).0, ValidateFilePath(ps[i], env).1;
        if !valid {
          return GuardResult(false, error, Some(masked));
        }
      }
    }
    return GuardResult(true, None, Some(masked));
  }

  /** The first failing path decides the message: it fails, every earlier one
      passes, and a path list with no failing path reports nothing. */
  lemma {:induction false} FirstPathErrorIff(paths: seq<string>, env: Env)
    ensures FirstPathError(paths, env).None? <==> forall i :: 0 <= i < |paths| ==> ValidateFilePath(paths[i], env).0
    ensures FirstPathError(paths, env).Some? ==>
      exists i :: 0 <= i < |paths| && FirstPathError(paths, env) == ValidateFilePath(paths[i], env).1 &&
        !ValidateFilePath(paths[i], env).0 && forall e :: 0 <= e < i ==> ValidateFilePath(paths[e], env).0
    decreases |paths|
  {
    if |paths| > 0 {
      FirstPathErrorIff(paths[1..], env);
      if ValidateFilePath(paths[0], env).0 {
        assert forall i :: 1 <= i < |paths| ==> paths[1..][i - 1] == paths[i];
        if FirstPathError(paths, env).Some? {
          var i :| 0 <= i < |paths[1..]| && FirstPathError(paths[1..], env) == ValidateFilePath(paths[1..][i], env).1 &&
            !ValidateFilePath(paths[1..][i], env).0 && forall e :: 0 <= e < i ==> ValidateFilePath(paths[1..][e], env).0;
          assert FirstPathError(paths, env) == ValidateFilePath(paths[i + 1], env).1;
        }
      } else {
        ValidateFilePathVerdict(paths[0], env);
      }
    }
  }

  /** A refused query stops every other guard and returns no masked query. */
  lemma GuardedRefusal<C>(query: string, chunks: Option<seq<C>>, paths: Option<seq<string>>, env: Env, c: Category)
    requires Refusal(query) == Some(c)
    ensures Guarded(query, chunks, paths, env) == GuardResult(false, Some(RefusalResponse(CategoryName(c))), None)
  {
  }

  /** Guards pass exactly when the query is not refused, is grounded (if chunks
      were given) and every path lies in the sandbox; any query that is not
      refused comes back masked. */
  lemma GuardedPassIff<C>(query: string, chunks: Option<seq<C>>, paths: Option<seq<string>>, env: Env)
    ensures var g := Guarded(query, chunks, paths, env);
      g.passed <==>
        Refusal(query).None? &&
        (chunks.None? || |chunks.value| > 0 || !FactualIntent(query)) &&
        (paths.None? || forall i :: 0 <= i < |paths.value| ==> ValidateFilePath(paths.value[i], env).0)
    ensures var g := Guarded(query, chunks, paths, env);
      (g.passed <==> g.message.None?) && (Refusal(query).None? ==> g.maskedQuery == Some(Masked(query)))
  {
    if paths.Some? {
      FirstPathErrorIff(paths.value, env);
    }
  }
}
