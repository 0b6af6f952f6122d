/**
  The code-suggestion route: the analysis of the code around the cursor, the
  prompt built from it, the clean-up of the model's reply and the pattern-based
  fallback suggestion.
 */
module CodeSuggestion {
  import opened Wrappers
  import opened Strings
  import opened AIProviders
  import opened Environment

  // ---------------------------------------------------------------------------
  // Input and the window around the cursor
  // ---------------------------------------------------------------------------

  datatype SuggestionBody = SuggestionBody(
    fileContent: string,
    cursorLine: int,
    cursorColumn: int,
    suggestionType: string,
    fileName: Option<string>)

  /** The request is handled only with non-empty content and type and a cursor at non-negative coordinates. */
  predicate ValidInput(body: SuggestionBody)
    ensures !ValidInput(body) <==>
      body.fileContent == "" || body.cursorLine < 0 || body.cursorColumn < 0 || body.suggestionType == ""
  {
    body.fileContent != "" && body.cursorLine >= 0 && body.cursorColumn >= 0 && body.suggestionType != ""
  }

  /** How many lines of context are taken on either side of the cursor line. */
  const ContextRadius := 10

  /** `lines[line] || ""`: a line past the end of the file reads as empty. */
  function CurrentLineOf(lines: seq<string>, line: nat): (r: string)
    ensures line < |lines| ==> r == lines[line]
    ensures line >= |lines| ==> r == ""
  {
    if line < |lines| then lines[line] else ""
  }

  /** `lines.slice(max(0, line - 10), line)`. */
  function BeforeLines(lines: seq<string>, line: nat): seq<string> {
    Slice(lines, if line >= ContextRadius then line - ContextRadius else 0, line)
  }

  /** `lines.slice(line + 1, min(lines.length, line + 10))`. */
  function AfterLines(lines: seq<string>, line: nat): seq<string> {
    Slice(lines, line + 1, if |lines| < line + ContextRadius then |lines| else line + ContextRadius)
  }

  /**
    The window is asymmetric: the ten lines before the cursor line (fewer near the
    top of the file) and the nine after it (fewer near the bottom), in file order.
   */
  lemma WindowShape(lines: seq<string>, line: nat)
    ensures var before := BeforeLines(lines, line);
      && |before| <= ContextRadius
      && (line <= |lines| ==> |before| == (if line < ContextRadius then line else ContextRadius))
      && forall k :: 0 <= k < |before| ==> before[k] == lines[(if line >= ContextRadius then line - ContextRadius else 0) + k]
    ensures var after := AfterLines(lines, line);
      && |after| <= ContextRadius - 1
      && (line + ContextRadius <= |lines| ==> |after| == ContextRadius - 1)
      && forall k :: 0 <= k < |after| ==> after[k] == lines[line + 1 + k]
  {
  }

  // ---------------------------------------------------------------------------
  // Language and framework
  // ---------------------------------------------------------------------------

  const ExtensionLanguages: map<string, string> := map[
    "ts" := "TypeScript", "tsx" := "TypeScript",
    "js" := "JavaScript", "jsx" := "JavaScript",
    "py" := "Python", "java" := "Java", "go" := "Go", "rs" := "Rust", "php" := "PHP"]

  /** `fileName.split(".").pop()?.toLowerCase()`: the lower-cased text after the last dot. */
  function Extension(fileName: string): (ext: string)
    ensures '.' !in ext
  {
    var pieces := Split(fileName, '.');
    ToLower(pieces[|pieces| - 1])
  }

  /** The extension is the lower-cased text after the last dot, or the whole lower-cased name when there is no dot. */
  lemma ExtensionAfterLastDot(base: string, ext: string)
    requires '.' !in ext
    ensures Extension(base + "." + ext) == ToLower(ext)
    ensures '.' !in base ==> Extension(base) == ToLower(base)
  {
    SplitAppend(base, ext, '.');
    SplitWithoutSeparator(ext, '.');
    assert base + "." + ext == base + ['.'] + ext;
    if '.' !in base {
      SplitWithoutSeparator(base, '.');
    }
  }

  /** The content checks, in order: TypeScript, Python, Go, else JavaScript. */
  function ContentLanguage(content: string): (lang: string)
    ensures lang == "TypeScript" <==> Contains(content, "interface ") || Contains(content, ": string")
    ensures lang == "Python" <==>
      !(Contains(content, "interface ") || Contains(content, ": string"))
      && (Contains(content, "def ") || Contains(content, "import "))
    ensures lang == "Go" <==>
      !(Contains(content, "interface ") || Contains(content, ": string"))
      && !(Contains(content, "def ") || Contains(content, "import "))
      && (Contains(content, "func ") || Contains(content, "package "))
    ensures lang == "JavaScript" <==>
      !(Contains(content, "interface ") || Contains(content, ": string"))
      && !(Contains(content, "def ") || Contains(content, "import "))
      && !(Contains(content, "func ") || Contains(content, "package "))
  {
    if Contains(content, "interface ") || Contains(content, ": string") then "TypeScript"
    else if Contains(content, "def ") || Contains(content, "import ") then "Python"
    else if Contains(content, "func ") || Contains(content, "package ") then "Go"
    else "JavaScript"
  }

  /** `detectLanguage`: a known extension of a non-empty file name decides; otherwise the content does. */
  function DetectLanguage(content: string, fileName: Option<string>): (lang: string)
    ensures fileName.Some? && fileName.value != "" && Extension(fileName.value) in ExtensionLanguages ==>
      lang == ExtensionLanguages[Extension(fileName.value)]
    ensures !(fileName.Some? && fileName.value != "" && Extension(fileName.value) in ExtensionLanguages) ==>
      lang == ContentLanguage(content)
  {
    if fileName.Some? && fileName.value != "" && Extension(fileName.value) in ExtensionLanguages then
      ExtensionLanguages[Extension(fileName.value)]
    else ContentLanguage(content)
  }

  /** The text after the last dot is the extension, and a mapped one wins over any content. */
  lemma ExtensionWins(content: string, base: string, ext: string)
    requires '.' !in ext && ToLower(ext) in ExtensionLanguages
    ensures DetectLanguage(content, Some(base + "." + ext)) == ExtensionLanguages[ToLower(ext)]
  {
    ExtensionAfterLastDot(base, ext);
  }

  /** Upper or lower case in the file name makes no difference to its extension. */
  lemma ExtensionIgnoresCase(fileName: string)
    ensures Extension(ToLower(fileName)) == Extension(fileName)
  {
    var pieces := Split(fileName, '.');
    LastPieceLowered(fileName);
    ToLowerIdempotent(pieces[|pieces| - 1]);
  }

  /** The last piece of the lower-cased name is the lower-cased last piece. */
  lemma LastPieceLowered(fileName: string)
    ensures var pieces := Split(fileName, '.');
      var lowered := Split(ToLower(fileName), '.');
      lowered[|lowered| - 1] == ToLower(pieces[|pieces| - 1])
  {
    SplitToLower(fileName, '.');
  }

  /** Upper or lower case in the file name makes no difference to the language. */
  lemma DetectLanguageIgnoresCase(content: string, fileName: string)
    ensures DetectLanguage(content, Some(ToLower(fileName))) == DetectLanguage(content, Some(fileName))
  {
    ExtensionIgnoresCase(fileName);
  }

  /** `detectFramework`: first match in the order React, Vue, Angular, Next.js, else "None". */
  function DetectFramework(content: string): (fw: string)
    ensures fw == "React" <==> Contains(content, "import React") || Contains(content, "useState")
    ensures fw == "Vue" <==>
      !(Contains(content, "import React") || Contains(content, "useState"))
      && (Contains(content, "import Vue") || Contains(content, "<template>"))
    ensures fw == "Angular" <==>
      !(Contains(content, "import React") || Contains(content, "useState"))
      && !(Contains(content, "import Vue") || Contains(content, "<template>"))
      && (Contains(content, "@angular/") || Contains(content, "@Component"))
    ensures fw == "Next.js" <==>
      !(Contains(content, "import React") || Contains(content, "useState"))
      && !(Contains(content, "import Vue") || Contains(content, "<template>"))
      && !(Contains(content, "@angular/") || Contains(content, "@Component"))
      && (Contains(content, "next/") || Contains(content, "getServerSideProps"))
    ensures fw == "None" <==>
      !(Contains(content, "import React") || Contains(content, "useState"))
      && !(Contains(content, "import Vue") || Contains(content, "<template>"))
      && !(Contains(content, "@angular/") || Contains(content, "@Component"))
      && !(Contains(content, "next/") || Contains(content, "getServerSideProps"))
  {
    if Contains(content, "import React") || Contains(content, "useState") then "React"
    else if Contains(content, "import Vue") || Contains(content, "<template>") then "Vue"
    else if Contains(content, "@angular/") || Contains(content, "@Component") then "Angular"
    else if Contains(content, "next/") || Contains(content, "getServerSideProps") then "Next.js"
    else "None"
  }

  /** A React marker anywhere decides, whatever other framework markers the file has. */
  lemma ReactWins(before: string, after: string)
    ensures DetectFramework(before + "useState" + after) == "React"
  {
    var s := before + "useState" + after;
    assert s[|before|..|before| + 8] == "useState";
    ContainsAt(s, "useState", |before|);
  }

  // ---------------------------------------------------------------------------
  // Backward scans over the lines above the cursor
  // ---------------------------------------------------------------------------

  /** Where the run of `\w` characters starting at index `i` of `s` ends. */
  function WordEnd(s: string, i: nat): (j: nat)
    requires i <= |s|
    ensures i <= j <= |s|
    ensures j < |s| ==> !IsWordChar(s[j])
    decreases |s| - i
  {
    if i < |s| && IsWordChar(s[i]) then WordEnd(s, i + 1) else i
  }

  /** A run of word characters ended by a non-word character is the whole run. */
  lemma {:induction false} WordEndAt(s: string, i: nat, j: nat)
    requires i <= j < |s| && !IsWordChar(s[j])
    requires forall k :: i <= k < j ==> IsWordChar(s[k])
    ensures WordEnd(s, i) == j
    decreases j - i
  {
    if i < j {
      WordEndAt(s, i + 1, j);
    }
  }

  /** `kw\s+\w+\s*=` at the start of `t`. */
  predicate Declares(t: string, kw: string) {
    StartsWith(t, kw) &&
    var rest := t[|kw|..];
    var name := TrimStart(rest);
    |name| < |rest| && WordEnd(name, 0) > 0 && StartsWith(TrimStart(name[WordEnd(name, 0)..]), "=")
  }

  /** `/^\s*(function|def|const\s+\w+\s*=|let\s+\w+\s*=)/`. */
  predicate IsFunctionStart(line: string) {
    var t := TrimStart(line);
    StartsWith(t, "function") || StartsWith(t, "def") || Declares(t, "const") || Declares(t, "let")
  }

  /** `/^\s*}/`. */
  predicate IsBlockClose(line: string) {
    var t := TrimStart(line);
    |t| > 0 && t[0] == '}'
  }

  /** `/^\s*(class|interface)\s+/`. */
  predicate IsClassStart(line: string) {
    var t := TrimStart(line);
    (StartsWith(t, "class") && |t| > 5 && IsWhitespace(t[5]))
    || (StartsWith(t, "interface") && |t| > 9 && IsWhitespace(t[9]))
  }

  /**
    Some line above line `n` passes `opens`, and no line between it and `n`
    passes `closes`: what an upward scan finds when it answers yes at an opening
    line and gives up at a closing one.
   */
  predicate OpenAbove(lines: seq<string>, n: nat, opens: string -> bool, closes: string -> bool) {
    exists j | 0 <= j < n && j < |lines| ::
      opens(lines[j]) && forall k | j < k < n && k < |lines| :: !closes(lines[k])
  }

  /** Some line above the cursor starts a function, and no block is closed between it and the cursor. */
  predicate InFunction(lines: seq<string>, currentLine: nat) {
    OpenAbove(lines, currentLine, IsFunctionStart, IsBlockClose)
  }

  /** Some line above the cursor starts a class or an interface. */
  predicate InClass(lines: seq<string>, currentLine: nat) {
    exists j | 0 <= j < currentLine && j < |lines| :: IsClassStart(lines[j])
  }

  /** `detectInFunction`: scan upwards; a function start answers yes, a closing brace stops the scan. */
  method DetectInFunction(lines: seq<string>, currentLine: nat) returns (found: bool)
    ensures found == InFunction(lines, currentLine)
  {
    found := ScanUp(lines, currentLine, IsFunctionStart, IsBlockClose);
  }

  /** The loop of `detectInFunction`, scanning from the line above `n` towards the top; each line is tested for `opens` first. */
  method ScanUp(lines: seq<string>, n: nat, opens: string -> bool, closes: string -> bool) returns (found: bool)
    ensures found == OpenAbove(lines, n, opens, closes)
  {
    var i: int := n - 1;
    while i >= 0
      invariant -1 <= i < n
      invariant forall k :: i < k < n && k < |lines| ==> !opens(lines[k]) && !closes(lines[k])
    {
      if i < |lines| {
        if opens(lines[i]) {
          OpeningFound(lines, i, n, opens, closes);
          return true;
        }
        if closes(lines[i]) {
          ClosingFound(lines, i, n, opens, closes);
          break;
        }
      }
      i := i - 1;
    }
    return false;
  }

  /** An opening line with no closing line below it is what the scan looks for. */
  lemma OpeningFound(lines: seq<string>, i: nat, n: nat, opens: string -> bool, closes: string -> bool)
    requires i < n && i < |lines| && opens(lines[i])
    requires forall k :: i < k < n && k < |lines| ==> !closes(lines[k])
    ensures OpenAbove(lines, n, opens, closes)
  {
  }

  /** A closing line with no opening line at or below it hides every opening line above it. */
  lemma ClosingFound(lines: seq<string>, i: nat, n: nat, opens: string -> bool, closes: string -> bool)
    requires i < n && i < |lines| && closes(lines[i])
    requires forall k :: i <= k < n && k < |lines| ==> !opens(lines[k])
    ensures !OpenAbove(lines, n, opens, closes)
  {
    forall j | 0 <= j < n && j < |lines| && opens(lines[j])
      ensures exists k | j < k < n && k < |lines| :: closes(lines[k])
    {
      assert j < i;
    }
  }

  /** `detectInClass`: scan upwards with no stop. */
  method DetectInClass(lines: seq<string>, currentLine: nat) returns (found: bool)
    ensures found == InClass(lines, currentLine)
  {
    var i: int := currentLine - 1;
    while i >= 0
      invariant -1 <= i < currentLine
      invariant forall k :: i < k < currentLine && k < |lines| ==> !IsClassStart(lines[k])
    {
      if i < |lines| && IsClassStart(lines[i]) {
        return true;
      }
      i := i - 1;
    }
    return false;
  }

  /** At the top of the file there is nothing above the cursor. */
  lemma NothingAboveFirstLine(lines: seq<string>)
    ensures !InFunction(lines, 0) && !InClass(lines, 0)
  {
  }

  /** A closing brace directly above the cursor hides every earlier function start. */
  lemma CloseAboveCursor(lines: seq<string>, currentLine: nat)
    requires 0 < currentLine <= |lines| && IsBlockClose(lines[currentLine - 1])
    ensures !InFunction(lines, currentLine)
  {
    CloseIsNoStart(lines[currentLine - 1]);
  }

  /** A line that closes a block starts neither a function nor a class. */
  lemma CloseIsNoStart(line: string)
    requires IsBlockClose(line)
    ensures !IsFunctionStart(line) && !IsClassStart(line)
  {
    var t := TrimStart(line);
    assert t[0] == '}';
    assert !StartsWith(t, "function") && !StartsWith(t, "def") && !StartsWith(t, "const") && !StartsWith(t, "let");
  }

  /**
    `getLastNonEmptyLine`: the nearest line above the cursor that is not blank,
    or "" if all of them are blank.
   */
  method GetLastNonEmptyLine(lines: seq<string>, currentLine: nat) returns (line: string)
    requires currentLine <= |lines|
    ensures line == "" ==> forall k :: 0 <= k < currentLine ==> Trim(lines[k]) == ""
    ensures line != "" ==> exists j :: (0 <= j < currentLine && line == lines[j] && Trim(lines[j]) != ""
      && forall k :: j < k < currentLine ==> Trim(lines[k]) == "")
  {
    var i: int := currentLine - 1;
    while i >= 0
      invariant -1 <= i < currentLine
      invariant forall k :: i < k < currentLine ==> Trim(lines[k]) == ""
    {
      if Trim(lines[i]) != "" {
        return lines[i];
      }
      i := i - 1;
    }
    return "";
  }

  // ---------------------------------------------------------------------------
  // The text before the cursor
  // ---------------------------------------------------------------------------

  /** `m.*$`: `m` occurs, and no line terminator follows it up to the end. */
  predicate CommentFrom(b: string, m: string) {
    exists i | 0 <= i <= |b| :: OccursAt(b, m, i) && forall k | i + |m| <= k < |b| :: !IsLineTerminator(b[k])
  }

  /** `detectAfterComment`: "//" or "#" on the text before the cursor. */
  predicate AfterComment(line: string, column: nat)
    ensures AfterComment(line, column) ==>
      Contains(TakeClamped(line, column), "//") || Contains(TakeClamped(line, column), "#")
  {
    var before := TakeClamped(line, column);
    CommentFrom(before, "//") || CommentFrom(before, "#")
  }

  /** A comment marker with only ordinary text after it is detected. */
  lemma CommentDetected(code: string, comment: string, column: nat)
    requires forall k :: 0 <= k < |comment| ==> !IsLineTerminator(comment[k])
    requires column >= |code| + 2 + |comment|
    ensures AfterComment(code + "//" + comment, column)
  {
    var line := code + "//" + comment;
    assert TakeClamped(line, column) == line;
    assert OccursAt(line, "//", |code|);
  }

  datatype Pattern = Conditional | FunctionKeyword | ObjectLiteral | ArrayLiteral | Assignment | MethodCall

  function PatternName(p: Pattern): string {
    match p
    case Conditional => "conditional"
    case FunctionKeyword => "function"
    case ObjectLiteral => "object"
    case ArrayLiteral => "array"
    case Assignment => "assignment"
    case MethodCall => "method-call"
  }

  /** The order in which the patterns are tested and pushed. */
  const PatternOrder := [Conditional, FunctionKeyword, ObjectLiteral, ArrayLiteral, Assignment, MethodCall]

  function Rank(p: Pattern): (r: nat)
    ensures r < |PatternOrder| && PatternOrder[r] == p
  {
    match p
    case Conditional => 0
    case FunctionKeyword => 1
    case ObjectLiteral => 2
    case ArrayLiteral => 3
    case Assignment => 4
    case MethodCall => 5
  }

  /** Nothing but whitespace (`\s*` matching the whole of `s`). */
  predicate Blank(s: string)
    decreases |s|
  {
    |s| == 0 || (IsWhitespace(s[0]) && Blank(s[1..]))
  }

  /** A blank string ends in whitespace, if it is not empty. */
  lemma {:induction false} BlankEndsInSpace(s: string)
    requires Blank(s) && |s| > 0
    ensures IsWhitespace(s[|s| - 1])
    decreases |s|
  {
    if |s| > 1 {
      BlankEndsInSpace(s[1..]);
    }
  }

  /** `t` is `kw`, then only whitespace, then `close` (empty for none) at its very end. */
  predicate KeywordThen(t: string, kw: string, close: string) {
    StartsWith(t, kw) && |kw| + |close| <= |t| && EndsWith(t, close) && Blank(t[|kw|..|t| - |close|])
  }

  /** The last character of `b` that is not whitespace is `c`. */
  predicate LastNonSpaceIs(b: string, c: char) {
    var t := TrimEnd(b);
    |t| > 0 && t[|t| - 1] == c
  }

  /** Whether a pattern's regular expression accepts the text before the cursor. */
  predicate Matches(p: Pattern, before: string) {
    match p
    case Conditional =>
      var t := Trim(before);
      KeywordThen(t, "if", "(") || KeywordThen(t, "while", "(") || KeywordThen(t, "for", "(")
    case FunctionKeyword =>
      var t := Trim(before);
      KeywordThen(t, "function", "") || KeywordThen(t, "def", "")
    case ObjectLiteral => LastNonSpaceIs(before, '{')
    case ArrayLiteral => LastNonSpaceIs(before, '[')
    case Assignment => LastNonSpaceIs(before, '=')
    case MethodCall => LastNonSpaceIs(before, '.')
  }

  /** The patterns of `ps` that `ok` accepts, in the order of `ps`. */
  function Keep(ps: seq<Pattern>, ok: Pattern -> bool): seq<Pattern>
    decreases |ps|
  {
    if |ps| == 0 then []
    else (if ok(ps[0]) then [ps[0]] else []) + Keep(ps[1..], ok)
  }

  /** An element is kept exactly when it occurs and is accepted. */
  lemma {:induction false} KeepMembers(ps: seq<Pattern>, ok: Pattern -> bool, p: Pattern)
    ensures p in Keep(ps, ok) <==> p in ps && ok(p)
    decreases |ps|
  {
    if |ps| > 0 {
      KeepMembers(ps[1..], ok, p);
      assert ps == [ps[0]] + ps[1..];
    }
  }

  /** The patterns whose test accepts the text before the cursor, in testing order. */
  function IncompletePatterns(before: string): seq<Pattern> {
    Keep(PatternOrder, PatternTest(before))
  }

  function PatternTest(before: string): Pattern -> bool {
    p => Matches(p, before)
  }

  /** Strictly increasing in the testing order, hence also free of duplicates. */
  predicate SortedByRank(ps: seq<Pattern>) {
    forall i, j :: 0 <= i < j < |ps| ==> Rank(ps[i]) < Rank(ps[j])
  }

  /** Keeping some elements of a sequence sorted by rank keeps it sorted. */
  lemma {:induction false} KeepSorted(ps: seq<Pattern>, ok: Pattern -> bool)
    requires SortedByRank(ps)
    ensures SortedByRank(Keep(ps, ok))
    decreases |ps|
  {
    if |ps| > 0 {
      KeepSorted(ps[1..], ok);
      var rest := Keep(ps[1..], ok);
      assert forall q :: q in rest ==> Rank(ps[0]) < Rank(q) by {
        forall q | q in rest ensures Rank(ps[0]) < Rank(q) {
          KeepMembers(ps[1..], ok, q);
          var k :| 0 <= k < |ps[1..]| && ps[1..][k] == q;
          assert ps[k + 1] == q;
        }
      }
      var r := Keep(ps, ok);
      if ok(ps[0]) {
        assert r == [ps[0]] + rest;
        forall i, j | 0 <= i < j < |r| ensures Rank(r[i]) < Rank(r[j]) {
          assert r[j] == rest[j - 1] && rest[j - 1] in rest;
          if i > 0 {
            assert r[i] == rest[i - 1];
          } else {
            assert r[0] == ps[0];
          }
        }
      } else {
        assert r == rest;
      }
    }
  }

  /** The testing order lists every pattern at its rank. */
  lemma RankInOrder(i: nat)
    requires i < |PatternOrder|
    ensures Rank(PatternOrder[i]) == i
  {
  }

  lemma PatternOrderSorted()
    ensures SortedByRank(PatternOrder)
  {
    forall i, j | 0 <= i < j < |PatternOrder| ensures Rank(PatternOrder[i]) < Rank(PatternOrder[j]) {
      RankInOrder(i);
      RankInOrder(j);
    }
  }

  /** Filtering the testing order keeps exactly the accepted patterns, each once and in order. */
  lemma KeepOrderShape(ok: Pattern -> bool)
    ensures forall p :: p in Keep(PatternOrder, ok) <==> ok(p)
    ensures SortedByRank(Keep(PatternOrder, ok))
  {
    forall p ensures p in Keep(PatternOrder, ok) <==> ok(p) {
      assert PatternOrder[Rank(p)] == p;
      KeepMembers(PatternOrder, ok, p);
    }
    PatternOrderSorted();
    KeepSorted(PatternOrder, ok);
  }

  /**
    The detected list holds exactly the matching patterns, each once, in the
    fixed order conditional, function, object, array, assignment, method-call.
   */
  lemma IncompletePatternsShape(before: string)
    ensures forall p :: p in IncompletePatterns(before) <==> Matches(p, before)
    ensures SortedByRank(IncompletePatterns(before))
  {
    KeepOrderShape(PatternTest(before));
  }

  /** Filtering a sequence extended by one element extends the filtered sequence by at most that element. */
  lemma {:induction false} KeepSnoc(ps: seq<Pattern>, x: Pattern, ok: Pattern -> bool)
    ensures Keep(ps + [x], ok) == Keep(ps, ok) + (if ok(x) then [x] else [])
    decreases |ps|
  {
    if |ps| == 0 {
      assert ps + [x] == [x];
      assert [x][1..] == [];
    } else {
      var q := ps + [x];
      assert q[0] == ps[0] && q[1..] == ps[1..] + [x];
      KeepSnoc(ps[1..], x, ok);
      var head := if ok(ps[0]) then [ps[0]] else [];
      assert Keep(q, ok) == head + Keep(ps[1..] + [x], ok);
      assert Keep(ps, ok) == head + Keep(ps[1..], ok);
    }
  }

  /** `detectIncompletePatterns`: each pattern is tested in turn and pushed when it matches. */
  method DetectIncompletePatterns(line: string, column: nat) returns (patterns: seq<Pattern>)
    ensures patterns == IncompletePatterns(TakeClamped(line, column))
  {
    var before := TakeClamped(line, column);
    patterns := PushMatching(PatternTest(before));
  }

  /** The six tests of `detectIncompletePatterns` in their order, with `ok` deciding each one. */
  method PushMatching(ok: Pattern -> bool) returns (patterns: seq<Pattern>)
    ensures patterns == Keep(PatternOrder, ok)
  {
    ghost var tested: seq<Pattern> := [];
    patterns := [];
    if ok(Conditional) { patterns := patterns + [Conditional]; }
    KeepSnoc(tested, Conditional, ok);
    tested := tested + [Conditional];
    assert patterns == Keep(tested, ok);
    if ok(FunctionKeyword) { patterns := patterns + [FunctionKeyword]; }
    KeepSnoc(tested, FunctionKeyword, ok);
    tested := tested + [FunctionKeyword];
    assert patterns == Keep(tested, ok);
    if ok(ObjectLiteral) { patterns := patterns + [ObjectLiteral]; }
    KeepSnoc(tested, ObjectLiteral, ok);
    tested := tested + [ObjectLiteral];
    assert patterns == Keep(tested, ok);
    if ok(ArrayLiteral) { patterns := patterns + [ArrayLiteral]; }
    KeepSnoc(tested, ArrayLiteral, ok);
    tested := tested + [ArrayLiteral];
    assert patterns == Keep(tested, ok);
    if ok(Assignment) { patterns := patterns + [Assignment]; }
    KeepSnoc(tested, Assignment, ok);
    tested := tested + [Assignment];
    assert patterns == Keep(tested, ok);
    if ok(MethodCall) { patterns := patterns + [MethodCall]; }
    KeepSnoc(tested, MethodCall, ok);
    tested := tested + [MethodCall];
    assert patterns == Keep(tested, ok);
    assert tested == PatternOrder;
  }

  /** `c\s*$` (a `c` followed by nothing but whitespace) holds exactly when the last non-whitespace character is `c`. */
  lemma {:induction false} TailPatternIsLastNonSpace(b: string, c: char)
    requires !IsWhitespace(c)
    ensures (exists i | 0 <= i < |b| :: b[i] == c && AllWhitespace(b[i + 1..])) <==> LastNonSpaceIs(b, c)
  {
    var t := TrimEnd(b);
    TrimEndRemovesWhitespace(b);
    if exists i | 0 <= i < |b| :: b[i] == c && AllWhitespace(b[i + 1..]) {
      var i :| 0 <= i < |b| && b[i] == c && AllWhitespace(b[i + 1..]);
      assert i == |t| - 1;
    }
    if LastNonSpaceIs(b, c) {
      assert b[|t|..] == b[|t| - 1 + 1..];
    }
  }

  /** The function pattern accepts exactly the trimmed texts "function" and "def". */
  lemma FunctionPatternIsKeyword(before: string)
    ensures Matches(FunctionKeyword, before) <==> Trim(before) == "function" || Trim(before) == "def"
  {
    var t := Trim(before);
    if KeywordThen(t, "function", "") && |t| > 8 {
      assert t[8..|t|] == t[|"function"|..|t| - |""|];
      BlankEndsInSpace(t[8..|t|]);
    }
    if KeywordThen(t, "def", "") && |t| > 3 {
      assert t[3..|t|] == t[|"def"|..|t| - |""|];
      BlankEndsInSpace(t[3..|t|]);
    }
  }

  /** Both checks read the line only up to the column, so the rest of the line cannot change them. */
  lemma CursorChecksIgnoreRest(line: string, rest: string, column: nat)
    requires column <= |line|
    ensures AfterComment(line + rest, column) == AfterComment(line, column)
    ensures IncompletePatterns(TakeClamped(line + rest, column)) == IncompletePatterns(TakeClamped(line, column))
  {
    assert TakeClamped(line + rest, column) == TakeClamped(line, column);
  }

  // ---------------------------------------------------------------------------
  // Context and prompt
  // ---------------------------------------------------------------------------

  datatype CursorPosition = CursorPosition(line: nat, column: nat)

  datatype CodeContext = CodeContext(
    language: string,
    framework: string,
    beforeContext: string,
    currentLine: string,
    afterContext: string,
    cursorPosition: CursorPosition,
    isInFunction: bool,
    isInClass: bool,
    isAfterComment: bool,
    incompletePatterns: seq<Pattern>)

  /** `analyzeCodeContext` for a cursor the route has already checked to be non-negative. */
  function AnalyzeCodeContext(content: string, line: nat, column: nat, fileName: Option<string>): (ctx: CodeContext)
    ensures ctx.language == DetectLanguage(content, fileName) && ctx.framework == DetectFramework(content)
    ensures ctx.currentLine == CurrentLineOf(Split(content, '\n'), line)
    ensures ctx.beforeContext == Join(BeforeLines(Split(content, '\n'), line), "\n")
    ensures ctx.afterContext == Join(AfterLines(Split(content, '\n'), line), "\n")
    ensures ctx.cursorPosition == CursorPosition(line, column)
    ensures ctx.isInFunction == InFunction(Split(content, '\n'), line)
    ensures ctx.isInClass == InClass(Split(content, '\n'), line)
    ensures ctx.isAfterComment == AfterComment(ctx.currentLine, column)
    ensures ctx.incompletePatterns == IncompletePatterns(TakeClamped(ctx.currentLine, column))
  {
    var lines := Split(content, '\n');
    var currentLine := CurrentLineOf(lines, line);
    CodeContext(
      DetectLanguage(content, fileName),
      DetectFramework(content),
      Join(BeforeLines(lines, line), "\n"),
      currentLine,
      Join(AfterLines(lines, line), "\n"),
      CursorPosition(line, column),
      InFunction(lines, line),
      InClass(lines, line),
      AfterComment(currentLine, column),
      IncompletePatterns(TakeClamped(currentLine, column)))
  }

  /** The marker that stands for the cursor in the prompt. */
  const Marker := "|CURSOR|"

  /** The current line with the marker inserted at the column, clamped to the line's length. */
  function CursorLine(line: string, column: nat): string {
    TakeClamped(line, column) + Marker + DropClamped(line, column)
  }

  /** Taking the inserted marker out again gives back the line; the marker sits at the clamped column. */
  lemma CursorLineRestores(line: string, column: nat)
    ensures var k := if column <= |line| then column else |line|;
      && CursorLine(line, column)[..k] == line[..k]
      && OccursAt(CursorLine(line, column), Marker, k)
      && CursorLine(line, column)[..k] + CursorLine(line, column)[k + |Marker|..] == line
  {
    TakeDropClamped(line, column);
    var k := if column <= |line| then column else |line|;
    var c := CursorLine(line, column);
    assert c[k + |Marker|..] == DropClamped(line, column);
  }

  function BoolText(b: bool): string {
    if b then "true" else "false"
  }

  /** `patterns.join(", ") || "None"`. */
  function PatternList(ps: seq<Pattern>): (r: string)
    ensures ps == [] <==> r == "None"
  {
    if ps == [] then "None"
    else
      var names := seq(|ps|, i requires 0 <= i < |ps| => PatternName(ps[i]));
      JoinNonEmpty(names, ", ");
      Join(names, ", ")
  }

  /** Joining non-empty names never gives "" or the word "None". */
  lemma {:induction false} JoinNonEmpty(names: seq<string>, sep: string)
    requires |names| > 0 && forall i :: 0 <= i < |names| ==> names[i] in {"conditional", "function", "object", "array", "assignment", "method-call"}
    ensures Join(names, sep) != "None"
    decreases |names|
  {
    if |names| > 1 {
      var j := Join(names, sep);
      assert j == names[0] + sep + Join(names[1..], sep);
      assert |names[0]| >= 5;
      if |j| == 4 {
        assert false;
      }
    }
  }

  /** The prompt up to and including the lines before the cursor. */
  function PromptHead(ctx: CodeContext, suggestionType: string): string {
    PromptIntro + suggestionType + " suggestion.\n\nLanguage: " + ctx.language
    + "\nFramework: " + ctx.framework + "\n\nContext:\n" + ctx.beforeContext
  }

  const PromptIntro := "You are an expert " + "code completion " + "assistant. " + "Generate a "

  /** The prompt from the lines after the cursor to the end. */
  function PromptTail(ctx: CodeContext): string {
    ctx.afterContext + "\n\nAnalysis:\n- In Function: " + BoolText(ctx.isInFunction)
    + "\n- In Class: " + BoolText(ctx.isInClass)
    + "\n- After Comment: " + BoolText(ctx.isAfterComment)
    + "\n- Incomplete Patterns: " + PatternList(ctx.incompletePatterns)
    + InstructInsert + InstructStyle + "3. Follow "
    + ctx.language + " best practices\n" + InstructContext + "\n\nGenerate suggestion:"
  }

  const InstructInsert := "\n\nInstructions:\n" + "1. Provide only the code " + "that should be inserted " + "at the cursor\n"
  const InstructStyle := "2. Maintain proper " + "indentation and style\n"
  const InstructContext := "4. Make the suggestion " + "contextually appropriate"

  /** `buildPrompt`. */
  function BuildPrompt(ctx: CodeContext, suggestionType: string): (r: string)
    ensures StartsWith(r, PromptHead(ctx, suggestionType) + "\n" + TakeClamped(ctx.currentLine, ctx.cursorPosition.column) + Marker)
  {
    PromptUpToMarker(PromptHead(ctx, suggestionType), ctx.currentLine, ctx.cursorPosition.column, PromptTail(ctx));
    PromptHead(ctx, suggestionType) + "\n" + CursorLine(ctx.currentLine, ctx.cursorPosition.column) + "\n" + PromptTail(ctx)
  }

  /** Whatever surrounds it, the cursor line contributes the text before the cursor and then the marker. */
  lemma PromptUpToMarker(head: string, line: string, column: nat, tail: string)
    ensures StartsWith(head + "\n" + CursorLine(line, column) + "\n" + tail, head + "\n" + TakeClamped(line, column) + Marker)
  {
    var upToMarker := head + "\n" + TakeClamped(line, column) + Marker;
    var rest := DropClamped(line, column) + "\n" + tail;
    PrefixOfConcat(upToMarker, rest);
    assert upToMarker + rest == head + "\n" + CursorLine(line, column) + "\n" + tail;
  }

  /** Split into lines, the prompt holds the cursor line as one whole line between head and tail. */
  lemma PromptLines(ctx: CodeContext, suggestionType: string)
    requires '\n' !in ctx.currentLine
    ensures Split(BuildPrompt(ctx, suggestionType), '\n')
         == Split(PromptHead(ctx, suggestionType), '\n')
            + [CursorLine(ctx.currentLine, ctx.cursorPosition.column)]
            + Split(PromptTail(ctx), '\n')
  {
    CursorLineKeepsAbsent(ctx.currentLine, ctx.cursorPosition.column, '\n');
    SplitAround(PromptHead(ctx, suggestionType), CursorLine(ctx.currentLine, ctx.cursorPosition.column), PromptTail(ctx));
  }

  /** Inserting the marker adds no character other than the marker's own. */
  lemma CursorLineKeepsAbsent(line: string, column: nat, c: char)
    requires c !in line && c !in Marker
    ensures c !in CursorLine(line, column)
  {
    TakeDropClamped(line, column);
    assert forall d :: d in TakeClamped(line, column) ==> d in line;
    assert forall d :: d in DropClamped(line, column) ==> d in line;
  }

  /** A line without a newline, put between two newlines, is one piece of the split. */
  lemma SplitAround(head: string, l: string, tail: string)
    requires '\n' !in l
    ensures Split(head + "\n" + l + "\n" + tail, '\n') == Split(head, '\n') + [l] + Split(tail, '\n')
  {
    var rest := l + ['\n'] + tail;
    assert head + "\n" + l + "\n" + tail == head + ['\n'] + rest;
    SplitAppend(head, rest, '\n');
    SplitAppend(l, tail, '\n');
    SplitWithoutSeparator(l, '\n');
    assert Split(rest, '\n') == [l] + Split(tail, '\n');
  }

  // ---------------------------------------------------------------------------
  // Fallback suggestion
  // ---------------------------------------------------------------------------

  const Unavailable := "// AI suggestion unavailable - check your AI provider configuration"
  const ConditionReply := "condition) {\n  // TODO: Add condition logic\n}"
  const FunctionReply := "functionName() {\n  // TODO: Add function logic\n}"
  const VariableReply := "variableName = "
  const ValueReply := "value"
  const MethodReply := "method()"
  const BlockReply := "\n  // TODO: Add implementation\n}"
  const ItemReply := "item]"
  const DefaultReply := "// TODO: Add code here"

  /** `lines.find(line => line.includes(pat))`. */
  function FirstContaining(lines: seq<string>, pat: string): (r: Option<string>)
    ensures r.Some? ==> r.value in lines && Contains(r.value, pat)
    ensures r.None? ==> forall k :: 0 <= k < |lines| ==> !Contains(lines[k], pat)
    decreases |lines|
  {
    if |lines| == 0 then None
    else if Contains(lines[0], pat) then Some(lines[0])
    else FirstContaining(lines[1..], pat)
  }

  /** `line.split(pat)[0]`: the text before the first occurrence. */
  function BeforeFirst(line: string, pat: string): (r: string)
    ensures StartsWith(line, r)
    ensures Contains(line, pat) ==> OccursAt(line, pat, |r|) && forall k :: 0 <= k < |r| ==> !OccursAt(line, pat, k)
  {
    match IndexOf(line, pat, 0)
    case Some(i) => line[..i]
    case None => line
  }

  /** The fixed replies for the trimmed text before the cursor, tested in this order. */
  function MockFromBefore(before: string): (r: string)
    ensures r in {ConditionReply, FunctionReply, VariableReply, ValueReply, MethodReply, BlockReply, ItemReply, DefaultReply}
    ensures EndsWith(Trim(before), "if (") ==> r == ConditionReply
    ensures !EndsWith(Trim(before), "if (") && EndsWith(Trim(before), "=") ==> r == ValueReply
    ensures !EndsWith(Trim(before), "if (") && !EndsWith(Trim(before), "=") && EndsWith(Trim(before), ".") ==> r == MethodReply
    ensures (!EndsWith(Trim(before), "if (") && !EndsWith(Trim(before), "=") && !EndsWith(Trim(before), ".")
      && EndsWith(Trim(before), "{")) ==> r == BlockReply
    ensures (!EndsWith(Trim(before), "if (") && !EndsWith(Trim(before), "=") && !EndsWith(Trim(before), ".")
      && !EndsWith(Trim(before), "{") && EndsWith(Trim(before), "[")) ==> r == ItemReply
    ensures (!EndsWith(Trim(before), "if (") && !EndsWith(Trim(before), "=") && !EndsWith(Trim(before), ".")
      && !EndsWith(Trim(before), "{") && !EndsWith(Trim(before), "[")) ==> r == DefaultReply
  {
    TrimmedNotEndingInSpace(before, "function ");
    TrimmedNotEndingInSpace(before, "const ");
    TrimmedNotEndingInSpace(before, "let ");
    var t := Trim(before);
    if EndsWith(t, "if (") then ConditionReply
    else if EndsWith(t, "function ") then FunctionReply
    else if EndsWith(t, "const ") then VariableReply
    else if EndsWith(t, "let ") then VariableReply
    else if EndsWith(t, "=") then ValueReply
    else if EndsWith(t, ".") then MethodReply
    else if EndsWith(t, "{") then BlockReply
    else if EndsWith(t, "[") then ItemReply
    else DefaultReply
  }

  /**
    The "function ", "const " and "let " tests can never succeed, since a trimmed
    text never ends in a space; those two replies are never produced.
   */
  lemma MockNeverNamesFunctionOrVariable(before: string)
    ensures MockFromBefore(before) != FunctionReply && MockFromBefore(before) != VariableReply
  {
    TrimmedNotEndingInSpace(before, "function ");
    TrimmedNotEndingInSpace(before, "const ");
    TrimmedNotEndingInSpace(before, "let ");
    // The six remaining replies differ from these two in length.
    assert |FunctionReply| == 48 && |VariableReply| == 15;
  }

  /** `generateMockSuggestion`: the reply for the text before the marker on the first line holding one. */
  function MockSuggestion(prompt: string): (r: string)
    ensures r != ""
    ensures FirstContaining(Split(prompt, '\n'), Marker).None? ==> r == Unavailable
    ensures FirstContaining(Split(prompt, '\n'), Marker).Some? ==>
      r == MockFromBefore(BeforeFirst(FirstContaining(Split(prompt, '\n'), Marker).value, Marker))
  {
    match FirstContaining(Split(prompt, '\n'), Marker)
    case None => Unavailable
    case Some(line) => MockFromBefore(BeforeFirst(line, Marker))
  }

  /** A string without '|' cannot hold the marker. */
  lemma NoBarNoMarker(s: string)
    requires '|' !in s
    ensures !Contains(s, Marker)
  {
    forall i | 0 <= i <= |s| ensures !OccursAt(s, Marker, i) {
      OccursAtHead(s, Marker, i);
    }
  }

  /** The first line with the marker is the given one when no line before it holds a '|'. */
  lemma {:induction false} FirstMarkerLine(before: seq<string>, line: string, after: seq<string>)
    requires forall i :: 0 <= i < |before| ==> '|' !in before[i]
    requires Contains(line, Marker)
    ensures FirstContaining(before + [line] + after, Marker) == Some(line)
    decreases |before|
  {
    var all := before + [line] + after;
    if |before| == 0 {
      assert all[0] == line;
    } else {
      assert all[0] == before[0];
      NoBarNoMarker(before[0]);
      assert all[1..] == before[1..] + [line] + after;
      FirstMarkerLine(before[1..], line, after);
    }
  }

  /** The marker's text before is the part of the line before the inserted marker. */
  lemma BeforeFirstMarker(pre: string, post: string)
    requires '|' !in pre
    ensures BeforeFirst(pre + Marker + post, Marker) == pre
  {
    var l := pre + Marker + post;
    assert OccursAt(l, Marker, |pre|);
    ContainsAt(l, Marker, |pre|);
    var r := BeforeFirst(l, Marker);
    forall k | 0 <= k < |pre| ensures !OccursAt(l, Marker, k) {
      OccursAtHead(l, Marker, k);
      assert l[k] == pre[k];
    }
    assert l[..|pre|] == pre;
  }

  /** The languages `detectLanguage` can report. */
  lemma DetectLanguageNames(content: string, fileName: Option<string>)
    ensures DetectLanguage(content, fileName) in {"TypeScript", "JavaScript", "Python", "Java", "Go", "Rust", "PHP"}
  {
  }

  /** The frameworks `detectFramework` can report. */
  lemma DetectFrameworkNames(content: string)
    ensures DetectFramework(content) in {"React", "Vue", "Angular", "Next.js", "None"}
  {
  }

  /** The prompt's head has no '|' of its own. */
  lemma NoBarInHead(ctx: CodeContext, suggestionType: string)
    requires '|' !in suggestionType && '|' !in ctx.language && '|' !in ctx.framework && '|' !in ctx.beforeContext
    ensures '|' !in PromptHead(ctx, suggestionType)
  {
    HeadTextHasNoBar();
  }

  /** The fixed text of the prompt's head. */
  lemma HeadTextHasNoBar()
    ensures '|' !in PromptIntro
    ensures '|' !in " suggestion.\n\nLanguage: " && '|' !in "\nFramework: " && '|' !in "\n\nContext:\n"
  {
    assert '|' !in "You are an expert ";
    assert '|' !in "code completion ";
    assert '|' !in "assistant. ";
    assert '|' !in "Generate a ";
  }

  /** Nothing the analysis derives from bar-free content holds a '|'. */
  lemma NoBarInContext(content: string, line: nat, column: nat, fileName: Option<string>)
    requires '|' !in content
    ensures var ctx := AnalyzeCodeContext(content, line, column, fileName);
      '|' !in ctx.language && '|' !in ctx.framework && '|' !in ctx.beforeContext
      && '|' !in ctx.currentLine && '\n' !in ctx.currentLine
  {
    var lines := Split(content, '\n');
    SplitKeepsAbsent(content, '\n', '|');
    NoBarInWindow(lines, line);
    NoBarInNames(content, fileName);
  }

  /** No language or framework name holds a '|'. */
  lemma NoBarInNames(content: string, fileName: Option<string>)
    ensures '|' !in DetectLanguage(content, fileName) && '|' !in DetectFramework(content)
  {
    DetectLanguageNames(content, fileName);
    DetectFrameworkNames(content);
  }

  /** Lines without '|' give a window and a current line without '|'. */
  lemma NoBarInWindow(lines: seq<string>, line: nat)
    requires forall i :: 0 <= i < |lines| ==> '|' !in lines[i]
    ensures '|' !in Join(BeforeLines(lines, line), "\n") && '|' !in CurrentLineOf(lines, line)
  {
    JoinKeepsAbsent(BeforeLines(lines, line), "\n", '|');
  }

  /** With no '|' above it, the fallback answers for the text before the marker on the marked line. */
  lemma MockOfMarkedPrompt(head: string, pre: string, post: string, tail: string)
    requires '|' !in head && '|' !in pre && '\n' !in pre + Marker + post
    ensures MockSuggestion(head + "\n" + (pre + Marker + post) + "\n" + tail) == MockFromBefore(pre)
  {
    var l := pre + Marker + post;
    SplitAround(head, l, tail);
    SplitKeepsAbsent(head, '\n', '|');
    assert OccursAt(l, Marker, |pre|);
    ContainsAt(l, Marker, |pre|);
    FirstMarkerLine(Split(head, '\n'), l, Split(tail, '\n'));
    BeforeFirstMarker(pre, post);
  }

  /**
    For content and suggestion type without '|', the fallback built from the
    prompt answers for exactly the text before the cursor on the current line.
   */
  lemma MockReadsCursorPrefix(content: string, line: nat, column: nat, fileName: Option<string>, suggestionType: string)
    requires '|' !in content && '|' !in suggestionType
    ensures var ctx := AnalyzeCodeContext(content, line, column, fileName);
      MockSuggestion(BuildPrompt(ctx, suggestionType)) == MockFromBefore(TakeClamped(ctx.currentLine, column))
  {
    var ctx := AnalyzeCodeContext(content, line, column, fileName);
    NoBarInContext(content, line, column, fileName);
    NoBarInHead(ctx, suggestionType);
    MockOfPrompt(ctx, suggestionType);
  }

  /** The fallback for a prompt whose head and current line hold no '|' reads the current line before the cursor. */
  lemma MockOfPrompt(ctx: CodeContext, suggestionType: string)
    requires '|' !in PromptHead(ctx, suggestionType) && '|' !in ctx.currentLine && '\n' !in ctx.currentLine
    ensures MockSuggestion(BuildPrompt(ctx, suggestionType)) == MockFromBefore(TakeClamped(ctx.currentLine, ctx.cursorPosition.column))
  {
    var column := ctx.cursorPosition.column;
    CursorLineKeepsAbsent(ctx.currentLine, column, '\n');
    var pre := TakeClamped(ctx.currentLine, column);
    TakeDropClamped(ctx.currentLine, column);
    assert '|' !in pre by {
      assert forall c :: c in pre ==> c in ctx.currentLine;
    }
    MockOfMarkedPrompt(PromptHead(ctx, suggestionType), pre, DropClamped(ctx.currentLine, column), PromptTail(ctx));
  }

  // ---------------------------------------------------------------------------
  // Reply clean-up
  // ---------------------------------------------------------------------------

  const Fence := "```"

  /**
    The first group of `/```[\w]*\n?([\s\S]*?)```/`: after the first fence, its
    language word and an optional newline, the text up to the next fence.
   */
  function FencedBody(s: string): (r: Option<string>)
    ensures r.Some? ==> Contains(s, Fence) && !Contains(r.value, Fence)
    ensures !Contains(s, Fence) ==> r.None?
  {
    match IndexOf(s, Fence, 0)
    case None => None
    case Some(p) =>
      var afterWord := WordEnd(s, p + 3);
      var q := if afterWord < |s| && s[afterWord] == '\n' then afterWord + 1 else afterWord;
      match IndexOf(s, Fence, q)
      case None => None
      case Some(e) =>
        ContainsAt(s, Fence, p);
        BodyBeforeFence(s, q, e);
        Some(s[q..e])
  }

  lemma BodyBeforeFence(s: string, q: nat, e: nat)
    requires q <= e && OccursAt(s, Fence, e)
    requires forall k :: q <= k < e ==> !OccursAt(s, Fence, k)
    ensures !Contains(s[q..e], Fence)
  {
    forall i | 0 <= i <= |s[q..e]| ensures !OccursAt(s[q..e], Fence, i) {
      OccursInSlice(s, Fence, q, e, i);
    }
  }

  /** A fenced block is found and its body returned, whatever its language word. */
  lemma FencedRoundTrip(pre: string, lang: string, body: string, rest: string)
    requires '`' !in pre && '`' !in body
    requires forall k :: 0 <= k < |lang| ==> IsWordChar(lang[k])
    ensures FencedBody(pre + Fence + lang + "\n" + body + Fence + rest) == Some(body)
  {
    var s := pre + Fence + lang + "\n" + body + Fence + rest;
    var p := |pre|;
    var w := p + 3 + |lang|;
    var e := w + 1 + |body|;
    assert s[0..p] == pre;
    assert s[p..p + 3] == Fence;
    assert forall k :: p + 3 <= k < w ==> s[k] == lang[k - p - 3];
    assert s[w] == '\n';
    assert s[w + 1..e] == body;
    assert s[e..e + 3] == Fence;
    NoFenceWithin(s, pre, 0);
    NoFenceWithin(s, body, w + 1);
    FencedAt(s, p, w, e);
  }

  /** The positions that decide the match: first fence, word, newline, closing fence. */
  lemma FencedAt(s: string, p: nat, w: nat, e: nat)
    requires OccursAt(s, Fence, p) && forall k :: 0 <= k < p ==> !OccursAt(s, Fence, k)
    requires p + 3 <= w < |s| && s[w] == '\n' && forall k :: p + 3 <= k < w ==> IsWordChar(s[k])
    requires w + 1 <= e && OccursAt(s, Fence, e) && forall k :: w + 1 <= k < e ==> !OccursAt(s, Fence, k)
    ensures FencedBody(s) == Some(s[w + 1..e])
  {
    IndexOfFinds(s, Fence, 0, p);
    WordEndAt(s, p + 3, w);
    IndexOfFinds(s, Fence, w + 1, e);
    FencedBodyOf(s, p, w + 1, e);
  }

  /** The body found after a fence whose language word ends in a newline. */
  lemma FencedBodyOf(s: string, p: nat, q: nat, e: nat)
    requires IndexOf(s, Fence, 0) == Some(p)
    requires p + 3 <= |s| && WordEnd(s, p + 3) + 1 == q <= |s| && s[q - 1] == '\n'
    requires IndexOf(s, Fence, q) == Some(e)
    ensures FencedBody(s) == Some(s[q..e])
  {
    var w := WordEnd(s, p + 3);
    assert w < |s| && s[w] == '\n';
  }

  /** A stretch of `s` without a backtick holds no fence start. */
  lemma NoFenceWithin(s: string, part: string, at: nat)
    requires '`' !in part && at + |part| <= |s| && s[at..at + |part|] == part
    ensures forall k :: at <= k < at + |part| ==> !OccursAt(s, Fence, k)
  {
    forall k | at <= k < at + |part| ensures !OccursAt(s, Fence, k) {
      OccursAtHead(s, Fence, k);
      assert s[k] == s[at..at + |part|][k - at];
    }
  }

  /** The reply after the fence step: the trimmed body of the first fenced block, if the reply has one. */
  function Unfenced(reply: string): string {
    if Contains(reply, Fence) then
      match FencedBody(reply)
      case Some(body) => Trim(body)
      case None => reply
    else reply
  }

  /** The cleaned reply, or the fallback when nothing is left of it. */
  function CleanedOrMock(reply: string, prompt: string): string {
    var cleaned := Trim(RemoveAll(Unfenced(reply), Marker));
    if cleaned != "" then cleaned else MockSuggestion(prompt)
  }

  /** The clean-up in `generateSuggestion`: the reply is reassigned step by step, then the fallback is used if it came out empty. */
  method CleanSuggestion(suggestion: string, prompt: string) returns (result: string)
    ensures result == CleanedOrMock(suggestion, prompt)
  {
    var cleaned := suggestion;
    if Contains(cleaned, Fence) {
      var codeMatch := FencedBody(cleaned);
      cleaned := if codeMatch.Some? then Trim(codeMatch.value) else cleaned;
    }
    cleaned := Trim(RemoveAll(cleaned, Marker));
    result := if cleaned != "" then cleaned else MockSuggestion(prompt);
  }

  /** The outcome of the clean-up is never empty, and is the trimmed reply or the fallback. */
  lemma CleanedOrMockShape(reply: string, prompt: string)
    ensures CleanedOrMock(reply, prompt) != ""
    ensures CleanedOrMock(reply, prompt) == MockSuggestion(prompt)
      || Trim(CleanedOrMock(reply, prompt)) == CleanedOrMock(reply, prompt)
  {
    TrimIdempotent(RemoveAll(Unfenced(reply), Marker));
  }

  /** A reply without fences or markers comes back trimmed. */
  lemma PlainReplyKept(reply: string, prompt: string)
    requires !Contains(reply, Fence) && !Contains(reply, Marker) && Trim(reply) != ""
    ensures CleanedOrMock(reply, prompt) == Trim(reply)
  {
    RemoveAllWithoutOccurrence(reply, Marker);
  }

  /** A fenced reply is reduced to the trimmed body of its block. */
  lemma FencedReplyKept(pre: string, lang: string, body: string, rest: string, prompt: string)
    requires '`' !in pre && '`' !in body && '|' !in body && Trim(body) != ""
    requires forall k :: 0 <= k < |lang| ==> IsWordChar(lang[k])
    ensures CleanedOrMock(pre + Fence + lang + "\n" + body + Fence + rest, prompt) == Trim(body)
  {
    UnfencedBlock(pre, lang, body, rest);
    TrimInside(body);
    TrimIdempotent(body);
    CleanTextKept(Trim(body));
  }

  /** The fence step picks out the trimmed body of the first block. */
  lemma UnfencedBlock(pre: string, lang: string, body: string, rest: string)
    requires '`' !in pre && '`' !in body
    requires forall k :: 0 <= k < |lang| ==> IsWordChar(lang[k])
    ensures Unfenced(pre + Fence + lang + "\n" + body + Fence + rest) == Trim(body)
  {
    FencedRoundTrip(pre, lang, body, rest);
    ContainsAt(pre + Fence + lang + "\n" + body + Fence + rest, Fence, |pre|);
  }

  /** Text that is already trimmed and holds no '|' passes the marker step and the trim unchanged. */
  lemma CleanTextKept(u: string)
    requires '|' !in u && Trim(u) == u
    ensures Trim(RemoveAll(u, Marker)) == u
  {
    NoBarNoMarker(u);
    RemoveAllWithoutOccurrence(u, Marker);
  }

  lemma TrimInside(s: string)
    ensures forall c :: c in Trim(s) ==> c in s
  {
    var t := TrimStart(s);
    assert forall c :: c in t ==> c in s;
    assert forall c :: c in TrimEnd(t) ==> c in t;
  }

  /**
    The marker removal is a single pass: removing the inner marker of
    "|CUR|CURSOR|SOR|" joins the pieces around it into a new marker, which stays.
   */
  lemma MarkerRemovalSinglePass()
    ensures RemoveAll("|CUR|CURSOR|SOR|", Marker) == Marker
  {
    var s := "|CUR|CURSOR|SOR|";
    assert s == "|CUR" + (Marker + "SOR|");
    NoMarkerInPiece(s);
    RemoveAllKeepsPrefix("|CUR", Marker + "SOR|", Marker);
    RemoveAllLeading(Marker, "SOR|");
    RemoveAllShort("SOR|", Marker);
    assert RemoveAll(s, Marker) == "|CUR" + "SOR|";
  }

  /** No marker starts inside the leading piece `|CUR`. */
  lemma NoMarkerInPiece(s: string)
    requires s == "|CUR|CURSOR|SOR|"
    ensures forall i | 0 <= i < 4 :: !OccursAt(s, Marker, i)
  {
    forall i | 0 <= i < 4 ensures !OccursAt(s, Marker, i) {
      OccursAtChar(s, Marker, i, 0);
      OccursAtChar(s, Marker, i, 4);
    }
  }

  // ---------------------------------------------------------------------------
  // Generation and the POST handler
  // ---------------------------------------------------------------------------

  const SuggestionOptions := Options(0.3, 300)

  /** The suggestion for a prompt: any failure on the way to a reply falls back to the mock. */
  function SuggestionFor(prompt: string, env: Env, net: GeminiRequest -> HttpReply): (r: string)
    ensures r != ""
    ensures GetAIProvider(env).Err? ==> r == MockSuggestion(prompt)
    ensures r == MockSuggestion(prompt) || Trim(r) == r
  {
    match GetAIProvider(env)
    case Err(_) => MockSuggestion(prompt)
    case Ok(service) =>
      match service.GenerateCodeSuggestion(prompt, SuggestionOptions, net)
      case Err(_) => MockSuggestion(prompt)
      case Ok(reply) => CleanedOrMockShape(reply, prompt); CleanedOrMock(reply, prompt)
  }

  /** `generateSuggestion`: the caught error and the empty clean-up both end in the fallback. */
  method GenerateSuggestion(prompt: string, env: Env, net: GeminiRequest -> HttpReply) returns (suggestion: string)
    ensures suggestion == SuggestionFor(prompt, env, net)
    ensures suggestion != ""
  {
    var service := GetAIProvider(env);
    if service.Err? {
      return MockSuggestion(prompt);
    }
    var reply := service.value.GenerateCodeSuggestion(prompt, SuggestionOptions, net);
    if reply.Err? {
      return MockSuggestion(prompt);
    }
    suggestion := CleanSuggestion(reply.value, prompt);
    CleanedOrMockShape(reply.value, prompt);
  }

  /** Without a usable key no request is made and the fallback answers. */
  lemma MissingKeyUsesMock(prompt: string, env: Env, net: GeminiRequest -> HttpReply)
    requires env.aiApiKey.None? || env.aiApiKey.value == ""
    ensures SuggestionFor(prompt, env, net) == MockSuggestion(prompt)
  {
  }

  datatype SuggestionResponse =
    | InvalidInput
    | Suggested(suggestion: string, context: CodeContext, provider: string)

  /** `POST /api/code-suggestion`. */
  method HandleCodeSuggestion(body: SuggestionBody, env: Env, net: GeminiRequest -> HttpReply) returns (response: SuggestionResponse)
    ensures response.InvalidInput? <==> !ValidInput(body)
    ensures response.Suggested? ==>
      && body.cursorLine >= 0 && body.cursorColumn >= 0
      && response.context == AnalyzeCodeContext(body.fileContent, body.cursorLine, body.cursorColumn, body.fileName)
      && response.suggestion == SuggestionFor(BuildPrompt(response.context, body.suggestionType), env, net)
      && response.suggestion != ""
      && response.provider == ProviderName(env)
  {
    if !ValidInput(body) {
      return InvalidInput;
    }
    var context := AnalyzeCodeContext(body.fileContent, body.cursorLine, body.cursorColumn, body.fileName);
    var prompt := BuildPrompt(context, body.suggestionType);
    var suggestion := GenerateSuggestion(prompt, env, net);
    response := Suggested(suggestion, context, ProviderName(env));
  }
}
