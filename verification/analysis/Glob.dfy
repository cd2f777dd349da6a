/** The glob compiler of the portal language audit (globPatternMatches in
    portal-language-audit.ts): a pattern becomes the text of a regular expression.
    Characters stand for the code points that the `u` flag makes the unit of
    matching. */
module Glob {

  import opened Optional

  // ---- The compiler -------------------------------------------------------------

  predicate Special(c: char) {
    c in {'\\', '^', '$', '.', '*', '+', '?', '(', ')', '[', ']', '{', '}', '|'}
  }

  function Escaped(c: char): string {
    if Special(c) then ['\\', c] else [c]
  }

  predicate StartsDirectories(pattern: string) {
    |pattern| >= 3 && pattern[0] == '*' && pattern[1] == '*' && pattern[2] == '/'
  }

  predicate StartsDouble(pattern: string) {
    |pattern| >= 2 && pattern[0] == '*' && pattern[1] == '*'
  }

  /** What the compiler emits for a pattern. */
  function Emitted(pattern: string): string {
    if pattern == "" then ""
    else if StartsDirectories(pattern) then "(?:.*/)?" + Emitted(pattern[3..])
    else if StartsDouble(pattern) then ".*" + Emitted(pattern[2..])
    else if pattern[0] == '*' then "[^/]*" + Emitted(pattern[1..])
    else if pattern[0] == '?' then "[^/]" + Emitted(pattern[1..])
    else Escaped(pattern[0]) + Emitted(pattern[1..])
  }

  /** How the text for the rest of a pattern goes on behind its next segment. */
  lemma EmittedGoesOn(pattern: string, index: nat)
    requires index < |pattern|
    ensures
      var rest, here := pattern[index..], Emitted(pattern[index..]);
      if StartsDirectories(rest) then here == "(?:.*/)?" + Emitted(pattern[index + 3..])
      else if StartsDouble(rest) then here == ".*" + Emitted(pattern[index + 2..])
      else if rest[0] == '*' then here == "[^/]*" + Emitted(pattern[index + 1..])
      else if rest[0] == '?' then here == "[^/]" + Emitted(pattern[index + 1..])
      else here == Escaped(rest[0]) + Emitted(pattern[index + 1..])
  {
    hide Escaped;
    var rest := pattern[index..];
    assert rest[1..] == pattern[index + 1..];
    if StartsDouble(rest) {
      assert rest[2..] == pattern[index + 2..];
    }
    if StartsDirectories(rest) {
      assert rest[3..] == pattern[index + 3..];
    }
  }

  /** The loop that builds the text between the anchors. */
  method Compile(pattern: string) returns (expression: string)
    ensures expression == Emitted(pattern)
  {
    EmittedOfNothing();
    hide Emitted, Escaped;
    expression := "";
    var index := 0;
    assert pattern[0..] == pattern;
    while index < |pattern|
      invariant 0 <= index <= |pattern|
      invariant expression + Emitted(pattern[index..]) == Emitted(pattern)
    {
      var character := pattern[index];
      EmittedGoesOn(pattern, index);
      if index + 2 < |pattern| && character == '*' && pattern[index + 1] == '*' && pattern[index + 2] == '/' {
        expression := expression + "(?:.*/)?";
        index := index + 3;
      } else if index + 1 < |pattern| && character == '*' && pattern[index + 1] == '*' {
        expression := expression + ".*";
        index := index + 2;
      } else {
        expression := expression +
          (if character == '*' then "[^/]*" else if character == '?' then "[^/]" else Escaped(character));
        index := index + 1;
      }
    }
    assert pattern[index..] == "";
  }

  lemma EmittedOfNothing()
    ensures Emitted("") == ""
  {
  }

  // ---- Regular expressions: syntax ------------------------------------------------

  /** The fragment of regular expressions that can come up. */
  datatype Regex =
    | Empty
    | Literal(c: char)
    | AnyChar
    | NotSlash
    | Star(body: Regex)
    | Optional(body: Regex)
    | Then(first: Regex, rest: Regex)

  datatype Parsed = Parsed(regex: Regex, rest: string)

  /** A disjunction-free expression, up to the end or an unmatched parenthesis. */
  function ParseSequence(text: string): (result: Option<Parsed>)
    ensures result.Some? ==> |result.value.rest| <= |text|
    decreases |text|, 2
  {
    if text == "" || text[0] == ')' then Some(Parsed(Empty, text))
    else
      match ParseTerm(text)
      case None => None
      case Some(Parsed(first, remaining)) =>
        match ParseSequence(remaining)
        case None => None
        case Some(Parsed(rest, after)) => Some(Parsed(Then(first, rest), after))
  }

  /** An atom and its quantifier. */
  function ParseTerm(text: string): (result: Option<Parsed>)
    requires text != ""
    ensures result.Some? ==> |result.value.rest| < |text|
    decreases |text|, 1
  {
    match ParseAtom(text)
    case None => None
    case Some(Parsed(atom, rest)) =>
      if rest != "" && rest[0] == '*' then Some(Parsed(Star(atom), rest[1..]))
      else if rest != "" && rest[0] == '?' then Some(Parsed(Optional(atom), rest[1..]))
      else Some(Parsed(atom, rest))
  }

  predicate StartsNegatedSlash(text: string) {
    |text| >= 4 && text[0] == '[' && text[1] == '^' && text[2] == '/' && text[3] == ']'
  }

  predicate StartsGroup(text: string) {
    |text| >= 3 && text[0] == '(' && text[1] == '?' && text[2] == ':'
  }

  function ParseAtom(text: string): (result: Option<Parsed>)
    requires text != ""
    ensures result.Some? ==> |result.value.rest| < |text|
    decreases |text|, 0
  {
    if text[0] == '\\' then
      if |text| >= 2 && Special(text[1]) then Some(Parsed(Literal(text[1]), text[2..])) else None
    else if text[0] == '.' then Some(Parsed(AnyChar, text[1..]))
    else if StartsNegatedSlash(text) then Some(Parsed(NotSlash, text[4..]))
    else if StartsGroup(text) then
      match ParseSequence(text[3..])
      case None => None
      case Some(Parsed(inner, rest)) =>
        if rest != "" && rest[0] == ')' then Some(Parsed(inner, rest[1..])) else None
    else if Special(text[0]) then None
    else Some(Parsed(Literal(text[0]), text[1..]))
  }

  function ParseRegex(text: string): Option<Regex> {
    match ParseSequence(text)
    case None => None
    case Some(Parsed(regex, rest)) => if rest == "" then Some(regex) else None
  }

  // ---- Regular expressions: meaning -------------------------------------------------

  predicate LineTerminator(c: char) {
    c == '\n' || c == '\r' || c == '\U{2028}' || c == '\U{2029}'
  }

  /** The whole of `path` matches. */
  ghost predicate Matches(regex: Regex, path: string)
    decreases regex, |path|
  {
    match regex
    case Empty => path == ""
    case Literal(c) => path == [c]
    case AnyChar => |path| == 1 && !LineTerminator(path[0])
    case NotSlash => |path| == 1 && path[0] != '/'
    case Star(body) =>
      path == "" ||
      exists i :: 0 < i <= |path| && Matches(body, path[..i]) && Matches(regex, path[i..])
    case Optional(body) => path == "" || Matches(body, path)
    case Then(first, rest) => exists i :: 0 <= i <= |path| && Matches(first, path[..i]) && Matches(rest, path[i..])
  }

  // ---- Globs: meaning -----------------------------------------------------------------

  predicate OneLine(path: string) {
    forall i :: 0 <= i < |path| ==> !LineTerminator(path[i])
  }

  /** The direct reading of a pattern: a double star with a slash stands for any
      number of whole directories, a double star for anything, a star for anything
      within a directory, a question mark for one character of a name. What a double
      star stands for has no line terminators in it. */
  ghost predicate GlobMatches(pattern: string, path: string)
    decreases |pattern|
  {
    if pattern == "" then path == ""
    else if StartsDirectories(pattern) then
      GlobMatches(pattern[3..], path) ||
      exists i :: 0 <= i < |path| && path[i] == '/' && OneLine(path[..i]) && GlobMatches(pattern[3..], path[i + 1..])
    else if StartsDouble(pattern) then
      exists i :: 0 <= i <= |path| && OneLine(path[..i]) && GlobMatches(pattern[2..], path[i..])
    else if pattern[0] == '*' then
      exists i :: 0 <= i <= |path| && '/' !in path[..i] && GlobMatches(pattern[1..], path[i..])
    else if pattern[0] == '?' then
      path != "" && path[0] != '/' && GlobMatches(pattern[1..], path[1..])
    else
      path != "" && path[0] == pattern[0] && GlobMatches(pattern[1..], path[1..])
  }

  // ---- The emitted text parses as intended ------------------------------------------

  const DIRECTORIES := Optional(Then(Star(AnyChar), Then(Literal('/'), Empty)))

  /** The regular expression that a pattern stands for. */
  function Translated(pattern: string): Regex {
    if pattern == "" then Empty
    else if StartsDirectories(pattern) then Then(DIRECTORIES, Translated(pattern[3..]))
    else if StartsDouble(pattern) then Then(Star(AnyChar), Translated(pattern[2..]))
    else if pattern[0] == '*' then Then(Star(NotSlash), Translated(pattern[1..]))
    else if pattern[0] == '?' then Then(NotSlash, Translated(pattern[1..]))
    else Then(Literal(pattern[0]), Translated(pattern[1..]))
  }

  /** The text does not begin with something that would quantify what comes before. */
  predicate NoQuantifier(text: string) {
    text == "" || (text[0] != '*' && text[0] != '?' && text[0] != ')')
  }

  lemma {:induction false} EmittedStartsFresh(pattern: string)
    ensures NoQuantifier(Emitted(pattern))
  {
  }

  lemma SlashParses(rest: string)
    ensures ParseSequence("/)?" + rest) == Some(Parsed(Then(Literal('/'), Empty), ")?" + rest))
  {
    var slash := "/)?" + rest;
    assert slash[1..] == ")?" + rest;
    assert ParseAtom(slash) == Some(Parsed(Literal('/'), slash[1..]));
    assert ParseSequence(slash[1..]) == Some(Parsed(Empty, slash[1..]));
  }

  lemma DirectoryBodyParses(rest: string)
    ensures ParseSequence(".*/)?" + rest) ==
            Some(Parsed(Then(Star(AnyChar), Then(Literal('/'), Empty)), ")?" + rest))
  {
    var inner := ".*/)?" + rest;
    assert inner[1..] == "*/)?" + rest && inner[1..][1..] == "/)?" + rest;
    assert ParseAtom(inner) == Some(Parsed(AnyChar, inner[1..]));
    SlashParses(rest);
  }

  lemma DirectoriesParse(rest: string)
    requires NoQuantifier(rest)
    ensures ParseTerm("(?:.*/)?" + rest) == Some(Parsed(DIRECTORIES, rest))
  {
    hide ParseSequence;
    var text := "(?:.*/)?" + rest;
    assert StartsGroup(text) && text[3..] == ".*/)?" + rest;
    DirectoryBodyParses(rest);
    assert (")?" + rest)[1..] == "?" + rest && ("?" + rest)[1..] == rest;
  }

  lemma SimpleTermsParse(c: char, rest: string)
    requires NoQuantifier(rest)
    ensures ParseTerm(".*" + rest) == Some(Parsed(Star(AnyChar), rest))
    ensures ParseTerm("[^/]*" + rest) == Some(Parsed(Star(NotSlash), rest))
    ensures ParseTerm("[^/]" + rest) == Some(Parsed(NotSlash, rest))
    ensures ParseTerm(Escaped(c) + rest) == Some(Parsed(Literal(c), rest))
  {
    assert (".*" + rest)[1..] == "*" + rest && ("*" + rest)[1..] == rest;
    assert ("[^/]*" + rest)[4..] == "*" + rest && ("*" + rest)[1..] == rest;
    assert ("[^/]" + rest)[4..] == rest;
    var literal := Escaped(c) + rest;
    if Special(c) {
      assert literal[0] == '\\' && literal[1] == c && literal[2..] == rest;
    } else {
      assert literal[0] == c && literal[1..] == rest;
    }
  }

  /** The text that the compiler emits is a well-formed regular expression, and it
      means the translation: every special character of the pattern is escaped. */
  lemma {:induction false} EmittedParses(pattern: string)
    ensures ParseSequence(Emitted(pattern)) == Some(Parsed(Translated(pattern), ""))
  {
    if pattern != "" {
      if StartsDirectories(pattern) {
        EmittedParses(pattern[3..]);
        EmittedStartsFresh(pattern[3..]);
        DirectoriesParse(Emitted(pattern[3..]));
      } else if StartsDouble(pattern) {
        EmittedParses(pattern[2..]);
        EmittedStartsFresh(pattern[2..]);
        SimpleTermsParse('*', Emitted(pattern[2..]));
      } else {
        EmittedParses(pattern[1..]);
        EmittedStartsFresh(pattern[1..]);
        SimpleTermsParse(pattern[0], Emitted(pattern[1..]));
      }
    }
  }

  // ---- The translation means the pattern ----------------------------------------------

  lemma {:induction false} StarOfAny(path: string)
    ensures Matches(Star(AnyChar), path) <==> OneLine(path)
    decreases |path|
  {
    if path != "" {
      if OneLine(path) {
        StarOfAny(path[1..]);
        assert path[..1][0] == path[0];
        assert Matches(AnyChar, path[..1]);
      }
      if Matches(Star(AnyChar), path) {
        var i :| 0 < i <= |path| && Matches(AnyChar, path[..i]) && Matches(Star(AnyChar), path[i..]);
        StarOfAny(path[i..]);
        assert path == path[..i] + path[i..];
      }
    }
  }

  lemma {:induction false} StarOfNotSlash(path: string)
    ensures Matches(Star(NotSlash), path) <==> '/' !in path
    decreases |path|
  {
    if path != "" {
      if '/' !in path {
        StarOfNotSlash(path[1..]);
        assert Matches(NotSlash, path[..1]);
      }
      if Matches(Star(NotSlash), path) {
        var i :| 0 < i <= |path| && Matches(NotSlash, path[..i]) && Matches(Star(NotSlash), path[i..]);
        StarOfNotSlash(path[i..]);
        assert path == path[..i] + path[i..];
      }
    }
  }

  /** A whole directory prefix on one line. */
  predicate DirectoryPrefix(path: string) {
    path != "" && path[|path| - 1] == '/' && OneLine(path[..|path| - 1])
  }

  lemma SlashMatches(path: string)
    ensures Matches(Then(Literal('/'), Empty), path) <==> path == "/"
  {
    if path == "/" {
      assert path[..1] == "/" && path[1..] == "";
    }
    if Matches(Then(Literal('/'), Empty), path) {
      var k :| 0 <= k <= |path| && Matches(Literal('/'), path[..k]) && Matches(Empty, path[k..]);
      assert path == path[..k] + path[k..];
    }
  }

  lemma DirectoriesMatch(path: string)
    ensures Matches(DIRECTORIES, path) <==> path == "" || DirectoryPrefix(path)
  {
    var slash := Then(Literal('/'), Empty);
    if DirectoryPrefix(path) {
      var i := |path| - 1;
      StarOfAny(path[..i]);
      SlashMatches(path[i..]);
      assert path[i..] == "/";
      assert Matches(Then(Star(AnyChar), slash), path);
    }
    if path != "" && Matches(Then(Star(AnyChar), slash), path) {
      var i :| 0 <= i <= |path| && Matches(Star(AnyChar), path[..i]) && Matches(slash, path[i..]);
      StarOfAny(path[..i]);
      SlashMatches(path[i..]);
      assert path[i] == path[i..][0];
    }
  }

  /** The translation means what the pattern means, on every path. */
  lemma {:induction false} TranslationMeansPattern(pattern: string, path: string)
    ensures Matches(Translated(pattern), path) <==> GlobMatches(pattern, path)
    decreases |pattern|
  {
    if pattern == "" {
    } else if StartsDirectories(pattern) {
      var rest := pattern[3..];
      forall i | 0 <= i <= |path|
        ensures Matches(Translated(rest), path[i..]) <==> GlobMatches(rest, path[i..])
        ensures Matches(DIRECTORIES, path[..i]) <==> i == 0 || DirectoryPrefix(path[..i])
      {
        TranslationMeansPattern(rest, path[i..]);
        DirectoriesMatch(path[..i]);
      }
      DirectoriesSplit(rest, path);
      DirectoriesThen(rest, path);
    } else if StartsDouble(pattern) {
      var rest := pattern[2..];
      forall i | 0 <= i <= |path|
        ensures Matches(Translated(rest), path[i..]) <==> GlobMatches(rest, path[i..])
        ensures Matches(Star(AnyChar), path[..i]) <==> OneLine(path[..i])
      {
        TranslationMeansPattern(rest, path[i..]);
        StarOfAny(path[..i]);
      }
    } else {
      var rest := pattern[1..];
      forall i | 0 <= i <= |path|
        ensures Matches(Translated(rest), path[i..]) <==> GlobMatches(rest, path[i..])
        ensures Matches(Star(NotSlash), path[..i]) <==> '/' !in path[..i]
      {
        TranslationMeansPattern(rest, path[i..]);
        StarOfNotSlash(path[..i]);
      }
      if pattern[0] != '*' && path != "" {
        assert path[..1] == [path[0]];
      }
    }
  }

  ghost predicate AfterDirectories(rest: string, path: string) {
    GlobMatches(rest, path) ||
    exists i :: 0 <= i < |path| && path[i] == '/' && OneLine(path[..i]) && GlobMatches(rest, path[i + 1..])
  }

  ghost predicate PastDirectories(rest: string, path: string, i: nat) {
    i <= |path| && (i == 0 || DirectoryPrefix(path[..i])) && GlobMatches(rest, path[i..])
  }

  lemma PrefixEndsInSlash(path: string, i: nat)
    requires 0 < i <= |path|
    ensures DirectoryPrefix(path[..i]) <==> path[i - 1] == '/' && OneLine(path[..i - 1])
  {
    assert path[..i][..i - 1] == path[..i - 1];
  }

  lemma DirectoriesSplit(rest: string, path: string)
    ensures AfterDirectories(rest, path) <==> exists i: nat :: PastDirectories(rest, path, i)
  {
    hide GlobMatches, DirectoryPrefix, OneLine;
    assert path[0..] == path;
    if GlobMatches(rest, path) {
      assert PastDirectories(rest, path, 0);
    } else if AfterDirectories(rest, path) {
      var i :| 0 <= i < |path| && path[i] == '/' && OneLine(path[..i]) && GlobMatches(rest, path[i + 1..]);
      PrefixEndsInSlash(path, i + 1);
      assert PastDirectories(rest, path, i + 1);
    }
    if exists i: nat :: PastDirectories(rest, path, i) {
      var i: nat :| PastDirectories(rest, path, i);
      if i > 0 {
        PrefixEndsInSlash(path, i);
        assert path[i - 1] == '/' && OneLine(path[..i - 1]) && GlobMatches(rest, path[i - 1 + 1..]);
      }
    }
  }

  lemma DirectoriesThen(rest: string, path: string)
    requires forall i :: 0 <= i <= |path| ==> (Matches(Translated(rest), path[i..]) <==> GlobMatches(rest, path[i..]))
    requires forall i :: 0 <= i <= |path| ==> (Matches(DIRECTORIES, path[..i]) <==> i == 0 || DirectoryPrefix(path[..i]))
    ensures Matches(Then(DIRECTORIES, Translated(rest)), path) <==> exists i: nat :: PastDirectories(rest, path, i)
  {
    hide GlobMatches, DirectoryPrefix, Translated;
    forall i: nat | i <= |path|
      ensures PastDirectories(rest, path, i) <==>
              Matches(DIRECTORIES, path[..i]) && Matches(Translated(rest), path[i..])
    {
    }
    hide PastDirectories;
  }

  // ---- The whole function ---------------------------------------------------------------

  /** For every pattern the compiled text is a regular expression, and it matches a
      path exactly when the pattern, read directly, does. */
  lemma CompiledMeansPattern(pattern: string, path: string)
    ensures ParseRegex(Emitted(pattern)).Some?
    ensures Matches(ParseRegex(Emitted(pattern)).value, path) <==> GlobMatches(pattern, path)
  {
    EmittedParses(pattern);
    TranslationMeansPattern(pattern, path);
  }
}
