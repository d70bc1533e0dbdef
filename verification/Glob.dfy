/**
 Compiling wildcard patterns to regular expressions (internal/permissions/manager.go). The regular
 expression is a text; what it means is given by parsing that text and matching the parsed form, so
 a metacharacter that escaped escaping would show.
 */
module Glob {
  import opened Prelude

  // ------------------------------------------------------------ regular expressions

  datatype Atom = Literal(c: char) | AnyChar

  datatype Node = Once(atom: Atom) | Star(atom: Atom)

  /** `.` matches anything but a newline. */
  predicate Accepts(atom: Atom, c: char) {
    match atom
    case Literal(x) => c == x
    case AnyChar => c != '\n'
  }

  predicate Run(atom: Atom, s: string) {
    forall i :: 0 <= i < |s| ==> Accepts(atom, s[i])
  }

  /** The whole subject is in the language of the expression. */
  predicate Matches(re: seq<Node>, s: string)
    decreases |re|
  {
    if re == [] then s == ""
    else match re[0]
      case Once(a) => s != "" && Accepts(a, s[0]) && Matches(re[1..], s[1..])
      case Star(a) => exists k :: 0 <= k <= |s| && Run(a, s[..k]) && Matches(re[1..], s[k..])
  }

  predicate IsMeta(c: char) {
    c in "\\.+*?()[]{}^$|"
  }

  predicate IsAlphanumeric(c: char) {
    '0' <= c <= '9' || 'A' <= c <= 'Z' || 'a' <= c <= 'z'
  }

  /** One atom at the head of the text, and how many characters it takes. */
  function ParseAtom(text: string): Option<(Atom, nat)>
    requires text != ""
  {
    if text[0] == '\\' then
      if |text| >= 2 && text[1] < '\U{80}' && !IsAlphanumeric(text[1]) then Some((Literal(text[1]), 2)) else None
    else if text[0] == '.' then Some((AnyChar, 1))
    else if IsMeta(text[0]) then None
    else Some((Literal(text[0]), 1))
  }

  function Before(node: Node, rest: Option<seq<Node>>): Option<seq<Node>> {
    match rest
    case None => None
    case Some(nodes) => Some([node] + nodes)
  }

  /** The fragment of the syntax made of literals, escapes, `.` and `*`; None outside it. */
  function ParseNodes(text: string): Option<seq<Node>>
    decreases |text|
  {
    if text == "" then Some([])
    else match ParseAtom(text)
      case None => None
      case Some((atom, n)) =>
        if n > |text| then None
        else if n < |text| && text[n] == '*' then Before(Star(atom), ParseNodes(text[n + 1..]))
        else if n > 0 then Before(Once(atom), ParseNodes(text[n..]))
        else None
  }

  /** regexp.Compile of an expression anchored at both ends. */
  function ParseAnchored(text: string): Option<seq<Node>> {
    if |text| >= 2 && text[0] == '^' && text[|text| - 1] == '$' then ParseNodes(text[1..|text| - 1]) else None
  }

  // ------------------------------------------------------------ globs

  /** What one pattern character contributes to the regular expression text. */
  function Translate(c: char): string {
    match c
    case '*' => ".*"
    case '?' => "."
    case _ => if IsMeta(c) then ['\\', c] else [c]
  }

  function ToRegex(pattern: string): string {
    if pattern == "" then "" else Translate(pattern[0]) + ToRegex(pattern[1..])
  }

  function Compile(pattern: string): Option<seq<Node>> {
    ParseAnchored("^" + ToRegex(pattern) + "$")
  }

  predicate Wild(c: char, oneLine: bool) {
    oneLine ==> c != '\n'
  }

  /** What a wildcard pattern means: `*` any text, `?` any one character, anything else itself. With
      `oneLine` the wildcards do not match a newline. */
  predicate GlobMatches(pattern: string, s: string, oneLine: bool)
    decreases |pattern| + |s|
  {
    if pattern == "" then s == ""
    else if pattern[0] == '*' then
      GlobMatches(pattern[1..], s, oneLine) ||
      (s != "" && Wild(s[0], oneLine) && GlobMatches(pattern, s[1..], oneLine))
    else
      s != "" && (if pattern[0] == '?' then Wild(s[0], oneLine) else s[0] == pattern[0]) &&
      GlobMatches(pattern[1..], s[1..], oneLine)
  }

  // ------------------------------------------------------------ compilation preserves meaning

  function NodeOf(c: char): Node {
    match c
    case '*' => Star(AnyChar)
    case '?' => Once(AnyChar)
    case _ => Once(Literal(c))
  }

  function NodesOf(pattern: string): seq<Node> {
    if pattern == "" then [] else [NodeOf(pattern[0])] + NodesOf(pattern[1..])
  }

  lemma ToRegexDoesNotStartWithStar(pattern: string)
    ensures ToRegex(pattern) != "" ==> ToRegex(pattern)[0] != '*'
  {
  }

  /** Every character of the pattern becomes one node: nothing in it is taken as syntax. */
  lemma {:induction false} ToRegexParses(pattern: string)
    ensures ParseNodes(ToRegex(pattern)) == Some(NodesOf(pattern))
  {
    if pattern != "" {
      var c, rest := pattern[0], ToRegex(pattern[1..]);
      var text := Translate(c) + rest;
      ToRegexParses(pattern[1..]);
      ToRegexDoesNotStartWithStar(pattern[1..]);
      assert ToRegex(pattern) == text;
      if c == '*' {
        assert text[2..] == rest;
      } else if c == '?' || !IsMeta(c) {
        assert text[1..] == rest;
      } else {
        assert text[2..] == rest;
      }
    }
  }

  lemma CompileSucceeds(pattern: string)
    ensures Compile(pattern) == Some(NodesOf(pattern))
  {
    var body := ToRegex(pattern);
    assert ("^" + body + "$")[1..|body| + 1] == body;
    ToRegexParses(pattern);
  }

  lemma StarSplits(re: seq<Node>, s: string, a: Atom)
    requires re != [] && re[0] == Star(a) && Matches(re, s)
    ensures Matches(re[1..], s) || (s != "" && Accepts(a, s[0]) && Matches(re, s[1..]))
  {
    hide Accepts;
    var k :| 0 <= k <= |s| && Run(a, s[..k]) && Matches(re[1..], s[k..]);
    if k == 0 {
      assert s[0..] == s;
    } else {
      assert s[..k][0] == s[0];
      assert s[1..][..k - 1] == s[..k][1..] && s[1..][k - 1..] == s[k..];
    }
  }

  lemma StarExtends(re: seq<Node>, s: string, a: Atom)
    requires re != [] && re[0] == Star(a) && s != "" && Accepts(a, s[0]) && Matches(re, s[1..])
    ensures Matches(re, s)
  {
    hide Accepts;
    var k :| 0 <= k <= |s[1..]| && Run(a, s[1..][..k]) && Matches(re[1..], s[1..][k..]);
    assert s[..k + 1] == [s[0]] + s[1..][..k] && s[k + 1..] == s[1..][k..];
  }

  lemma StarSkips(re: seq<Node>, s: string, a: Atom)
    requires re != [] && re[0] == Star(a) && Matches(re[1..], s)
    ensures Matches(re, s)
  {
    assert s[..0] == "" && s[0..] == s;
  }

  /** A star takes one more character or none. */
  lemma StarUnfolds(re: seq<Node>, s: string, a: Atom)
    requires re != [] && re[0] == Star(a)
    ensures Matches(re, s) <==> Matches(re[1..], s) || (s != "" && Accepts(a, s[0]) && Matches(re, s[1..]))
  {
    hide Accepts;
    if Matches(re, s) {
      StarSplits(re, s, a);
    }
    if Matches(re[1..], s) {
      StarSkips(re, s, a);
    }
    if s != "" && Accepts(a, s[0]) && Matches(re, s[1..]) {
      StarExtends(re, s, a);
    }
  }

  lemma {:induction false} NodesMeanTheGlob(pattern: string, s: string)
    ensures Matches(NodesOf(pattern), s) <==> GlobMatches(pattern, s, true)
    decreases |pattern| + |s|
  {
    if pattern != "" {
      assert NodesOf(pattern)[1..] == NodesOf(pattern[1..]);
      if pattern[0] == '*' {
        StarUnfolds(NodesOf(pattern), s, AnyChar);
        NodesMeanTheGlob(pattern[1..], s);
        if s != "" {
          NodesMeanTheGlob(pattern, s[1..]);
        }
      } else if s != "" {
        NodesMeanTheGlob(pattern[1..], s[1..]);
      }
    }
  }

  /** The regular expression text compiles for every pattern and matches a subject exactly when the
      glob does, its wildcards staying on one line. */
  lemma CompilationPreservesMeaning(pattern: string, s: string)
    ensures Compile(pattern).Some?
    ensures Matches(Compile(pattern).value, s) <==> GlobMatches(pattern, s, true)
  {
    CompileSucceeds(pattern);
    NodesMeanTheGlob(pattern, s);
  }

  lemma {:induction false} OneLineIsEnough(pattern: string, s: string)
    requires '\n' !in s
    ensures GlobMatches(pattern, s, true) <==> GlobMatches(pattern, s, false)
    decreases |pattern| + |s|
  {
    if pattern != "" {
      if pattern[0] == '*' {
        OneLineIsEnough(pattern[1..], s);
        if s != "" {
          OneLineIsEnough(pattern, s[1..]);
        }
      } else if s != "" {
        OneLineIsEnough(pattern[1..], s[1..]);
      }
    }
  }

  /** On a subject without newlines the compiled pattern is the glob. */
  lemma CompilationIsGlobOnOneLine(pattern: string, s: string)
    requires '\n' !in s
    ensures Compile(pattern).Some? && (Matches(Compile(pattern).value, s) <==> GlobMatches(pattern, s, false))
  {
    CompilationPreservesMeaning(pattern, s);
    OneLineIsEnough(pattern, s);
  }

  // ------------------------------------------------------------ where newlines matter

  predicate HasWildcard(pattern: string) {
    '*' in pattern || '?' in pattern
  }

  function Newlines(s: string): nat {
    if s == "" then 0 else (if s[0] == '\n' then 1 else 0) + Newlines(s[1..])
  }

  /** The pattern with a newline in place of every wildcard. */
  function Witness(pattern: string): string {
    if pattern == "" then ""
    else [if pattern[0] == '*' || pattern[0] == '?' then '\n' else pattern[0]] + Witness(pattern[1..])
  }

  lemma {:induction false} OneLineCountsNewlines(pattern: string, s: string)
    requires GlobMatches(pattern, s, true)
    ensures Newlines(s) == Newlines(pattern)
    decreases |pattern| + |s|
  {
    if pattern != "" {
      if pattern[0] == '*' {
        if GlobMatches(pattern[1..], s, true) {
          OneLineCountsNewlines(pattern[1..], s);
        } else {
          OneLineCountsNewlines(pattern, s[1..]);
        }
      } else {
        OneLineCountsNewlines(pattern[1..], s[1..]);
      }
    }
  }

  lemma {:induction false} WitnessMatches(pattern: string)
    ensures GlobMatches(pattern, Witness(pattern), false)
    ensures Newlines(Witness(pattern)) >= Newlines(pattern)
    ensures HasWildcard(pattern) ==> Newlines(Witness(pattern)) > Newlines(pattern)
  {
    if pattern != "" {
      var rest := Witness(pattern[1..]);
      WitnessMatches(pattern[1..]);
      assert Witness(pattern)[1..] == rest;
      assert pattern == [pattern[0]] + pattern[1..];
      if pattern[0] == '*' {
        assert GlobMatches(pattern, rest, false);
      }
    }
  }

  lemma {:induction false} LiteralsIgnoreTheMode(pattern: string, s: string)
    requires !HasWildcard(pattern)
    ensures GlobMatches(pattern, s, true) == GlobMatches(pattern, s, false)
  {
    if pattern != "" && s != "" {
      assert pattern == [pattern[0]] + pattern[1..];
      LiteralsIgnoreTheMode(pattern[1..], s[1..]);
    }
  }

  ghost predicate AgreesEverywhere(pattern: string) {
    forall s :: Matches(NodesOf(pattern), s) <==> GlobMatches(pattern, s, false)
  }

  /** A compiled pattern agrees with the glob on every subject, newlines included, exactly when it has
      no wildcard at all. */
  lemma AgreesEverywhereIff(pattern: string)
    ensures AgreesEverywhere(pattern) <==> !HasWildcard(pattern)
  {
    if HasWildcard(pattern) {
      var s := Witness(pattern);
      WitnessMatches(pattern);
      NodesMeanTheGlob(pattern, s);
      if GlobMatches(pattern, s, true) {
        OneLineCountsNewlines(pattern, s);
        assert false;
      }
      assert !Matches(NodesOf(pattern), s);
    } else {
      forall s
        ensures Matches(NodesOf(pattern), s) <==> GlobMatches(pattern, s, false)
      {
        NodesMeanTheGlob(pattern, s);
        LiteralsIgnoreTheMode(pattern, s);
      }
    }
  }

  lemma ToRegexStep(pattern: string, i: nat, text: string)
    requires i < |pattern| && text + ToRegex(pattern[i..]) == ToRegex(pattern)
    ensures (text + Translate(pattern[i])) + ToRegex(pattern[i + 1..]) == ToRegex(pattern)
  {
    hide Translate;
    assert pattern[i..][0] == pattern[i] && pattern[i..][1..] == pattern[i + 1..];
  }

  method Piece(ch: char) returns (piece: string)
    ensures piece == Translate(ch)
  {
    if ch == '*' {
      piece := ".*";
    } else if ch == '?' {
      piece := ".";
    } else if IsMeta(ch) {
      piece := ['\\', ch];
    } else {
      piece := [ch];
    }
  }

  method WildcardToRegex(pattern: string) returns (text: string)
    ensures text == ToRegex(pattern)
  {
    text := "";
    for i := 0 to |pattern|
      invariant text + ToRegex(pattern[i..]) == ToRegex(pattern)
    {
      var piece := Piece(pattern[i]);
      ToRegexStep(pattern, i, text);
      text := text + piece;
    }
    assert pattern[|pattern|..] == "";
  }
}
