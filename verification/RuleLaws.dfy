/**
 The rule manager (internal/permissions/manager.go) without its search: which rule decides a request,
 what a wildcard pattern matches, and what each update leaves, said of the rules themselves.
 */
module RuleLaws {
  import opened Prelude
  import opened Glob
  import opened RuleManager

  // ------------------------------------------------------------ patterns

  lemma {:induction false} JoinedMatches(p: string, q: string, s: string, t: string, oneLine: bool)
    requires GlobMatches(p, s, oneLine) && GlobMatches(q, t, oneLine)
    ensures GlobMatches(p + q, s + t, oneLine)
    decreases |p| + |s|
  {
    if p == "" {
      assert p + q == q && s + t == t;
    } else {
      assert (p + q)[0] == p[0] && (p + q)[1..] == p[1..] + q;
      if p[0] == '*' && GlobMatches(p[1..], s, oneLine) {
        JoinedMatches(p[1..], q, s, t, oneLine);
      } else {
        assert (s + t)[0] == s[0] && (s + t)[1..] == s[1..] + t;
        JoinedMatches(if p[0] == '*' then p else p[1..], q, s[1..], t, oneLine);
      }
    }
  }

  lemma {:induction false} MatchSplits(p: string, q: string, s: string, oneLine: bool) returns (k: nat)
    requires GlobMatches(p + q, s, oneLine)
    ensures k <= |s| && GlobMatches(p, s[..k], oneLine) && GlobMatches(q, s[k..], oneLine)
    decreases |p| + |s|
  {
    if p == "" {
      k := 0;
      assert p + q == q && s[0..] == s;
    } else {
      assert (p + q)[0] == p[0] && (p + q)[1..] == p[1..] + q;
      if p[0] == '*' && GlobMatches(p[1..] + q, s, oneLine) {
        k := MatchSplits(p[1..], q, s, oneLine);
      } else {
        k := MatchSplits(if p[0] == '*' then p else p[1..], q, s[1..], oneLine);
        assert s[..k + 1][1..] == s[1..][..k] && s[1..][k..] == s[k + 1..];
        k := k + 1;
      }
    }
  }

  /** A pattern put together of two matches exactly the subjects put together of what the two match. */
  lemma JoinedPatternIff(p: string, q: string, s: string, oneLine: bool)
    ensures GlobMatches(p + q, s, oneLine) <==>
            exists k :: 0 <= k <= |s| && GlobMatches(p, s[..k], oneLine) && GlobMatches(q, s[k..], oneLine)
  {
    hide GlobMatches;
    if GlobMatches(p + q, s, oneLine) {
      var k := MatchSplits(p, q, s, oneLine);
    }
    if k :| 0 <= k <= |s| && GlobMatches(p, s[..k], oneLine) && GlobMatches(q, s[k..], oneLine) {
      JoinedMatches(p, q, s[..k], s[k..], oneLine);
      assert s == s[..k] + s[k..];
    }
  }

  lemma {:induction false} StarMatches(s: string, oneLine: bool)
    ensures GlobMatches("*", s, oneLine) <==> oneLine ==> '\n' !in s
  {
    assert "*"[1..] == "";
    if s != "" {
      StarMatches(s[1..], oneLine);
      assert s == [s[0]] + s[1..];
    }
  }

  /** The pattern of one character: `*` any text, `?` any character, anything else itself; on one line
      the wildcards leave out the newline. With the joined patterns this says what every pattern matches. */
  lemma OneCharacterPattern(c: char, s: string, oneLine: bool)
    ensures GlobMatches([c], s, oneLine) <==>
      if c == '*' then oneLine ==> '\n' !in s
      else if c == '?' then |s| == 1 && (oneLine ==> s[0] != '\n')
      else s == [c]
  {
    assert [c][1..] == "";
    if c == '*' {
      StarMatches(s, oneLine);
    }
  }

  // ------------------------------------------------------------ the text of a rule

  /** Every text is read: all of it as a tool name without a '(', else the text before the first one and
      the text behind it, less one closing parenthesis at the end. */
  lemma TextIsRead(tool: string, content: string)
    requires '(' !in tool
    ensures ParseRuleValue(tool) == RuleValue(tool, "")
    ensures ParseRuleValue(tool + "(" + content + ")") == RuleValue(tool, content)
    ensures content == "" || content[|content| - 1] != ')' ==>
      ParseRuleValue(tool + "(" + content) == RuleValue(tool, content)
  {
    ParenSplits(tool, content);
    ParenSplits(tool, content + ")");
    var open, closed := tool + "(" + content, tool + "(" + (content + ")");
    assert closed == tool + "(" + content + ")";
    assert open[|tool|] == '(' && closed[|tool|] == '(';
    assert open[..|tool|] == tool && open[|tool| + 1..] == content;
    assert closed[..|tool|] == tool && closed[|tool| + 1..] == content + ")";
    assert TrimParen(content + ")") == content;
  }

  // ------------------------------------------------------------ the deciding rule

  /** A rule's tool name names the tool, alone or with a pattern in parentheses behind it. */
  ghost predicate Names(name: string, tool: string) {
    name == tool || exists rest :: name == tool + "(" + rest && '(' !in tool
  }

  lemma NamesIff(name: string, tool: string)
    ensures ToolMatches(name, tool) <==> Names(name, tool)
  {
    if '(' in name && name[..Paren(name)] == tool {
      assert name == tool + "(" + name[Paren(name) + 1..];
    }
    if rest :| name == tool + "(" + rest && '(' !in tool {
      ParenSplits(tool, rest);
      assert name[|tool|] == '(' && name[..|tool|] == tool;
    }
  }

  /** The rule speaks about the request: it names the tool, and its content, if it has any, is a pattern
      that matches the content of the request, which then must have some. */
  ghost predicate SpeaksOf(v: RuleValue, tool: string, content: string) {
    Names(v.tool, tool) && (v.content == "" || (content != "" && GlobMatches(v.content, content, true)))
  }

  lemma SpeaksIff(v: RuleValue, tool: string, content: string)
    ensures ValueMatches(v, tool, content) <==> SpeaksOf(v, tool, content)
  {
    hide ToolMatches, Names, GlobMatches;
    NamesIff(v.tool, tool);
  }

  /** Where a source stands in the order of sources; a source outside it is never consulted. */
  function Rank(source: RuleSource): nat {
    match source
    case PolicySettings => 0
    case FlagSettings => 1
    case CliArg => 2
    case ProjectSettings => 3
    case LocalSettings => 4
    case UserSettings => 5
    case Command => 6
    case Session => 7
    case OtherSource(_) => 8
  }

  /** Denials are looked for first, then permissions, questions and the rules that pass on. */
  function Precedence(behavior: Behavior): nat {
    match behavior
    case Deny => 0
    case Allow => 1
    case Ask => 2
    case Passthrough => 3
  }

  /** The k-th rule of a consulted source speaks of the request. */
  ghost predicate InForce(rules: Rules, source: RuleSource, k: int, tool: string, content: string) {
    Rank(source) < 8 && source in rules && 0 <= k < |rules[source]| && SpeaksOf(rules[source][k].value, tool, content)
  }

  /** One rule goes before another: by what it does, then by its source, then by its place there. */
  predicate Before(a: Rule, source: RuleSource, k: int, b: Rule, source': RuleSource, k': int) {
    || Precedence(a.behavior) < Precedence(b.behavior)
    || (a.behavior == b.behavior && (Rank(source) < Rank(source') || (source == source' && k < k')))
  }

  /** The rule is in force and no rule in force goes before it. */
  ghost predicate Decides(rules: Rules, source: RuleSource, k: int, tool: string, content: string) {
    && InForce(rules, source, k, tool, content)
    && forall other, n :: InForce(rules, other, n, tool, content) ==>
       !Before(rules[other][n], other, n, rules[source][k], source, k)
  }

  lemma PriorityIsRank(i: nat)
    requires i < 8
    ensures |PRIORITY| == 8 && Rank(PRIORITY[i]) == i
  {
  }

  lemma RankIsPlace(source: RuleSource)
    requires Rank(source) < 8
    ensures |PRIORITY| == 8 && PRIORITY[Rank(source)] == source
  {
  }

  lemma {:induction false} FirstInIsFirst(list: seq<Rule>, behavior: Behavior, tool: string, content: string)
      returns (k: nat)
    requires FirstIn(list, behavior, tool, content).Some?
    ensures k < |list| && FirstIn(list, behavior, tool, content) == Some(list[k])
    ensures Hits(list[k], behavior, tool, content)
    ensures forall n :: 0 <= n < k ==> !Hits(list[n], behavior, tool, content)
  {
    if Hits(list[0], behavior, tool, content) {
      k := 0;
    } else {
      k := FirstInIsFirst(list[1..], behavior, tool, content);
      assert forall n :: 0 < n <= k ==> list[n] == list[1..][n - 1];
      k := k + 1;
    }
  }

  /** What a search finds is the first rule of its kind, by source and place. */
  lemma {:induction false} FindIsFirst(rules: Rules, sources: seq<RuleSource>, behavior: Behavior, tool: string,
      content: string) returns (i: nat, k: nat)
    requires Find(rules, sources, behavior, tool, content).Some?
    ensures i < |sources| && k < |Lookup(rules, sources[i])|
    ensures Find(rules, sources, behavior, tool, content) == Some(Lookup(rules, sources[i])[k])
    ensures Hits(Lookup(rules, sources[i])[k], behavior, tool, content)
    ensures forall j, x :: 0 <= j < i && x in Lookup(rules, sources[j]) ==> !Hits(x, behavior, tool, content)
    ensures forall n :: 0 <= n < k ==> !Hits(Lookup(rules, sources[i])[n], behavior, tool, content)
  {
    hide Hits, Lookup;
    FirstInMeans(Lookup(rules, sources[0]), behavior, tool, content);
    if FirstIn(Lookup(rules, sources[0]), behavior, tool, content).Some? {
      k := FirstInIsFirst(Lookup(rules, sources[0]), behavior, tool, content);
      i := 0;
    } else {
      i, k := FindIsFirst(rules, sources[1..], behavior, tool, content);
      assert forall j :: 0 < j <= i + 1 ==> sources[j] == sources[1..][j - 1];
      i := i + 1;
    }
  }

  lemma InForceHits(rules: Rules, source: RuleSource, k: int, tool: string, content: string)
    requires InForce(rules, source, k, tool, content)
    ensures source in PRIORITY && rules[source][k] in Lookup(rules, source)
    ensures Hits(rules[source][k], rules[source][k].behavior, tool, content)
  {
    hide SpeaksOf, ValueMatches;
    RankIsPlace(source);
    SpeaksIff(rules[source][k].value, tool, content);
  }

  /** A search over the sources in order for one behaviour. */
  lemma FoundIsFirst(rules: Rules, behavior: Behavior, tool: string, content: string)
      returns (source: RuleSource, k: nat)
    requires Find(rules, PRIORITY, behavior, tool, content).Some?
    ensures InForce(rules, source, k, tool, content) && rules[source][k].behavior == behavior
    ensures Find(rules, PRIORITY, behavior, tool, content) == Some(rules[source][k])
    ensures forall other, n :: InForce(rules, other, n, tool, content) && rules[other][n].behavior == behavior ==>
      !Before(rules[other][n], other, n, rules[source][k], source, k)
  {
    hide SpeaksOf, ValueMatches, Find;
    var i, at := FindIsFirst(rules, PRIORITY, behavior, tool, content);
    source, k := PRIORITY[i], at;
    PriorityIsRank(i);
    SpeaksIff(rules[source][k].value, tool, content);
    forall other, n | InForce(rules, other, n, tool, content) && rules[other][n].behavior == behavior
      ensures !Before(rules[other][n], other, n, rules[source][k], source, k)
    {
      InForceHits(rules, other, n, tool, content);
      RankIsPlace(other);
    }
  }

  lemma NoneFound(rules: Rules, behavior: Behavior, tool: string, content: string)
    requires Find(rules, PRIORITY, behavior, tool, content).None?
    ensures forall source, k ::
      InForce(rules, source, k, tool, content) ==> rules[source][k].behavior != behavior
  {
    hide SpeaksOf, ValueMatches, Hits;
    FindMeans(rules, PRIORITY, behavior, tool, content);
    forall source, k | InForce(rules, source, k, tool, content)
      ensures rules[source][k].behavior != behavior
    {
      InForceHits(rules, source, k, tool, content);
    }
  }

  /** The verdict is that of the rule that goes before all others in force, reported with it; with no rule
      in force the user is asked, and no rule is reported. */
  lemma VerdictIsOfTheFirst(rules: Rules, tool: string, content: string) returns (source: RuleSource, k: nat)
    ensures var verdict := Check(rules, tool, content);
      if verdict.rule.None? then
        verdict.behavior == Ask && forall other, n :: !InForce(rules, other, n, tool, content)
      else
        Decides(rules, source, k, tool, content) &&
        verdict == Verdict(rules[source][k].behavior, Some(rules[source][k]))
  {
    hide InForce, Find;
    source, k := Session, 0;
    if Find(rules, PRIORITY, Deny, tool, content).Some? {
      source, k := FoundIsFirst(rules, Deny, tool, content);
    } else {
      NoneFound(rules, Deny, tool, content);
      if Find(rules, PRIORITY, Allow, tool, content).Some? {
        source, k := FoundIsFirst(rules, Allow, tool, content);
      } else {
        NoneFound(rules, Allow, tool, content);
        if Find(rules, PRIORITY, Ask, tool, content).Some? {
          source, k := FoundIsFirst(rules, Ask, tool, content);
        } else {
          NoneFound(rules, Ask, tool, content);
          if Find(rules, PRIORITY, Passthrough, tool, content).Some? {
            source, k := FoundIsFirst(rules, Passthrough, tool, content);
          } else {
            NoneFound(rules, Passthrough, tool, content);
          }
        }
      }
    }
  }

  /** No two rules decide: whichever rule goes before all others gives the verdict. */
  lemma DecidingRuleIsReported(rules: Rules, tool: string, content: string, source: RuleSource, k: int)
    requires Decides(rules, source, k, tool, content)
    ensures Check(rules, tool, content) == Verdict(rules[source][k].behavior, Some(rules[source][k]))
  {
    hide Check, SpeaksOf;
    var other, n := VerdictIsOfTheFirst(rules, tool, content);
    RankIsPlace(source);
    RankIsPlace(if InForce(rules, other, n, tool, content) then other else source);
  }

  // ------------------------------------------------------------ updates

  function Made(source: RuleSource, behavior: Behavior, values: seq<RuleValue>): seq<Rule> {
    if values == [] then [] else [Rule(source, behavior, values[0])] + Made(source, behavior, values[1..])
  }

  function Spared(list: seq<Rule>, values: seq<RuleValue>): seq<Rule> {
    if list == [] then []
    else (if list[0].value in values then [] else [list[0]]) + Spared(list[1..], values)
  }

  lemma {:induction false} AddingAppends(rules: Rules, source: RuleSource, behavior: Behavior, values: seq<RuleValue>,
      s: RuleSource)
    ensures Lookup(AddedAll(rules, source, behavior, values), s) ==
            Lookup(rules, s) + if s == source then Made(source, behavior, values) else []
    decreases |values|
  {
    if values != [] {
      AddingAppends(Added(rules, source, Rule(source, behavior, values[0])), source, behavior, values[1..], s);
    }
  }

  lemma {:induction false} SparedOfNone(list: seq<Rule>)
    ensures Spared(list, []) == list
  {
    if list != [] {
      SparedOfNone(list[1..]);
      assert list == [list[0]] + list[1..];
    }
  }

  lemma {:induction false} SparedOfMore(list: seq<Rule>, values: seq<RuleValue>)
    requires values != []
    ensures Spared(list, values) == Spared(Without(list, values[0]), values[1..])
  {
    assert values == [values[0]] + values[1..];
    if list != [] {
      SparedOfMore(list[1..], values);
      if list[0].value != values[0] {
        assert Without(list, values[0])[1..] == Without(list[1..], values[0]);
      }
    }
  }

  lemma {:induction false} RemovingSpares(rules: Rules, source: RuleSource, values: seq<RuleValue>, s: RuleSource)
    ensures Lookup(RemovedAll(rules, source, values), s) ==
            if s == source then Spared(Lookup(rules, s), values) else Lookup(rules, s)
    decreases |values|
  {
    SparedOfNone(Lookup(rules, s));
    if values != [] {
      RemovingSpares(Removed(rules, source, values[0]), source, values[1..], s);
      SparedOfMore(Lookup(rules, source), values);
    }
  }

  /** The only destinations and operations an update may name. */
  function Named(destination: string): RuleSource {
    if destination == "user" then UserSettings
    else if destination == "project" then ProjectSettings
    else if destination == "local" then LocalSettings
    else Session
  }

  /** An update is taken exactly when it names one of three destinations and one of three operations. It
      leaves every other source as it was, in its order; at its own it appends the new rules in theirs,
      spares the rules it does not name, or leaves the new rules alone. */
  lemma UpdateMeans(rules: Rules, u: Update, s: RuleSource)
    ensures Applied(rules, u).Some? <==>
            u.destination in {"user", "project", "local"} && u.operation in {"add", "remove", "replace"}
    ensures Applied(rules, u).Some? ==>
      var list, made := Lookup(rules, s), Made(s, u.behavior, u.values);
      Lookup(Applied(rules, u).value, s) ==
        if s != Named(u.destination) then list
        else if u.operation == "add" then list + made
        else if u.operation == "remove" then Spared(list, u.values)
        else made
  {
    hide AddedAll, RemovedAll;
    if Applied(rules, u).Some? {
      var source := Destination(u.destination).value;
      AddingAppends(rules, source, u.behavior, u.values, s);
      AddingAppends(rules - {source}, source, u.behavior, u.values, s);
      RemovingSpares(rules, source, u.values, s);
    }
  }

  lemma {:induction false} MadeHolds(source: RuleSource, behavior: Behavior, values: seq<RuleValue>, k: nat)
    requires k < |values|
    ensures |Made(source, behavior, values)| == |values|
    ensures Made(source, behavior, values)[k] == Rule(source, behavior, values[k])
  {
    if |values| > 1 {
      MadeHolds(source, behavior, values[1..], if k > 0 then k - 1 else 0);
    }
  }

  /** A denial put in place by an update denies from then on what it speaks of. */
  lemma NewDenialDenies(rules: Rules, u: Update, k: nat, tool: string, content: string)
    requires Applied(rules, u).Some? && u.operation != "remove" && u.behavior == Deny
    requires k < |u.values| && SpeaksOf(u.values[k], tool, content)
    ensures Check(Applied(rules, u).value, tool, content).behavior == Deny
  {
    hide Applied, Check, SpeaksOf;
    var s, next := Named(u.destination), Applied(rules, u).value;
    UpdateMeans(rules, u, s);
    MadeHolds(s, Deny, u.values, k);
    var at := |Lookup(next, s)| - |u.values| + k;
    assert Lookup(next, s)[at] == Rule(s, Deny, u.values[k]);
    assert InForce(next, s, at, tool, content);
    var other, n := VerdictIsOfTheFirst(next, tool, content);
  }
}
