/**
 The rule manager (internal/permissions/manager.go): rules kept per source, checked in a fixed order
 of sources with denials first, their contents matched through a cache of compiled patterns; and the
 textual form of a rule.
 */
module RuleManager {
  import opened Prelude
  import opened Glob

  datatype Behavior = Allow | Deny | Ask | Passthrough

  datatype RuleSource =
    | PolicySettings | FlagSettings | CliArg | ProjectSettings | LocalSettings | UserSettings | Command | Session
    | OtherSource(name: string)

  datatype RuleValue = RuleValue(tool: string, content: string)

  datatype Rule = Rule(source: RuleSource, behavior: Behavior, value: RuleValue)

  datatype Verdict = Verdict(behavior: Behavior, rule: Option<Rule>)

  type Rules = map<RuleSource, seq<Rule>>

  // ------------------------------------------------------------ the text of a rule

  /** Where the first '(' stands, or the length when there is none. */
  function Paren(s: string): (i: nat)
    ensures i <= |s| && '(' !in s[..i]
    ensures i < |s| <==> '(' in s
    ensures i < |s| ==> s[i] == '('
  {
    if s == "" || s[0] == '(' then 0
    else
      var rest := Paren(s[1..]);
      assert s == [s[0]] + s[1..];
      assert s[..1 + rest] == [s[0]] + s[1..][..rest];
      1 + rest
  }

  function TrimParen(s: string): string {
    if s != "" && s[|s| - 1] == ')' then s[..|s| - 1] else s
  }

  function ParseRuleValue(s: string): RuleValue {
    if '(' !in s then RuleValue(s, "")
    else RuleValue(s[..Paren(s)], TrimParen(s[Paren(s) + 1..]))
  }

  function FormatRuleValue(v: RuleValue): string {
    if v.content == "" then v.tool else v.tool + "(" + v.content + ")"
  }

  lemma {:induction false} ParenSplits(head: string, tail: string)
    requires '(' !in head
    ensures Paren(head + "(" + tail) == |head|
  {
    var s := head + "(" + tail;
    if head != "" {
      assert s[1..] == head[1..] + "(" + tail;
      assert head == [head[0]] + head[1..];
      ParenSplits(head[1..], tail);
    }
  }

  /** A rule survives being written and read back exactly when its tool name holds no '('. */
  lemma FormatThenParse(v: RuleValue)
    ensures ParseRuleValue(FormatRuleValue(v)) == v <==> '(' !in v.tool
  {
    var s := FormatRuleValue(v);
    if '(' !in v.tool && v.content != "" {
      assert s == v.tool + "(" + (v.content + ")");
      ParenSplits(v.tool, v.content + ")");
      assert s[|v.tool|] == '(';
      assert s[..|v.tool|] == v.tool && s[|v.tool| + 1..] == v.content + ")";
      assert TrimParen(v.content + ")") == v.content;
    } else if '(' in v.tool {
      var i :| 0 <= i < |v.tool| && v.tool[i] == '(';
      assert s[i] == '(';
      assert '(' !in ParseRuleValue(s).tool;
    }
  }

  /** The text before the first '(' and the text after it. */
  lemma ParenDivides(s: string)
    requires '(' in s
    ensures s == s[..Paren(s)] + "(" + s[Paren(s) + 1..]
  {
  }

  lemma RestFormats(s: string, tool: string, rest: string)
    requires s == tool + "(" + rest
    ensures FormatRuleValue(RuleValue(tool, TrimParen(rest))) == s <==> |rest| > 1 && rest[|rest| - 1] == ')'
  {
    var content := TrimParen(rest);
    if rest != "" && rest[|rest| - 1] == ')' {
      assert rest == content + ")";
      assert content != "" ==> s == tool + "(" + content + ")";
    }
    assert |FormatRuleValue(RuleValue(tool, content))| == if content == "" then |tool| else |tool| + |content| + 2;
  }

  lemma ReadWithParen(s: string, rest: string)
    requires '(' in s && rest == s[Paren(s) + 1..]
    ensures FormatRuleValue(ParseRuleValue(s)) == s <==> |rest| > 1 && rest[|rest| - 1] == ')'
  {
    ParenDivides(s);
    RestFormats(s, s[..Paren(s)], rest);
  }

  lemma ReadWithoutParen(s: string)
    requires '(' !in s
    ensures FormatRuleValue(ParseRuleValue(s)) == s
  {
  }

  /** A text survives being read and written back exactly when it has no '(' or closes a non-empty
      content with a final ')'. */
  lemma ParseThenFormat(s: string)
    ensures FormatRuleValue(ParseRuleValue(s)) == s <==>
            '(' !in s || (Paren(s) + 2 < |s| && s[|s| - 1] == ')')
  {
    hide FormatRuleValue, ParseRuleValue, TrimParen, Paren;
    if '(' in s {
      var i := Paren(s);
      var rest := s[i + 1..];
      ReadWithParen(s, rest);
      assert |rest| == |s| - i - 1;
      assert rest != "" ==> rest[|rest| - 1] == s[|s| - 1];
    } else {
      ReadWithoutParen(s);
    }
  }

  /** Reading is stable: what was read is read again from its own text. */
  lemma ParseIsStable(s: string)
    ensures ParseRuleValue(FormatRuleValue(ParseRuleValue(s))) == ParseRuleValue(s)
  {
    FormatThenParse(ParseRuleValue(s));
  }

  // ------------------------------------------------------------ matching and checking

  predicate ToolMatches(pattern: string, tool: string) {
    pattern == tool || ('(' in pattern && pattern[..Paren(pattern)] == tool)
  }

  predicate ValueMatches(v: RuleValue, tool: string, content: string) {
    && ToolMatches(v.tool, tool)
    && (v.content == "" || (content != "" && GlobMatches(v.content, content, true)))
  }

  function Lookup(rules: Rules, source: RuleSource): seq<Rule> {
    if source in rules then rules[source] else []
  }

  const PRIORITY: seq<RuleSource> :=
    [PolicySettings, FlagSettings, CliArg, ProjectSettings, LocalSettings, UserSettings, Command, Session]

  predicate Hits(r: Rule, behavior: Behavior, tool: string, content: string) {
    r.behavior == behavior && ValueMatches(r.value, tool, content)
  }

  function FirstIn(list: seq<Rule>, behavior: Behavior, tool: string, content: string): Option<Rule>
  {
    if list == [] then None
    else if Hits(list[0], behavior, tool, content) then Some(list[0])
    else FirstIn(list[1..], behavior, tool, content)
  }

  function Find(rules: Rules, sources: seq<RuleSource>, behavior: Behavior, tool: string, content: string): Option<Rule>
  {
    if sources == [] then None
    else
      var here := FirstIn(Lookup(rules, sources[0]), behavior, tool, content);
      if here.Some? then here else Find(rules, sources[1..], behavior, tool, content)
  }

  function Check(rules: Rules, tool: string, content: string): Verdict {
    var deny := Find(rules, PRIORITY, Deny, tool, content);
    var allow := Find(rules, PRIORITY, Allow, tool, content);
    var ask := Find(rules, PRIORITY, Ask, tool, content);
    var passthrough := Find(rules, PRIORITY, Passthrough, tool, content);
    if deny.Some? then Verdict(Deny, deny)
    else if allow.Some? then Verdict(Allow, allow)
    else if ask.Some? then Verdict(Ask, ask)
    else if passthrough.Some? then Verdict(Passthrough, passthrough)
    else Verdict(Ask, None)
  }

  lemma {:induction false} FirstInMeans(list: seq<Rule>, behavior: Behavior, tool: string, content: string)
    ensures match FirstIn(list, behavior, tool, content)
      case Some(x) => x in list && Hits(x, behavior, tool, content)
      case None => forall x :: x in list ==> !Hits(x, behavior, tool, content)
  {
    if list != [] {
      FirstInMeans(list[1..], behavior, tool, content);
      assert list == [list[0]] + list[1..];
    }
  }

  lemma {:induction false} FindMeans(rules: Rules, sources: seq<RuleSource>, behavior: Behavior, tool: string,
      content: string)
    ensures match Find(rules, sources, behavior, tool, content)
      case Some(x) =>
        Hits(x, behavior, tool, content) && exists source :: source in sources && x in Lookup(rules, source)
      case None =>
        forall source, x :: source in sources && x in Lookup(rules, source) ==> !Hits(x, behavior, tool, content)
  {
    if sources != [] {
      FirstInMeans(Lookup(rules, sources[0]), behavior, tool, content);
      FindMeans(rules, sources[1..], behavior, tool, content);
      assert sources == [sources[0]] + sources[1..];
    }
  }

  /** Some rule of a consulted source, with this behaviour, applies. */
  ghost predicate Applies(rules: Rules, behavior: Behavior, tool: string, content: string) {
    exists source, x :: source in PRIORITY && x in Lookup(rules, source) && Hits(x, behavior, tool, content)
  }

  lemma FindIff(rules: Rules, behavior: Behavior, tool: string, content: string)
    ensures Find(rules, PRIORITY, behavior, tool, content).Some? <==> Applies(rules, behavior, tool, content)
  {
    FindMeans(rules, PRIORITY, behavior, tool, content);
  }

  /** A request is denied exactly when some deny rule applies, whatever else allows it, and allowed
      exactly when no deny rule applies and some allow rule does. */
  lemma DenyComesFirst(rules: Rules, tool: string, content: string)
    ensures Check(rules, tool, content).behavior == Deny <==> Applies(rules, Deny, tool, content)
    ensures Check(rules, tool, content).behavior == Allow <==>
            !Applies(rules, Deny, tool, content) && Applies(rules, Allow, tool, content)
  {
    FindIff(rules, Deny, tool, content);
    FindIff(rules, Allow, tool, content);
  }

  /** Among the rules that applied, the one reported comes from the source of highest priority. */
  lemma {:induction false} ReportedRuleIsFirst(rules: Rules, sources: seq<RuleSource>, behavior: Behavior, tool: string,
      content: string) returns (i: nat)
    requires Find(rules, sources, behavior, tool, content).Some?
    ensures i < |sources| && Find(rules, sources, behavior, tool, content).value in Lookup(rules, sources[i])
    ensures forall j, x :: 0 <= j < i && x in Lookup(rules, sources[j]) ==> !Hits(x, behavior, tool, content)
  {
    FirstInMeans(Lookup(rules, sources[0]), behavior, tool, content);
    if FirstIn(Lookup(rules, sources[0]), behavior, tool, content).Some? {
      i := 0;
    } else {
      i := ReportedRuleIsFirst(rules, sources[1..], behavior, tool, content);
      assert forall j :: 0 < j <= i ==> sources[j] == sources[1..][j - 1];
      i := i + 1;
    }
  }

  // ------------------------------------------------------------ updates

  function Added(rules: Rules, source: RuleSource, rule: Rule): Rules {
    rules[source := Lookup(rules, source) + [rule]]
  }

  function Without(list: seq<Rule>, v: RuleValue): seq<Rule> {
    if list == [] then []
    else if list[0].value == v then Without(list[1..], v)
    else [list[0]] + Without(list[1..], v)
  }

  function Removed(rules: Rules, source: RuleSource, v: RuleValue): Rules {
    rules[source := Without(Lookup(rules, source), v)]
  }

  function AddedAll(rules: Rules, source: RuleSource, behavior: Behavior, values: seq<RuleValue>): Rules
    decreases |values|
  {
    if values == [] then rules
    else AddedAll(Added(rules, source, Rule(source, behavior, values[0])), source, behavior, values[1..])
  }

  function RemovedAll(rules: Rules, source: RuleSource, values: seq<RuleValue>): Rules
    decreases |values|
  {
    if values == [] then rules else RemovedAll(Removed(rules, source, values[0]), source, values[1..])
  }

  datatype Update = Update(destination: string, operation: string, values: seq<RuleValue>, behavior: Behavior)

  function Destination(name: string): Option<RuleSource> {
    match name
    case "user" => Some(UserSettings)
    case "project" => Some(ProjectSettings)
    case "local" => Some(LocalSettings)
    case _ => None
  }

  function Applied(rules: Rules, u: Update): Option<Rules> {
    match Destination(u.destination)
    case None => None
    case Some(source) =>
      match u.operation
      case "add" => Some(AddedAll(rules, source, u.behavior, u.values))
      case "remove" => Some(RemovedAll(rules, source, u.values))
      case "replace" => Some(AddedAll(rules - {source}, source, u.behavior, u.values))
      case _ => None
  }

  lemma {:induction false} AddingKeepsRules(rules: Rules, source: RuleSource, behavior: Behavior,
      values: seq<RuleValue>, s: RuleSource, x: Rule)
    requires x in Lookup(rules, s)
    ensures x in Lookup(AddedAll(rules, source, behavior, values), s)
    decreases |values|
  {
    if values != [] {
      AddingKeepsRules(Added(rules, source, Rule(source, behavior, values[0])), source, behavior, values[1..], s, x);
    }
  }

  /** Adding rules never lifts a denial. */
  lemma AddingKeepsDenials(rules: Rules, u: Update, tool: string, content: string)
    requires u.operation == "add" && Applied(rules, u).Some?
    requires Check(rules, tool, content).behavior == Deny
    ensures Check(Applied(rules, u).value, tool, content).behavior == Deny
  {
    DenyComesFirst(rules, tool, content);
    var source, x :| source in PRIORITY && x in Lookup(rules, source) && Hits(x, Deny, tool, content);
    AddingKeepsRules(rules, Destination(u.destination).value, u.behavior, u.values, source, x);
    DenyComesFirst(Applied(rules, u).value, tool, content);
  }

  lemma {:induction false} WithoutHolds(list: seq<Rule>, v: RuleValue, x: Rule)
    ensures x in Without(list, v) <==> x in list && x.value != v
  {
    if list != [] {
      WithoutHolds(list[1..], v, x);
      assert list == [list[0]] + list[1..];
    }
  }

  lemma {:induction false} RemovingDrops(rules: Rules, source: RuleSource, values: seq<RuleValue>, s: RuleSource,
      x: Rule)
    ensures x in Lookup(RemovedAll(rules, source, values), s) <==>
        x in Lookup(rules, s) && (s == source ==> x.value !in values)
    decreases |values|
  {
    if values != [] {
      RemovingDrops(Removed(rules, source, values[0]), source, values[1..], s, x);
      WithoutHolds(Lookup(rules, source), values[0], x);
      assert values == [values[0]] + values[1..];
    }
  }

  lemma {:induction false} AddingHolds(rules: Rules, source: RuleSource, behavior: Behavior, values: seq<RuleValue>,
      s: RuleSource, x: Rule)
    ensures x in Lookup(AddedAll(rules, source, behavior, values), s) <==>
            x in Lookup(rules, s) || (s == source && x.source == source && x.behavior == behavior && x.value in values)
    decreases |values|
  {
    if values != [] {
      AddingHolds(Added(rules, source, Rule(source, behavior, values[0])), source, behavior, values[1..], s, x);
      assert values == [values[0]] + values[1..];
      assert x in Lookup(rules, source) + [Rule(source, behavior, values[0])] <==>
             x in Lookup(rules, source) || x == Rule(source, behavior, values[0]);
    }
  }

  /** What each update leaves: `add` keeps and adds, `remove` drops exactly the named values from its
      own destination, `replace` leaves there exactly the new rules; no update touches another source. */
  lemma UpdateEffect(rules: Rules, u: Update, s: RuleSource, x: Rule)
    requires Applied(rules, u).Some?
    ensures var source := Destination(u.destination).value;
      var added := s == source && x.source == source && x.behavior == u.behavior && x.value in u.values;
      x in Lookup(Applied(rules, u).value, s) <==>
        if u.operation == "add" then x in Lookup(rules, s) || added
        else if u.operation == "remove" then x in Lookup(rules, s) && (s == source ==> x.value !in u.values)
        else (s != source && x in Lookup(rules, s)) || added
  {
    var source := Destination(u.destination).value;
    match u.operation
    case "add" => AddingHolds(rules, source, u.behavior, u.values, s, x);
    case "remove" => RemovingDrops(rules, source, u.values, s, x);
    case "replace" => AddingHolds(rules - {source}, source, u.behavior, u.values, s, x);
    case _ =>
  }

  // ------------------------------------------------------------ the manager

  class Manager {
    var rules: Rules
    var cache: map<string, seq<Node>>

    /** Every cached expression is what compiling its pattern afresh gives. */
    ghost predicate Valid()
      reads this
    {
      forall p :: p in cache ==> Compile(p) == Some(cache[p])
    }

    constructor ()
      ensures Valid() && rules == map[] && cache == map[]
    {
      rules, cache := map[], map[];
    }

    method AddRule(source: RuleSource, rule: Rule)
      modifies `rules
      ensures rules == Added(old(rules), source, rule)
    {
      rules := rules[source := Lookup(rules, source) + [rule]];
    }

    method RemoveRule(source: RuleSource, v: RuleValue)
      modifies `rules
      ensures rules == Removed(old(rules), source, v)
    {
      var list := Lookup(rules, source);
      var kept: seq<Rule> := [];
      for i := 0 to |list|
        invariant kept + Without(list[i..], v) == Without(list, v)
        invariant rules == old(rules)
      {
        assert list[i..][0] == list[i] && list[i..][1..] == list[i + 1..];
        if list[i].value.tool != v.tool || list[i].value.content != v.content {
          kept := kept + [list[i]];
        }
      }
      assert kept == Without(list, v);
      rules := rules[source := kept];
    }

    method ClearRules(source: RuleSource)
      modifies `rules
      ensures rules == old(rules) - {source}
    {
      rules := rules - {source};
    }

    method AddRules(source: RuleSource, behavior: Behavior, values: seq<RuleValue>)
      modifies `rules
      ensures rules == AddedAll(old(rules), source, behavior, values)
    {
      for i := 0 to |values|
        invariant AddedAll(rules, source, behavior, values[i..]) == AddedAll(old(rules), source, behavior, values)
      {
        assert values[i..][0] == values[i] && values[i..][1..] == values[i + 1..];
        AddRule(source, Rule(source, behavior, values[i]));
      }
    }

    method Apply(u: Update) returns (ok: bool)
      modifies `rules
      ensures match Applied(old(rules), u)
        case None => !ok && rules == old(rules)
        case Some(next) => ok && rules == next
    {
      var destination := Destination(u.destination);
      if destination.None? {
        return false;
      }
      var source := destination.value;
      ok := true;
      if u.operation == "add" {
        AddRules(source, u.behavior, u.values);
      } else if u.operation == "remove" {
        for i := 0 to |u.values|
          invariant RemovedAll(rules, source, u.values[i..]) == RemovedAll(old(rules), source, u.values)
        {
          assert u.values[i..][0] == u.values[i] && u.values[i..][1..] == u.values[i + 1..];
          RemoveRule(source, u.values[i]);
        }
      } else if u.operation == "replace" {
        ClearRules(source);
        AddRules(source, u.behavior, u.values);
      } else {
        ok := false;
      }
    }

    /** The answer is that of the glob, whatever the cache holds. */
    method MatchPattern(pattern: string, s: string) returns (matched: bool)
      requires Valid()
      modifies `cache
      ensures Valid()
      ensures matched <==> GlobMatches(pattern, s, true)
      ensures pattern in cache && forall p :: p in old(cache) ==> p in cache && cache[p] == old(cache)[p]
    {
      if pattern !in cache {
        var text := WildcardToRegex(pattern);
        CompileSucceeds(pattern);
        var compiled := ParseAnchored("^" + text + "$").value;
        cache := cache[pattern := compiled];
      }
      CompilationPreservesMeaning(pattern, s);
      matched := Matches(cache[pattern], s);
    }

    method MatchesRule(v: RuleValue, tool: string, content: string) returns (matched: bool)
      requires Valid()
      modifies `cache
      ensures Valid()
      ensures matched <==> ValueMatches(v, tool, content)
    {
      if !ToolMatches(v.tool, tool) {
        return false;
      }
      if v.content == "" {
        return true;
      }
      if content == "" {
        return false;
      }
      matched := MatchPattern(v.content, content);
    }

    method FindInSource(list: seq<Rule>, behavior: Behavior, tool: string, content: string)
        returns (found: Option<Rule>)
      requires Valid()
      modifies `cache
      ensures Valid()
      ensures found == FirstIn(list, behavior, tool, content)
    {
      for i := 0 to |list|
        invariant Valid()
        invariant FirstIn(list, behavior, tool, content) == FirstIn(list[i..], behavior, tool, content)
      {
        assert list[i..][0] == list[i] && list[i..][1..] == list[i + 1..];
        if list[i].behavior == behavior {
          var matched := MatchesRule(list[i].value, tool, content);
          if matched {
            return Some(list[i]);
          }
        }
      }
      found := None;
    }

    method FindMatchingRule(sources: seq<RuleSource>, behavior: Behavior, tool: string, content: string)
      returns (found: Option<Rule>)
      requires Valid()
      modifies `cache
      ensures Valid()
      ensures found == Find(rules, sources, behavior, tool, content)
    {
      for i := 0 to |sources|
        invariant Valid()
        invariant Find(rules, sources, behavior, tool, content) == Find(rules, sources[i..], behavior, tool, content)
      {
        assert sources[i..][0] == sources[i] && sources[i..][1..] == sources[i + 1..];
        found := FindInSource(Lookup(rules, sources[i]), behavior, tool, content);
        if found.Some? {
          return;
        }
      }
      found := None;
    }

    method CheckPermission(tool: string, content: string) returns (verdict: Verdict)
      requires Valid()
      modifies `cache
      ensures Valid()
      ensures verdict == Check(rules, tool, content)
    {
      var found := FindMatchingRule(PRIORITY, Deny, tool, content);
      if found.Some? {
        return Verdict(Deny, found);
      }
      found := FindMatchingRule(PRIORITY, Allow, tool, content);
      if found.Some? {
        return Verdict(Allow, found);
      }
      found := FindMatchingRule(PRIORITY, Ask, tool, content);
      if found.Some? {
        return Verdict(Ask, found);
      }
      found := FindMatchingRule(PRIORITY, Passthrough, tool, content);
      if found.Some? {
        return Verdict(Passthrough, found);
      }
      verdict := Verdict(Ask, None);
    }
  }
}
