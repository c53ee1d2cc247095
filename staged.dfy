/**
 * RIFT-0 of the staged simulator: the tokenizer whose rules come from the
 * stage-0 governance configuration and whose classifier resolves competing
 * matches by priority, and the demonstration AST built from its output.
 */
module Staged {
  import opened Wrappers
  import opened Growth
  import opened Regex
  import opened Tokens
  import opened Syntax
  import opened Config
  import opened Governance

  /** One classification rule: the pattern at index i of the processor, its
      priority, and the token kind that index stands for. */
  datatype Rule = Rule(pattern: string, priority: int, kind: TokenKind)

  /** The kind and priority a lexeme is stamped with. */
  datatype Choice = Choice(kind: TokenKind, priority: int)

  /** What a lexeme no rule claims keeps: TOKEN_UNKNOWN with priority 0. */
  const Unclassified := Choice(UnknownKind, 0)

  /** rift_stage0_processor_t: the stage configuration and the rules taken from it. */
  datatype Stage0Processor = Stage0Processor(config: StageConfig, rules: seq<Rule>)

  // ---------------------------------------------------------------------------
  // The priority classifier

  /** The classification loop run over `rules`: the highest priority seen so
      far (starting at -1) and the choice it made. */
  function PriorityScan(m: Matcher, rules: seq<Rule>, text: string): (r: (int, Choice))
    ensures r.0 >= -1
    ensures r.0 == -1 ==> r.1 == Unclassified
    ensures r.0 != -1 ==> r.1.priority == r.0
    decreases |rules|
  {
    if rules == [] then (-1, Unclassified)
    else
      var prev := PriorityScan(m, rules[..|rules| - 1], text);
      var last := rules[|rules| - 1];
      if PatternMatches(m, last.pattern, text) && last.priority > prev.0 then
        (last.priority, Choice(last.kind, last.priority))
      else
        prev
  }

  /** A rule can be selected only if it matches and beats the initial -1. */
  predicate Eligible(m: Matcher, rule: Rule, text: string)
  {
    PatternMatches(m, rule.pattern, text) && rule.priority > -1
  }

  /** Rule `w` wins: eligible, of the greatest priority among the eligible
      rules, and the earliest of those. */
  predicate Winner(m: Matcher, rules: seq<Rule>, text: string, w: int)
  {
    0 <= w < |rules| && Eligible(m, rules[w], text)
    && (forall j :: 0 <= j < |rules| && Eligible(m, rules[j], text) ==> rules[j].priority <= rules[w].priority)
    && (forall j :: 0 <= j < w && Eligible(m, rules[j], text) ==> rules[j].priority < rules[w].priority)
  }

  predicate NoneEligible(m: Matcher, rules: seq<Rule>, text: string)
  {
    forall j :: 0 <= j < |rules| ==> !Eligible(m, rules[j], text)
  }

  /** A last rule that beats every earlier eligible rule wins. */
  lemma LastRuleWins(m: Matcher, rules: seq<Rule>, text: string)
    requires rules != [] && Eligible(m, rules[|rules| - 1], text)
    requires forall j :: 0 <= j < |rules| - 1 && Eligible(m, rules[j], text) ==>
      rules[j].priority < rules[|rules| - 1].priority
    ensures Winner(m, rules, text, |rules| - 1)
  {
  }

  /** A winner of the prefix stays the winner when the last rule does not beat it. */
  lemma WinnerKept(m: Matcher, rules: seq<Rule>, text: string, w: int)
    requires rules != [] && Winner(m, rules[..|rules| - 1], text, w)
    requires Eligible(m, rules[|rules| - 1], text) ==> rules[|rules| - 1].priority <= rules[w].priority
    ensures Winner(m, rules, text, w)
  {
    var pre := rules[..|rules| - 1];
    assert forall j :: 0 <= j < |pre| ==> pre[j] == rules[j];
  }

  /** The scan ends either at the sentinel, when no rule is eligible, or at the
      winner's priority and choice. */
  lemma {:induction false} PriorityScanFindsWinner(m: Matcher, rules: seq<Rule>, text: string)
    ensures var r := PriorityScan(m, rules, text);
      (r == (-1, Unclassified) && NoneEligible(m, rules, text))
      || (exists w :: Winner(m, rules, text, w) && r == (rules[w].priority, Choice(rules[w].kind, rules[w].priority)))
    decreases |rules|
  {
    if rules != [] {
      var n := |rules| - 1;
      var pre := rules[..n];
      assert forall j :: 0 <= j < n ==> pre[j] == rules[j];
      PriorityScanFindsWinner(m, pre, text);
      var prev := PriorityScan(m, pre, text);
      var last := rules[n];
      if PatternMatches(m, last.pattern, text) && last.priority > prev.0 {
        if prev.0 != -1 {
          var w :| Winner(m, pre, text, w) && prev == (pre[w].priority, Choice(pre[w].kind, pre[w].priority));
        }
        LastRuleWins(m, rules, text);
        assert PriorityScan(m, rules, text) == (rules[n].priority, Choice(rules[n].kind, rules[n].priority));
      } else if prev.0 != -1 {
        var w :| Winner(m, pre, text, w) && prev == (pre[w].priority, Choice(pre[w].kind, pre[w].priority));
        WinnerKept(m, rules, text, w);
        assert PriorityScan(m, rules, text) == (rules[w].priority, Choice(rules[w].kind, rules[w].priority));
      } else {
        assert !Eligible(m, last, text);
        assert NoneEligible(m, rules, text);
      }
    }
  }

  /** At most one rule wins. */
  lemma WinnerUnique(m: Matcher, rules: seq<Rule>, text: string, v: int, w: int)
    requires Winner(m, rules, text, v) && Winner(m, rules, text, w)
    ensures v == w
  {
  }

  /** The classification is the winning rule's kind and priority. */
  lemma PriorityScanIsWinner(m: Matcher, rules: seq<Rule>, text: string, w: int)
    requires Winner(m, rules, text, w)
    ensures PriorityScan(m, rules, text).1 == Choice(rules[w].kind, rules[w].priority)
  {
    PriorityScanFindsWinner(m, rules, text);
    var r := PriorityScan(m, rules, text);
    assert Eligible(m, rules[w], text);
    var v :| Winner(m, rules, text, v) && r == (rules[v].priority, Choice(rules[v].kind, rules[v].priority));
    WinnerUnique(m, rules, text, v, w);
  }

  /** With no eligible rule the lexeme stays TOKEN_UNKNOWN with priority 0;
      in particular a rule of priority -1 or less is never selected. */
  lemma PriorityScanUnclassified(m: Matcher, rules: seq<Rule>, text: string)
    requires NoneEligible(m, rules, text)
    ensures PriorityScan(m, rules, text).1 == Unclassified
  {
    PriorityScanFindsWinner(m, rules, text);
  }

  /** The classification loop of rift_stage0_process. */
  method ClassifyByPriority(m: Matcher, rules: seq<Rule>, text: string) returns (kind: TokenKind, priority: int)
    ensures Choice(kind, priority) == PriorityScan(m, rules, text).1
  {
    kind, priority := UnknownKind, 0;
    var highest := -1;
    for i := 0 to |rules|
      invariant (highest, Choice(kind, priority)) == PriorityScan(m, rules[..i], text)
    {
      assert rules[..i + 1][..i] == rules[..i];
      if PatternMatches(m, rules[i].pattern, text) {
        if rules[i].priority > highest {
          highest := rules[i].priority;
          priority := rules[i].priority;
          kind := rules[i].kind;
        }
      }
    }
    assert rules[..|rules|] == rules;
  }

  function Patterns(rules: seq<Rule>): seq<string>
  {
    PatternsOf(rules, (x: Rule) => x.pattern)
  }

  lemma PatternsAt(rules: seq<Rule>)
    ensures |Patterns(rules)| == |rules|
    ensures forall i :: 0 <= i < |rules| ==> Patterns(rules)[i] == rules[i].pattern
  {
  }

  predicate StrictlyDecreasing(rules: seq<Rule>)
  {
    forall i, j :: 0 <= i < j < |rules| ==> rules[j].priority < rules[i].priority
  }

  /** When the priorities strictly decrease along the rule list and none is
      negative, the priority policy and the first-match policy agree. */
  lemma PriorityIsFirstMatch(m: Matcher, rules: seq<Rule>, text: string)
    requires StrictlyDecreasing(rules)
    requires forall i :: 0 <= i < |rules| ==> rules[i].priority >= 0
    ensures PriorityScan(m, rules, text).1
         == match FirstMatching(m, Patterns(rules), text)
            case None => Unclassified
            case Some(k) => Choice(rules[k].kind, rules[k].priority)
  {
    PatternsAt(rules);
    match FirstMatching(m, Patterns(rules), text)
    case None =>
      PriorityScanUnclassified(m, rules, text);
    case Some(k) =>
      assert Winner(m, rules, text, k);
      PriorityScanIsWinner(m, rules, text, k);
  }

  // ---------------------------------------------------------------------------
  // rift_stage0_create

  /** atoi on the priority strings: an optional sign and the leading decimal
      digits. */
  function Atoi(s: string): (r: int)
    ensures (s == [] || s[0] != '-') ==> r >= 0
    ensures s != [] && s[0] == '-' ==> r <= 0
    ensures s != [] && s[0] != '-' && s[0] != '+' && !('0' <= s[0] <= '9') ==> r == 0
  {
    if s != [] && s[0] == '-' then 0 - DigitsValue(s[1..], 0)
    else if s != [] && s[0] == '+' then DigitsValue(s[1..], 0)
    else DigitsValue(s, 0)
  }

  /** The value of the decimal digits that start `s`, accumulated onto `acc`. */
  function DigitsValue(s: string, acc: nat): nat
  {
    if s != [] && '0' <= s[0] <= '9' then DigitsValue(s[1..], 10 * acc + (s[0] - '0') as nat)
    else acc
  }

  /** The rules rift_stage0_create reads from the TOKEN_PATTERNS section,
      at indices 0..3. */
  const StageZeroRules: seq<Rule> := [
    Rule("^[a-zA-Z_]\\\\w*$", 100, IdentifierKind),
    Rule("^\\\\d+(\\\\.\\\\d+)?$", 90, NumberKind),
    Rule("^[+\\\\-*/=<>!&|]$", 80, OperatorKind),
    Rule("^\\\\s+$", 10, WhitespaceKind)]

  /** rift_stage0_create.  Fails only when stage 0 cannot be loaded, i.e. for a
      NULL system; the TOKEN_PATTERNS section is always present. */
  method Stage0Create(governance: GovernanceSystem?) returns (p: Option<Stage0Processor>)
    requires governance != null ==> governance.Valid()
    modifies if governance != null then {governance, governance.configs, governance.loaded} else {}
    ensures p.None? <==> governance == null
    ensures governance != null ==> governance.Valid() && governance.loaded[0]
    ensures governance != null ==> governance.global == old(governance.global)
    ensures governance != null ==> forall i :: 1 <= i < StageCount ==>
      governance.loaded[i] == old(governance.loaded[i]) && governance.configs[i] == old(governance.configs[i])
    ensures governance != null && old(governance.loaded[0]) ==>
      governance.loadCalls == old(governance.loadCalls)
      && governance.configs[..] == old(governance.configs[..])
    ensures governance != null && !old(governance.loaded[0]) ==>
      governance.loadCalls == old(governance.loadCalls)[0 := 1]
    ensures p.Some? ==> p.value == Stage0Processor(LoadStageConfig(0), StageZeroRules)
  {
    var ok := LoadStage(governance, 0);
    if !ok {
      return None;
    }
    var config := governance.configs[0].value;
    var index := FindSection(config.sections, "TOKEN_PATTERNS");
    assert config.sections[0].name == "TOKEN_PATTERNS";
    var pairs := config.sections[index.value].pairs;
    assert pairs == TokenPatternPairs;
    TokenPatternLookups();
    StageZeroPriorities();
    var identifierPattern := Find(pairs, "IDENTIFIER_PATTERN");
    var identifierPriority := Find(pairs, "IDENTIFIER_PRIORITY");
    var numberPattern := Find(pairs, "NUMBER_PATTERN");
    var numberPriority := Find(pairs, "NUMBER_PRIORITY");
    var operatorPattern := Find(pairs, "OPERATOR_PATTERN");
    var operatorPriority := Find(pairs, "OPERATOR_PRIORITY");
    var whitespacePattern := Find(pairs, "WHITESPACE_PATTERN");
    var whitespacePriority := Find(pairs, "WHITESPACE_PRIORITY");
    var rules := [
      Rule(identifierPattern.value, Atoi(identifierPriority.value), IdentifierKind),
      Rule(numberPattern.value, Atoi(numberPriority.value), NumberKind),
      Rule(operatorPattern.value, Atoi(operatorPriority.value), OperatorKind),
      Rule(whitespacePattern.value, Atoi(whitespacePriority.value), WhitespaceKind)];
    return Some(Stage0Processor(config, rules));
  }

  /** Every key of TOKEN_PATTERNS is found at its own, earliest position. */
  lemma TokenPatternLookups()
    ensures Lookup(TokenPatternPairs, "IDENTIFIER_PATTERN") == Some(StageZeroRules[0].pattern)
    ensures Lookup(TokenPatternPairs, "IDENTIFIER_PRIORITY") == Some("100")
    ensures Lookup(TokenPatternPairs, "NUMBER_PATTERN") == Some(StageZeroRules[1].pattern)
    ensures Lookup(TokenPatternPairs, "NUMBER_PRIORITY") == Some("90")
    ensures Lookup(TokenPatternPairs, "OPERATOR_PATTERN") == Some(StageZeroRules[2].pattern)
    ensures Lookup(TokenPatternPairs, "OPERATOR_PRIORITY") == Some("80")
    ensures Lookup(TokenPatternPairs, "WHITESPACE_PATTERN") == Some(StageZeroRules[3].pattern)
    ensures Lookup(TokenPatternPairs, "WHITESPACE_PRIORITY") == Some("10")
  {
  }

  /** atoi reads the stage-0 priority strings as 100, 90, 80 and 10. */
  lemma StageZeroPriorities()
    ensures Atoi("100") == 100 && Atoi("90") == 90 && Atoi("80") == 80 && Atoi("10") == 10
  {
    assert DigitsValue("0", 9) == 90;
    assert DigitsValue("0", 8) == 80;
  }

  /** The stage-0 priorities strictly decrease, so on its own rule table the
      priority policy gives the same answers as first match. */
  lemma StageZeroIsFirstMatch(m: Matcher, text: string)
    ensures PriorityScan(m, StageZeroRules, text).1
         == match FirstMatching(m, Patterns(StageZeroRules), text)
            case None => Unclassified
            case Some(k) => Choice(StageZeroRules[k].kind, StageZeroRules[k].priority)
  {
    PriorityIsFirstMatch(m, StageZeroRules, text);
  }

  // ---------------------------------------------------------------------------
  // rift_stage0_process and create_simple_ast

  /** The token rift_stage0_process emits for the lexeme at 1-based position
      `column`. */
  function StagedToken(m: Matcher, rules: seq<Rule>, lexeme: string, column: nat): Token
  {
    var c := PriorityScan(m, rules, lexeme).1;
    Token(c.kind, lexeme, 1, column, c.priority)
  }

  /** rift_stage0_process: one token per lexeme, in order, classified by
      priority; the stream grows by doubling from 10. */
  method Stage0Process(processor: Stage0Processor, m: Matcher, input: string) returns (stream: TokenStream)
    ensures fresh(stream) && stream.Valid()
    ensures |stream.tokens| == |Lexemes(input)|
    ensures forall k :: 0 <= k < |stream.tokens| ==>
      stream.tokens[k] == StagedToken(m, processor.rules, Lexemes(input)[k], k + 1)
    ensures stream.capacity == CapacityAfter(10, |stream.tokens|)
  {
    var lexemes := Lexemes(input);
    stream := new TokenStream();
    for i := 0 to |lexemes|
      invariant fresh(stream) && stream.Valid()
      invariant |stream.tokens| == i
      invariant forall k :: 0 <= k < i ==> stream.tokens[k] == StagedToken(m, processor.rules, lexemes[k], k + 1)
      invariant stream.capacity == CapacityAfter(10, i)
    {
      var lexeme := lexemes[i];
      if |lexeme| > 0 && lexeme[0] != ' ' {
        var kind, priority := ClassifyByPriority(m, processor.rules, lexeme);
        stream.Append(Token(kind, lexeme, 1, |stream.tokens| + 1, priority));
      } else {
        assert false;
      }
    }
  }

  /** create_simple_ast: a leaf for the first IDENTIFIER token, NULL when the
      stream is NULL, empty or has none. */
  method CreateSimpleAst(stream: TokenStream?) returns (ast: Ast)
    ensures ast.Nil? <==>
      stream == null || forall k :: 0 <= k < |stream.tokens| ==> stream.tokens[k].kind != IdentifierKind
    ensures !ast.Nil? ==>
      (exists k :: 0 <= k < |stream.tokens| && stream.tokens[k].kind == IdentifierKind
        && ast == Identifier(stream.tokens[k].value)
        && forall j :: 0 <= j < k ==> stream.tokens[j].kind != IdentifierKind)
  {
    if stream == null || |stream.tokens| == 0 {
      return Nil;
    }
    for i := 0 to |stream.tokens|
      invariant forall j :: 0 <= j < i ==> stream.tokens[j].kind != IdentifierKind
    {
      if stream.tokens[i].kind == IdentifierKind {
        return Identifier(stream.tokens[i].value);
      }
    }
    return Nil;
  }

  // ---------------------------------------------------------------------------
  // Worked cases

  /** A higher-priority rule wins even when an earlier rule also matches. */
  lemma HigherPriorityWinsExample(m: Matcher)
    requires PatternMatches(m, "^[0-9]+$", "5") && PatternMatches(m, "^.$", "5")
    ensures PriorityScan(m, [Rule("^[0-9]+$", 90, NumberKind), Rule("^.$", 95, UnknownKind)], "5").1
         == Choice(UnknownKind, 95)
  {
    var rules := [Rule("^[0-9]+$", 90, NumberKind), Rule("^.$", 95, UnknownKind)];
    assert rules[..1][..0] == [];
  }

  /** On equal priorities the earlier rule wins. */
  lemma TieGoesToEarlierExample(m: Matcher, text: string)
    requires PatternMatches(m, "a", text) && PatternMatches(m, "b", text)
    ensures PriorityScan(m, [Rule("a", 50, IdentifierKind), Rule("b", 50, NumberKind)], text).1
         == Choice(IdentifierKind, 50)
  {
    var rules := [Rule("a", 50, IdentifierKind), Rule("b", 50, NumberKind)];
    assert rules[..1][..0] == [];
  }
}
