/**
 * The four-stage proof-of-concept pipeline of the stand-alone simulator and of
 * its library variant: the governance entries and their lookup, the
 * first-match DFA tokenizer (growable in one variant, a fixed ten-slot buffer
 * in the other), the AST coordinator and the output stage.
 */
module Pipeline {
  import opened Wrappers
  import opened Growth
  import opened Regex
  import opened Tokens
  import opened Syntax
  import opened Config
  import opened Parser

  /** rift_config_entry_t: a pattern, the intention it serves and its stage. */
  datatype ConfigEntry = ConfigEntry(pattern: string, intention: string, spAlignment: string)

  /** The entries rift_load_governance installs. */
  const LoadedEntries: seq<ConfigEntry> := [
    ConfigEntry("^[a-zA-Z_]\\w*$", "IDENTIFIER_RECOGNITION", "STAGE_0_TOKENIZER"),
    ConfigEntry("^\\d+$", "NUMBER_RECOGNITION", "STAGE_0_TOKENIZER"),
    ConfigEntry("^[+\\-*/]$", "OPERATOR_RECOGNITION", "STAGE_0_TOKENIZER")]

  /** The pattern the tokenizer hard-codes for its whitespace state. */
  const WhitespacePattern: string := "^\\s+$"

  /** The entries seen as (intention, pattern) pairs. */
  function IntentionPairs(entries: seq<ConfigEntry>): seq<Pair>
  {
    seq(|entries|, i requires 0 <= i < |entries| => Pair(entries[i].intention, entries[i].pattern))
  }

  lemma IntentionPairsAt(entries: seq<ConfigEntry>)
    ensures |IntentionPairs(entries)| == |entries|
    ensures forall i :: 0 <= i < |entries| ==> IntentionPairs(entries)[i] == Pair(entries[i].intention, entries[i].pattern)
  {
  }

  /** rift_get_config_value: the pattern of the earliest entry with the given
      intention, NULL when there is none. */
  method GetConfigValue(entries: seq<ConfigEntry>, key: string) returns (r: Option<string>)
    ensures r.None? <==> forall i :: 0 <= i < |entries| ==> entries[i].intention != key
    ensures forall i :: FirstWithKey(IntentionPairs(entries), key, i) ==> r == Some(entries[i].pattern)
    ensures r == Lookup(IntentionPairs(entries), key)
  {
    ghost var pairs := IntentionPairs(entries);
    IntentionPairsAt(entries);
    LookupSpec(pairs, key);
    r := None;
    var i := 0;
    while i < |entries|
      invariant 0 <= i <= |entries|
      invariant LookupFrom(pairs, key, i) == Lookup(pairs, key)
    {
      if entries[i].intention == key {
        r := Some(entries[i].pattern);
        return;
      }
      i := i + 1;
    }
  }

  /** rift_state_t. */
  datatype DfaState = DfaState(id: nat, pattern: string, kind: TokenKind, isFinal: bool)

  /** rift_tokenizer_t: its four states, in classification order. */
  datatype Tokenizer = Tokenizer(states: seq<DfaState>)

  /** The three intentions the tokenizer requires of its governance. */
  predicate ProvidesIntentions(entries: seq<ConfigEntry>)
  {
    && Lookup(IntentionPairs(entries), "IDENTIFIER_RECOGNITION").Some?
    && Lookup(IntentionPairs(entries), "NUMBER_RECOGNITION").Some?
    && Lookup(IntentionPairs(entries), "OPERATOR_RECOGNITION").Some?
  }

  /** rift_tokenizer_create: four final states with ids 0..3 for IDENTIFIER,
      NUMBER, OPERATOR and WHITESPACE, the first three taking their patterns
      from the governance entries. */
  method TokenizerCreate(entries: seq<ConfigEntry>) returns (t: Tokenizer)
    requires ProvidesIntentions(entries)
    ensures |t.states| == 4
    ensures forall i :: 0 <= i < 4 ==> t.states[i].id == i && t.states[i].isFinal
    ensures t.states[0].kind == IdentifierKind && t.states[1].kind == NumberKind
         && t.states[2].kind == OperatorKind && t.states[3].kind == WhitespaceKind
    ensures t.states[0].pattern == Lookup(IntentionPairs(entries), "IDENTIFIER_RECOGNITION").value
    ensures t.states[1].pattern == Lookup(IntentionPairs(entries), "NUMBER_RECOGNITION").value
    ensures t.states[2].pattern == Lookup(IntentionPairs(entries), "OPERATOR_RECOGNITION").value
    ensures t.states[3].pattern == WhitespacePattern
  {
    var states := new DfaState[4];
    for i := 0 to 4
      invariant forall k :: 0 <= k < i ==> states[k].id == k && states[k].isFinal
    {
      states[i] := DfaState(i, "", UnknownKind, true);
    }
    var identifier := GetConfigValue(entries, "IDENTIFIER_RECOGNITION");
    states[0] := states[0].(pattern := identifier.value, kind := IdentifierKind);
    var number := GetConfigValue(entries, "NUMBER_RECOGNITION");
    states[1] := states[1].(pattern := number.value, kind := NumberKind);
    var operator := GetConfigValue(entries, "OPERATOR_RECOGNITION");
    states[2] := states[2].(pattern := operator.value, kind := OperatorKind);
    states[3] := states[3].(pattern := WhitespacePattern, kind := WhitespaceKind);
    t := Tokenizer(states[..]);
  }

  /** The governance the simulator loads provides all three intentions. */
  lemma LoadedEntriesSuffice()
    ensures ProvidesIntentions(LoadedEntries)
  {
    var ps := IntentionPairs(LoadedEntries);
    assert ps[0].key == "IDENTIFIER_RECOGNITION";
    assert ps[1].key == "NUMBER_RECOGNITION";
    assert ps[2].key == "OPERATOR_RECOGNITION";
    LookupSpec(ps, "IDENTIFIER_RECOGNITION");
    LookupSpec(ps, "NUMBER_RECOGNITION");
    LookupSpec(ps, "OPERATOR_RECOGNITION");
  }

  // ---------------------------------------------------------------------------
  // First-match classification

  function StatePatterns(states: seq<DfaState>): seq<string>
  {
    PatternsOf(states, (x: DfaState) => x.pattern)
  }

  lemma StatePatternsAt(states: seq<DfaState>)
    ensures |StatePatterns(states)| == |states|
    ensures forall i :: 0 <= i < |states| ==> StatePatterns(states)[i] == states[i].pattern
  {
  }

  /** The kind of the first state whose pattern matches, TOKEN_UNKNOWN if none. */
  function FirstMatchKind(m: Matcher, states: seq<DfaState>, text: string): TokenKind
  {
    match FirstMatching(m, StatePatterns(states), text)
    case None => UnknownKind
    case Some(k) => states[k].kind
  }

  /** The classification loop of rift_tokenize: states in order, stopping at
      the first match. */
  method ClassifyFirstMatch(m: Matcher, states: seq<DfaState>, text: string) returns (kind: TokenKind)
    ensures kind == FirstMatchKind(m, states, text)
    ensures (forall i :: 0 <= i < |states| ==> !PatternMatches(m, states[i].pattern, text)) ==> kind == UnknownKind
    ensures forall i ::
              (0 <= i < |states| && PatternMatches(m, states[i].pattern, text)
               && forall j :: 0 <= j < i ==> !PatternMatches(m, states[j].pattern, text))
              ==> kind == states[i].kind
  {
    StatePatternsAt(states);
    kind := UnknownKind;
    for i := 0 to |states|
      invariant forall j :: 0 <= j < i ==> !PatternMatches(m, states[j].pattern, text)
    {
      if PatternMatches(m, states[i].pattern, text) {
        assert FirstMatching(m, StatePatterns(states), text) == Some(i);
        kind := states[i].kind;
        return;
      }
    }
    assert FirstMatching(m, StatePatterns(states), text) == None;
  }

  /** The token rift_tokenize emits for the lexeme at 1-based position `column`. */
  function FirstMatchToken(m: Matcher, states: seq<DfaState>, lexeme: string, column: nat): Token
  {
    Token(FirstMatchKind(m, states, lexeme), lexeme, 1, column, 0)
  }

  /** rift_tokenize of the stand-alone simulator: one token per lexeme, in
      order, in a stream that doubles from 10 whenever it is full. */
  method Tokenize(tokenizer: Tokenizer, m: Matcher, input: string) returns (stream: TokenStream)
    ensures fresh(stream) && stream.Valid()
    ensures |stream.tokens| == |Lexemes(input)|
    ensures forall k :: 0 <= k < |stream.tokens| ==>
      stream.tokens[k] == FirstMatchToken(m, tokenizer.states, Lexemes(input)[k], k + 1)
    ensures stream.capacity == CapacityAfter(10, |stream.tokens|)
  {
    var lexemes := Lexemes(input);
    stream := new TokenStream();
    for i := 0 to |lexemes|
      invariant fresh(stream) && stream.Valid()
      invariant |stream.tokens| == i
      invariant forall k :: 0 <= k < i ==> stream.tokens[k] == FirstMatchToken(m, tokenizer.states, lexemes[k], k + 1)
      invariant stream.capacity == CapacityAfter(10, i)
    {
      var lexeme := lexemes[i];
      if |lexeme| > 0 && lexeme[0] != ' ' {
        var kind := ClassifyFirstMatch(m, tokenizer.states, lexeme);
        stream.Append(Token(kind, lexeme, 1, |stream.tokens| + 1, 0));
      } else {
        assert false;
      }
    }
  }

  /** The ten slots the library variant allocates and never grows. */
  const FixedCapacity: nat := 10

  /** rift_tokenize of the library variant, which stores into its ten slots
      with no bounds check: correct only while the input has at most ten
      lexemes. */
  method TokenizeFixed(tokenizer: Tokenizer, m: Matcher, input: string) returns (tokens: array<Token>, count: nat)
    requires |Lexemes(input)| <= FixedCapacity
    ensures fresh(tokens) && tokens.Length == FixedCapacity
    ensures count == |Lexemes(input)|
    ensures forall k :: 0 <= k < count ==>
      tokens[k] == FirstMatchToken(m, tokenizer.states, Lexemes(input)[k], k + 1)
  {
    var lexemes := Lexemes(input);
    tokens := new Token[FixedCapacity];
    count := 0;
    for i := 0 to |lexemes|
      invariant count == i
      invariant forall k :: 0 <= k < i ==> tokens[k] == FirstMatchToken(m, tokenizer.states, lexemes[k], k + 1)
    {
      var lexeme := lexemes[i];
      if |lexeme| > 0 && lexeme[0] != ' ' {
        var kind := ClassifyFirstMatch(m, tokenizer.states, lexeme);
        tokens[count] := Token(kind, lexeme, 1, count + 1, 0);
        count := count + 1;
      } else {
        assert false;
      }
    }
  }

  /** Eleven one-letter words separated by single spaces. */
  const ElevenWords: seq<string> := seq(11, _ => "x")

  /** The line `x x x x x x x x x x x` has eleven lexemes: the library variant's
      tokenizer would store the eleventh one slot past the end of its buffer. */
  lemma FixedBufferOverflows()
    ensures |Lexemes(Join(ElevenWords))| == 11 > FixedCapacity
  {
    assert forall i :: 0 <= i < |ElevenWords| ==> IsWord(ElevenWords[i]);
    LexemesOfJoin(ElevenWords);
  }

  /** The growable tokenizer accepts the same line and keeps every token within
      its capacity. */
  lemma GrowableBufferHolds(n: nat)
    ensures n <= CapacityAfter(10, n)
  {
    CapacityAfterBounds(10, n);
  }

  // ---------------------------------------------------------------------------
  // RIFT-2 and RIFT-3

  /** rift_ast_coordinator_t. */
  class AstCoordinator {
    var root: Ast
    var nodeCount: nat
    var optimizationPasses: nat

    /** rift_ast_coordinator_create: no nodes counted, one optimization pass. */
    constructor ()
      ensures nodeCount == 0 && optimizationPasses == 1
    {
      root := Nil;
      nodeCount := 0;
      optimizationPasses := 1;
    }

    /** rift_coordinate_ast: hands the tree back unchanged, recording it and its
        node count. */
    method Coordinate(ast: Ast) returns (r: Ast)
      modifies this
      ensures r == ast && root == ast
      ensures nodeCount == CountNodes(ast)
      ensures optimizationPasses == old(optimizationPasses)
    {
      root := ast;
      nodeCount := CountNodes(ast);
      r := ast;
    }
  }

  /** rift_output_stage_t. */
  class OutputStage {
    var ast: Ast
    var outputFormat: string

    /** rift_output_stage_create. */
    constructor ()
      ensures outputFormat == "LISP_STYLE_AST"
    {
      ast := Nil;
      outputFormat := "LISP_STYLE_AST";
    }

    /** rift_generate_output: records the tree and produces its `(AST ...)`
        rendering. */
    method GenerateOutput(tree: Ast) returns (text: string)
      modifies this
      ensures ast == tree && outputFormat == old(outputFormat)
      ensures text == Document(tree)
    {
      ast := tree;
      text := Document(tree);
    }
  }

  /** What the output stage prints for a parsed stream agrees with what the
      coordinator counts: the envelope plus one node line per counted node. */
  lemma OutputAgreesWithCount(ts: seq<Token>)
    requires PlainNames(Parsed(ts).0)
    ensures Opens(Document(Parsed(ts).0)) == 1 + CountNodes(Parsed(ts).0)
  {
    ExpressionShape(ts, 0);
    ShapeIsBinary(Parsed(ts).0);
    DocumentOpens(Parsed(ts).0);
  }
}
