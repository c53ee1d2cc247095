/**
 * The stage-bound governance system of the staged simulator: one
 * configuration record per stage (`stage_config_t`), loaded on demand into a
 * four-slot table and never reloaded.
 */
module Governance {
  import opened Wrappers
  import opened Config

  /** One named section of a stage configuration: its pairs in insertion order. */
  datatype Section = Section(name: string, pairs: seq<Pair>)

  /** stage_config_t. */
  datatype StageConfig = StageConfig(
    stageId: int,
    stageName: string,
    spAlignment: string,
    governanceVersion: string,
    sections: seq<Section>)

  const StageCount: nat := 4
  const MaxSections: nat := 5

  /** The TOKEN_PATTERNS section of stage 0, in the order its pairs are added. */
  const TokenPatternPairs: seq<Pair> := [
    Pair("IDENTIFIER_PATTERN", "^[a-zA-Z_]\\\\w*$"),
    Pair("IDENTIFIER_PRIORITY", "100"),
    Pair("NUMBER_PATTERN", "^\\\\d+(\\\\.\\\\d+)?$"),
    Pair("NUMBER_PRIORITY", "90"),
    Pair("OPERATOR_PATTERN", "^[+\\\\-*/=<>!&|]$"),
    Pair("OPERATOR_PRIORITY", "80"),
    Pair("WHITESPACE_PATTERN", "^\\\\s+$"),
    Pair("WHITESPACE_PRIORITY", "10")]

  /** Stage 0, the tokenizer: its pattern table and DFA settings. */
  const TokenizerConfig := StageConfig(0, "TOKENIZER", "LEXICAL_ANALYSIS", "1.0.0", [
    Section("TOKEN_PATTERNS", TokenPatternPairs),
    Section("DFA_CONFIGURATION", [
      Pair("initial_state", "START"),
      Pair("final_states", "IDENTIFIER,NUMBER,OPERATOR"),
      Pair("error_recovery", "true")])])

  /** Stage 1, the parser bridge: grammar rules and operator precedences. */
  const ParserBridgeConfig := StageConfig(1, "PARSER_BRIDGE", "SYNTACTIC_ANALYSIS", "1.0.0", [
    Section("GRAMMAR_RULES", [
      Pair("EXPRESSION_RULE", "expression -> term ((PLUS | MINUS) term)*"),
      Pair("TERM_RULE", "term -> factor ((MULTIPLY | DIVIDE) factor)*"),
      Pair("FACTOR_RULE", "factor -> IDENTIFIER | NUMBER | LPAREN expression RPAREN")]),
    Section("PRECEDENCE_TABLE", [
      Pair("MULTIPLY_PRECEDENCE", "20"),
      Pair("DIVIDE_PRECEDENCE", "20"),
      Pair("PLUS_PRECEDENCE", "10"),
      Pair("MINUS_PRECEDENCE", "10")])])

  /** Stage 2, the AST coordinator: which optimisation passes are enabled. */
  const CoordinatorConfig := StageConfig(2, "AST_COORDINATOR", "SEMANTIC_ANALYSIS", "1.0.0", [
    Section("OPTIMIZATION_PASSES", [
      Pair("constant_folding", "enabled"),
      Pair("dead_code_elimination", "enabled"),
      Pair("common_subexpression_elimination", "disabled")])])

  /** Stage 3, the output generator: its output formats. */
  const OutputConfig := StageConfig(3, "OUTPUT_GENERATOR", "CODE_GENERATION", "1.0.0", [
    Section("OUTPUT_FORMATS", [
      Pair("primary_format", "LISP_STYLE_AST"),
      Pair("secondary_format", "C_CODE"),
      Pair("debug_format", "DOT_GRAPH"),
      Pair("json_export", "enabled")])])

  /** load_stage_config: the fixed configuration of each stage. */
  function LoadStageConfig(id: int): (c: StageConfig)
    requires 0 <= id < StageCount
    ensures c.stageId == id && c.governanceVersion == "1.0.0"
    ensures 0 < |c.sections| <= MaxSections
  {
    if id == 0 then TokenizerConfig
    else if id == 1 then ParserBridgeConfig
    else if id == 2 then CoordinatorConfig
    else OutputConfig
  }

  /** The section-name search of rift_stage0_create: the earliest section with
      the given name. */
  method FindSection(sections: seq<Section>, name: string) returns (r: Option<nat>)
    ensures r.Some? ==> r.value < |sections| && sections[r.value].name == name
    ensures r.Some? ==> forall j :: 0 <= j < r.value ==> sections[j].name != name
    ensures r.None? <==> forall j :: 0 <= j < |sections| ==> sections[j].name != name
  {
    r := None;
    var i := 0;
    while i < |sections|
      invariant 0 <= i <= |sections|
      invariant forall j :: 0 <= j < i ==> sections[j].name != name
    {
      if sections[i].name == name {
        r := Some(i);
        break;
      }
      i := i + 1;
    }
  }

  /** rift_governance_system_t: the per-stage table and its loaded flags. */
  class GovernanceSystem {
    const configs: array<Option<StageConfig>>
    const loaded: array<bool>
    /** The global section the system allocates; no operation of the model reads it. */
    var global: ConfigSection
    /** How many times each stage's configuration has been loaded. */
    ghost var loadCalls: seq<nat>

    ghost predicate Valid()
      reads this, configs, loaded
    {
      configs.Length == StageCount && loaded.Length == StageCount && |loadCalls| == StageCount
      && forall i :: 0 <= i < StageCount ==>
           configs[i] == (if loaded[i] then Some(LoadStageConfig(i)) else None)
           && loadCalls[i] == (if loaded[i] then 1 else 0)
    }

    /** governance_system_create: no stage loaded. */
    constructor ()
      ensures Valid() && fresh(configs) && fresh(loaded) && fresh(global)
      ensures forall i :: 0 <= i < StageCount ==> !loaded[i] && configs[i].None?
      ensures global.Valid() && global.pairs == []
    {
      configs := new Option<StageConfig>[StageCount](_ => None);
      loaded := new bool[StageCount](_ => false);
      global := new ConfigSection();
      loadCalls := [0, 0, 0, 0];
    }
  }

  /** governance_load_stage.  A NULL system or an id outside 0..3 is refused; a
      stage already loaded is accepted without being loaded again. */
  method LoadStage(system: GovernanceSystem?, id: int) returns (ok: bool)
    requires system != null ==> system.Valid()
    modifies if system != null then {system, system.configs, system.loaded} else {}
    ensures ok <==> system != null && 0 <= id < StageCount
    ensures system != null ==> system.Valid() && system.global == old(system.global)
    ensures ok ==> system.loaded[id] && system.configs[id] == Some(LoadStageConfig(id))
    ensures ok ==> system.loadCalls == old(system.loadCalls)[id := 1]
    ensures system != null && (!ok || old(system.loaded[id])) ==>
      system.loadCalls == old(system.loadCalls)
      && system.configs[..] == old(system.configs[..]) && system.loaded[..] == old(system.loaded[..])
    ensures system != null ==> forall i :: 0 <= i < StageCount && i != id ==>
      system.loaded[i] == old(system.loaded[i]) && system.configs[i] == old(system.configs[i])
  {
    if system == null || id < 0 || id > 3 {
      return false;
    }
    if system.loaded[id] {
      return true;
    }
    system.configs[id] := Some(LoadStageConfig(id));
    system.loaded[id] := true;
    system.loadCalls := system.loadCalls[id := 1];
    return true;
  }
}
