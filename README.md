# RIFT stage pipeline — a Dafny model

RIFT is a small compiler front end organised as governance-configured stages.
RIFT-0 tokenizes, RIFT-1 parses, RIFT-2 coordinates the AST and RIFT-3 prints
it. This project models the C code of the four variants:

- `gov-stage/rift-gov/rift_sim_staged.c` is the stage-bound variant. Its pieces:
  - the per-stage configuration store (`config_section_*`, `load_stage_config`,
    `governance_load_stage`);
  - the RIFT-0 processor, whose classifier keeps the match with the highest
    priority (`rift_stage0_create`, `rift_stage0_process`);
  - the first-identifier AST (`create_simple_ast`).
- `poc/rift_sim_standalone.c` and `poc/rift_sim.c` are the four-stage pipeline.
  Its pieces:
  - the governance entries and `rift_get_config_value`;
  - the first-match DFA tokenizer;
  - the recursive-descent parser for `+ - * /`;
  - `count_ast_nodes`, `rift_coordinate_ast`, `print_ast_recursive` and
    `rift_generate_output`.

  The parser, the node count and the printer are the same code in both files.
  One model serves both, and the table below cites one of the two. The
  tokenizers differ. The standalone tokenizer grows its buffer with `realloc`;
  the one in `rift_sim.c` stores into a fixed ten-slot buffer (see Findings).
- `gov-process/rift_poc.c` is the regex automaton. It covers `generate_id`,
  states, transitions, `automaton_get_next_state` and the IR generator.
- `gov-process/tokenziation.c` is the LibRift demo. It covers its own
  `state_create` with a static counter, `state_matches`, and the if/else
  classification chain.

## How the C becomes Dafny

- **Regular expressions.** Matching is abstract. `Regex.Matcher` holds two
  uninterpreted functions: whether a pattern compiles (`regcomp`) and whether
  it finds a match in the text (`regexec`). `Regex.PatternMatches` is true
  only when the pattern compiles *and* matches, so a malformed pattern never
  matches. That is what every `matches_pattern`, `pattern_matches` and
  `state_matches` does when `regcomp` fails.
- **`strtok(input, " ")`.** The loop becomes the pure function
  `Tokens.Lexemes`, which returns the maximal runs of non-space characters.
- **Buffers that grow.** A `realloc`-doubled buffer becomes a class with a
  `seq` field and a `capacity` counter: `Tokens.TokenStream`,
  `Config.ConfigSection`, and the state and transition lists of
  `Automaton.RegexAutomaton`. The doubling rule is written once, as
  `Growth.GrownCapacity`. Fixed C arrays stay `array`s: the four-slot stage
  tables and the ten-slot token buffer of `rift_sim.c`.
- **NULL.** Where the C checks an argument for NULL, the model takes a nullable
  class type or an `Option`, and the NULL path is part of the contract.
- **Immutable structs.** Structures that are written once and then only read
  are datatypes: a loaded stage configuration, a stage-0 processor and a DFA
  state of the pipeline tokenizer. The automaton's `State` is a class with
  constant fields, so two states with equal fields stay distinct objects, as
  separately allocated C structs do.
- **Parser cursor.** The parser's cursor updates are a class with a `position`
  field and `while` loops. Each routine is proved equal to a pure function of
  the token sequence (`Parser.Term`, `Parser.Expression`, …). The properties
  of the grammar are proved about those functions.
- **Printed output.** Printed text becomes a returned string.
  `Syntax.Render` is the text `print_ast_recursive` writes. `Syntax.Document`
  is the `(AST` … `)` block that `rift_generate_output` writes.

Where the repository's documentation and the code disagree, the model follows
the code:

- The documentation says a configuration section returns the most recently
  added value for a key. `config_section_get` and `rift_get_config_value`
  return the *first* matching entry. `Config.LookupAfterAppend` proves that
  adding a duplicate key does not change the answer.
- The documentation treats an out-of-range stage id as a configuration error.
  `governance_load_stage` simply returns `false`, and `Governance.LoadStage`
  models that.

## Model

| member | source | states |
|---|---|---|
| Growth.GrownCapacity | poc/rift_sim_standalone.c:275-278 | the resize step doubles the capacity exactly when the buffer is full, and otherwise keeps it; after the step there is room for one more element |
| Growth.CapacityAfterBounds | poc/rift_sim_standalone.c:262-278 | after n appends to a buffer that starts with capacity c > 0, the capacity is at least n. It is still c while n <= c, and below 2n once n > c (never more than double what is needed) |
| Regex.PatternMatches | gov-stage/rift-gov/rift_sim_staged.c:421-431 | a text matches only a pattern that compiles; a pattern `regcomp` rejects never matches |
| Regex.FirstMatching | poc/rift_sim_standalone.c:284-292 | the index of the first pattern that compiles and matches the text; no earlier pattern matches; None exactly when no pattern matches |
| Tokens.Lexemes | poc/rift_sim_standalone.c:268-273 | every lexeme strtok hands out is non-empty and contains no space |
| Tokens.LexemesKeepCharacters | poc/rift_sim_standalone.c:268-273 | the lexemes laid end to end are the input with its spaces removed: nothing is lost, added or reordered |
| Tokens.LexemesEmpty | poc/rift_sim_standalone.c:268-273 | the token loop sees no lexeme exactly when the input is all spaces (or empty) |
| Tokens.LexemesOfJoin | poc/rift_sim_standalone.c:268-273 | splitting space-free words joined by single spaces gives back the same words, in order |
| Tokens.TokenStream.Append | poc/rift_sim_standalone.c:274-284 | the token is appended after the existing ones and the capacity follows the doubling rule; the stream stays within its capacity |
| Syntax.CountNodes | poc/rift_sim_standalone.c:455-458 | NULL counts 0 and every node counts at least 1; an operator node counts more than either child |
| Syntax.Render | poc/rift_sim_standalone.c:492-515 | the printer writes nothing exactly for a NULL tree |
| Syntax.RenderBalanced | poc/rift_sim_standalone.c:492-515 | when names and operators contain no parentheses, every rendering is balanced: no `)` closes more than is open, and all opened parentheses are closed |
| Syntax.DocumentBalanced | poc/rift_sim_standalone.c:517-527 | the whole output, including the `(AST` envelope, is balanced |
| Syntax.RenderOpensPerNode | poc/rift_sim.c:496-519 | for trees without unary nodes and with parenthesis-free names, the printer opens exactly as many parentheses as count_ast_nodes counts nodes |
| Syntax.DocumentOpens | poc/rift_sim.c:521-531 | the output opens one parenthesis for the envelope and one per counted node |
| Syntax.Document | poc/rift_sim_standalone.c:517-527 | the output is `(AST`, a newline, the tree rendered from indent level 1, then `)` and a newline |
| Syntax.DocumentOfSum | poc/rift_sim_standalone.c:492-527 | the exact output for `x + 2 * y`: one node per line, each child two spaces deeper than its parent, each operator's `)` on its own line at the operator's depth |
| Parser.Factor | poc/rift_sim_standalone.c:366-379 | consumes one token exactly when it is an identifier or a number, and returns NULL exactly when it consumes nothing |
| Parser.Term | poc/rift_sim_standalone.c:381-401 | the cursor never moves backwards or past the end, and stops at a token that is not `*` or `/` |
| Parser.Expression | poc/rift_sim_standalone.c:403-423 | the cursor never moves backwards or past the end, and stops at a token that is neither an additive nor a multiplicative operator |
| Parser.Parsed | poc/rift_sim_standalone.c:425-435 | the final cursor lies within the stream |
| Parser.Parser.constructor | poc/rift_sim_standalone.c:328-335 | a new parser has no tokens and its cursor at 0 |
| Parser.Parser.CurrentToken | poc/rift_sim_standalone.c:355-358 | NULL exactly at or past the end, otherwise the token under the cursor |
| Parser.Parser.Advance | poc/rift_sim_standalone.c:360-364 | the cursor moves one step, but never past the end |
| Parser.Parser.ParseFactor | poc/rift_sim_standalone.c:366-379 | returns the node and cursor given by Factor |
| Parser.Parser.ParseTerm | poc/rift_sim_standalone.c:381-401 | the loop builds the left-folded product given by Term, and leaves the cursor where Term says |
| Parser.Parser.ParseExpression | poc/rift_sim_standalone.c:403-423 | the loop builds the left-folded sum of products given by Expression |
| Parser.Parser.Parse | poc/rift_sim_standalone.c:425-435 | installs the stream, starts at 0, and returns the tree and cursor given by Parsed |
| Parser.ExpressionShape | poc/rift_sim.c:407-427 | every parse result is a left-associated sum of left-associated products of factors (precedence of `*`/`/` over `+`/`-`) |
| Parser.ShapeIsBinary | poc/rift_sim.c:370-427 | the parser never builds a unary node |
| Parser.TermSound | poc/rift_sim.c:385-405 | a term without missing operands spells out exactly the tokens consumed, one node per token |
| Parser.ExpressionSound | poc/rift_sim.c:407-427 | an expression without missing operands spells out exactly the tokens consumed, and its node count is the number of tokens consumed |
| Parser.TermReads | poc/rift_sim.c:385-405 | reading the spelling of a well-shaped product re-enters the loop with that same product |
| Parser.ExpressionReads | poc/rift_sim.c:407-427 | reading the spelling of a well-shaped sum re-enters the loop with that same sum |
| Parser.ExpressionInverts | poc/rift_sim.c:407-427 | parsing inverts spelling: every complete tree of the grammar's shape, spelled out and not followed by an operator, parses back to itself with the cursor just after it |
| Parser.PrecedenceExample | poc/rift_sim_standalone.c:381-423 | `x + 2 * y` parses as `x + (2 * y)` and consumes all five tokens |
| Parser.AssociativityExample | poc/rift_sim_standalone.c:403-423 | `a - b - c` parses as `(a - b) - c` |
| Parser.EmptyStreamExample | poc/rift_sim_standalone.c:366-379 | an empty stream parses to NULL at position 0 |
| Parser.TrailingOperatorExample | poc/rift_sim_standalone.c:366-401 | `x +` yields an operator node with a NULL right operand (the missing operand is not reported) |
| Parser.TrailingTokensExample | poc/rift_sim_standalone.c:425-435 | `x y` parses to `x` and leaves the second token unread |
| Config.LookupSpec | gov-stage/rift-gov/rift_sim_staged.c:169-178 | the lookup fails exactly when no entry has the key; otherwise it returns the value of the first entry with the key |
| Config.Find | gov-stage/rift-gov/rift_sim_staged.c:172-177 | the search loop returns the lookup's answer |
| Config.LookupAfterAppend | gov-stage/rift-gov/rift_sim_staged.c:150-178 | adding an entry leaves the answer for a key that is already present unchanged (first write wins); for a new key, the answer becomes the added value |
| Config.ConfigSection.constructor | gov-stage/rift-gov/rift_sim_staged.c:124-137 | an empty section with room for 10 entries |
| Config.SectionAdd | gov-stage/rift-gov/rift_sim_staged.c:150-167 | fails, changing nothing, exactly when the section, key or value is NULL; otherwise appends the pair and doubles the capacity when the section is full |
| Config.SectionGet | gov-stage/rift-gov/rift_sim_staged.c:169-178 | NULL for a NULL section or key; otherwise the first-match lookup |
| Governance.LoadStageConfig | gov-stage/rift-gov/rift_sim_staged.c:181-295 | stage i's configuration carries id i and version 1.0.0, and has between 1 and 5 sections |
| Governance.FindSection | gov-stage/rift-gov/rift_sim_staged.c:377-383 | the index of the first section with the name; no earlier section has it; None exactly when no section has it |
| Governance.GovernanceSystem.constructor | gov-stage/rift-gov/rift_sim_staged.c:318-334 | no stage is loaded and every slot is empty |
| Governance.LoadStage | gov-stage/rift-gov/rift_sim_staged.c:349-362 | succeeds exactly for a non-NULL system and an id in 0..3. The stage is then loaded with its fixed configuration, and it is loaded only once (a repeat call changes nothing). Other stages and the global section are untouched, and a failure changes nothing |
| Staged.PriorityScan | gov-stage/rift-gov/rift_sim_staged.c:463-479 | the running maximum starts at -1 and never drops below it; while it is -1 the token is UNKNOWN with priority 0, and once a rule wins the recorded priority equals the maximum |
| Staged.PriorityScanFindsWinner | gov-stage/rift-gov/rift_sim_staged.c:463-479 | if any rule matches with a priority above -1, the scan returns the rule with the greatest priority, taking the earliest one on a tie; otherwise it returns UNKNOWN with priority 0 |
| Staged.WinnerUnique | gov-stage/rift-gov/rift_sim_staged.c:463-479 | the winning rule is unique |
| Staged.PriorityScanIsWinner | gov-stage/rift-gov/rift_sim_staged.c:463-479 | the classification is the kind and priority of the winning rule |
| Staged.PriorityScanUnclassified | gov-stage/rift-gov/rift_sim_staged.c:459-479 | with no eligible match the token stays UNKNOWN with priority 0 |
| Staged.ClassifyByPriority | gov-stage/rift-gov/rift_sim_staged.c:463-479 | the loop with `highest_priority` computes the priority scan |
| Staged.PriorityIsFirstMatch | gov-stage/rift-gov/rift_sim_staged.c:463-479 | with strictly decreasing, non-negative priorities, the priority classifier agrees with the first-match classifier |
| Staged.Stage0Create | gov-stage/rift-gov/rift_sim_staged.c:368-405 | NULL exactly for a NULL governance. Otherwise stage 0 is loaded, and the processor holds its configuration and the four rules read from TOKEN_PATTERNS. Stages 1..3 and the global section are untouched; the load counter of stage 0 goes from 0 to 1 on the first call and stays put when stage 0 was already loaded |
| Staged.TokenPatternLookups | gov-stage/rift-gov/rift_sim_staged.c:391-401 | each of the eight keys of TOKEN_PATTERNS is found and gives that rule's pattern or priority text |
| Staged.Atoi | gov-stage/rift-gov/rift_sim_staged.c:392-401 | the value is never negative without a leading `-`, never positive with one, and is 0 when the text starts with anything other than a sign or a digit (leading whitespace is not modelled) |
| Staged.StageZeroPriorities | gov-stage/rift-gov/rift_sim_staged.c:392-401 | atoi gives the priorities 100, 90, 80 and 10 |
| Staged.StageZeroIsFirstMatch | gov-stage/rift-gov/rift_sim_staged.c:463-479 | with the stage-0 rules, the priority classifier agrees with first match |
| Staged.Stage0Process | gov-stage/rift-gov/rift_sim_staged.c:433-500 | one token per lexeme, in order. Each token has its text, line 1, column = its 1-based ordinal, and the priority scan's kind and priority. The capacity is what the doubling rule gives after that many appends |
| Staged.CreateSimpleAst | gov-stage/rift-gov/rift_sim_staged.c:525-541 | NULL exactly for a NULL or identifier-free stream; otherwise an identifier node for the first identifier token |
| Staged.HigherPriorityWinsExample | gov-stage/rift-gov/rift_sim_staged.c:463-479 | rules (Number, 90) and (Unknown, 95), both matching "5", classify it as Unknown with priority 95 |
| Staged.TieGoesToEarlierExample | gov-stage/rift-gov/rift_sim_staged.c:466-468 | with equal priorities, the earlier rule keeps the token |
| Pipeline.GetConfigValue | poc/rift_sim_standalone.c:194-201 | NULL exactly when no entry has the intention; otherwise the pattern of the first entry that has it |
| Pipeline.TokenizerCreate | poc/rift_sim_standalone.c:207-236 | four final states with ids 0..3: identifier, number and operator with the patterns the governance gives, then whitespace |
| Pipeline.LoadedEntriesSuffice | poc/rift_sim_standalone.c:151-180 | the loaded governance provides every intention the tokenizer looks up |
| Pipeline.ClassifyFirstMatch | poc/rift_sim_standalone.c:284-292 | the kind of the first state whose pattern matches, and UNKNOWN when none matches |
| Pipeline.Tokenize | poc/rift_sim_standalone.c:259-312 | one token per lexeme, in order, with its text, line 1, its ordinal as column, and the first-match kind; the capacity follows the doubling rule |
| Pipeline.TokenizeFixed | poc/rift_sim.c:270-317 | with at most ten lexemes, the same tokens as the growable tokenizer, stored in the ten-slot buffer |
| Pipeline.FixedBufferOverflows | poc/rift_sim.c:274-285 | an input of eleven words yields eleven lexemes, more than the ten slots the buffer has |
| Pipeline.GrowableBufferHolds | poc/rift_sim_standalone.c:274-278 | for any number of lexemes the growable buffer has room for all of them |
| Pipeline.AstCoordinator.constructor | poc/rift_sim_standalone.c:441-449 | no nodes counted, one optimization pass |
| Pipeline.AstCoordinator.Coordinate | poc/rift_sim_standalone.c:460-471 | hands back the same tree, records it and records its node count |
| Pipeline.OutputStage.constructor | poc/rift_sim_standalone.c:477-484 | the output format is LISP_STYLE_AST |
| Pipeline.OutputStage.GenerateOutput | poc/rift_sim_standalone.c:517-527 | records the tree and produces its `(AST` … `)` rendering |
| Pipeline.OutputAgreesWithCount | poc/rift_sim_standalone.c:455-527 | for any parsed stream with parenthesis-free names, the printed output has one node line per node the coordinator counts, plus the envelope |
| Automaton.IdCounter.Generate | gov-process/rift_poc.c:44-47 | returns the counter and increments it; every id issued is larger than all ids issued before |
| Automaton.CreateState | gov-process/rift_poc.c:50-63 | a new state with the given pattern and finality and the next id |
| Automaton.NextState | gov-process/rift_poc.c:186-198 | NULL exactly when no state's pattern matches; otherwise the first state that matches |
| Automaton.IdCounter.constructor | gov-process/rift_poc.c:44-47 | the counter starts at 1 with no ids issued |
| Automaton.StateMatches | gov-process/rift_poc.c:71-84 | a NULL state or NULL text never matches, and neither does a state whose pattern does not compile |
| Automaton.RegexAutomaton.constructor | gov-process/rift_poc.c:87-112 | no states or transitions, capacities 10 and 20, no initial or current state |
| Automaton.AddState | gov-process/rift_poc.c:131-155 | NULL, changing nothing, for a NULL automaton or pattern. Otherwise a fresh state with the next id is appended, with capacity doubling. The first state added becomes both the initial and the current state. A successful call advances the id counter by one and records the new id |
| Automaton.AddTransition | gov-process/rift_poc.c:157-184 | fails, changing nothing, exactly when any argument is NULL; otherwise appends the transition, with capacity doubling |
| Automaton.GetNextState | gov-process/rift_poc.c:186-198 | NULL when the automaton, its current state or the input is NULL. Otherwise the first matching state, which becomes current; with no match the current state stays. Nothing else changes |
| Automaton.IRGeneratorCreate | gov-process/rift_poc.c:201-217 | NULL exactly for a NULL automaton; otherwise a generator over it with no nodes and capacity 10 |
| Automaton.ProcessToken | gov-process/rift_poc.c:232-252 | NULL for a NULL generator or token. Otherwise a node whose type is the pattern of the next state, and NULL when there is none. The automaton moves to that next state and stays where it is when there is none; its states, transitions, capacities and initial state are unchanged, and a NULL token leaves the automaton untouched. The generator's node list is not touched |
| Librift.ClassifyChain | gov-process/tokenziation.c:80-93 | the chain yields identifier, number, operator or unknown |
| Librift.ChainIsFirstMatch | gov-process/tokenziation.c:80-93 | the if/else chain is first match over the three states in order, UNKNOWN when none matches |
| Librift.CreateDemoStates | gov-process/tokenziation.c:21-36 | three fresh non-final states with the demo patterns and consecutive ids from the static counter, which advances by three |

## Left out

- Regular-expression semantics: `regcomp`/`regexec` are abstract (`Regex.Matcher`). The model does not decide which texts a pattern matches; it only fixes that a pattern that does not compile never matches.
- `strtok` is modelled only with `' '` as the separator, which is the only separator the code passes.
- `atoi` is modelled for an optional sign followed by digits, which covers the configured priorities. Leading whitespace and overflow are not modelled.
- All `printf` output is left out: stage banners, per-token trace lines and the text printed around the AST. `Syntax.Render` and `Syntax.Document` model only the AST text itself, as a returned string.
- Allocation failure (`malloc`, `strdup` or `realloc` returning NULL) is not modelled; allocation always succeeds. Every `*_destroy` function and `free` is left out.
- File and directory access (`rift_load_governance`'s `config_dir`) is not modelled. The governance entries are the constants that function installs (`Pipeline.LoadedEntries`).
- `main`, `create_simple_lexer` and the rest of `demonstrate_librift_tokenization` are drivers of the operations above, and are left out.
- `load_stage_config` builds each section with `config_section_add`. The model gives the resulting sections as values; `Config.SectionAdd` is modelled on its own.
- `pattern_count` is only initialised when `TOKEN_PATTERNS` is found. `Staged.Stage0Create` proves that the section is always found for stage 0, so the uninitialised path cannot occur.
- `Staged.Rule` carries its token kind. The C instead maps the rule index 0..3 to a kind with a `switch`; the stage-0 rules list the same kinds in the same order.
- The global configuration section of the governance system is allocated but never read; the model keeps the field, and `Governance.LoadStage` and `Staged.Stage0Create` state only that they leave it alone.
- `UnaryOp` nodes are never built. `Syntax.Render` prints them as `(Unknown)`, as the default case does.
- The parser keeps a copy of the token sequence rather than a reference to the stream. Nothing in the code changes the stream while it is being parsed.
- Automaton.ProcessToken: a NULL automaton inside a non-NULL generator is not modelled, because the field `IRGenerator.automaton` has a non-null type (automaton.dfy declares it as `RegexAutomaton`). The C would call `automaton_get_next_state(NULL, …)` and return NULL there.
- Pipeline.TokenizerCreate: requires that the governance provides the three recognition patterns. Without them the C would call `strdup(NULL)` (poc/rift_sim_standalone.c:223-229). `Pipeline.LoadedEntriesSuffice` proves that the entries `rift_load_governance` installs meet this requirement, so the only call site satisfies it.
- Pipeline.TokenizeFixed: requires at most ten lexemes, because the C writes past its ten-slot buffer for longer inputs (see Findings).
- Transitions are stored by `Automaton.AddTransition` but never followed by `automaton_get_next_state`, which scans states. The model stores them the same way and proves nothing further about them.

## Findings

| source | as written | input that shows it | evidently intended | confidence | as-written member | corrected member |
|---|---|---|---|---|---|---|
| poc/rift_sim.c:274-285 | the token buffer is allocated with 10 slots and each lexeme is stored at `tokens[count++]` with no capacity check | any input with eleven or more space-separated words, e.g. `x x x x x x x x x x x` | grow the buffer as the standalone variant does, doubling the capacity when it is full | not executed | Pipeline.FixedBufferOverflows | Pipeline.Tokenize |
