/**
 * The LibRift tokenization demo: three states created with the shared id
 * counter and a lexeme classified by trying them in a fixed order.
 */
module Librift {
  import opened Wrappers
  import opened Regex
  import opened Tokens
  import opened Automaton

  /** The if/else chain of the demo: identifier, then number, then operator,
      and Unknown only when all three fail. */
  function ClassifyChain(m: Matcher, identifier: State?, number: State?, operator: State?, token: Option<string>)
    : (k: TokenKind)
    ensures k in {IdentifierKind, NumberKind, OperatorKind, UnknownKind}
  {
    if StateMatches(m, identifier, token) then IdentifierKind
    else if StateMatches(m, number, token) then NumberKind
    else if StateMatches(m, operator, token) then OperatorKind
    else UnknownKind
  }

  /** The chain is first match over the three states' patterns, in that order. */
  lemma ChainIsFirstMatch(m: Matcher, identifier: State, number: State, operator: State, token: string)
    ensures ClassifyChain(m, identifier, number, operator, Some(token))
         == match FirstMatching(m, [identifier.pattern, number.pattern, operator.pattern], token)
            case None => UnknownKind
            case Some(k) => [IdentifierKind, NumberKind, OperatorKind][k]
  {
    var ps := [identifier.pattern, number.pattern, operator.pattern];
    var rest := [number.pattern, operator.pattern];
    var last := [operator.pattern];
    assert ps[1..] == rest && rest[1..] == last && last[1..] == [];
    if PatternMatches(m, identifier.pattern, token) {
    } else if PatternMatches(m, number.pattern, token) {
      assert FirstMatching(m, rest, token) == Some(0);
    } else if PatternMatches(m, operator.pattern, token) {
      assert FirstMatching(m, last, token) == Some(0);
      assert FirstMatching(m, rest, token) == Some(1);
    } else {
      assert FirstMatching(m, last, token) == None;
      assert FirstMatching(m, rest, token) == None;
    }
  }

  /** The demo's three states: created in order from one counter, they get
      consecutive ids, and none is final. */
  method CreateDemoStates(counter: IdCounter) returns (identifier: State, number: State, operator: State)
    requires counter.Valid()
    modifies counter
    ensures counter.Valid()
    ensures identifier.pattern == "^[a-zA-Z_]\\w*$" && number.pattern == "^\\d+$" && operator.pattern == "^[+\\-*/]$"
    ensures !identifier.isFinal && !number.isFinal && !operator.isFinal
    ensures identifier.id == old(counter.next) && number.id == identifier.id + 1 && operator.id == number.id + 1
    ensures counter.next == old(counter.next) + 3
    ensures counter.issued == old(counter.issued) + [identifier.id, number.id, operator.id]
    ensures fresh(identifier) && fresh(number) && fresh(operator)
  {
    identifier := CreateState(counter, "^[a-zA-Z_]\\w*$", false);
    number := CreateState(counter, "^\\d+$", false);
    operator := CreateState(counter, "^[+\\-*/]$", false);
  }
}
