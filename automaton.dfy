/**
 * The regex automaton container of the governance process demo: states and
 * transitions kept in arrays that double when full, a global id counter, a
 * first-match "next state" step, and the IR generator built on it.
 */
module Automaton {
  import opened Wrappers
  import opened Growth
  import opened Regex

  /** The counter that numbers states: starts at 1 and hands out each value once. */
  class IdCounter {
    var next: nat
    /** The ids handed out so far, in order. */
    ghost var issued: seq<nat>

    ghost predicate Valid()
      reads this
    {
      next == |issued| + 1 && forall k :: 0 <= k < |issued| ==> issued[k] == k + 1
    }

    constructor ()
      ensures Valid() && next == 1 && issued == []
    {
      next := 1;
      issued := [];
    }

    /** generate_id: returns the counter and increments it. */
    method Generate() returns (id: nat)
      requires Valid()
      modifies this
      ensures Valid()
      ensures id == old(next) && next == old(next) + 1
      ensures issued == old(issued) + [id]
      ensures forall k :: 0 <= k < |old(issued)| ==> old(issued)[k] < id
    {
      id := next;
      next := next + 1;
      issued := issued + [id];
    }
  }

  /** Ids handed out by a counter strictly increase, so none repeats. */
  lemma IssuedIdsIncrease(issued: seq<nat>)
    requires forall k :: 0 <= k < |issued| ==> issued[k] == k + 1
    ensures forall i, j :: 0 <= i < j < |issued| ==> issued[i] < issued[j]
  {
  }

  /** State: a pattern, whether it is final, and its id.  Never changed after
      creation; the automaton refers to states by identity. */
  class State {
    const pattern: string
    const isFinal: bool
    const id: nat

    constructor (pattern: string, isFinal: bool, id: nat)
      ensures this.pattern == pattern && this.isFinal == isFinal && this.id == id
    {
      this.pattern := pattern;
      this.isFinal := isFinal;
      this.id := id;
    }
  }

  /** state_create: a fresh state holding the pattern and flag, numbered by the
      counter. */
  method CreateState(counter: IdCounter, pattern: string, isFinal: bool) returns (s: State)
    requires counter.Valid()
    modifies counter
    ensures counter.Valid()
    ensures fresh(s) && s.pattern == pattern && s.isFinal == isFinal
    ensures s.id == old(counter.next) && counter.next == old(counter.next) + 1
    ensures counter.issued == old(counter.issued) + [s.id]
  {
    var id := counter.Generate();
    s := new State(pattern, isFinal, id);
  }

  /** state_matches: false for a NULL state or text, and for a pattern that
      does not compile. */
  predicate StateMatches(m: Matcher, s: State?, text: Option<string>): (b: bool)
    ensures b ==> s != null && text.Some? && m.compiles(s.pattern)
  {
    s != null && text.Some? && PatternMatches(m, s.pattern, text.value)
  }

  /** Transition. */
  datatype Transition = Transition(from: State, pattern: string, to: State)

  function StatePatterns(states: seq<State>): seq<string>
  {
    PatternsOf(states, (x: State) => x.pattern)
  }

  lemma StatePatternsAt(states: seq<State>)
    ensures |StatePatterns(states)| == |states|
    ensures forall i :: 0 <= i < |states| ==> StatePatterns(states)[i] == states[i].pattern
  {
  }

  /** The state the step moves to: the first, in insertion order, whose pattern
      matches the input; null if none does. */
  function NextState(m: Matcher, states: seq<State>, input: string): (s: State?)
    ensures s == null <==> forall i :: 0 <= i < |states| ==> !PatternMatches(m, states[i].pattern, input)
    ensures s != null ==>
      (exists i :: 0 <= i < |states| && s == states[i]
        && PatternMatches(m, states[i].pattern, input)
        && forall j :: 0 <= j < i ==> !PatternMatches(m, states[j].pattern, input))
  {
    StatePatternsAt(states);
    match FirstMatching(m, StatePatterns(states), input)
    case None => null
    case Some(k) => states[k]
  }

  /** RegexAutomaton. */
  class RegexAutomaton {
    var states: seq<State>
    var stateCapacity: nat
    var transitions: seq<Transition>
    var transitionCapacity: nat
    var initial: State?
    var current: State?

    /** Both buffers within capacity; the initial state is the first one added;
        there is a current state, one of the states, exactly when there are states. */
    ghost predicate Valid()
      reads this
    {
      0 < stateCapacity && |states| <= stateCapacity
      && 0 < transitionCapacity && |transitions| <= transitionCapacity
      && (initial == null <==> states == [])
      && (states != [] ==> initial == states[0])
      && (current == null <==> states == [])
      && (current != null ==> current in states)
    }

    /** automaton_create: empty, room for 10 states and 20 transitions. */
    constructor ()
      ensures Valid()
      ensures states == [] && stateCapacity == 10 && transitions == [] && transitionCapacity == 20
      ensures initial == null && current == null
    {
      states := [];
      stateCapacity := 10;
      transitions := [];
      transitionCapacity := 20;
      initial := null;
      current := null;
    }
  }

  /** automaton_add_state.  NULL for a NULL automaton or pattern, with nothing
      changed; otherwise a new state is appended, the first one also becoming
      the initial and current state. */
  method AddState(automaton: RegexAutomaton?, counter: IdCounter, pattern: Option<string>, isFinal: bool)
    returns (s: State?)
    requires automaton != null ==> automaton.Valid()
    requires counter.Valid()
    modifies automaton, counter
    ensures counter.Valid()
    ensures s == null <==> automaton == null || pattern.None?
    ensures s == null ==> unchanged(counter)
    ensures s != null ==> counter.next == old(counter.next) + 1 && counter.issued == old(counter.issued) + [s.id]
    ensures automaton != null ==> automaton.Valid()
    ensures automaton != null && s == null ==> unchanged(automaton)
    ensures s != null ==>
      fresh(s) && s.pattern == pattern.value && s.isFinal == isFinal && s.id == old(counter.next)
      && automaton.states == old(automaton.states) + [s]
      && automaton.stateCapacity == GrownCapacity(|old(automaton.states)|, old(automaton.stateCapacity))
      && automaton.transitions == old(automaton.transitions)
      && automaton.transitionCapacity == old(automaton.transitionCapacity)
      && (old(automaton.initial) == null ==> automaton.initial == s && automaton.current == s)
      && (old(automaton.initial) != null ==>
            automaton.initial == old(automaton.initial) && automaton.current == old(automaton.current))
  {
    if automaton == null || pattern.None? {
      return null;
    }
    if |automaton.states| >= automaton.stateCapacity {
      automaton.stateCapacity := automaton.stateCapacity * 2;
    }
    s := CreateState(counter, pattern.value, isFinal);
    automaton.states := automaton.states + [s];
    if automaton.initial == null {
      automaton.initial := s;
      automaton.current := s;
    }
  }

  /** automaton_add_transition.  False, with nothing changed, when any argument
      is NULL; otherwise the transition is appended. */
  method AddTransition(automaton: RegexAutomaton?, from: State?, pattern: Option<string>, to: State?)
    returns (ok: bool)
    requires automaton != null ==> automaton.Valid()
    modifies automaton
    ensures ok <==> automaton != null && from != null && pattern.Some? && to != null
    ensures automaton != null ==> automaton.Valid()
    ensures automaton != null && !ok ==> unchanged(automaton)
    ensures ok ==>
      automaton.transitions == old(automaton.transitions) + [Transition(from, pattern.value, to)]
      && automaton.transitionCapacity
         == GrownCapacity(|old(automaton.transitions)|, old(automaton.transitionCapacity))
      && automaton.states == old(automaton.states) && automaton.stateCapacity == old(automaton.stateCapacity)
      && automaton.initial == old(automaton.initial) && automaton.current == old(automaton.current)
  {
    if automaton == null || from == null || pattern.None? || to == null {
      return false;
    }
    if |automaton.transitions| >= automaton.transitionCapacity {
      automaton.transitionCapacity := automaton.transitionCapacity * 2;
    }
    automaton.transitions := automaton.transitions + [Transition(from, pattern.value, to)];
    return true;
  }

  /** automaton_get_next_state.  NULL when the automaton, its current state or
      the input is NULL.  Otherwise the first state matching the input, which
      becomes current; with no match the current state stays. */
  method GetNextState(automaton: RegexAutomaton?, m: Matcher, input: Option<string>) returns (s: State?)
    requires automaton != null ==> automaton.Valid()
    modifies automaton
    ensures automaton != null ==> automaton.Valid()
    ensures automaton == null || old(automaton.current) == null || input.None? ==> s == null
    ensures automaton != null && old(automaton.current) != null && input.Some? ==>
      s == NextState(m, old(automaton.states), input.value)
    ensures automaton != null ==>
      automaton.current == (if s != null then s else old(automaton.current))
      && automaton.states == old(automaton.states) && automaton.stateCapacity == old(automaton.stateCapacity)
      && automaton.transitions == old(automaton.transitions)
      && automaton.transitionCapacity == old(automaton.transitionCapacity)
      && automaton.initial == old(automaton.initial)
  {
    if automaton == null || automaton.current == null || input.None? {
      return null;
    }
    var i := 0;
    while i < |automaton.states|
      invariant 0 <= i <= |automaton.states|
      invariant forall j :: 0 <= j < i ==> !PatternMatches(m, automaton.states[j].pattern, input.value)
    {
      if StateMatches(m, automaton.states[i], input) {
        automaton.current := automaton.states[i];
        return automaton.states[i];
      }
      i := i + 1;
    }
    return null;
  }

  /** TokenNode: the matched state's pattern as the type, and the token text. */
  datatype TokenNode = TokenNode(kind: string, value: string)

  /** IRGenerator. */
  class IRGenerator {
    const automaton: RegexAutomaton
    var nodes: seq<TokenNode>
    var nodeCount: nat
    var nodeCapacity: nat

    constructor (automaton: RegexAutomaton)
      ensures this.automaton == automaton
      ensures nodes == [] && nodeCount == 0 && nodeCapacity == 10
    {
      this.automaton := automaton;
      nodes := [];
      nodeCount := 0;
      nodeCapacity := 10;
    }
  }

  /** ir_generator_create: NULL for a NULL automaton. */
  method IRGeneratorCreate(automaton: RegexAutomaton?) returns (g: IRGenerator?)
    ensures g == null <==> automaton == null
    ensures g != null ==> fresh(g) && g.automaton == automaton && g.nodeCount == 0 && g.nodeCapacity == 10
  {
    if automaton == null {
      return null;
    }
    g := new IRGenerator(automaton);
  }

  /** ir_generator_process_token.  Steps the automaton on the token; a match
      yields a node typed by the matched state's pattern.  The generator's own
      node table is left alone. */
  method ProcessToken(generator: IRGenerator?, m: Matcher, token: Option<string>) returns (node: Option<TokenNode>)
    requires generator != null ==> generator.automaton.Valid()
    modifies if generator != null then {generator.automaton} else {}
    ensures generator != null ==> generator.automaton.Valid()
    ensures generator != null && token.None? ==> unchanged(generator.automaton)
    ensures generator != null && token.Some? ==>
      var a := generator.automaton;
      var next := if old(a.current) == null then null else NextState(m, old(a.states), token.value);
      a.current == (if next != null then next else old(a.current))
      && a.states == old(a.states) && a.stateCapacity == old(a.stateCapacity)
      && a.transitions == old(a.transitions) && a.transitionCapacity == old(a.transitionCapacity)
      && a.initial == old(a.initial)
    ensures generator != null ==> generator.nodeCount == old(generator.nodeCount) && generator.nodes == old(generator.nodes)
    ensures generator == null || token.None? ==> node.None?
    ensures generator != null && token.Some? ==>
      var next := if old(generator.automaton.current) == null then null
                  else NextState(m, old(generator.automaton.states), token.value);
      node == (if next == null then None else Some(TokenNode(next.pattern, token.value)))
  {
    if generator == null || token.None? {
      return None;
    }
    var next := GetNextState(generator.automaton, m, token);
    if next == null {
      return None;
    }
    return Some(TokenNode(next.pattern, token.value));
  }
}
