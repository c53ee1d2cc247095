/**
 * The recursive-descent expression parser of the RIFT-1 stage
 * (`rift_parser_t`, `parse_expression`/`parse_term`/`parse_factor`):
 *
 *   expression := term (('+' | '-') term)*
 *   term       := factor (('*' | '/') factor)*
 *   factor     := IDENTIFIER | NUMBER
 *
 * The functions below state what each parsing routine returns and where it
 * leaves the cursor; the `Parser` class runs the same routines imperatively
 * over a cursor field and is proved against them.
 */
module Parser {
  import opened Wrappers
  import opened Tokens
  import opened Syntax

  const AdditiveOps: set<string> := {"+", "-"}
  const MultiplicativeOps: set<string> := {"*", "/"}

  /** The token under the cursor is an OPERATOR spelled as one of `ops`. */
  predicate AtOperator(ts: seq<Token>, pos: nat, ops: set<string>)
  {
    pos < |ts| && ts[pos].kind == OperatorKind && ts[pos].value in ops
  }

  /** parse_factor: one IDENTIFIER or NUMBER token becomes a leaf; anything else
      yields no node and consumes nothing. */
  function Factor(ts: seq<Token>, pos: nat): (r: (Ast, nat))
    ensures r.1 == pos || r.1 == pos + 1
    ensures r.1 == pos + 1 <==> pos < |ts| && (ts[pos].kind == IdentifierKind || ts[pos].kind == NumberKind)
    ensures r.0 == Nil <==> r.1 == pos
  {
    if pos < |ts| && ts[pos].kind == IdentifierKind then (Identifier(ts[pos].value), pos + 1)
    else if pos < |ts| && ts[pos].kind == NumberKind then (Number(ts[pos].value), pos + 1)
    else (Nil, pos)
  }

  /** The `while` loop of parse_term, entered with `left` already parsed. */
  function TermLoop(ts: seq<Token>, pos: nat, left: Ast): (r: (Ast, nat))
    ensures pos <= r.1
    ensures pos <= |ts| ==> r.1 <= |ts|
    ensures !AtOperator(ts, r.1, MultiplicativeOps)
    decreases |ts| - pos
  {
    if AtOperator(ts, pos, MultiplicativeOps) then
      var f := Factor(ts, pos + 1);
      TermLoop(ts, f.1, BinOp(ts[pos].value, left, f.0))
    else
      (left, pos)
  }

  /** parse_term. */
  function Term(ts: seq<Token>, pos: nat): (r: (Ast, nat))
    ensures pos <= r.1
    ensures pos <= |ts| ==> r.1 <= |ts|
    ensures !AtOperator(ts, r.1, MultiplicativeOps)
  {
    var f := Factor(ts, pos);
    TermLoop(ts, f.1, f.0)
  }

  /** The `while` loop of parse_expression, entered with `left` already parsed. */
  function ExpressionLoop(ts: seq<Token>, pos: nat, left: Ast): (r: (Ast, nat))
    ensures pos <= r.1
    ensures pos <= |ts| ==> r.1 <= |ts|
    ensures !AtOperator(ts, r.1, AdditiveOps)
    ensures !AtOperator(ts, pos, MultiplicativeOps) ==> !AtOperator(ts, r.1, MultiplicativeOps)
    decreases |ts| - pos
  {
    if AtOperator(ts, pos, AdditiveOps) then
      var t := Term(ts, pos + 1);
      ExpressionLoop(ts, t.1, BinOp(ts[pos].value, left, t.0))
    else
      (left, pos)
  }

  /** parse_expression: it stops only at a token that cannot continue an
      expression. */
  function Expression(ts: seq<Token>, pos: nat): (r: (Ast, nat))
    ensures pos <= r.1
    ensures pos <= |ts| ==> r.1 <= |ts|
    ensures !AtOperator(ts, r.1, AdditiveOps) && !AtOperator(ts, r.1, MultiplicativeOps)
  {
    var t := Term(ts, pos);
    ExpressionLoop(ts, t.1, t.0)
  }

  /** rift_parse: the tree and the final cursor for a whole stream. */
  function Parsed(ts: seq<Token>): (r: (Ast, nat))
    ensures r.1 <= |ts|
  {
    Expression(ts, 0)
  }

  /** rift_parser_t: the stream being parsed and the cursor into it. */
  class Parser {
    var tokens: seq<Token>
    var position: nat

    ghost predicate Valid()
      reads this
    {
      position <= |tokens|
    }

    /** rift_parser_create. */
    constructor ()
      ensures Valid() && tokens == [] && position == 0
    {
      tokens := [];
      position := 0;
    }

    /** current_token: NULL exactly when the cursor is at or past the end. */
    method CurrentToken() returns (t: Option<Token>)
      ensures t.None? <==> position >= |tokens|
      ensures t.Some? ==> t.value == tokens[position]
    {
      if position >= |tokens| {
        return None;
      }
      return Some(tokens[position]);
    }

    /** advance_token: moves one token forward, never past the end. */
    method Advance()
      requires Valid()
      modifies this`position
      ensures Valid()
      ensures position == if old(position) < |tokens| then old(position) + 1 else old(position)
    {
      if position < |tokens| {
        position := position + 1;
      }
    }

    /** The condition of the parse_term and parse_expression loops. */
    method AtOperatorIn(ops: set<string>) returns (b: bool)
      ensures b == AtOperator(tokens, position, ops)
    {
      var token := CurrentToken();
      b := token.Some? && token.value.kind == OperatorKind && token.value.value in ops;
    }

    method ParseFactor() returns (node: Ast)
      requires Valid()
      modifies this`position
      ensures Valid()
      ensures (node, position) == Factor(tokens, old(position))
    {
      var token := CurrentToken();
      if token.None? {
        return Nil;
      }
      if token.value.kind == IdentifierKind {
        Advance();
        return Identifier(token.value.value);
      } else if token.value.kind == NumberKind {
        Advance();
        return Number(token.value.value);
      }
      return Nil;
    }

    method ParseTerm() returns (node: Ast)
      requires Valid()
      modifies this`position
      ensures Valid()
      ensures (node, position) == Term(tokens, old(position))
    {
      node := ParseFactor();
      var more := AtOperatorIn(MultiplicativeOps);
      while more
        invariant Valid()
        invariant more == AtOperator(tokens, position, MultiplicativeOps)
        invariant TermLoop(tokens, position, node) == Term(tokens, old(position))
        decreases |tokens| - position
      {
        var op := tokens[position].value;
        Advance();
        var right := ParseFactor();
        node := BinOp(op, node, right);
        more := AtOperatorIn(MultiplicativeOps);
      }
    }

    method ParseExpression() returns (node: Ast)
      requires Valid()
      modifies this`position
      ensures Valid()
      ensures (node, position) == Expression(tokens, old(position))
    {
      node := ParseTerm();
      var more := AtOperatorIn(AdditiveOps);
      while more
        invariant Valid()
        invariant more == AtOperator(tokens, position, AdditiveOps)
        invariant ExpressionLoop(tokens, position, node) == Expression(tokens, old(position))
        decreases |tokens| - position
      {
        var op := tokens[position].value;
        Advance();
        var right := ParseTerm();
        node := BinOp(op, node, right);
        more := AtOperatorIn(AdditiveOps);
      }
    }

    /** rift_parse: resets the cursor and parses one expression; tokens after
        it stay unconsumed. */
    method Parse(ts: seq<Token>) returns (ast: Ast)
      modifies this
      ensures Valid() && tokens == ts
      ensures (ast, position) == Parsed(ts)
    {
      tokens := ts;
      position := 0;
      ast := ParseExpression();
    }
  }

  // ---------------------------------------------------------------------------
  // The grammar as a shape of trees

  predicate FactorShape(t: Ast)
  {
    t.Nil? || t.Identifier? || t.Number?
  }

  /** A product: `*`/`/` nodes folded to the left over factors. */
  predicate TermShape(t: Ast)
  {
    FactorShape(t)
    || (t.BinOp? && t.op in MultiplicativeOps && TermShape(t.left) && FactorShape(t.right))
  }

  /** A sum of products: `+`/`-` nodes folded to the left over terms. */
  predicate ExprShape(t: Ast)
  {
    TermShape(t)
    || (t.BinOp? && t.op in AdditiveOps && ExprShape(t.left) && TermShape(t.right))
  }

  /** No operand is missing. */
  predicate Complete(t: Ast)
  {
    match t
    case Nil => false
    case Identifier(_) => true
    case Number(_) => true
    case BinOp(_, l, r) => Complete(l) && Complete(r)
    case UnaryOp(_, e) => Complete(e)
  }

  /** From position `p` on, `ts` spells out `t` token for token, in order. */
  predicate Spells(ts: seq<Token>, p: nat, t: Ast)
    decreases t
  {
    match t
    case Nil => false
    case Identifier(v) => p < |ts| && ts[p].kind == IdentifierKind && ts[p].value == v
    case Number(v) => p < |ts| && ts[p].kind == NumberKind && ts[p].value == v
    case BinOp(op, l, r) =>
      var q := p + CountNodes(l);
      Spells(ts, p, l) && q < |ts| && ts[q].kind == OperatorKind && ts[q].value == op
      && Spells(ts, q + 1, r)
    case UnaryOp(_, _) => false
  }

  /** Grammar-shaped trees hold only binary nodes: the parsers never build a
      unary node. */
  lemma {:induction false} ShapeIsBinary(t: Ast)
    requires ExprShape(t)
    ensures BinaryOnly(t)
  {
    if t.BinOp? {
      if t.op in AdditiveOps && ExprShape(t.left) && TermShape(t.right) {
        ShapeIsBinary(t.left);
        ShapeIsBinary(t.right);
      } else {
        ShapeIsBinary(t.left);
        assert FactorShape(t.right);
      }
    }
  }

  // ---------------------------------------------------------------------------
  // Every result has the grammar's shape

  lemma {:induction false} TermLoopShape(ts: seq<Token>, pos: nat, left: Ast)
    requires TermShape(left)
    ensures TermShape(TermLoop(ts, pos, left).0)
    decreases |ts| - pos
  {
    if AtOperator(ts, pos, MultiplicativeOps) {
      var f := Factor(ts, pos + 1);
      TermLoopShape(ts, f.1, BinOp(ts[pos].value, left, f.0));
    }
  }

  lemma {:induction false} ExpressionLoopShape(ts: seq<Token>, pos: nat, left: Ast)
    requires ExprShape(left)
    ensures ExprShape(ExpressionLoop(ts, pos, left).0)
    decreases |ts| - pos
  {
    if AtOperator(ts, pos, AdditiveOps) {
      var t := Term(ts, pos + 1);
      TermLoopShape(ts, Factor(ts, pos + 1).1, Factor(ts, pos + 1).0);
      ExpressionLoopShape(ts, t.1, BinOp(ts[pos].value, left, t.0));
    }
  }

  /** Precedence and associativity: whatever the stream, the tree is a
      left-folded sum of left-folded products of leaves (missing operands
      appear as `Nil`). */
  lemma ExpressionShape(ts: seq<Token>, pos: nat)
    ensures ExprShape(Expression(ts, pos).0)
  {
    TermLoopShape(ts, Factor(ts, pos).1, Factor(ts, pos).0);
    ExpressionLoopShape(ts, Term(ts, pos).1, Term(ts, pos).0);
  }

  // ---------------------------------------------------------------------------
  // A tree without missing operands spells exactly the tokens consumed

  lemma {:induction false} TermLoopSound(ts: seq<Token>, p: nat, q: nat, acc: Ast)
    requires Complete(acc) ==> Spells(ts, p, acc) && q == p + CountNodes(acc)
    ensures var r := TermLoop(ts, q, acc);
      Complete(r.0) ==> Spells(ts, p, r.0) && r.1 == p + CountNodes(r.0)
    decreases |ts| - q
  {
    if AtOperator(ts, q, MultiplicativeOps) {
      var f := Factor(ts, q + 1);
      assert Complete(f.0) ==> Spells(ts, q + 1, f.0) && f.1 == q + 2;
      TermLoopSound(ts, p, f.1, BinOp(ts[q].value, acc, f.0));
    }
  }

  lemma TermSound(ts: seq<Token>, p: nat)
    ensures var r := Term(ts, p);
      Complete(r.0) ==> Spells(ts, p, r.0) && r.1 == p + CountNodes(r.0)
  {
    TermLoopSound(ts, p, Factor(ts, p).1, Factor(ts, p).0);
  }

  lemma {:induction false} ExpressionLoopSound(ts: seq<Token>, p: nat, q: nat, acc: Ast)
    requires Complete(acc) ==> Spells(ts, p, acc) && q == p + CountNodes(acc)
    ensures var r := ExpressionLoop(ts, q, acc);
      Complete(r.0) ==> Spells(ts, p, r.0) && r.1 == p + CountNodes(r.0)
    decreases |ts| - q
  {
    if AtOperator(ts, q, AdditiveOps) {
      var t := Term(ts, q + 1);
      TermSound(ts, q + 1);
      var b := BinOp(ts[q].value, acc, t.0);
      assert Complete(b) ==> Spells(ts, p, b) && t.1 == p + CountNodes(b);
      ExpressionLoopSound(ts, p, t.1, b);
    }
  }

  /** A parse with no missing operand consumed exactly the tokens its tree
      spells, so the node count equals the number of tokens consumed. */
  lemma ExpressionSound(ts: seq<Token>, p: nat)
    ensures var r := Expression(ts, p);
      Complete(r.0) ==> Spells(ts, p, r.0) && r.1 == p + CountNodes(r.0)
  {
    TermSound(ts, p);
    ExpressionLoopSound(ts, p, Term(ts, p).1, Term(ts, p).0);
  }

  // ---------------------------------------------------------------------------
  // Every well-formed expression is parsed back to itself

  /** One round of parse_term's loop over an operator and a spelled factor. */
  lemma MultiplicativeStep(ts: seq<Token>, q: nat, left: Ast, right: Ast)
    requires AtOperator(ts, q, MultiplicativeOps)
    requires FactorShape(right) && Complete(right) && Spells(ts, q + 1, right)
    ensures TermLoop(ts, q, left) == TermLoop(ts, q + 2, BinOp(ts[q].value, left, right))
  {
    assert Factor(ts, q + 1) == (right, q + 2);
  }

  lemma {:induction false} TermReads(ts: seq<Token>, p: nat, e: Ast)
    requires TermShape(e) && Complete(e) && Spells(ts, p, e)
    ensures Term(ts, p) == TermLoop(ts, p + CountNodes(e), e)
  {
    if !FactorShape(e) {
      var q := p + CountNodes(e.left);
      assert ts[q].value == e.op && e.op in MultiplicativeOps;
      assert CountNodes(e.right) == 1;
      TermReads(ts, p, e.left);
      MultiplicativeStep(ts, q, e.left, e.right);
    }
  }

  /** One round of parse_expression's loop over an operator and a spelled term. */
  lemma AdditiveStep(ts: seq<Token>, q: nat, left: Ast, right: Ast)
    requires AtOperator(ts, q, AdditiveOps)
    requires TermShape(right) && Complete(right) && Spells(ts, q + 1, right)
    requires !AtOperator(ts, q + 1 + CountNodes(right), MultiplicativeOps)
    ensures ExpressionLoop(ts, q, left)
         == ExpressionLoop(ts, q + 1 + CountNodes(right), BinOp(ts[q].value, left, right))
  {
    TermReads(ts, q + 1, right);
  }

  lemma {:induction false} ExpressionReads(ts: seq<Token>, p: nat, e: Ast)
    requires ExprShape(e) && Complete(e) && Spells(ts, p, e)
    requires !AtOperator(ts, p + CountNodes(e), MultiplicativeOps)
    ensures Expression(ts, p) == ExpressionLoop(ts, p + CountNodes(e), e)
  {
    if TermShape(e) {
      TermReads(ts, p, e);
    } else {
      var q := p + CountNodes(e.left);
      assert ts[q].value == e.op && e.op in AdditiveOps;
      ExpressionReads(ts, p, e.left);
      AdditiveStep(ts, q, e.left, e.right);
    }
  }

  /** Parsing inverts spelling: a complete tree of the grammar's shape, spelled
      out and followed by anything but an operator that could continue it, is
      parsed back to itself with the cursor just after it. */
  lemma ExpressionInverts(ts: seq<Token>, p: nat, e: Ast)
    requires ExprShape(e) && Complete(e) && Spells(ts, p, e)
    requires !AtOperator(ts, p + CountNodes(e), AdditiveOps)
    requires !AtOperator(ts, p + CountNodes(e), MultiplicativeOps)
    ensures Expression(ts, p) == (e, p + CountNodes(e))
  {
    ExpressionReads(ts, p, e);
  }

  // ---------------------------------------------------------------------------
  // Worked cases

  function Tok(kind: TokenKind, value: string, column: nat): Token
  {
    Token(kind, value, 1, column, 0)
  }

  /** `x + 2 * y`: `*` binds tighter than `+`. */
  lemma PrecedenceExample()
    ensures Parsed([Tok(IdentifierKind, "x", 1), Tok(OperatorKind, "+", 2), Tok(NumberKind, "2", 3),
                    Tok(OperatorKind, "*", 4), Tok(IdentifierKind, "y", 5)])
         == (BinOp("+", Identifier("x"), BinOp("*", Number("2"), Identifier("y"))), 5)
  {
    var ts := [Tok(IdentifierKind, "x", 1), Tok(OperatorKind, "+", 2), Tok(NumberKind, "2", 3),
               Tok(OperatorKind, "*", 4), Tok(IdentifierKind, "y", 5)];
    var e := BinOp("+", Identifier("x"), BinOp("*", Number("2"), Identifier("y")));
    assert "*" in MultiplicativeOps && "+" in AdditiveOps;
    assert Spells(ts, 2, BinOp("*", Number("2"), Identifier("y")));
    assert Spells(ts, 0, e);
    ExpressionInverts(ts, 0, e);
  }

  /** `a - b - c`: the same operator folds to the left. */
  lemma AssociativityExample()
    ensures Parsed([Tok(IdentifierKind, "a", 1), Tok(OperatorKind, "-", 2), Tok(IdentifierKind, "b", 3),
                    Tok(OperatorKind, "-", 4), Tok(IdentifierKind, "c", 5)])
         == (BinOp("-", BinOp("-", Identifier("a"), Identifier("b")), Identifier("c")), 5)
  {
    var ts := [Tok(IdentifierKind, "a", 1), Tok(OperatorKind, "-", 2), Tok(IdentifierKind, "b", 3),
               Tok(OperatorKind, "-", 4), Tok(IdentifierKind, "c", 5)];
    var e := BinOp("-", BinOp("-", Identifier("a"), Identifier("b")), Identifier("c"));
    assert "-" in AdditiveOps;
    assert Spells(ts, 0, BinOp("-", Identifier("a"), Identifier("b")));
    assert Spells(ts, 0, e);
    ExpressionInverts(ts, 0, e);
  }

  /** An empty stream has no root. */
  lemma EmptyStreamExample()
    ensures Parsed([]) == (Nil, 0)
  {
  }

  /** A trailing operator leaves its right operand missing. */
  lemma TrailingOperatorExample()
    ensures Parsed([Tok(IdentifierKind, "x", 1), Tok(OperatorKind, "+", 2)])
         == (BinOp("+", Identifier("x"), Nil), 2)
  {
    assert "+" in AdditiveOps && "+" !in MultiplicativeOps;
  }

  /** Tokens after a complete expression are left unconsumed. */
  lemma TrailingTokensExample()
    ensures Parsed([Tok(IdentifierKind, "x", 1), Tok(IdentifierKind, "y", 2)]) == (Identifier("x"), 1)
  {
  }
}
