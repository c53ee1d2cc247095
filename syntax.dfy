/**
 * The expression tree built by the parser (`ast_node_t`), the node count the
 * AST coordinator records (`count_ast_nodes`) and the nested-parenthesis
 * rendering of the output stage (`print_ast_recursive`).
 */
module Syntax {
  import opened Tokens

  /** A NULL child is `Nil`.  `UnaryOp` is declared by the source but never built. */
  datatype Ast =
    | Nil
    | Identifier(name: string)
    | Number(digits: string)
    | BinOp(op: string, left: Ast, right: Ast)
    | UnaryOp(op: string, operand: Ast)

  /** count_ast_nodes: NULL counts 0, every node counts itself and its children. */
  function CountNodes(t: Ast): (n: nat)
    ensures n == 0 <==> t == Nil
    ensures t.BinOp? ==> n > CountNodes(t.left) && n > CountNodes(t.right)
  {
    match t
    case Nil => 0
    case Identifier(_) => 1
    case Number(_) => 1
    case BinOp(_, l, r) => 1 + CountNodes(l) + CountNodes(r)
    case UnaryOp(_, e) => 1 + CountNodes(e)
  }

  /** Two spaces per indent level. */
  function Indent(level: nat): (s: string)
    ensures |s| == 2 * level && AllSpaces(s)
  {
    if level == 0 then [] else "  " + Indent(level - 1)
  }

  /** One node as print_ast_recursive prints it: indented, in parentheses,
      followed by a newline. */
  function Framed(level: nat, body: string): string
  {
    Indent(level) + "(" + body + ")" + "\n"
  }

  /** print_ast_recursive(node, indent), as the text it prints.  An operator
      node's children come on the lines between its head and its closing
      parenthesis. */
  function Render(t: Ast, level: nat): (r: string)
    ensures r == [] <==> t == Nil
  {
    match t
    case Nil => []
    case Identifier(v) => Framed(level, "Identifier " + v)
    case Number(v) => Framed(level, "Number " + v)
    case BinOp(op, l, r) =>
      Framed(level, "BinOp " + op + "\n" + Render(l, level + 1) + Render(r, level + 1) + Indent(level))
    case UnaryOp(_, _) => Framed(level, "Unknown")
  }

  /** rift_generate_output: the rendering inside an unindented `(AST` frame. */
  function Document(t: Ast): (r: string)
    ensures r == "(AST\n" + Render(t, 1) + ")\n"
  {
    Framed(0, "AST\n" + Render(t, 1))
  }

  // ---------------------------------------------------------------------------
  // Parenthesis balance of the rendering

  function Step(c: char): int
  {
    if c == '(' then 1 else if c == ')' then -1 else 0
  }

  /** Reading `s` from nesting depth `d` never closes more than is open and
      ends at depth `e`. */
  predicate Scans(s: string, d: int, e: int)
    decreases |s|
  {
    if s == [] then d == e
    else d + Step(s[0]) >= 0 && Scans(s[1..], d + Step(s[0]), e)
  }

  predicate Balanced(s: string)
  {
    Scans(s, 0, 0)
  }

  predicate ParenFree(s: string)
  {
    forall i :: 0 <= i < |s| ==> s[i] != '(' && s[i] != ')'
  }

  /** Every name and operator in the tree is free of parentheses. */
  predicate PlainNames(t: Ast)
  {
    match t
    case Nil => true
    case Identifier(v) => ParenFree(v)
    case Number(v) => ParenFree(v)
    case BinOp(op, l, r) => ParenFree(op) && PlainNames(l) && PlainNames(r)
    case UnaryOp(op, e) => ParenFree(op) && PlainNames(e)
  }

  lemma {:induction false} ScansConcat(a: string, b: string, d: int, e: int, f: int)
    requires Scans(a, d, e) && Scans(b, e, f)
    ensures Scans(a + b, d, f)
    decreases |a|
  {
    if a == [] {
      assert a + b == b;
    } else {
      assert (a + b)[1..] == a[1..] + b;
      ScansConcat(a[1..], b, d + Step(a[0]), e, f);
    }
  }

  lemma {:induction false} ScansShift(s: string, d: int, e: int, k: nat)
    requires Scans(s, d, e)
    ensures Scans(s, d + k, e + k)
    decreases |s|
  {
    if s != [] {
      ScansShift(s[1..], d + Step(s[0]), e, k);
    }
  }

  lemma {:induction false} ScansFlat(s: string, d: int)
    requires d >= 0 && ParenFree(s)
    ensures Scans(s, d, d)
    decreases |s|
  {
    if s != [] {
      ScansFlat(s[1..], d);
    }
  }

  /** `(` + x + `)` is balanced when x is. */
  lemma Wrapped(x: string)
    requires Balanced(x)
    ensures Balanced("(" + x + ")")
  {
    ScansShift(x, 0, 0, 1);
    assert Scans(")", 1, 0);
    ScansConcat(x, ")", 1, 1, 0);
    assert ("(" + x + ")") == "(" + (x + ")");
    assert Scans("(" + (x + ")"), 0, 0);
  }

  lemma FlatBalanced(s: string)
    requires ParenFree(s)
    ensures Balanced(s)
  {
    ScansFlat(s, 0);
  }

  lemma BalancedConcat(a: string, b: string)
    requires Balanced(a) && Balanced(b)
    ensures Balanced(a + b)
  {
    ScansConcat(a, b, 0, 0, 0);
  }

  /** A flat prefix, a parenthesised balanced body and a flat suffix. */
  lemma FramedBalanced(pre: string, inner: string, post: string)
    requires ParenFree(pre) && Balanced(inner) && ParenFree(post)
    ensures Balanced(pre + "(" + inner + ")" + post)
  {
    Wrapped(inner);
    FlatBalanced(pre);
    FlatBalanced(post);
    BalancedConcat(pre, "(" + inner + ")");
    BalancedConcat(pre + ("(" + inner + ")"), post);
    assert pre + "(" + inner + ")" + post == pre + ("(" + inner + ")") + post;
  }

  lemma FramedLineBalanced(level: nat, body: string)
    requires Balanced(body)
    ensures Balanced(Framed(level, body))
  {
    assert ParenFree(Indent(level));
    assert ParenFree("\n");
    FramedBalanced(Indent(level), body, "\n");
  }

  lemma FlatWordBalanced(tag: string, v: string)
    requires ParenFree(tag) && ParenFree(v)
    ensures Balanced(tag + v)
  {
    assert ParenFree(tag + v);
    FlatBalanced(tag + v);
  }

  lemma BranchBodyBalanced(level: nat, op: string, l: string, r: string)
    requires ParenFree(op) && Balanced(l) && Balanced(r)
    ensures Balanced("BinOp " + op + "\n" + l + r + Indent(level))
  {
    var head := "BinOp " + op + "\n";
    assert ParenFree(head);
    FlatBalanced(head);
    FlatBalanced(Indent(level));
    BalancedConcat(head, l);
    BalancedConcat(head + l, r);
    BalancedConcat(head + l + r, Indent(level));
  }

  /** Every rendering is balanced: each `(` it prints is closed by a later `)`
      and no `)` closes more than is open. */
  lemma {:induction false} RenderBalanced(t: Ast, level: nat)
    requires PlainNames(t)
    ensures Balanced(Render(t, level))
  {
    match t
    case Nil =>
    case Identifier(v) =>
      FlatWordBalanced("Identifier ", v);
      FramedLineBalanced(level, "Identifier " + v);
    case Number(v) =>
      FlatWordBalanced("Number ", v);
      FramedLineBalanced(level, "Number " + v);
    case UnaryOp(_, _) =>
      FlatBalanced("Unknown");
      FramedLineBalanced(level, "Unknown");
    case BinOp(op, l, r) =>
      RenderBalanced(l, level + 1);
      RenderBalanced(r, level + 1);
      BranchBodyBalanced(level, op, Render(l, level + 1), Render(r, level + 1));
      FramedLineBalanced(level, "BinOp " + op + "\n" + Render(l, level + 1) + Render(r, level + 1) + Indent(level));
  }

  /** The whole output, envelope included, is balanced. */
  lemma DocumentBalanced(t: Ast)
    requires PlainNames(t)
    ensures Balanced(Document(t))
  {
    FlatBalanced("AST\n");
    RenderBalanced(t, 1);
    BalancedConcat("AST\n", Render(t, 1));
    FramedLineBalanced(0, "AST\n" + Render(t, 1));
  }

  // ---------------------------------------------------------------------------
  // One printed node per counted node

  /** The number of `(` in `s`. */
  function Opens(s: string): nat
  {
    if s == [] then 0 else (if s[0] == '(' then 1 else 0) + Opens(s[1..])
  }

  /** No unary node: the only shapes the parsers build. */
  predicate BinaryOnly(t: Ast)
  {
    match t
    case UnaryOp(_, _) => false
    case BinOp(_, l, r) => BinaryOnly(l) && BinaryOnly(r)
    case _ => true
  }

  lemma {:induction false} OpensConcat(a: string, b: string)
    ensures Opens(a + b) == Opens(a) + Opens(b)
  {
    if a == [] {
      assert a + b == b;
    } else {
      assert (a + b)[1..] == a[1..] + b;
      OpensConcat(a[1..], b);
    }
  }

  lemma {:induction false} OpensFlat(s: string)
    requires ParenFree(s)
    ensures Opens(s) == 0
  {
    if s != [] {
      OpensFlat(s[1..]);
    }
  }

  lemma FramedOpens(level: nat, body: string)
    ensures Opens(Framed(level, body)) == 1 + Opens(body)
  {
    OpensFlat(Indent(level));
    OpensFlat("\n");
    OpensConcat(Indent(level), "(");
    OpensConcat(Indent(level) + "(", body);
    OpensConcat(Indent(level) + "(" + body, ")");
    OpensConcat(Indent(level) + "(" + body + ")", "\n");
    assert ParenFree(Indent(level));
    assert ParenFree(")"[1..]);
    OpensFlat(")"[1..]);
  }

  lemma WordOpens(tag: string, v: string)
    requires ParenFree(tag) && ParenFree(v)
    ensures Opens(tag + v) == 0
  {
    assert ParenFree(tag + v);
    OpensFlat(tag + v);
  }

  lemma BranchBodyOpens(level: nat, op: string, l: string, r: string)
    requires ParenFree(op)
    ensures Opens("BinOp " + op + "\n" + l + r + Indent(level)) == Opens(l) + Opens(r)
  {
    var head := "BinOp " + op + "\n";
    assert ParenFree(head);
    OpensFlat(head);
    OpensFlat(Indent(level));
    OpensConcat(head, l);
    OpensConcat(head + l, r);
    OpensConcat(head + l + r, Indent(level));
  }

  lemma LeafOpens(level: nat, tag: string, v: string)
    requires ParenFree(tag) && ParenFree(v)
    ensures Opens(Framed(level, tag + v)) == 1
  {
    WordOpens(tag, v);
    FramedOpens(level, tag + v);
  }

  lemma BranchOpens(op: string, l: Ast, r: Ast, level: nat)
    requires ParenFree(op)
    ensures Opens(Render(BinOp(op, l, r), level))
         == 1 + Opens(Render(l, level + 1)) + Opens(Render(r, level + 1))
  {
    BranchBodyOpens(level, op, Render(l, level + 1), Render(r, level + 1));
    FramedOpens(level, "BinOp " + op + "\n" + Render(l, level + 1) + Render(r, level + 1) + Indent(level));
  }

  /** The rendering prints one node line per node the coordinator counts: it
      opens exactly CountNodes(t) parentheses. */
  lemma {:induction false} RenderOpensPerNode(t: Ast, level: nat)
    requires PlainNames(t) && BinaryOnly(t)
    ensures Opens(Render(t, level)) == CountNodes(t)
  {
    match t
    case Nil =>
    case Identifier(v) =>
      LeafOpens(level, "Identifier ", v);
    case Number(v) =>
      LeafOpens(level, "Number ", v);
    case BinOp(op, l, r) =>
      RenderOpensPerNode(l, level + 1);
      RenderOpensPerNode(r, level + 1);
      BranchOpens(op, l, r, level);
  }

  /** The whole output opens one parenthesis for the envelope and one per node. */
  lemma DocumentOpens(t: Ast)
    requires PlainNames(t) && BinaryOnly(t)
    ensures Opens(Document(t)) == 1 + CountNodes(t)
  {
    RenderOpensPerNode(t, 1);
    OpensFlat("AST\n");
    OpensConcat("AST\n", Render(t, 1));
    FramedOpens(0, "AST\n" + Render(t, 1));
  }

  /** The output for `x + 2 * y`: one node per line, each child two spaces
      deeper than its parent, an operator's closing parenthesis on its own line
      at the operator's depth. */
  lemma DocumentOfSum()
    ensures Document(BinOp("+", Identifier("x"), BinOp("*", Number("2"), Identifier("y")))) ==
      "(AST\n"
      + "  (BinOp +\n"
      + "    (Identifier x)\n"
      + "    (BinOp *\n"
      + "      (Number 2)\n"
      + "      (Identifier y)\n"
      + "    )\n"
      + "  )\n"
      + ")\n"
  {
    var sum := BinOp("+", Identifier("x"), BinOp("*", Number("2"), Identifier("y")));
    calc {
      Document(sum);
      "(AST\n" + Render(sum, 1) + ")\n";
      { SumAtDepthOne(); }
      "(AST\n" + ("  (BinOp +\n" + "    (Identifier x)\n"
                   + ("    (BinOp *\n" + "      (Number 2)\n" + "      (Identifier y)\n" + "    )\n")
                   + "  )\n") + ")\n";
      { Flatten("(AST\n", "  (BinOp +\n", "    (Identifier x)\n", "    (BinOp *\n", "      (Number 2)\n",
                "      (Identifier y)\n", "    )\n", "  )\n", ")\n"); }
      "(AST\n" + "  (BinOp +\n" + "    (Identifier x)\n" + "    (BinOp *\n" + "      (Number 2)\n"
        + "      (Identifier y)\n" + "    )\n" + "  )\n" + ")\n";
    }
  }

  /** The nested lines of a document, read as one text. */
  lemma Flatten(a: string, b: string, c: string, d: string, e: string, f: string, g: string, h: string, i: string)
    ensures a + (b + c + (d + e + f + g) + h) + i == a + b + c + d + e + f + g + h + i
  {
  }

  lemma SumAtDepthOne()
    ensures Render(BinOp("+", Identifier("x"), BinOp("*", Number("2"), Identifier("y"))), 1) ==
      "  (BinOp +\n" + "    (Identifier x)\n"
      + ("    (BinOp *\n" + "      (Number 2)\n" + "      (Identifier y)\n" + "    )\n")
      + "  )\n"
  {
    XAtDepthTwo();
    ProductAtDepthTwo();
    BranchLines(1, "+", Identifier("x"), BinOp("*", Number("2"), Identifier("y")), "  (BinOp +\n", "  )\n") by {
      assert Indent(1) == "  ";
    }
  }

  lemma ProductAtDepthTwo()
    ensures Render(BinOp("*", Number("2"), Identifier("y")), 2) ==
      "    (BinOp *\n" + "      (Number 2)\n" + "      (Identifier y)\n" + "    )\n"
  {
    TwoAtDepthThree();
    YAtDepthThree();
    BranchLines(2, "*", Number("2"), Identifier("y"), "    (BinOp *\n", "    )\n") by {
      assert Indent(2) == "    ";
    }
  }

  /** An operator node's text: its head line, its children's lines, its
      closing line. */
  lemma BranchLines(level: nat, op: string, l: Ast, r: Ast, head: string, close: string)
    requires head == Indent(level) + "(" + ("BinOp " + op + "\n")
    requires close == Indent(level) + (")" + "\n")
    ensures Render(BinOp(op, l, r), level) == head + Render(l, level + 1) + Render(r, level + 1) + close
  {
    Regroup(Indent(level), "BinOp " + op + "\n", Render(l, level + 1), Render(r, level + 1));
  }

  /** Moving a node's parentheses out to its first and last lines. */
  lemma Regroup(pad: string, word: string, left: string, right: string)
    ensures pad + "(" + (word + left + right + pad) + ")" + "\n"
         == (pad + "(" + word) + left + right + (pad + (")" + "\n"))
  {
  }

  lemma XAtDepthTwo()
    ensures Render(Identifier("x"), 2) == "    (Identifier x)\n"
  {
  }

  lemma TwoAtDepthThree()
    ensures Render(Number("2"), 3) == "      (Number 2)\n"
  {
  }

  lemma YAtDepthThree()
    ensures Render(Identifier("y"), 3) == "      (Identifier y)\n"
  {
  }
}
