/** The tree-shaping rules of the Foo grammar (src/parse.rs, `parser()`).

    A derivation records what the combinators matched at each level of the
    grammar (atom, unary, product, sum, declaration) together with the span
    each sub-parser reported. The `Build` functions are the parser's
    semantic actions: the `foldr` that nests negations, the `foldl` that
    chains products and sums, and the `map_with` calls that create nodes
    and back-fill spans. */
module Grammar {
  import opened Syntax

  // ---------------------------------------------------------------------
  // Derivations
  // ---------------------------------------------------------------------

  datatype MulOp = Times | Over
  datatype AddOp = Plus | Minus

  /** An atom: a decimal integer token, a parenthesised expression, a call
      (identifier then a comma-separated argument list in parentheses) or a
      bare identifier. */
  datatype Atom =
    | IntLit(digits: Decimal, span: Span)
    | Paren(inner: Sum)
    | CallAtom(callee: Ident, args: seq<Sum>, trailingComma: bool, span: Span)
    | VarAtom(id: Ident)

  /** Zero or more `-` signs before an atom. */
  datatype Unary = Unary(signs: nat, atom: Atom, span: Span)

  datatype MulStep = MulStep(op: MulOp, rhs: Unary)
  /** A unary operand followed by `(* | /) unary` steps. */
  datatype Product = Product(first: Unary, steps: seq<MulStep>, span: Span)

  datatype AddStep = AddStep(op: AddOp, rhs: Product)
  /** A product followed by `(+ | -) product` steps. */
  datatype Sum = Sum(first: Product, steps: seq<AddStep>, span: Span)

  /** The declaration level: `let x = e; decl`, `fn f x y = e; decl`, or a
      final expression. Only this level can produce `Let` and `Fn`. */
  datatype Decl =
    | LetDecl(name: Ident, rhs: Sum, next: Decl, span: Span)
    | FnDecl(name: Ident, params: seq<Ident>, body: Sum, next: Decl, span: Span)
    | ExprDecl(e: Sum)

  // ---------------------------------------------------------------------
  // Decimal integer tokens (`text::int(10)`)
  // ---------------------------------------------------------------------

  predicate IsDigit(c: char) { '0' <= c <= '9' }

  /** A non-empty run of ASCII digits with no leading zero unless it is the
      single digit `0`. */
  predicate IsDecimal(s: string)
  {
    && |s| > 0
    && (forall i :: 0 <= i < |s| ==> IsDigit(s[i]))
    && (|s| == 1 || s[0] != '0')
  }

  /** The tokens `text::int(10)` accepts. */
  type Decimal = s: string | IsDecimal(s) witness "0"

  function DigitValue(c: char): nat
    requires IsDigit(c)
  {
    (c as int - '0' as int) as nat
  }

  /** The number a run of digits denotes, most significant digit first. */
  function DecimalValue(s: string): nat
    requires forall i :: 0 <= i < |s| ==> IsDigit(s[i])
  {
    if s == [] then 0
    else 10 * DecimalValue(s[..|s| - 1]) + DigitValue(s[|s| - 1])
  }

  function DigitChar(d: nat): (c: char)
    requires d < 10
    ensures IsDigit(c) && DigitValue(c) == d
  {
    ('0' as int + d) as char
  }

  /** The canonical decimal spelling of a number. */
  function ToDecimal(n: nat): (s: string)
    ensures forall i :: 0 <= i < |s| ==> IsDigit(s[i])
    ensures |s| > 0
    ensures n >= 10 ==> |s| > 1
  {
    if n < 10 then [DigitChar(n)] else ToDecimal(n / 10) + [DigitChar(n % 10)]
  }

  // ---------------------------------------------------------------------
  // Semantic actions
  // ---------------------------------------------------------------------

  /** `op('-').repeated().foldr(atom, ..)`: k signs nest k `Neg` nodes, each
      created without a span. */
  function NegFold(k: nat, x: Expr): Expr
  {
    if k == 0 then x else Neg(NegFold(k - 1, x), None)
  }

  function MulNode(op: MulOp, l: Expr, r: Expr): Expr
  {
    match op
    case Times => Mul(l, r, None)
    case Over => Div(l, r, None)
  }

  function AddNode(op: AddOp, l: Expr, r: Expr): Expr
  {
    match op
    case Plus => Add(l, r, None)
    case Minus => Sub(l, r, None)
  }

  function BuildAtom(a: Atom): Expr
    decreases a, 0
  {
    match a
    case IntLit(d, s) => Num(DecimalValue(d), Some(s))
    case Paren(inner) => BuildSum(inner)
    case CallAtom(f, args, _, s) => Call(f, BuildArgs(args), Some(s))
    case VarAtom(id) => Var(id.name, Some(id.span))
  }

  /** The arguments of a call, in order. */
  function BuildArgs(args: seq<Sum>): (r: seq<Expr>)
    decreases args, 0
    ensures |r| == |args|
    ensures forall i :: 0 <= i < |args| ==> r[i] == BuildSum(args[i])
  {
    if args == [] then [] else [BuildSum(args[0])] + BuildArgs(args[1..])
  }

  /** The signs fold onto the atom, then the whole gets the unary's span. */
  function BuildUnary(u: Unary): Expr
    decreases u, 1
  {
    SetSpan(NegFold(u.signs, BuildAtom(u.atom)), u.span)
  }

  /** `foldl` over the product steps: each step makes a new node whose
      left child is everything folded so far. */
  function FoldProduct(acc: Expr, steps: seq<MulStep>): Expr
    decreases steps, 0
  {
    if steps == [] then acc
    else FoldProduct(MulNode(steps[0].op, acc, MulOperand(steps[0])), steps[1..])
  }

  function MulOperand(st: MulStep): Expr
    decreases st, 2
  {
    BuildUnary(st.rhs)
  }

  function BuildProduct(p: Product): Expr
    decreases p, 1
  {
    SetSpan(FoldProduct(BuildUnary(p.first), p.steps), p.span)
  }

  function FoldSum(acc: Expr, steps: seq<AddStep>): Expr
    decreases steps, 0
  {
    if steps == [] then acc
    else FoldSum(AddNode(steps[0].op, acc, AddOperand(steps[0])), steps[1..])
  }

  function AddOperand(st: AddStep): Expr
    decreases st, 2
  {
    BuildProduct(st.rhs)
  }

  function BuildSum(s: Sum): Expr
    decreases s, 1
  {
    SetSpan(FoldSum(BuildProduct(s.first), s.steps), s.span)
  }

  function BuildDecl(d: Decl): Expr
  {
    match d
    case LetDecl(x, rhs, next, s) => Let(x, BuildSum(rhs), BuildDecl(next), Some(s))
    case FnDecl(f, ps, body, next, s) => Fn(f, ps, BuildSum(body), BuildDecl(next), Some(s))
    case ExprDecl(e) => BuildSum(e)
  }
}
