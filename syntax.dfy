/** The abstract syntax tree of Foo programs, as the parser builds it and the
    code generator consumes it (src/parse.rs). */
module Syntax {

  datatype Option<+T> = None | Some(value: T)

  /** A half-open range [start, end) of offsets into the source text. */
  datatype Span = Span(start: nat, end: nat)

  /** An identifier with the span it was parsed from. */
  datatype Ident = Ident(name: string, span: Span)

  /** The closed union of node kinds. Every variant carries an optional span,
      so `e.span` is defined for every node. `Let` and `Fn` continue the
      program with `rest`. Literals are the non-negative integers that a
      decimal integer token denotes. */
  datatype Expr =
    | Num(value: nat, span: Option<Span>)
    | Var(name: string, span: Option<Span>)
    | Neg(operand: Expr, span: Option<Span>)
    | Add(left: Expr, right: Expr, span: Option<Span>)
    | Sub(left: Expr, right: Expr, span: Option<Span>)
    | Mul(left: Expr, right: Expr, span: Option<Span>)
    | Div(left: Expr, right: Expr, span: Option<Span>)
    | Call(callee: Ident, args: seq<Expr>, span: Option<Span>)
    | Let(binder: Ident, rhs: Expr, rest: Expr, span: Option<Span>)
    | Fn(binder: Ident, params: seq<Ident>, body: Expr, rest: Expr, span: Option<Span>)

  /** `Expr::set_span`: fill in the span of a node of any kind. Putting the
      old span back gives the original node: nothing else changed. */
  function SetSpan(e: Expr, s: Span): (r: Expr)
    ensures r.span == Some(s)
    ensures r.(span := e.span) == e
  {
    e.(span := Some(s))
  }

  /** Variant by variant: the same constructor with the same fields and
      children, and the new span. */
  lemma SetSpanFields(e: Expr, s: Span)
    ensures match e
      case Num(v, _) => SetSpan(e, s) == Num(v, Some(s))
      case Var(x, _) => SetSpan(e, s) == Var(x, Some(s))
      case Neg(a, _) => SetSpan(e, s) == Neg(a, Some(s))
      case Add(a, b, _) => SetSpan(e, s) == Add(a, b, Some(s))
      case Sub(a, b, _) => SetSpan(e, s) == Sub(a, b, Some(s))
      case Mul(a, b, _) => SetSpan(e, s) == Mul(a, b, Some(s))
      case Div(a, b, _) => SetSpan(e, s) == Div(a, b, Some(s))
      case Call(f, args, _) => SetSpan(e, s) == Call(f, args, Some(s))
      case Let(x, rhs, rest, _) => SetSpan(e, s) == Let(x, rhs, rest, Some(s))
      case Fn(f, ps, body, rest, _) => SetSpan(e, s) == Fn(f, ps, body, rest, Some(s))
  {
  }

  /** Setting the span twice keeps only the second one. */
  lemma SetSpanLastWriteWins(e: Expr, s1: Span, s2: Span)
    ensures SetSpan(SetSpan(e, s1), s2) == SetSpan(e, s2)
  {
  }

  /** A tree with no `Let` or `Fn` node anywhere: the shape of everything the
      expression grammar produces. */
  predicate DeclFree(e: Expr)
  {
    match e
    case Num(_, _) => true
    case Var(_, _) => true
    case Neg(a, _) => DeclFree(a)
    case Add(a, b, _) => DeclFree(a) && DeclFree(b)
    case Sub(a, b, _) => DeclFree(a) && DeclFree(b)
    case Mul(a, b, _) => DeclFree(a) && DeclFree(b)
    case Div(a, b, _) => DeclFree(a) && DeclFree(b)
    case Call(_, args, _) => forall i :: 0 <= i < |args| ==> DeclFree(args[i])
    case Let(_, _, _, _) => false
    case Fn(_, _, _, _, _) => false
  }

  /** A program: a chain of `Let` and `Fn` declarations whose right-hand
      sides and bodies are declaration-free, ended by one declaration-free
      result expression. */
  predicate IsProgram(e: Expr)
  {
    match e
    case Let(_, rhs, rest, _) => DeclFree(rhs) && IsProgram(rest)
    case Fn(_, _, body, rest, _) => DeclFree(body) && IsProgram(rest)
    case _ => DeclFree(e)
  }

  const NoSpan := Span(0, 0)

  /** The tree with every span cleared: structural equality ignoring spans. */
  function Erase(e: Expr): Expr
  {
    match e
    case Num(v, _) => Num(v, None)
    case Var(x, _) => Var(x, None)
    case Neg(a, _) => Neg(Erase(a), None)
    case Add(a, b, _) => Add(Erase(a), Erase(b), None)
    case Sub(a, b, _) => Sub(Erase(a), Erase(b), None)
    case Mul(a, b, _) => Mul(Erase(a), Erase(b), None)
    case Div(a, b, _) => Div(Erase(a), Erase(b), None)
    case Call(f, args, _) => Call(Ident(f.name, NoSpan), EraseAll(args), None)
    case Let(x, rhs, rest, _) => Let(Ident(x.name, NoSpan), Erase(rhs), Erase(rest), None)
    case Fn(f, ps, body, rest, _) => Fn(Ident(f.name, NoSpan), EraseIdents(ps), Erase(body), Erase(rest), None)
  }

  function EraseAll(es: seq<Expr>): (r: seq<Expr>)
    ensures |r| == |es|
    ensures forall i :: 0 <= i < |es| ==> r[i] == Erase(es[i])
  {
    if es == [] then [] else [Erase(es[0])] + EraseAll(es[1..])
  }

  function EraseIdents(ps: seq<Ident>): (r: seq<Ident>)
    ensures |r| == |ps|
    ensures forall i :: 0 <= i < |ps| ==> r[i] == Ident(ps[i].name, NoSpan)
  {
    if ps == [] then [] else [Ident(ps[0].name, NoSpan)] + EraseIdents(ps[1..])
  }

  /** Spans are informational only: setting one changes nothing else. */
  lemma EraseSetSpan(e: Expr, s: Span)
    ensures Erase(SetSpan(e, s)) == Erase(e)
  {
  }
}
