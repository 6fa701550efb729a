/** What the tree-shaping rules of the grammar guarantee about the trees the
    parser builds (src/parse.rs). */
module GrammarProperties {
  import opened Syntax
  import opened Grammar

  // ---------------------------------------------------------------------
  // Integer tokens
  // ---------------------------------------------------------------------

  lemma {:induction false} DecimalOfSpelling(n: nat)
    ensures IsDecimal(ToDecimal(n))
    ensures DecimalValue(ToDecimal(n)) == n
  {
    ToDecimalLeadingDigit(n);
    if n >= 10 {
      var s := ToDecimal(n);
      DecimalOfSpelling(n / 10);
      assert s[..|s| - 1] == ToDecimal(n / 10);
    }
  }

  lemma {:induction false} ToDecimalLeadingDigit(n: nat)
    ensures (ToDecimal(n)[0] == '0') == (n == 0)
  {
    if n >= 10 {
      ToDecimalLeadingDigit(n / 10);
    }
  }

  /** A token without a leading zero and of two digits or more denotes at
      least ten. */
  lemma {:induction false} DecimalLowerBound(s: string)
    requires |s| > 0 && (forall i :: 0 <= i < |s| ==> IsDigit(s[i])) && s[0] != '0'
    ensures DecimalValue(s) >= 1
    ensures |s| > 1 ==> DecimalValue(s) >= 10
  {
    if |s| > 1 {
      DecimalLowerBound(s[..|s| - 1]);
    }
  }

  /** Every accepted token is the canonical spelling of its value: distinct
      tokens denote distinct numbers. */
  lemma {:induction false} SpellingOfDecimal(s: Decimal)
    ensures ToDecimal(DecimalValue(s)) == s
  {
    if |s| > 1 {
      var init := s[..|s| - 1];
      DecimalLowerBound(s);
      assert init[0] == s[0];
      SpellingOfDecimal(init);
      var n := DecimalValue(s);
      assert n / 10 == DecimalValue(init);
      assert n % 10 == DigitValue(s[|s| - 1]);
      assert DigitChar(n % 10) == s[|s| - 1];
      assert s == init + [s[|s| - 1]];
    } else {
      assert s[..0] == [];
      assert DecimalValue(s) == DigitValue(s[0]);
      assert s == [DigitChar(DecimalValue(s))];
    }
  }

  // ---------------------------------------------------------------------
  // Unary minus
  // ---------------------------------------------------------------------

  /** The spans of the k outermost nodes of `e` and what lies beneath them,
      provided those k nodes are all `Neg`. */
  function NegLayers(e: Expr, k: nat): Option<(seq<Option<Span>>, Expr)>
  {
    if k == 0 then Some(([], e))
    else if !e.Neg? then None
    else match NegLayers(e.operand, k - 1)
      case None => None
      case Some(inner) => Some(([e.span] + inner.0, inner.1))
  }

  predicate AllNone(spans: seq<Option<Span>>)
  {
    forall i :: 0 <= i < |spans| ==> spans[i] == None
  }

  /** k nested `Neg` nodes, every one of them without a span. */
  lemma {:induction false} NegFoldLayers(k: nat, x: Expr)
    ensures var r := NegLayers(NegFold(k, x), k);
      r.Some? && |r.value.0| == k && AllNone(r.value.0) && r.value.1 == x
  {
    if k > 0 {
      NegFoldLayers(k - 1, x);
    }
  }

  /** k leading signs give exactly k nested `Neg` nodes around the atom; the
      outermost carries the unary's span and the inner ones none. With no
      sign the atom itself gets the unary's span. */
  lemma UnarySigns(u: Unary)
    ensures u.signs == 0 ==> BuildUnary(u) == SetSpan(BuildAtom(u.atom), u.span)
    ensures u.signs > 0 ==>
      var r := NegLayers(BuildUnary(u), u.signs);
      && r.Some? && |r.value.0| == u.signs && r.value.1 == BuildAtom(u.atom)
      && r.value.0[0] == Some(u.span) && AllNone(r.value.0[1..])
  {
    if u.signs > 0 {
      NegFoldLayers(u.signs - 1, BuildAtom(u.atom));
    }
  }

  // ---------------------------------------------------------------------
  // Products and sums
  // ---------------------------------------------------------------------

  /** The last step of a product chain makes the topmost node, whose left
      child is the fold of everything before it. */
  lemma {:induction false} FoldProductLeftAssociative(acc: Expr, steps: seq<MulStep>, st: MulStep)
    decreases steps
    ensures FoldProduct(acc, steps + [st]) == MulNode(st.op, FoldProduct(acc, steps), BuildUnary(st.rhs))
  {
    if steps != [] {
      assert (steps + [st])[1..] == steps[1..] + [st];
      FoldProductLeftAssociative(MulNode(steps[0].op, acc, MulOperand(steps[0])), steps[1..], st);
    }
  }

  lemma {:induction false} FoldSumLeftAssociative(acc: Expr, steps: seq<AddStep>, st: AddStep)
    decreases steps
    ensures FoldSum(acc, steps + [st]) == AddNode(st.op, FoldSum(acc, steps), BuildProduct(st.rhs))
  {
    if steps != [] {
      assert (steps + [st])[1..] == steps[1..] + [st];
      FoldSumLeftAssociative(AddNode(steps[0].op, acc, AddOperand(steps[0])), steps[1..], st);
    }
  }

  /** A product with steps is a node for its last operator, spanned with the
      product's span, over the span-less fold of the shorter chain. */
  lemma ProductShape(p: Product)
    requires |p.steps| > 0
    ensures var n := |p.steps|;
      BuildProduct(p) ==
        SetSpan(MulNode(p.steps[n - 1].op, FoldProduct(BuildUnary(p.first), p.steps[..n - 1]), BuildUnary(p.steps[n - 1].rhs)), p.span)
  {
    var n := |p.steps|;
    assert p.steps == p.steps[..n - 1] + [p.steps[n - 1]];
    FoldProductLeftAssociative(BuildUnary(p.first), p.steps[..n - 1], p.steps[n - 1]);
  }

  lemma SumShape(s: Sum)
    requires |s.steps| > 0
    ensures var n := |s.steps|;
      BuildSum(s) ==
        SetSpan(AddNode(s.steps[n - 1].op, FoldSum(BuildProduct(s.first), s.steps[..n - 1]), BuildProduct(s.steps[n - 1].rhs)), s.span)
  {
    var n := |s.steps|;
    assert s.steps == s.steps[..n - 1] + [s.steps[n - 1]];
    FoldSumLeftAssociative(BuildProduct(s.first), s.steps[..n - 1], s.steps[n - 1]);
  }

  /** `a * b / c` is `Div(Mul(a, b), c)`: the inner node has no span. */
  lemma MulDivChain(a: Unary, b: Unary, c: Unary, sp: Span)
    ensures BuildProduct(Product(a, [MulStep(Times, b), MulStep(Over, c)], sp)) ==
      Div(Mul(BuildUnary(a), BuildUnary(b), None), BuildUnary(c), Some(sp))
  {
    var steps := [MulStep(Times, b), MulStep(Over, c)];
    var ab := Mul(BuildUnary(a), BuildUnary(b), None);
    assert FoldProduct(BuildUnary(a), steps) == FoldProduct(ab, steps[1..]);
    assert steps[1..][1..] == [];
    assert FoldProduct(ab, steps[1..]) == Div(ab, BuildUnary(c), None);
  }

  /** `a + b - c` is `Sub(Add(a, b), c)`. */
  lemma AddSubChain(a: Product, b: Product, c: Product, sp: Span)
    ensures BuildSum(Sum(a, [AddStep(Plus, b), AddStep(Minus, c)], sp)) ==
      Sub(Add(BuildProduct(a), BuildProduct(b), None), BuildProduct(c), Some(sp))
  {
    FoldSumLeftAssociative(BuildProduct(a), [AddStep(Plus, b)], AddStep(Minus, c));
    assert [AddStep(Plus, b)] + [AddStep(Minus, c)] == [AddStep(Plus, b), AddStep(Minus, c)];
    assert FoldSum(BuildProduct(a), [AddStep(Plus, b)]) == Add(BuildProduct(a), BuildProduct(b), None);
  }

  function Lit(n: Decimal, sp: Span): Unary
  {
    Unary(0, IntLit(n, sp), sp)
  }

  lemma LitBuilds(d: Decimal, sp: Span)
    ensures BuildUnary(Lit(d, sp)) == Num(DecimalValue(d), Some(sp))
  {
  }

  lemma SmallLiterals()
    ensures DecimalValue("2") == 2 && DecimalValue("3") == 3 && DecimalValue("4") == 4
  {
    assert "2"[..0] == [] && "3"[..0] == [] && "4"[..0] == [];
  }

  lemma SingleProduct(u: Unary, sp: Span)
    ensures BuildProduct(Product(u, [], sp)) == SetSpan(BuildUnary(u), sp)
  {
  }

  lemma SingleSum(p: Product, sp: Span)
    ensures BuildSum(Sum(p, [], sp)) == SetSpan(BuildProduct(p), sp)
  {
  }

  lemma OneMulStep(u: Unary, st: MulStep, sp: Span)
    ensures BuildProduct(Product(u, [st], sp)) == SetSpan(MulNode(st.op, BuildUnary(u), BuildUnary(st.rhs)), sp)
  {
    assert [st][1..] == [];
    var m := MulNode(st.op, BuildUnary(u), MulOperand(st));
    assert FoldProduct(BuildUnary(u), [st]) == FoldProduct(m, []);
  }

  lemma OneAddStep(p: Product, st: AddStep, sp: Span)
    ensures BuildSum(Sum(p, [st], sp)) == SetSpan(AddNode(st.op, BuildProduct(p), BuildProduct(st.rhs)), sp)
  {
    assert [st][1..] == [];
    var m := AddNode(st.op, BuildProduct(p), AddOperand(st));
    assert FoldSum(BuildProduct(p), [st]) == FoldSum(m, []);
  }

  /** `a + b * c`: the operands of `+` are products, so the product binds
      tighter. The spans are whatever the sub-parsers report. */
  lemma TimesBindsTighter(a: Unary, b: Unary, c: Unary, pa: Span, pbc: Span, sp: Span)
    ensures BuildSum(Sum(Product(a, [], pa), [AddStep(Plus, Product(b, [MulStep(Times, c)], pbc))], sp)) ==
      Add(SetSpan(BuildUnary(a), pa), Mul(BuildUnary(b), BuildUnary(c), Some(pbc)), Some(sp))
  {
    SingleProduct(a, pa);
    OneMulStep(b, MulStep(Times, c), pbc);
    OneAddStep(Product(a, [], pa), AddStep(Plus, Product(b, [MulStep(Times, c)], pbc)), sp);
  }

  /** `2 + 3 * 4` is `Add(2, Mul(3, 4))`. */
  lemma TwoPlusThreeTimesFour(s2: Span, s3: Span, s4: Span, p2: Span, p34: Span, sp: Span)
    ensures BuildSum(Sum(Product(Lit("2", s2), [], p2),
                         [AddStep(Plus, Product(Lit("3", s3), [MulStep(Times, Lit("4", s4))], p34))], sp)) ==
      Add(Num(2, Some(p2)), Mul(Num(3, Some(s3)), Num(4, Some(s4)), Some(p34)), Some(sp))
  {
    SmallLiterals();
    LitBuilds("2", s2); LitBuilds("3", s3); LitBuilds("4", s4);
    TimesBindsTighter(Lit("2", s2), Lit("3", s3), Lit("4", s4), p2, p34, sp);
  }

  /** `(a + b) * c`: parentheses make no node of their own; the sum inside
      becomes the left operand and takes the unary's span. */
  lemma ParenthesesGroup(a: Product, b: Product, c: Unary, s: Span, u: Span, p: Span, sp: Span)
    ensures BuildSum(Sum(Product(Unary(0, Paren(Sum(a, [AddStep(Plus, b)], s)), u),
                                 [MulStep(Times, c)], p), [], sp)) ==
      Mul(Add(BuildProduct(a), BuildProduct(b), Some(u)), BuildUnary(c), Some(sp))
  {
    var inner := Sum(a, [AddStep(Plus, b)], s);
    OneAddStep(a, AddStep(Plus, b), s);
    assert BuildUnary(Unary(0, Paren(inner), u)) == Add(BuildProduct(a), BuildProduct(b), Some(u));
    var prod := Product(Unary(0, Paren(inner), u), [MulStep(Times, c)], p);
    OneMulStep(Unary(0, Paren(inner), u), MulStep(Times, c), p);
    SingleSum(prod, sp);
  }

  /** `(2 + 3) * 4` is `Mul(Add(2, 3), 4)`. */
  lemma TwoPlusThreeInParentheses(s2: Span, s3: Span, s4: Span, p2: Span, p3: Span, s23: Span, u: Span, p: Span, sp: Span)
    ensures BuildSum(Sum(Product(Unary(0, Paren(Sum(Product(Lit("2", s2), [], p2),
                                                    [AddStep(Plus, Product(Lit("3", s3), [], p3))], s23)), u),
                                 [MulStep(Times, Lit("4", s4))], p), [], sp)) ==
      Mul(Add(Num(2, Some(p2)), Num(3, Some(p3)), Some(u)), Num(4, Some(s4)), Some(sp))
  {
    SmallLiterals();
    LitBuilds("2", s2); LitBuilds("3", s3); LitBuilds("4", s4);
    SingleProduct(Lit("2", s2), p2);
    SingleProduct(Lit("3", s3), p3);
    ParenthesesGroup(Product(Lit("2", s2), [], p2), Product(Lit("3", s3), [], p3), Lit("4", s4), s23, u, p, sp);
  }

  /** A call is one `Call` node over its arguments, in order; a trailing
      comma makes no difference. */
  lemma CallArguments(f: Ident, args: seq<Sum>, trailing: bool, sp: Span)
    ensures BuildAtom(CallAtom(f, args, trailing, sp)) == BuildAtom(CallAtom(f, args, !trailing, sp))
    ensures var e := BuildAtom(CallAtom(f, args, trailing, sp));
      && e.Call? && e.callee == f && e.span == Some(sp) && |e.args| == |args|
      && forall i :: 0 <= i < |args| ==> e.args[i] == BuildSum(args[i])
  {
  }

  // ---------------------------------------------------------------------
  // Only the declaration level makes `Let` and `Fn`
  // ---------------------------------------------------------------------

  lemma {:induction false} AtomDeclFree(a: Atom)
    decreases a, 0
    ensures DeclFree(BuildAtom(a))
  {
    match a
    case IntLit(_, _) =>
    case Paren(inner) => SumDeclFree(inner);
    case CallAtom(f, args, _, s) => ArgsDeclFree(args);
    case VarAtom(_) =>
  }

  lemma {:induction false} ArgsDeclFree(args: seq<Sum>)
    decreases args, 0
    ensures forall i :: 0 <= i < |args| ==> DeclFree(BuildSum(args[i]))
  {
    if args != [] {
      SumDeclFree(args[0]);
      ArgsDeclFree(args[1..]);
      assert forall i :: 1 <= i < |args| ==> args[i] == args[1..][i - 1];
    }
  }

  lemma {:induction false} NegFoldDeclFree(k: nat, x: Expr)
    requires DeclFree(x)
    ensures DeclFree(NegFold(k, x))
  {
    if k > 0 {
      NegFoldDeclFree(k - 1, x);
    }
  }

  lemma {:induction false} UnaryDeclFree(u: Unary)
    decreases u, 1
    ensures DeclFree(BuildUnary(u))
  {
    AtomDeclFree(u.atom);
    NegFoldDeclFree(u.signs, BuildAtom(u.atom));
  }

  lemma {:induction false} FoldProductDeclFree(acc: Expr, steps: seq<MulStep>)
    requires DeclFree(acc)
    decreases steps, 0
    ensures DeclFree(FoldProduct(acc, steps))
  {
    if steps != [] {
      MulOperandDeclFree(steps[0]);
      var next := MulNode(steps[0].op, acc, MulOperand(steps[0]));
      assert DeclFree(next);
      FoldProductDeclFree(next, steps[1..]);
    }
  }

  lemma {:induction false} MulOperandDeclFree(st: MulStep)
    decreases st, 2
    ensures DeclFree(MulOperand(st))
  {
    UnaryDeclFree(st.rhs);
  }

  lemma {:induction false} AddOperandDeclFree(st: AddStep)
    decreases st, 2
    ensures DeclFree(AddOperand(st))
  {
    ProductDeclFree(st.rhs);
  }

  lemma {:induction false} ProductDeclFree(p: Product)
    decreases p, 1
    ensures DeclFree(BuildProduct(p))
  {
    UnaryDeclFree(p.first);
    FoldProductDeclFree(BuildUnary(p.first), p.steps);
  }

  lemma {:induction false} FoldSumDeclFree(acc: Expr, steps: seq<AddStep>)
    requires DeclFree(acc)
    decreases steps, 0
    ensures DeclFree(FoldSum(acc, steps))
  {
    if steps != [] {
      AddOperandDeclFree(steps[0]);
      var next := AddNode(steps[0].op, acc, AddOperand(steps[0]));
      assert DeclFree(next);
      FoldSumDeclFree(next, steps[1..]);
    }
  }

  /** Every tree the expression level builds (a right-hand side, a body, a
      call argument, an operand) is free of `Let` and `Fn`. */
  lemma {:induction false} SumDeclFree(s: Sum)
    decreases s, 1
    ensures DeclFree(BuildSum(s))
  {
    ProductDeclFree(s.first);
    FoldSumDeclFree(BuildProduct(s.first), s.steps);
  }

  /** Every tree the declaration level builds is a program: `Let` and `Fn`
      occur only along the chain. */
  lemma {:induction false} DeclIsProgram(d: Decl)
    ensures IsProgram(BuildDecl(d))
  {
    match d
    case LetDecl(_, rhs, next, _) => SumDeclFree(rhs); DeclIsProgram(next);
    case FnDecl(_, _, body, next, _) => SumDeclFree(body); DeclIsProgram(next);
    case ExprDecl(e) => SumDeclFree(e);
  }

  // ---------------------------------------------------------------------
  // ... and every such tree has a derivation
  // ---------------------------------------------------------------------

  function AsSum(u: Unary): Sum
  {
    Sum(Product(u, [], NoSpan), [], NoSpan)
  }

  function Grouped(s: Sum): Unary
  {
    Unary(0, Paren(s), NoSpan)
  }

  /** A derivation for a declaration-free tree, parenthesising every
      operand. */
  function Reparse(e: Expr): Sum
    requires DeclFree(e)
    decreases e, 1
  {
    match e
    case Num(n, _) =>
      DecimalOfSpelling(n);
      AsSum(Unary(0, IntLit(ToDecimal(n), NoSpan), NoSpan))
    case Var(x, _) => AsSum(Unary(0, VarAtom(Ident(x, NoSpan)), NoSpan))
    case Neg(a, _) => AsSum(Unary(1, Paren(Reparse(a)), NoSpan))
    case Add(a, b, _) =>
      Sum(Product(Grouped(Reparse(a)), [], NoSpan), [AddStep(Plus, Product(Grouped(Reparse(b)), [], NoSpan))], NoSpan)
    case Sub(a, b, _) =>
      Sum(Product(Grouped(Reparse(a)), [], NoSpan), [AddStep(Minus, Product(Grouped(Reparse(b)), [], NoSpan))], NoSpan)
    case Mul(a, b, _) => Sum(Product(Grouped(Reparse(a)), [MulStep(Times, Grouped(Reparse(b)))], NoSpan), [], NoSpan)
    case Div(a, b, _) => Sum(Product(Grouped(Reparse(a)), [MulStep(Over, Grouped(Reparse(b)))], NoSpan), [], NoSpan)
    case Call(f, args, _) => AsSum(Unary(0, CallAtom(f, ReparseArgs(args), false, NoSpan), NoSpan))
  }

  function ReparseArgs(args: seq<Expr>): (r: seq<Sum>)
    requires forall i :: 0 <= i < |args| ==> DeclFree(args[i])
    decreases args, 0
    ensures |r| == |args|
  {
    if args == [] then [] else [Reparse(args[0])] + ReparseArgs(args[1..])
  }

  lemma GroupedErase(s: Sum)
    ensures Erase(BuildProduct(Product(Grouped(s), [], NoSpan))) == Erase(BuildSum(s))
    ensures Erase(BuildUnary(Grouped(s))) == Erase(BuildSum(s))
  {
    assert BuildUnary(Grouped(s)) == SetSpan(BuildSum(s), NoSpan);
    assert BuildProduct(Product(Grouped(s), [], NoSpan)) == SetSpan(SetSpan(BuildSum(s), NoSpan), NoSpan);
    EraseSetSpan(BuildSum(s), NoSpan);
    EraseSetSpan(SetSpan(BuildSum(s), NoSpan), NoSpan);
  }

  lemma GroupedMulErase(op: MulOp, a: Sum, b: Sum)
    ensures Erase(BuildSum(Sum(Product(Grouped(a), [MulStep(op, Grouped(b))], NoSpan), [], NoSpan))) ==
      Erase(MulNode(op, BuildSum(a), BuildSum(b)))
  {
    var p := Product(Grouped(a), [MulStep(op, Grouped(b))], NoSpan);
    SingleSum(p, NoSpan);
    OneMulStep(Grouped(a), MulStep(op, Grouped(b)), NoSpan);
    var m := MulNode(op, BuildUnary(Grouped(a)), BuildUnary(Grouped(b)));
    EraseSetSpan(m, NoSpan);
    EraseSetSpan(SetSpan(m, NoSpan), NoSpan);
    GroupedErase(a); GroupedErase(b);
  }

  lemma GroupedAddErase(op: AddOp, a: Sum, b: Sum)
    ensures Erase(BuildSum(Sum(Product(Grouped(a), [], NoSpan), [AddStep(op, Product(Grouped(b), [], NoSpan))], NoSpan))) ==
      Erase(AddNode(op, BuildSum(a), BuildSum(b)))
  {
    var pa := Product(Grouped(a), [], NoSpan);
    var pb := Product(Grouped(b), [], NoSpan);
    OneAddStep(pa, AddStep(op, pb), NoSpan);
    EraseSetSpan(AddNode(op, BuildProduct(pa), BuildProduct(pb)), NoSpan);
    GroupedErase(a); GroupedErase(b);
  }

  lemma AsSumErase(u: Unary)
    ensures Erase(BuildSum(AsSum(u))) == Erase(BuildUnary(u))
  {
    assert BuildProduct(Product(u, [], NoSpan)) == SetSpan(BuildUnary(u), NoSpan);
    assert BuildSum(AsSum(u)) == SetSpan(SetSpan(BuildUnary(u), NoSpan), NoSpan);
    EraseSetSpan(BuildUnary(u), NoSpan);
    EraseSetSpan(SetSpan(BuildUnary(u), NoSpan), NoSpan);
  }

  lemma ReparseNumBuilds(n: nat, s: Option<Span>)
    ensures Erase(BuildSum(Reparse(Num(n, s)))) == Erase(Num(n, s))
  {
    DecimalOfSpelling(n);
    AsSumErase(Unary(0, IntLit(ToDecimal(n), NoSpan), NoSpan));
  }

  lemma ReparseNegBuilds(a: Expr, s: Option<Span>)
    requires DeclFree(a) && Erase(BuildSum(Reparse(a))) == Erase(a)
    ensures Erase(BuildSum(Reparse(Neg(a, s)))) == Erase(Neg(a, s))
  {
    AsSumErase(Unary(1, Paren(Reparse(a)), NoSpan));
    assert NegFold(1, BuildSum(Reparse(a))) == Neg(BuildSum(Reparse(a)), None);
  }

  lemma ReparseAddBuilds(e: Expr)
    requires (e.Add? || e.Sub?) && DeclFree(e)
    requires Erase(BuildSum(Reparse(e.left))) == Erase(e.left)
    requires Erase(BuildSum(Reparse(e.right))) == Erase(e.right)
    ensures Erase(BuildSum(Reparse(e))) == Erase(e)
  {
    GroupedAddErase(if e.Add? then Plus else Minus, Reparse(e.left), Reparse(e.right));
  }

  lemma ReparseMulBuilds(e: Expr)
    requires (e.Mul? || e.Div?) && DeclFree(e)
    requires Erase(BuildSum(Reparse(e.left))) == Erase(e.left)
    requires Erase(BuildSum(Reparse(e.right))) == Erase(e.right)
    ensures Erase(BuildSum(Reparse(e))) == Erase(e)
  {
    GroupedMulErase(if e.Mul? then Times else Over, Reparse(e.left), Reparse(e.right));
  }

  lemma ReparseCallBuilds(e: Expr)
    requires e.Call? && DeclFree(e)
    requires EraseAll(BuildArgs(ReparseArgs(e.args))) == EraseAll(e.args)
    ensures Erase(BuildSum(Reparse(e))) == Erase(e)
  {
    AsSumErase(Unary(0, CallAtom(e.callee, ReparseArgs(e.args), false, NoSpan), NoSpan));
  }

  /** Up to spans, the expression level builds exactly the
      declaration-free trees: with `SumDeclFree` this characterises its
      output. */
  lemma {:induction false} ReparseBuilds(e: Expr)
    requires DeclFree(e)
    decreases e, 1
    ensures Erase(BuildSum(Reparse(e))) == Erase(e)
  {
    match e
    case Num(n, s) => ReparseNumBuilds(n, s);
    case Var(x, _) => AsSumErase(Unary(0, VarAtom(Ident(x, NoSpan)), NoSpan));
    case Neg(a, s) => ReparseBuilds(a); ReparseNegBuilds(a, s);
    case Add(a, b, _) => ReparseBuilds(a); ReparseBuilds(b); ReparseAddBuilds(e);
    case Sub(a, b, _) => ReparseBuilds(a); ReparseBuilds(b); ReparseAddBuilds(e);
    case Mul(a, b, _) => ReparseBuilds(a); ReparseBuilds(b); ReparseMulBuilds(e);
    case Div(a, b, _) => ReparseBuilds(a); ReparseBuilds(b); ReparseMulBuilds(e);
    case Call(f, args, _) => ReparseArgsBuild(args); ReparseCallBuilds(e);
  }

  lemma {:induction false} ReparseArgsBuild(args: seq<Expr>)
    requires forall i :: 0 <= i < |args| ==> DeclFree(args[i])
    decreases args, 0
    ensures EraseAll(BuildArgs(ReparseArgs(args))) == EraseAll(args)
  {
    if args != [] {
      ReparseBuilds(args[0]);
      ReparseArgsBuild(args[1..]);
    }
  }

  /** A derivation for a program. */
  function ReparseProgram(e: Expr): Decl
    requires IsProgram(e)
  {
    if e.Let? then LetDecl(e.binder, Reparse(e.rhs), ReparseProgram(e.rest), NoSpan)
    else if e.Fn? then FnDecl(e.binder, e.params, Reparse(e.body), ReparseProgram(e.rest), NoSpan)
    else ExprDecl(Reparse(e))
  }

  /** Up to spans, the declaration level builds exactly the programs; in
      particular a function may declare any number of parameters. */
  lemma {:induction false} ReparseProgramBuilds(e: Expr)
    requires IsProgram(e)
    ensures Erase(BuildDecl(ReparseProgram(e))) == Erase(e)
  {
    if e.Let? {
      ReparseBuilds(e.rhs);
      ReparseProgramBuilds(e.rest);
      ReparseLetBuilds(e);
    } else if e.Fn? {
      ReparseBuilds(e.body);
      ReparseProgramBuilds(e.rest);
      ReparseFnBuilds(e);
    } else {
      ReparseBuilds(e);
    }
  }

  lemma ReparseLetBuilds(e: Expr)
    requires e.Let? && IsProgram(e)
    requires Erase(BuildSum(Reparse(e.rhs))) == Erase(e.rhs)
    requires Erase(BuildDecl(ReparseProgram(e.rest))) == Erase(e.rest)
    ensures Erase(BuildDecl(ReparseProgram(e))) == Erase(e)
  {
    assert BuildDecl(ReparseProgram(e)) ==
      Let(e.binder, BuildSum(Reparse(e.rhs)), BuildDecl(ReparseProgram(e.rest)), Some(NoSpan));
  }

  lemma ReparseFnBuilds(e: Expr)
    requires e.Fn? && IsProgram(e)
    requires Erase(BuildSum(Reparse(e.body))) == Erase(e.body)
    requires Erase(BuildDecl(ReparseProgram(e.rest))) == Erase(e.rest)
    ensures Erase(BuildDecl(ReparseProgram(e))) == Erase(e)
  {
    assert BuildDecl(ReparseProgram(e)) ==
      Fn(e.binder, e.params, BuildSum(Reparse(e.body)), BuildDecl(ReparseProgram(e.rest)), Some(NoSpan));
  }
}
