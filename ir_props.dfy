/** What the code generator guarantees: the order of its checks, the
    scoping of variables and functions, the shape of `main`, and when it
    can reach its panic. */
module IrProperties {
  import opened Syntax
  import opened Ir

  // ---------------------------------------------------------------------
  // Lowering emits only body instructions
  // ---------------------------------------------------------------------

  /** Code with no `printf` call and no `ret`. */
  predicate Plain(code: seq<Inst>)
  {
    forall i :: 0 <= i < |code| ==> !code[i].Printf? && !code[i].Ret?
  }

  /** `visit_expr` never closes a block and never prints. */
  lemma {:induction false} LowerPlain(e: Expr, vars: Env, fns: FnTable)
    decreases e, 1
    ensures Plain(Lower(e, vars, fns).emitted)
  {
    if e.Neg? {
      LowerPlain(e.operand, vars, fns);
    } else if e.Add? || e.Sub? || e.Mul? || e.Div? {
      LowerPlain(e.left, vars, fns);
      LowerPlain(e.right, vars, fns);
    } else if e.Call? {
      LowerArgsPlain(e.args, vars, fns);
    }
  }

  lemma {:induction false} LowerArgsPlain(args: seq<Expr>, vars: Env, fns: FnTable)
    decreases args, 0
    ensures Plain(LowerArgs(args, vars, fns).emitted)
  {
    if args != [] {
      LowerArgsPlain(args[..|args| - 1], vars, fns);
      LowerPlain(args[|args| - 1], vars, fns);
    }
  }

  // ---------------------------------------------------------------------
  // Two namespaces
  // ---------------------------------------------------------------------

  /** The names an expression reads as variables. */
  function VarsRead(e: Expr): set<string>
    decreases e, 1
  {
    match e
    case Num(_, _) => {}
    case Var(x, _) => {x}
    case Neg(a, _) => VarsRead(a)
    case Add(a, b, _) => VarsRead(a) + VarsRead(b)
    case Sub(a, b, _) => VarsRead(a) + VarsRead(b)
    case Mul(a, b, _) => VarsRead(a) + VarsRead(b)
    case Div(a, b, _) => VarsRead(a) + VarsRead(b)
    case Call(_, args, _) => VarsReadAll(args)
    case Let(_, _, _, _) => {}
    case Fn(_, _, _, _, _) => {}
  }

  function VarsReadAll(args: seq<Expr>): set<string>
    decreases args, 0
  {
    if args == [] then {} else VarsReadAll(args[..|args| - 1]) + VarsRead(args[|args| - 1])
  }

  /** The names an expression calls as functions. */
  function Called(e: Expr): set<string>
    decreases e, 1
  {
    match e
    case Num(_, _) => {}
    case Var(_, _) => {}
    case Neg(a, _) => Called(a)
    case Add(a, b, _) => Called(a) + Called(b)
    case Sub(a, b, _) => Called(a) + Called(b)
    case Mul(a, b, _) => Called(a) + Called(b)
    case Div(a, b, _) => Called(a) + Called(b)
    case Call(f, args, _) => {f.name} + CalledAll(args)
    case Let(_, _, _, _) => {}
    case Fn(_, _, _, _, _) => {}
  }

  function CalledAll(args: seq<Expr>): set<string>
    decreases args, 0
  {
    if args == [] then {} else CalledAll(args[..|args| - 1]) + Called(args[|args| - 1])
  }

  /** Two tables that say the same about every name in `names`. */
  predicate Agree<T(==)>(m1: map<string, T>, m2: map<string, T>, names: set<string>)
  {
    forall x :: x in names ==> (x in m1 <==> x in m2) && (x in m1 ==> m1[x] == m2[x])
  }

  /** Variables are looked up only in the environment and callees only in
      the module: lowering depends on nothing else, so a variable and a
      function of the same name never interfere. */
  lemma {:induction false} LowerDependsOnlyOnUses(e: Expr, v1: Env, v2: Env, f1: FnTable, f2: FnTable)
    requires Agree(v1, v2, VarsRead(e)) && Agree(f1, f2, Called(e))
    decreases e, 1
    ensures Lower(e, v1, f1) == Lower(e, v2, f2)
  {
    if e.Neg? {
      LowerDependsOnlyOnUses(e.operand, v1, v2, f1, f2);
    } else if e.Add? || e.Sub? || e.Mul? || e.Div? {
      LowerDependsOnlyOnUses(e.left, v1, v2, f1, f2);
      LowerDependsOnlyOnUses(e.right, v1, v2, f1, f2);
    } else if e.Call? {
      assert e.callee.name in Called(e);
      LowerArgsDependsOnlyOnUses(e.args, v1, v2, f1, f2);
    }
  }

  lemma {:induction false} LowerArgsDependsOnlyOnUses(args: seq<Expr>, v1: Env, v2: Env, f1: FnTable, f2: FnTable)
    requires Agree(v1, v2, VarsReadAll(args)) && Agree(f1, f2, CalledAll(args))
    decreases args, 0
    ensures LowerArgs(args, v1, f1) == LowerArgs(args, v2, f2)
  {
    if args != [] {
      LowerArgsDependsOnlyOnUses(args[..|args| - 1], v1, v2, f1, f2);
      LowerDependsOnlyOnUses(args[|args| - 1], v1, v2, f1, f2);
    }
  }

  // ---------------------------------------------------------------------
  // Calls
  // ---------------------------------------------------------------------

  /** The instructions the arguments emit when lowered one after another. */
  function EmittedAll(args: seq<Expr>, vars: Env, fns: FnTable): seq<Inst>
  {
    if args == [] then []
    else EmittedAll(args[..|args| - 1], vars, fns) + Lower(args[|args| - 1], vars, fns).emitted
  }

  /** Argument `k` is the first one whose lowering fails. */
  predicate FirstFailure(args: seq<Expr>, k: int, vars: Env, fns: FnTable)
  {
    && 0 <= k < |args|
    && Lower(args[k], vars, fns).result.Err?
    && forall i :: 0 <= i < k ==> Lower(args[i], vars, fns).result.Ok?
  }

  /** The arguments succeed exactly when each of them does; their values
      are then those of the arguments in order, and their code is the code
      of each argument in turn. */
  lemma {:induction false} ArgsSucceed(args: seq<Expr>, vars: Env, fns: FnTable)
    ensures var a := LowerArgs(args, vars, fns);
      && (a.result.Ok? <==> forall i :: 0 <= i < |args| ==> Lower(args[i], vars, fns).result.Ok?)
      && (a.result.Ok? ==>
            && |a.result.value| == |args|
            && (forall i :: 0 <= i < |args| ==> a.result.value[i] == Lower(args[i], vars, fns).result.value)
            && a.emitted == EmittedAll(args, vars, fns))
  {
    if args != [] {
      var init := args[..|args| - 1];
      assert forall i :: 0 <= i < |init| ==> init[i] == args[i];
      ArgsSucceed(init, vars, fns);
    }
  }

  /** A failing argument list reports the first failing argument's error,
      having emitted the code of the arguments before it and of that
      argument only: nothing after it is lowered. */
  lemma {:induction false} ArgsFail(args: seq<Expr>, vars: Env, fns: FnTable)
    requires LowerArgs(args, vars, fns).result.Err?
    ensures var a := LowerArgs(args, vars, fns);
      exists k :: (&& FirstFailure(args, k, vars, fns)
                   && a.result.error == Lower(args[k], vars, fns).result.error
                   && a.emitted == EmittedAll(args[..k], vars, fns) + Lower(args[k], vars, fns).emitted)
  {
    var n := |args| - 1;
    var init := args[..n];
    assert forall i :: 0 <= i < n ==> init[i] == args[i];
    var a := LowerArgs(init, vars, fns);
    if a.result.Err? {
      ArgsFail(init, vars, fns);
      var k :| FirstFailure(init, k, vars, fns)
        && a.result.error == Lower(init[k], vars, fns).result.error
        && a.emitted == EmittedAll(init[..k], vars, fns) + Lower(init[k], vars, fns).emitted;
      assert init[..k] == args[..k];
      assert FirstFailure(args, k, vars, fns);
    } else {
      ArgsSucceed(init, vars, fns);
      assert FirstFailure(args, n, vars, fns);
    }
  }

  /** `visit_call`'s checks, in order: the callee is looked up, its
      parameter count compared with the number of arguments (both before
      anything is emitted), then the arguments lowered; the call produces a
      value exactly when all of that succeeds and the callee returns one. */
  lemma CallOutcome(name: string, args: seq<Expr>, vars: Env, fns: FnTable)
    ensures var c := LowerCall(name, args, vars, fns);
      && (name !in fns ==> c == Lowered(Err(FunctionNotFound(name)), []))
      && (name in fns && |args| != fns[name].params ==> c == Lowered(Err(IncorrectArguments), []))
      && (c.result.Ok? <==>
            && name in fns && |args| == fns[name].params && fns[name].returnsValue
            && forall i :: 0 <= i < |args| ==> Lower(args[i], vars, fns).result.Ok?)
      && (c.result.Ok? ==>
            && c.result.value == CallResult(name, LowerArgs(args, vars, fns).result.value)
            && c.emitted == EmittedAll(args, vars, fns) + [CallInst(name, LowerArgs(args, vars, fns).result.value)])
      && (name in fns && |args| == fns[name].params && LowerArgs(args, vars, fns).result.Err? ==>
            c == Lowered(Err(LowerArgs(args, vars, fns).result.error), LowerArgs(args, vars, fns).emitted))
  {
    ArgsSucceed(args, vars, fns);
  }

  /** A callee that returns nothing cannot be used as a value, even when the
      call itself is well formed and emitted. */
  lemma VoidCallFails(name: string, args: seq<Expr>, vars: Env, fns: FnTable)
    requires name in fns && !fns[name].returnsValue && |args| == fns[name].params
    requires forall i :: 0 <= i < |args| ==> Lower(args[i], vars, fns).result.Ok?
    ensures var c := LowerCall(name, args, vars, fns);
      && c.result == Err(CallFailed)
      && |c.emitted| == |EmittedAll(args, vars, fns)| + 1
      && c.emitted[..|c.emitted| - 1] == EmittedAll(args, vars, fns)
      && c.emitted[|c.emitted| - 1].CallInst? && c.emitted[|c.emitted| - 1].callee == name
  {
    ArgsSucceed(args, vars, fns);
  }

  // ---------------------------------------------------------------------
  // The function table
  // ---------------------------------------------------------------------

  /** A function declaration: its name and number of parameters. */
  datatype Declaration = Declaration(name: string, params: nat)

  /** The `Fn` declarations along the declaration chain, in order. */
  function Declared(e: Expr): seq<Declaration>
  {
    match e
    case Fn(f, ps, _, rest, _) => [Declaration(f.name, |ps|)] + Declared(rest)
    case Let(_, _, rest, _) => Declared(rest)
    case _ => []
  }

  predicate NewNames(ds: seq<Declaration>, fns: FnTable)
  {
    forall i :: 0 <= i < |ds| ==> ds[i].name !in fns
  }

  predicate Distinct(ds: seq<Declaration>)
  {
    forall i, j :: 0 <= i < j < |ds| ==> ds[i].name != ds[j].name
  }

  /** Each declaration is in the table with its parameter count, returning
      a value. */
  predicate InTable(ds: seq<Declaration>, fns: FnTable)
  {
    forall i :: 0 <= i < |ds| ==> ds[i].name in fns && fns[ds[i].name] == Sig(ds[i].params, true)
  }

  lemma DeclaredCons(d: Declaration, ds: seq<Declaration>, fns: FnTable, final: FnTable)
    requires d.name !in fns && NewNames(ds, fns[d.name := Sig(d.params, true)]) && Distinct(ds)
    requires InTable(ds, final) && d.name in final && final[d.name] == Sig(d.params, true)
    ensures NewNames([d] + ds, fns) && Distinct([d] + ds) && InTable([d] + ds, final)
  {
    var all := [d] + ds;
    assert forall i :: 1 <= i < |all| ==> all[i] == ds[i - 1];
  }

  /** Functions are only ever added: whatever the module held, it still
      holds with the same signature, on success and on failure. */
  lemma {:induction false} WalkKeepsFunctions(e: Expr, vars: Env, b: Backend, verify: (string, seq<Inst>) -> bool)
    ensures var fns := Walk(e, vars, b, verify).backend.functions;
      forall f :: f in b.functions ==> f in fns && fns[f] == b.functions[f]
  {
    if e.Fn? {
      var d := DefineFn(e.binder.name, e.params, e.body, b, verify);
      if d.result.Ok? {
        WalkKeepsFunctions(e.rest, vars, d.backend, verify);
      }
    } else if e.Let? {
      var o := Lower(e.rhs, vars, b.functions);
      if o.result.Ok? {
        WalkKeepsFunctions(e.rest, vars[e.binder.name := o.result.value], Backend(b.functions, Emit(b.blocks, "main", o.emitted)), verify);
      }
    }
  }

  /** On success every declared name was new, none was declared twice, and
      each ends up in the module with exactly as many parameters as it
      declared, returning a value. */
  lemma {:induction false} WalkDeclares(e: Expr, vars: Env, b: Backend, verify: (string, seq<Inst>) -> bool)
    requires Walk(e, vars, b, verify).result.Ok?
    ensures NewNames(Declared(e), b.functions) && Distinct(Declared(e))
    ensures InTable(Declared(e), Walk(e, vars, b, verify).backend.functions)
  {
    if e.Fn? {
      var d := DefineFn(e.binder.name, e.params, e.body, b, verify);
      WalkDeclares(e.rest, vars, d.backend, verify);
      WalkKeepsFunctions(e.rest, vars, d.backend, verify);
      DeclaredCons(Declaration(e.binder.name, |e.params|), Declared(e.rest), b.functions,
                   Walk(e, vars, b, verify).backend.functions);
    } else if e.Let? {
      var o := Lower(e.rhs, vars, b.functions);
      var b' := Backend(b.functions, Emit(b.blocks, "main", o.emitted));
      var vars' := vars[e.binder.name := o.result.value];
      assert Walk(e, vars, b, verify) == Walk(e.rest, vars', b', verify);
      WalkDeclares(e.rest, vars', b', verify);
    }
  }

  /** For a whole program: `main` keeps its signature, no function may be
      called `main`, no name is declared twice, and each function has as
      many parameters as it declared. */
  lemma CompileDeclares(root: Expr, verify: (string, seq<Inst>) -> bool)
    requires Compile(root, verify).result.Ok?
    ensures var ds, fns := Declared(root), Compile(root, verify).backend.functions;
      && "main" in fns && fns["main"] == Sig(0, false)
      && (forall i :: 0 <= i < |ds| ==> ds[i].name != "main")
      && Distinct(ds) && InTable(ds, fns)
  {
    WalkDeclares(root, map[], Start, verify);
    WalkKeepsFunctions(root, map[], Start, verify);
  }

  /** A function that reuses a name the module already knows is rejected
      before its body is lowered: nothing is added or emitted. */
  lemma DuplicateRejected(f: Ident, ps: seq<Ident>, body: Expr, rest: Expr, s: Option<Span>,
                          vars: Env, b: Backend, verify: (string, seq<Inst>) -> bool)
    requires f.name in b.functions
    ensures Walk(Fn(f, ps, body, rest, s), vars, b, verify) == Generated(Err(DuplicateFunction(f.name)), b)
  {
  }

  /** `main` is declared before the walk, so no program may define it. */
  lemma MainIsReserved(f: Ident, ps: seq<Ident>, body: Expr, rest: Expr, s: Option<Span>, verify: (string, seq<Inst>) -> bool)
    requires f.name == "main"
    ensures Compile(Fn(f, ps, body, rest, s), verify) == Generated(Err(DuplicateFunction("main")), Start)
  {
  }

  /** A function is in the table while its body is lowered, so the body
      may call the function itself. */
  lemma DeclaredBeforeBody(f: string, ps: seq<Ident>, body: Expr, b: Backend, verify: (string, seq<Inst>) -> bool)
    requires f !in b.functions
    ensures var fns := b.functions[f := Sig(|ps|, true)];
      && DefineFn(f, ps, body, b, verify).backend.functions == fns
      && DefineFn(f, ps, body, b, verify).backend.blocks[f] == Lower(body, ParamEnv(ps), fns).emitted +
           (if Lower(body, ParamEnv(ps), fns).result.Ok? then [Ret(Some(Lower(body, ParamEnv(ps), fns).result.value))] else [])
  {
  }

  /** Because `f` is declared before its body is lowered, a call of `f`
      in its own body with the right number of well-lowering arguments
      produces the call's value. */
  lemma BodyMayCallItself(f: string, ps: seq<Ident>, s: Span, args: seq<Expr>, sp: Option<Span>, b: Backend)
    requires f !in b.functions && |args| == |ps|
    requires forall i :: 0 <= i < |args| ==> Lower(args[i], ParamEnv(ps), b.functions[f := Sig(|ps|, true)]).result.Ok?
    ensures var env, fns := ParamEnv(ps), b.functions[f := Sig(|ps|, true)];
      var c := Lower(Call(Ident(f, s), args, sp), env, fns);
      && c.result.Ok? && c.result.value.CallResult? && c.result.value.callee == f
      && |c.result.value.args| == |args|
  {
    var env, fns := ParamEnv(ps), b.functions[f := Sig(|ps|, true)];
    assert Lower(Call(Ident(f, s), args, sp), env, fns) == LowerCall(f, args, env, fns);
    ArgsSucceed(args, env, fns);
    CallOutcome(f, args, env, fns);
  }

  // ---------------------------------------------------------------------
  // The block of `main`
  // ---------------------------------------------------------------------

  /** What the walk leaves in `main`, which held `m0` before: `m0`
      followed by more code; on success that code ends with exactly one
      `printf` call and then the one `ret void`, and on failure it holds
      neither. */
  predicate MainShape(m0: seq<Inst>, g: Generated)
  {
    var m := Block(g.backend.blocks, "main");
    && |m0| <= |m| && m[..|m0|] == m0
    && (g.result.Ok? ==> |m| >= 2 && Plain(m[..|m| - 2]) && m[|m| - 2].Printf? && m[|m| - 1] == Ret(None))
    && (g.result.Err? ==> Plain(m))
  }

  lemma MainShapePrefix(m0: seq<Inst>, code: seq<Inst>, g: Generated)
    requires MainShape(m0 + code, g)
    ensures MainShape(m0, g)
  {
    var m := Block(g.backend.blocks, "main");
    assert m[..|m0|] == (m0 + code)[..|m0|];
  }

  /** Instructions reach `main` only by appending, and only at the end of
      the walk does anything close it. */
  lemma {:induction false} WalkMainBlock(e: Expr, vars: Env, b: Backend, verify: (string, seq<Inst>) -> bool)
    requires "main" in b.functions && Plain(Block(b.blocks, "main"))
    ensures MainShape(Block(b.blocks, "main"), Walk(e, vars, b, verify))
  {
    var m0 := Block(b.blocks, "main");
    if e.Fn? {
      var d := DefineFn(e.binder.name, e.params, e.body, b, verify);
      assert Block(d.backend.blocks, "main") == m0;
      if d.result.Ok? {
        WalkMainBlock(e.rest, vars, d.backend, verify);
      }
    } else if e.Let? {
      var o := Lower(e.rhs, vars, b.functions);
      LowerPlain(e.rhs, vars, b.functions);
      var b' := Backend(b.functions, Emit(b.blocks, "main", o.emitted));
      assert Block(b'.blocks, "main") == m0 + o.emitted;
      if o.result.Ok? {
        WalkMainBlock(e.rest, vars[e.binder.name := o.result.value], b', verify);
        MainShapePrefix(m0, o.emitted, Walk(e, vars, b, verify));
      } else {
        assert (m0 + o.emitted)[..|m0|] == m0;
      }
    } else {
      WalkEndMainBlock(e, vars, b, verify);
    }
  }

  lemma WalkEndMainBlock(e: Expr, vars: Env, b: Backend, verify: (string, seq<Inst>) -> bool)
    requires !e.Fn? && !e.Let? && Plain(Block(b.blocks, "main"))
    ensures MainShape(Block(b.blocks, "main"), Walk(e, vars, b, verify))
  {
    var m0 := Block(b.blocks, "main");
    var o := Lower(e, vars, b.functions);
    LowerPlain(e, vars, b.functions);
    if o.result.Ok? {
      var m := m0 + o.emitted + [Printf(o.result.value), Ret(None)];
      assert m[..|m| - 2] == m0 + o.emitted;
      assert m[..|m0|] == m0;
    } else {
      assert (m0 + o.emitted)[..|m0|] == m0;
    }
  }

  /** For a whole program: `main` ends in one `printf` and one `ret void`
      exactly when generation succeeds. */
  lemma CompileMainBlock(root: Expr, verify: (string, seq<Inst>) -> bool)
    ensures MainShape([], Compile(root, verify))
  {
    assert Block(Start.blocks, "main") == [];
    WalkMainBlock(root, map[], Start, verify);
  }

  // ---------------------------------------------------------------------
  // The panic
  // ---------------------------------------------------------------------

  /** `visit_expr` panics only on a `Let` or `Fn` node, so it never does on
      a declaration-free tree. */
  lemma {:induction false} DeclFreeNeverPanics(e: Expr, vars: Env, fns: FnTable)
    requires DeclFree(e)
    decreases e, 1
    ensures Lower(e, vars, fns).result != Err(Panic)
  {
    if e.Neg? {
      DeclFreeNeverPanics(e.operand, vars, fns);
    } else if e.Add? || e.Sub? || e.Mul? || e.Div? {
      DeclFreeNeverPanics(e.left, vars, fns);
      DeclFreeNeverPanics(e.right, vars, fns);
    } else if e.Call? {
      ArgsNeverPanic(e.args, vars, fns);
    }
  }

  lemma {:induction false} ArgsNeverPanic(args: seq<Expr>, vars: Env, fns: FnTable)
    requires forall i :: 0 <= i < |args| ==> DeclFree(args[i])
    decreases args, 0
    ensures LowerArgs(args, vars, fns).result != Err(Panic)
  {
    if args != [] {
      var init := args[..|args| - 1];
      assert forall i :: 0 <= i < |init| ==> init[i] == args[i];
      ArgsNeverPanic(init, vars, fns);
      DeclFreeNeverPanics(args[|args| - 1], vars, fns);
    }
  }

  /** The walk of a program never reaches the panic. */
  lemma {:induction false} ProgramNeverPanics(e: Expr, vars: Env, b: Backend, verify: (string, seq<Inst>) -> bool)
    requires IsProgram(e)
    ensures Walk(e, vars, b, verify).result != Err(Panic)
  {
    if e.Fn? {
      var d := DefineFn(e.binder.name, e.params, e.body, b, verify);
      DeclFreeNeverPanics(e.body, ParamEnv(e.params), b.functions[e.binder.name := Sig(|e.params|, true)]);
      if d.result.Ok? {
        ProgramNeverPanics(e.rest, vars, d.backend, verify);
      }
    } else if e.Let? {
      var o := Lower(e.rhs, vars, b.functions);
      DeclFreeNeverPanics(e.rhs, vars, b.functions);
      if o.result.Ok? {
        ProgramNeverPanics(e.rest, vars[e.binder.name := o.result.value], Backend(b.functions, Emit(b.blocks, "main", o.emitted)), verify);
      }
    } else {
      DeclFreeNeverPanics(e, vars, b.functions);
    }
  }

  /** Without that precondition the panic is reachable: a `let` in operand
      position. */
  lemma LetOperandPanics(x: Ident, rhs: Expr, rest: Expr, s: Option<Span>, vars: Env, fns: FnTable)
    ensures Lower(Neg(Let(x, rhs, rest, s), None), vars, fns).result == Err(Panic)
  {
  }

  // ---------------------------------------------------------------------
  // Programs
  // ---------------------------------------------------------------------

  function Id(x: string): Ident
  {
    Ident(x, NoSpan)
  }

  /** A `verify` that accepts every function. */
  const AcceptAll: (string, seq<Inst>) -> bool := (f: string, code: seq<Inst>) => true

  /** `let x = 1; fn f y = x + y; f(2)`: the body of `f` sees only `y`. */
  lemma OuterLetInvisible(verify: (string, seq<Inst>) -> bool)
    ensures Compile(Let(Id("x"), Num(1, None),
                      Fn(Id("f"), [Id("y")], Add(Var("x", None), Var("y", None), None),
                         Call(Id("f"), [Num(2, None)], None), None), None), verify).result
      == Err(VariableNotFound("x"))
  {
    var b1 := Backend(Start.functions, Emit(Start.blocks, "main", []));
    var fn := Fn(Id("f"), [Id("y")], Add(Var("x", None), Var("y", None), None), Call(Id("f"), [Num(2, None)], None), None);
    assert Compile(Let(Id("x"), Num(1, None), fn, None), verify) == Walk(fn, map["x" := Const(1)], b1, verify);
    assert "x" !in ParamEnv([Id("y")]);
  }

  /** `let x = 1; let x = x + 1; x`: the right-hand side sees the old `x`,
      and the new binding replaces it. */
  lemma LetShadows()
    ensures var sum := Arith(FAdd, Const(1), Const(1));
      Compile(Let(Id("x"), Num(1, None), Let(Id("x"), Add(Var("x", None), Num(1, None), None), Var("x", None), None), None), AcceptAll)
      == Generated(Ok(()), Backend(map["main" := Sig(0, false), "printf" := Sig(1, true)],
                                   map["main" := [ArithInst(FAdd, Const(1), Const(1)), Printf(sum), Ret(None)]]))
  {
    var sum := Arith(FAdd, Const(1), Const(1));
    var add := ArithInst(FAdd, Const(1), Const(1));
    var b1 := Backend(Start.functions, map["main" := []]);
    var inner := Let(Id("x"), Add(Var("x", None), Num(1, None), None), Var("x", None), None);
    assert Emit(Start.blocks, "main", []) == b1.blocks;
    assert Compile(Let(Id("x"), Num(1, None), inner, None), AcceptAll) == Walk(inner, map["x" := Const(1)], b1, AcceptAll);
    var rhs := Add(Var("x", None), Num(1, None), None);
    assert [] + [] + [add] == [add];
    assert Lower(rhs, map["x" := Const(1)], Start.functions) == Lowered(Ok(sum), [add]);
    var b2 := Backend(Start.functions, map["main" := [add]]);
    assert Emit(b1.blocks, "main", [add]) == b2.blocks;
    assert map["x" := Const(1)]["x" := sum] == map["x" := sum];
    assert Walk(inner, map["x" := Const(1)], b1, AcceptAll) == Walk(Var("x", None), map["x" := sum], b2, AcceptAll);
    assert [add] + ([] + [Printf(sum), Ret(None)]) == [add, Printf(sum), Ret(None)];
    assert Emit(b2.blocks, "main", [] + [Printf(sum), Ret(None)]) == map["main" := [add, Printf(sum), Ret(None)]];
  }

  /** `fn f n = f(n); f(1)`: the body calls `f` itself. */
  lemma SelfCall()
    ensures var g := Compile(Fn(Id("f"), [Id("n")], Call(Id("f"), [Var("n", None)], None),
                                Call(Id("f"), [Num(1, None)], None), None), AcceptAll);
      && g.result.Ok?
      && Block(g.backend.blocks, "f") == [CallInst("f", [Param(0)]), Ret(Some(CallResult("f", [Param(0)])))]
  {
    var fns := Start.functions["f" := Sig(1, true)];
    var main := Call(Id("f"), [Num(1, None)], None);
    var code := [CallInst("f", [Param(0)]), Ret(Some(CallResult("f", [Param(0)])))];
    SelfCallDefines();
    assert [Num(1, None)][..0] == [] && [] + [Const(1)] == [Const(1)];
    assert LowerArgs([Num(1, None)], map[], fns) == Lowered(Ok([Const(1)]), []);
    assert Lower(main, map[], fns).result.Ok?;
  }

  /** The definition step of `SelfCall`: the body's call sees the function
      being defined. */
  lemma SelfCallDefines()
    ensures DefineFn("f", [Id("n")], Call(Id("f"), [Var("n", None)], None), Start, AcceptAll) ==
      Generated(Ok(()), Backend(Start.functions["f" := Sig(1, true)],
                                Start.blocks["f" := [CallInst("f", [Param(0)]), Ret(Some(CallResult("f", [Param(0)])))]]))
  {
    var fns := Start.functions["f" := Sig(1, true)];
    var body := Call(Id("f"), [Var("n", None)], None);
    var code := [CallInst("f", [Param(0)]), Ret(Some(CallResult("f", [Param(0)])))];
    assert ParamEnv([Id("n")]) == map["n" := Param(0)];
    assert [Var("n", None)][..0] == [] && [] + [Param(0)] == [Param(0)];
    assert LowerArgs([Var("n", None)], map["n" := Param(0)], fns) == Lowered(Ok([Param(0)]), []);
    assert Lower(body, map["n" := Param(0)], fns) == Lowered(Ok(CallResult("f", [Param(0)])), [CallInst("f", [Param(0)])]);
    assert [CallInst("f", [Param(0)])] + [Ret(Some(CallResult("f", [Param(0)])))] == code;
  }

  /** `main()`: `main` exists and takes no arguments, but returns nothing. */
  lemma CallingMainFails(s: Span, verify: (string, seq<Inst>) -> bool)
    ensures Compile(Call(Ident("main", s), [], None), verify).result == Err(CallFailed)
  {
    assert LowerArgs([], map[], Start.functions) == Lowered(Ok([]), []);
    assert LowerCall("main", [], map[], Start.functions).result == Err(CallFailed);
  }

  /** `let f = 1; f(1)`: a variable is not a function. */
  lemma VariableIsNotCallable(verify: (string, seq<Inst>) -> bool)
    ensures Compile(Let(Id("f"), Num(1, None), Call(Id("f"), [Num(1, None)], None), None), verify).result
      == Err(FunctionNotFound("f"))
  {
    var b1 := Backend(Start.functions, Emit(Start.blocks, "main", []));
    assert Compile(Let(Id("f"), Num(1, None), Call(Id("f"), [Num(1, None)], None), None), verify)
      == Walk(Call(Id("f"), [Num(1, None)], None), map["f" := Const(1)], b1, verify);
  }

  /** `fn f x = x; f(1, 2)`: the argument count is checked first. */
  lemma WrongArgumentCount()
    ensures Compile(Fn(Id("f"), [Id("x")], Var("x", None),
                       Call(Id("f"), [Num(1, None), Num(2, None)], None), None), AcceptAll).result
      == Err(IncorrectArguments)
  {
    assert ParamEnv([Id("x")]) == map["x" := Param(0)];
  }
}
