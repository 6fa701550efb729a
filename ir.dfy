/** The code generator (src/llvm/ir.rs): one walk over the declaration chain
    that fills an LLVM module with functions and instructions.

    The backend is modelled narrowly. The module is a table from function
    name to signature plus the instructions of each function's entry
    block; values are symbolic terms; `verify` is an oracle supplied by the
    caller. The specification functions (`Lower`, `LowerCall`, `LowerArgs`,
    `Walk`, `Compile`) say what each step produces; the methods of
    `LlvmGenerator` do it step by step and are proved to agree with them. */
module Ir {
  import opened Syntax

  // ---------------------------------------------------------------------
  // Backend vocabulary
  // ---------------------------------------------------------------------

  datatype ArithOp = FAdd | FSub | FMul | FDiv

  /** A symbolic SSA value: a constant, a parameter of the enclosing
      function, or the result of an instruction. */
  datatype Value =
    | Const(n: nat)
    | Param(index: nat)
    | Arith(op: ArithOp, lhs: Value, rhs: Value)
    | FNeg(operand: Value)
    | CallResult(callee: string, args: seq<Value>)

  /** Instructions appended to a block. `Printf` stands for the call of
      `printf` with the `"%f\n"` format string. */
  datatype Inst =
    | ArithInst(op: ArithOp, lhs: Value, rhs: Value)
    | NegInst(operand: Value)
    | CallInst(callee: string, args: seq<Value>)
    | Printf(value: Value)
    | Ret(result: Option<Value>)

  /** A function's signature: its number of parameters and whether it
      returns a value (`f64`) or nothing (`void`). */
  datatype Sig = Sig(params: nat, returnsValue: bool)

  type FnTable = map<string, Sig>
  type Env = map<string, Value>

  /** The semantic errors, in the order the generator can raise them.
      `Panic` is not an error value of the source: it marks the point where
      `visit_expr` aborts the process on a `Let` or `Fn` node. */
  datatype GenError =
    | DuplicateFunction(name: string)
    | MalformedFunction(name: string)
    | VariableNotFound(name: string)
    | FunctionNotFound(name: string)
    | IncorrectArguments
    | CallFailed
    | Panic

  /** The text each error is reported with. */
  function Message(e: GenError): string
  {
    match e
    case DuplicateFunction(f) => "function `" + f + "` already exists"
    case MalformedFunction(f) => "function `" + f + "` not built properly"
    case VariableNotFound(x) => "variable `" + x + "` not found in scope"
    case FunctionNotFound(f) => "function `" + f + "` not found in scope"
    case IncorrectArguments => "arguments to function call are incorrect"
    case CallFailed => "failed to build function call"
    case Panic => "explicit panic"
  }

  datatype Result<T> = Ok(value: T) | Err(error: GenError)

  /** The outcome of lowering: a result and the instructions appended to the
      current block on the way (also on the way to an error). */
  datatype Lowered<T> = Lowered(result: Result<T>, emitted: seq<Inst>)

  // ---------------------------------------------------------------------
  // Expression lowering (`visit_expr`, `visit_call`)
  // ---------------------------------------------------------------------

  function Lower(e: Expr, vars: Env, fns: FnTable): Lowered<Value>
    decreases e, 1
  {
    match e
    case Num(n, _) => Lowered(Ok(Const(n)), [])
    case Var(x, _) =>
      if x in vars then Lowered(Ok(vars[x]), []) else Lowered(Err(VariableNotFound(x)), [])
    case Neg(a, _) =>
      var o := Lower(a, vars, fns);
      if o.result.Err? then o
      else Lowered(Ok(FNeg(o.result.value)), o.emitted + [NegInst(o.result.value)])
    case Add(_, _, _) => LowerArith(FAdd, e, vars, fns)
    case Sub(_, _, _) => LowerArith(FSub, e, vars, fns)
    case Mul(_, _, _) => LowerArith(FMul, e, vars, fns)
    case Div(_, _, _) => LowerArith(FDiv, e, vars, fns)
    case Call(f, args, _) => LowerCall(f.name, args, vars, fns)
    case Let(_, _, _, _) => Lowered(Err(Panic), [])
    case Fn(_, _, _, _, _) => Lowered(Err(Panic), [])
  }

  /** Left operand, then right operand, then the arithmetic instruction. */
  function LowerArith(op: ArithOp, e: Expr, vars: Env, fns: FnTable): Lowered<Value>
    requires e.Add? || e.Sub? || e.Mul? || e.Div?
    decreases e, 0
  {
    var l := Lower(e.left, vars, fns);
    if l.result.Err? then l
    else
      var r := Lower(e.right, vars, fns);
      if r.result.Err? then Lowered(r.result, l.emitted + r.emitted)
      else
        var a, b := l.result.value, r.result.value;
        Lowered(Ok(Arith(op, a, b)), l.emitted + r.emitted + [ArithInst(op, a, b)])
  }

  /** The callee must exist and take as many parameters as there are
      arguments; only then are the arguments lowered, and the call yields a
      value only if the callee returns one. */
  function LowerCall(name: string, args: seq<Expr>, vars: Env, fns: FnTable): Lowered<Value>
    decreases args, 1
  {
    if name !in fns then Lowered(Err(FunctionNotFound(name)), [])
    else if |args| != fns[name].params then Lowered(Err(IncorrectArguments), [])
    else
      var a := LowerArgs(args, vars, fns);
      if a.result.Err? then Lowered(Err(a.result.error), a.emitted)
      else
        var call := CallInst(name, a.result.value);
        if fns[name].returnsValue then Lowered(Ok(CallResult(name, a.result.value)), a.emitted + [call])
        else Lowered(Err(CallFailed), a.emitted + [call])
  }

  /** Arguments left to right, stopping at the first failure. */
  function LowerArgs(args: seq<Expr>, vars: Env, fns: FnTable): Lowered<seq<Value>>
    decreases args, 0
  {
    if args == [] then Lowered(Ok([]), [])
    else
      var init := LowerArgs(args[..|args| - 1], vars, fns);
      if init.result.Err? then init
      else
        var o := Lower(args[|args| - 1], vars, fns);
        if o.result.Err? then Lowered(Err(o.result.error), init.emitted + o.emitted)
        else Lowered(Ok(init.result.value + [o.result.value]), init.emitted + o.emitted)
  }

  /** Once a prefix of the arguments fails, the whole list fails the same
      way. */
  lemma {:induction false} LowerArgsStopsAtFailure(args: seq<Expr>, k: nat, vars: Env, fns: FnTable)
    requires k <= |args| && LowerArgs(args[..k], vars, fns).result.Err?
    ensures LowerArgs(args, vars, fns) == LowerArgs(args[..k], vars, fns)
    decreases |args| - k
  {
    if k == |args| {
      assert args[..k] == args;
    } else {
      var init := args[..|args| - 1];
      assert init[..k] == args[..k];
      LowerArgsStopsAtFailure(init, k, vars, fns);
    }
  }

  // ---------------------------------------------------------------------
  // The declaration walk (`run`)
  // ---------------------------------------------------------------------

  /** The module's function table and the contents of each function's entry
      block. */
  datatype Backend = Backend(functions: FnTable, blocks: map<string, seq<Inst>>)

  /** What a whole run leaves behind: its result and the module. */
  datatype Generated = Generated(result: Result<()>, backend: Backend)

  /** `add_function`: the table answers by name, and LLVM gives a function
      added under a taken name a fresh one, so only a new name enters it. */
  function Declare(fns: FnTable, name: string, sig: Sig): FnTable
  {
    if name in fns then fns else fns[name := sig]
  }

  /** The instructions in the block of `f` (none if it has no block). */
  function Block(blocks: map<string, seq<Inst>>, f: string): seq<Inst>
  {
    if f in blocks then blocks[f] else []
  }

  /** The blocks with `code` appended to the block of `f`. */
  function Emit(blocks: map<string, seq<Inst>>, f: string, code: seq<Inst>): map<string, seq<Inst>>
  {
    blocks[f := Block(blocks, f) + code]
  }

  lemma EmitNothing(blocks: map<string, seq<Inst>>, f: string)
    requires f in blocks
    ensures Emit(blocks, f, []) == blocks
  {
    assert blocks[f] + [] == blocks[f];
  }

  lemma EmitTwice(blocks: map<string, seq<Inst>>, f: string, c1: seq<Inst>, c2: seq<Inst>)
    ensures Emit(Emit(blocks, f, c1), f, c2) == Emit(blocks, f, c1 + c2)
  {
    assert Block(blocks, f) + c1 + c2 == Block(blocks, f) + (c1 + c2);
  }

  lemma AppendTwo(code: seq<Inst>, i1: Inst, i2: Inst)
    ensures code + [i1] + [i2] == code + [i1, i2]
  {
  }

  /** Code emitted into a fresh block is the block's whole contents. */
  lemma EmitFresh(blocks: map<string, seq<Inst>>, f: string, code: seq<Inst>)
    ensures Emit(blocks[f := []], f, code) == blocks[f := code]
  {
    assert [] + code == code;
  }

  lemma EmitOnto(blocks: map<string, seq<Inst>>, f: string, code: seq<Inst>, more: seq<Inst>)
    ensures Emit(blocks[f := code], f, more) == blocks[f := code + more]
  {
  }

  /** A function body's environment: each parameter name bound to the first
      parameter carrying it (LLVM renames later parameters of the same
      name). Nothing from outside the function is in it. */
  function ParamEnv(params: seq<Ident>): (env: Env)
    ensures forall i :: 0 <= i < |params| ==> params[i].name in env
    ensures forall x :: x in env ==>
      && env[x].Param? && env[x].index < |params| && params[env[x].index].name == x
      && forall j :: 0 <= j < env[x].index ==> params[j].name != x
  {
    if params == [] then map[]
    else
      var init := params[..|params| - 1];
      var env := ParamEnv(init);
      var x := params[|params| - 1].name;
      assert forall i :: 0 <= i < |init| ==> init[i] == params[i];
      if x in env then env else env[x := Param(|params| - 1)]
  }

  /** A `Fn` declaration: the name must be new; the function is declared
      (so its body may call it), its body lowered in an environment of its
      parameters only, its block closed with `ret`, and the result checked
      by `verify`. */
  function DefineFn(f: string, ps: seq<Ident>, body: Expr, b: Backend, verify: (string, seq<Inst>) -> bool): Generated
  {
    if f in b.functions then Generated(Err(DuplicateFunction(f)), b)
    else
      var fns := b.functions[f := Sig(|ps|, true)];
      var o := Lower(body, ParamEnv(ps), fns);
      if o.result.Err? then Generated(Err(o.result.error), Backend(fns, b.blocks[f := o.emitted]))
      else
        var code := o.emitted + [Ret(Some(o.result.value))];
        var b' := Backend(fns, b.blocks[f := code]);
        if verify(f, code) then Generated(Ok(()), b')
        else Generated(Err(MalformedFunction(f)), b')
  }

  /** Defining `f` loses no function and no block, and leaves every other
      function's signature and every other block as it was. */
  lemma DefineFnFrame(f: string, ps: seq<Ident>, body: Expr, b: Backend, verify: (string, seq<Inst>) -> bool)
    ensures var d := DefineFn(f, ps, body, b, verify);
      && (forall g :: g in b.functions ==> g in d.backend.functions && d.backend.functions[g] == b.functions[g])
      && b.blocks.Keys <= d.backend.blocks.Keys
      && (forall g :: g in b.blocks && g != f ==> d.backend.blocks[g] == b.blocks[g])
  {
  }

  /** Binding one more parameter. */
  lemma ParamEnvSnoc(ps: seq<Ident>, i: nat)
    requires i < |ps|
    ensures var env := ParamEnv(ps[..i]);
      ParamEnv(ps[..i + 1]) == if ps[i].name in env then env else env[ps[i].name := Param(i)]
  {
    assert ps[..i + 1][..i] == ps[..i];
  }

  /** One step of the walk per declaration; the first node that is neither
      `Let` nor `Fn` is the result, printed from `main`. */
  function Walk(e: Expr, vars: Env, b: Backend, verify: (string, seq<Inst>) -> bool): Generated
    decreases e
  {
    if e.Fn? then
      var d := DefineFn(e.binder.name, e.params, e.body, b, verify);
      if d.result.Err? then d else Walk(e.rest, vars, d.backend, verify)
    else if e.Let? then
      var o := Lower(e.rhs, vars, b.functions);
      var b' := Backend(b.functions, Emit(b.blocks, "main", o.emitted));
      if o.result.Err? then Generated(Err(o.result.error), b')
      else Walk(e.rest, vars[e.binder.name := o.result.value], b', verify)
    else
      var o := Lower(e, vars, b.functions);
      if o.result.Err? then
        Generated(Err(o.result.error), Backend(b.functions, Emit(b.blocks, "main", o.emitted)))
      else
        var fns := Declare(b.functions, "printf", Sig(1, true));
        Generated(Ok(()), Backend(fns, Emit(b.blocks, "main", o.emitted + [Printf(o.result.value), Ret(None)])))
  }

  /** The module as `run` starts it: `main`, taking nothing and returning
      nothing, with an empty entry block. */
  const Start := Backend(map["main" := Sig(0, false)], map["main" := []])

  /** `generate` on a fresh module. */
  function Compile(root: Expr, verify: (string, seq<Inst>) -> bool): Generated
  {
    Walk(root, map[], Start, verify)
  }

  // ---------------------------------------------------------------------
  // The backend objects
  // ---------------------------------------------------------------------

  /** The LLVM module. */
  class Module {
    var functions: FnTable
    var blocks: map<string, seq<Inst>>

    constructor ()
      ensures functions == map[] && blocks == map[]
    {
      functions := map[];
      blocks := map[];
    }

    /** `get_function` */
    function GetFunction(name: string): (r: Option<Sig>)
      reads this
      ensures r.Some? <==> name in functions
      ensures r.Some? ==> r.value == functions[name]
    {
      if name in functions then Some(functions[name]) else None
    }

    /** `add_function` */
    method AddFunction(name: string, sig: Sig)
      modifies this
      ensures functions == Declare(old(functions), name, sig)
      ensures blocks == old(blocks)
    {
      functions := Declare(functions, name, sig);
    }

    /** `append_basic_block`: the function's (only) entry block, empty. */
    method AppendBasicBlock(fnName: string)
      modifies this
      ensures blocks == old(blocks)[fnName := []]
      ensures functions == old(functions)
    {
      blocks := blocks[fnName := []];
    }
  }

  /** The instruction builder: the function whose entry block it appends to. */
  class Builder {
    var position: Option<string>

    constructor ()
      ensures position == None
    {
      position := None;
    }

    /** `position_at_end` */
    method PositionAtEnd(fnName: string)
      modifies this
      ensures position == Some(fnName)
    {
      position := Some(fnName);
    }

    /** Every `build_*` call: append one instruction at the position. */
    method Build(m: Module, inst: Inst)
      requires position.Some? && position.value in m.blocks
      modifies m
      ensures m.blocks == Emit(old(m.blocks), position.value, [inst])
      ensures m.functions == old(m.functions)
    {
      m.blocks := m.blocks[position.value := m.blocks[position.value] + [inst]];
    }
  }

  class LlvmGenerator {
    const mdl: Module
    const builder: Builder

    constructor (mdl: Module, builder: Builder)
      ensures this.mdl == mdl && this.builder == builder
    {
      this.mdl := mdl;
      this.builder := builder;
    }

    ghost predicate Positioned()
      reads builder, mdl
    {
      builder.position.Some? && builder.position.value in mdl.blocks
    }

    /** `visit_expr`: appends exactly what `Lower` emits to the current
        block and returns its result. */
    method VisitExpr(e: Expr, vars: Env) returns (r: Result<Value>)
      requires Positioned()
      modifies mdl
      decreases e, 1
      ensures mdl.functions == old(mdl.functions)
      ensures var o, p := Lower(e, vars, old(mdl.functions)), builder.position.value;
        r == o.result && mdl.blocks == Emit(old(mdl.blocks), p, o.emitted)
    {
      ghost var p, start := builder.position.value, mdl.blocks;
      EmitNothing(start, p);
      match e
      case Add(_, _, _) => r := VisitArith(FAdd, e, vars);
      case Sub(_, _, _) => r := VisitArith(FSub, e, vars);
      case Mul(_, _, _) => r := VisitArith(FMul, e, vars);
      case Div(_, _, _) => r := VisitArith(FDiv, e, vars);
      case Num(n, _) => r := Ok(Const(n));
      case Var(x, _) =>
        if x in vars {
          r := Ok(vars[x]);
        } else {
          r := Err(VariableNotFound(x));
        }
      case Neg(a, _) =>
        var v := VisitExpr(a, vars);
        if v.Err? {
          return Err(v.error);
        }
        ghost var o := Lower(a, vars, mdl.functions);
        builder.Build(mdl, NegInst(v.value));
        EmitTwice(start, p, o.emitted, [NegInst(v.value)]);
        r := Ok(FNeg(v.value));
      case Call(f, args, _) => r := VisitCall(f.name, args, vars);
      case Let(_, _, _, _) => r := Err(Panic);
      case Fn(_, _, _, _, _) => r := Err(Panic);
    }

    method VisitArith(op: ArithOp, e: Expr, vars: Env) returns (r: Result<Value>)
      requires e.Add? || e.Sub? || e.Mul? || e.Div?
      requires Positioned()
      modifies mdl
      decreases e, 0
      ensures mdl.functions == old(mdl.functions)
      ensures var o, p := LowerArith(op, e, vars, old(mdl.functions)), builder.position.value;
        r == o.result && mdl.blocks == Emit(old(mdl.blocks), p, o.emitted)
    {
      ghost var p, start := builder.position.value, mdl.blocks;
      ghost var l, rr := Lower(e.left, vars, mdl.functions), Lower(e.right, vars, mdl.functions);
      var left := VisitExpr(e.left, vars);
      if left.Err? {
        return Err(left.error);
      }
      var right := VisitExpr(e.right, vars);
      EmitTwice(start, p, l.emitted, rr.emitted);
      if right.Err? {
        return Err(right.error);
      }
      builder.Build(mdl, ArithInst(op, left.value, right.value));
      EmitTwice(start, p, l.emitted + rr.emitted, [ArithInst(op, left.value, right.value)]);
      r := Ok(Arith(op, left.value, right.value));
    }

    /** `visit_call` */
    method VisitCall(name: string, args: seq<Expr>, vars: Env) returns (r: Result<Value>)
      requires Positioned()
      modifies mdl
      decreases args, 2
      ensures mdl.functions == old(mdl.functions)
      ensures var o, p := LowerCall(name, args, vars, old(mdl.functions)), builder.position.value;
        r == o.result && mdl.blocks == Emit(old(mdl.blocks), p, o.emitted)
    {
      ghost var fns, p := mdl.functions, builder.position.value;
      EmitNothing(mdl.blocks, p);
      var f := mdl.GetFunction(name);
      if f.None? {
        return Err(FunctionNotFound(name));
      }
      if |args| != f.value.params {
        return Err(IncorrectArguments);
      }
      var argsv: seq<Value> := [];
      for i := 0 to |args|
        invariant mdl.functions == fns && Positioned()
        invariant var a := LowerArgs(args[..i], vars, fns);
          a.result == Ok(argsv) && mdl.blocks == Emit(old(mdl.blocks), p, a.emitted)
      {
        assert args[..i + 1][..i] == args[..i];
        ghost var a := LowerArgs(args[..i], vars, fns);
        var v := VisitExpr(args[i], vars);
        EmitTwice(old(mdl.blocks), p, a.emitted, Lower(args[i], vars, fns).emitted);
        if v.Err? {
          LowerArgsStopsAtFailure(args, i + 1, vars, fns);
          return Err(v.error);
        }
        argsv := argsv + [v.value];
      }
      assert args[..|args|] == args;
      builder.Build(mdl, CallInst(name, argsv));
      EmitTwice(old(mdl.blocks), p, LowerArgs(args, vars, fns).emitted, [CallInst(name, argsv)]);
      if f.value.returnsValue {
        r := Ok(CallResult(name, argsv));
      } else {
        r := Err(CallFailed);
      }
    }

    /** The parameters' names bound to the parameters, in order. */
    static method BindParams(ps: seq<Ident>) returns (env: Env)
      ensures env == ParamEnv(ps)
    {
      env := map[];
      for i := 0 to |ps|
        invariant env == ParamEnv(ps[..i])
      {
        ParamEnvSnoc(ps, i);
        if ps[i].name !in env {
          env := env[ps[i].name := Param(i)];
        }
      }
      assert ps[..|ps|] == ps;
    }

    /** The `Fn` arm of `run`'s loop: it leaves the builder in the new
        function. */
    method DefineFunction(f: string, ps: seq<Ident>, body: Expr, verify: (string, seq<Inst>) -> bool)
      returns (r: Result<()>)
      modifies mdl, builder
      ensures Generated(r, Backend(mdl.functions, mdl.blocks))
        == DefineFn(f, ps, body, old(Backend(mdl.functions, mdl.blocks)), verify)
    {
      ghost var b0 := Backend(mdl.functions, mdl.blocks);
      var existing := mdl.GetFunction(f);
      if existing.Some? {
        return Err(DuplicateFunction(f));
      }
      mdl.AddFunction(f, Sig(|ps|, true));
      mdl.AppendBasicBlock(f);
      builder.PositionAtEnd(f);
      var vars := BindParams(ps);
      ghost var o := Lower(body, ParamEnv(ps), mdl.functions);
      var v := VisitExpr(body, vars);
      EmitFresh(b0.blocks, f, o.emitted);
      if v.Err? {
        return Err(v.error);
      }
      builder.Build(mdl, Ret(Some(v.value)));
      EmitOnto(b0.blocks, f, o.emitted, [Ret(Some(v.value))]);
      if verify(f, mdl.blocks[f]) {
        r := Ok(());
      } else {
        r := Err(MalformedFunction(f));
      }
    }

    /** `run`: the declaration loop, then the result printed from `main`. */
    method Run(root: Expr, verify: (string, seq<Inst>) -> bool) returns (r: Result<()>)
      requires mdl.functions == map[] && mdl.blocks == map[]
      modifies mdl, builder
      ensures Generated(r, Backend(mdl.functions, mdl.blocks)) == Compile(root, verify)
    {
      var vars: Env := map[];
      var e := root;
      mdl.AddFunction("main", Sig(0, false));
      mdl.AppendBasicBlock("main");
      builder.PositionAtEnd("main");
      while true
        invariant builder.position == Some("main") && "main" in mdl.blocks
        invariant Walk(e, vars, Backend(mdl.functions, mdl.blocks), verify) == Compile(root, verify)
        decreases e
      {
        ghost var b0 := Backend(mdl.functions, mdl.blocks);
        if e.Fn? {
          DefineFnFrame(e.binder.name, e.params, e.body, b0, verify);
          r := DefineFunction(e.binder.name, e.params, e.body, verify);
          if r.Err? {
            return;
          }
          e := e.rest;
          builder.PositionAtEnd("main");
        } else if e.Let? {
          ghost var o := Lower(e.rhs, vars, mdl.functions);
          var v := VisitExpr(e.rhs, vars);
          if v.Err? {
            return Err(v.error);
          }
          vars := vars[e.binder.name := v.value];
          e := e.rest;
        } else {
          ghost var o := Lower(e, vars, mdl.functions);
          var v := VisitExpr(e, vars);
          if v.Err? {
            return Err(v.error);
          }
          mdl.AddFunction("printf", Sig(1, true));
          builder.Build(mdl, Printf(v.value));
          EmitTwice(b0.blocks, "main", o.emitted, [Printf(v.value)]);
          EmitTwice(b0.blocks, "main", o.emitted + [Printf(v.value)], [Ret(None)]);
          AppendTwo(o.emitted, Printf(v.value), Ret(None));
          assert Walk(e, vars, b0, verify) == Generated(Ok(()), Backend(mdl.functions, Emit(mdl.blocks, "main", [Ret(None)])));
          break;
        }
      }
      builder.Build(mdl, Ret(None));
      r := Ok(());
    }

    /** `generate` */
    static method Generate(ast: Expr, mdl: Module, builder: Builder, verify: (string, seq<Inst>) -> bool)
      returns (r: Result<()>)
      requires mdl.functions == map[] && mdl.blocks == map[]
      modifies mdl, builder
      ensures Generated(r, Backend(mdl.functions, mdl.blocks)) == Compile(ast, verify)
    {
      var generator := new LlvmGenerator(mdl, builder);
      r := generator.Run(ast, verify);
    }
  }
}
