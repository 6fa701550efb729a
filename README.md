# foo_llvm: the parser's tree shapes and the IR generator, in Dafny

Foo is a tiny expression language that compiles to LLVM IR. A Foo program is:

- a chain of `let x = e;` and `fn f x y = e;` declarations;
- ending in one expression, whose value the program prints.

This project models two parts of the compiler:

- **The abstract syntax tree and the tree-shaping rules of the parser** (`src/parse.rs`).
  - `Expr` is a closed union of node kinds, each with an optional span.
  - `set_span` fills in a node's span.
  - The grammar's semantic actions are modelled:
    - the right fold that nests unary minus signs;
    - the left folds that chain products and sums;
    - the call and declaration alternatives.
- **The code generator** (`src/llvm/ir.rs`, `LlvmGenerator`).
  - It walks the declaration chain once.
  - It keeps a variable environment and a module-wide function table.
  - It emits instructions through a builder into the entry block of each function.
  - It fails fast on six semantic errors:
    - a duplicate function;
    - an unknown variable;
    - an unknown function;
    - a wrong argument count;
    - a call to a function that returns nothing, used as a value;
    - a function that fails verification.

Files:

- `syntax.dfy`, module `Syntax`: the `Expr` datatype and `SetSpan`.
- `grammar.dfy`, module `Grammar`: a derivation datatype, one level per grammar rule (atom, unary, product, sum, declaration). It records what the combinators matched and the span each sub-parser reported. The `Build*` functions are the parser's semantic actions on those derivations.
- `grammar_props.dfy`, module `GrammarProperties`. It proves:
  - the fold shapes;
  - precedence and grouping;
  - that expressions never contain declarations;
  - that, up to spans, every program has a derivation.
- `ir.dfy`, module `Ir`:
  - **Specification functions**: `Lower`, `LowerCall` and `LowerArgs` for `visit_expr` and `visit_call`; `DefineFn`, `Walk` and `Compile` for `run`.
  - **Classes**: `Module` holds the function table and the blocks, `Builder` holds the insertion position, and `LlvmGenerator` holds a module and a builder.
  - `LlvmGenerator`'s methods are imperative, using a `while` loop in `Run` and `for` loops in `VisitCall` and `BindParams`. Each is proved to leave exactly the state its specification function describes.
- `ir_props.dfy`, module `IrProperties`: the guarantees of the generator, proved about the specification functions and so, through the methods' contracts, about the methods.
  - the order of `visit_call`'s checks;
  - the two namespaces;
  - the function table;
  - the shape of `main`;
  - scoping examples;
  - the unreachability of the panic.
- `pipeline.dfy`, module `Pipeline`: the precondition of the panic is met by whatever the grammar builds.

Backend state is modelled narrowly:

- **Function table**: a map from each name to its parameter count and to whether it returns a value. It is pre-seeded with `main`, which takes nothing and returns nothing.
- **Blocks**: a map from each function's name to its entry block, an append-only sequence of instructions.
- **Values**: symbolic terms, such as `Const(n)`, `Param(i)`, `Arith(FAdd, a, b)`, `FNeg(a)` and `CallResult(f, args)`.
- **`verify`**: a parameter of type `(string, seq<Inst>) -> bool`, standing for LLVM's function verifier.
- **Errors**: kept as values of `GenError`. `Ir.Message` gives the exact message text the source formats.

Two behaviours of the code worth noting:

- **Duplicate function names.** Two functions with the same name are rejected only when the second is reached. The first one's body has already been lowered by then.
- **`let` bindings.** A `let` inserts into one mutable environment. A `let` that rebinds a name replaces the previous binding for everything after it, and that is what the model does.

## Model

| member | source | states |
|---|---|---|
| Syntax.SetSpan | src/parse.rs:168-182 | The result's span is `Some(s)`, and restoring the old span gives back the original node, so no other field or child changed. |
| Syntax.SetSpanFields | src/parse.rs:169-181 | For each of the ten variants, `SetSpan` gives the same constructor with the same fields and children and the new span. |
| Syntax.SetSpanLastWriteWins | src/parse.rs:181 | Setting a span twice equals setting only the second one. |
| Syntax.EraseSetSpan | src/parse.rs:168-182 | Spans carry no structure: up to spans, `SetSpan` changes nothing. |
| GrammarProperties.DecimalOfSpelling | src/parse.rs:37-38 | Every natural number has a decimal-token spelling that denotes it. |
| GrammarProperties.SpellingOfDecimal | src/parse.rs:37-38 | Every decimal token is the canonical spelling of the number it denotes, so tokens and numbers correspond one to one. |
| GrammarProperties.DecimalLowerBound | src/parse.rs:37 | A token with no leading zero denotes at least 1, and at least 10 when it has two or more digits. |
| GrammarProperties.ToDecimalLeadingDigit | src/parse.rs:37 | The canonical spelling starts with `0` exactly when the number is 0. |
| GrammarProperties.NegFoldLayers | src/parse.rs:65-67 | The right fold of k signs makes exactly k nested `Neg` nodes, every one without a span, around the atom. |
| GrammarProperties.UnarySigns | src/parse.rs:65-68 | With no sign, the atom itself gets the unary's span. With k signs there are k `Neg` layers around the atom, only the outermost carries the unary's span, and the inner ones carry `None`. |
| GrammarProperties.FoldProductLeftAssociative | src/parse.rs:70-78 | One more `*`/`/` step makes a node whose left child is the whole fold so far. |
| GrammarProperties.FoldSumLeftAssociative | src/parse.rs:81-89 | One more `+`/`-` step makes a node whose left child is the whole fold so far. |
| GrammarProperties.ProductShape | src/parse.rs:70-79 | A product with steps is the last step's node over the fold of the earlier steps, with the product's span. |
| GrammarProperties.SumShape | src/parse.rs:81-90 | A sum with steps is the last step's node over the fold of the earlier steps, with the sum's span. |
| GrammarProperties.MulDivChain | src/parse.rs:70-79 | `a * b / c` is `Div(Mul(a, b), c)`. The inner node has no span and the outer one has the product's span. |
| GrammarProperties.AddSubChain | src/parse.rs:81-90 | `a + b - c` is `Sub(Add(a, b), c)`. The inner node has no span and the outer one has the sum's span. |
| GrammarProperties.TimesBindsTighter | src/parse.rs:81-92 | In `a + b * c` the right operand of `Add` is the whole `Mul(b, c)`. |
| GrammarProperties.TwoPlusThreeTimesFour | src/parse.rs:54-61 | `2 + 3 * 4` is `Add(Num 2, Mul(Num 3, Num 4))`. |
| GrammarProperties.ParenthesesGroup | src/parse.rs:54-61 | `(a + b) * c` is `Mul(Add(a, b), c)`. The parentheses add no node, and the inner sum takes the unary's span. |
| GrammarProperties.TwoPlusThreeInParentheses | src/parse.rs:54-61 | `(2 + 3) * 4` is `Mul(Add(Num 2, Num 3), Num 4)`. |
| GrammarProperties.CallArguments | src/parse.rs:41-52 | A call builds one `Call` node whose arguments are the built argument expressions, in order and of the same number, with the call's span. A trailing comma changes nothing. |
| GrammarProperties.SumDeclFree | src/parse.rs:36-93 | Nothing the expression grammar builds contains a `Let` or `Fn` node. |
| GrammarProperties.DeclIsProgram | src/parse.rs:95-130 | The declaration grammar builds a program: `Let` and `Fn` appear only along the declaration chain, with declaration-free right-hand sides, bodies and final expression. |
| GrammarProperties.ReparseBuilds | src/parse.rs:36-93 | Up to spans, every declaration-free tree is built by some derivation of the expression grammar. |
| GrammarProperties.ReparseArgsBuild | src/parse.rs:41-48 | Up to spans, every list of declaration-free arguments of any length is built by some argument list. |
| GrammarProperties.ReparseProgramBuilds | src/parse.rs:95-130 | Up to spans, every program, including one whose functions have any number of parameters, is built by some derivation of the declaration grammar. |
| Ir.LlvmGenerator.VisitExpr | src/llvm/ir.rs:182-224 | The method returns `Lower`'s result and appends exactly `Lower`'s instructions to the current block. The function table and every other block are unchanged. |
| Ir.LlvmGenerator.VisitArith | src/llvm/ir.rs:188-211 | The left operand, then the right one, then one arithmetic instruction. It stops at the first error. |
| Ir.LlvmGenerator.VisitCall | src/llvm/ir.rs:230-256 | The loop over the arguments equals `LowerCall`: its result, and exactly its instructions appended to the current block. |
| Ir.LowerArgsStopsAtFailure | src/llvm/ir.rs:243-245 | Once a prefix of the arguments fails, the later arguments are not lowered and emit nothing. |
| Ir.ParamEnv | src/llvm/ir.rs:114-120 | Every parameter name is bound. Every bound name is bound to the first parameter of that name. |
| Ir.LlvmGenerator.BindParams | src/llvm/ir.rs:114-120 | The loop builds exactly `ParamEnv` of the parameters. |
| Ir.DefineFnFrame | src/llvm/ir.rs:82-131 | Defining a function loses no function and no block, and leaves every other function's signature and block unchanged. |
| Ir.LlvmGenerator.DefineFunction | src/llvm/ir.rs:78-131 | The new module and the result equal `DefineFn` of the old module. |
| Ir.LlvmGenerator.Run | src/llvm/ir.rs:61-171 | Starting from an empty module, the result and the final module equal `Compile` of the tree. |
| Ir.LlvmGenerator.Generate | src/llvm/ir.rs:263-270 | The same as `Run`, on a fresh generator. |
| Ir.Module.GetFunction | src/llvm/ir.rs:82 | The function returns the signature exactly when the name is declared. |
| Ir.Module.AddFunction | src/llvm/ir.rs:65-69 | The name is declared unless it was already taken. The blocks are unchanged. |
| Ir.Module.AppendBasicBlock | src/llvm/ir.rs:70 | The function gets an empty entry block. The table is unchanged. |
| Ir.Builder.Build | src/llvm/ir.rs:122 | One instruction is appended to the block at the builder's position. Nothing else changes. |
| IrProperties.LowerPlain | src/llvm/ir.rs:182-224 | `visit_expr` never emits a `printf` call or a `ret`. |
| IrProperties.LowerDependsOnlyOnUses | src/llvm/ir.rs:213 | Variables and functions are separate namespaces. Lowering depends only on the environment at the names the tree reads as variables and on the function table at the names it calls. |
| IrProperties.VariableIsNotCallable | src/llvm/ir.rs:236-237 | `let f = 1; f(1)` fails with "function `f` not found in scope". |
| IrProperties.CallOutcome | src/llvm/ir.rs:236-253 | An unknown callee fails with `FunctionNotFound`, and a wrong argument count with `IncorrectArguments`. Both fail before anything is emitted. A call succeeds exactly when the callee is known, the count matches, every argument lowers and the callee returns a value. The value is the call over the argument values, and the code is the arguments' code followed by the call. With a known callee and the right count, a failing argument list makes the call fail with that list's error and code. |
| IrProperties.ArgsSucceed | src/llvm/ir.rs:242-245 | The arguments succeed exactly when each one does. The values are then in argument order, and the code is each argument's code in turn. |
| IrProperties.ArgsFail | src/llvm/ir.rs:242-245 | A failing list reports the error of its first failing argument. Its code is the code of the earlier arguments followed by that argument's code. |
| IrProperties.VoidCallFails | src/llvm/ir.rs:246-253 | A well-formed call to a function that returns nothing fails with "failed to build function call". It still emits the arguments' code and then the call. |
| IrProperties.CallingMainFails | src/llvm/ir.rs:246-253 | `main()` fails with `CallFailed`. |
| IrProperties.WrongArgumentCount | src/llvm/ir.rs:239-241 | `fn f x = x; f(1, 2)` fails with `IncorrectArguments`. |
| IrProperties.WalkKeepsFunctions | src/llvm/ir.rs:65-167 | The walk only adds functions. Every function the module held keeps its signature. |
| IrProperties.WalkDeclares | src/llvm/ir.rs:82-99 | On success, every declared name was new to the module, no name was declared twice, and each function is in the table with exactly its number of parameters and returning a value. |
| IrProperties.CompileDeclares | src/llvm/ir.rs:65-99 | On success, `main` keeps its signature, no declared function is named `main`, and every declared function is in the table with its parameter count. |
| IrProperties.DuplicateRejected | src/llvm/ir.rs:82-83 | A `fn` whose name the module already has fails with `DuplicateFunction` and leaves the module as it was. |
| IrProperties.MainIsReserved | src/llvm/ir.rs:65-69 | A program whose first declaration is `fn main` fails with `DuplicateFunction("main")` on the untouched start module. |
| IrProperties.DeclaredBeforeBody | src/llvm/ir.rs:86-122 | The function is in the table, with its parameter count, while its body is lowered. Its block is the body's code followed by `ret` of its value. |
| IrProperties.BodyMayCallItself | src/llvm/ir.rs:90-122 | Inside the body of a new function `f`, a call of `f` with as many arguments as `f` has parameters, all of which lower, produces a call result of `f` with that many argument values. |
| IrProperties.SelfCall | src/llvm/ir.rs:90-122 | `fn f n = f(n); f(1)` succeeds. The body of `f` calls `f` itself on its parameter. |
| IrProperties.OuterLetInvisible | src/llvm/ir.rs:114-120 | `let x = 1; fn f y = x + y; f(2)` fails with "variable `x` not found in scope". |
| IrProperties.LetShadows | src/llvm/ir.rs:132-135 | `let x = 1; let x = x + 1; x` prints `1 + 1`: the right-hand side sees the old `x`, and later code sees the new one. |
| IrProperties.WalkMainBlock | src/llvm/ir.rs:73-167 | `main` is only appended to. On success its new code ends in exactly one `printf` call and one `ret void`, with neither anywhere before. On failure it holds neither. |
| IrProperties.CompileMainBlock | src/llvm/ir.rs:65-167 | For every program and every verifier, `main`'s block has the shape `WalkMainBlock` describes. |
| IrProperties.DeclFreeNeverPanics | src/llvm/ir.rs:222 | `visit_expr` never reaches its `panic!()` on a tree with no `Let` or `Fn` node. |
| IrProperties.ProgramNeverPanics | src/llvm/ir.rs:73-137 | The walk of a program never reaches the panic. |
| IrProperties.LetOperandPanics | src/llvm/ir.rs:217-222 | The panic can be reached: a `Let` used as an operand reaches it. |
| Pipeline.ParsedProgramNeverPanics | src/parse.rs:95-133 | Whatever the declaration grammar builds, generating code for it never reaches the panic. |

## Left out

- Floating point: values are symbolic terms, and literals are the natural numbers a decimal token denotes. `f64` arithmetic and `const_float` are not modelled.
- `verify` is a parameter, not LLVM's verifier. The result of `main.verify(true)` is ignored, as in the source.
- Ir.ParamEnv: LLVM renames duplicate parameter names (a second `x` becomes `x1`), and the body's environment is keyed by the renamed names. The model binds each written name to its first parameter and does not generate the renamed names. It therefore agrees with the source only when no parameter is written with a name that LLVM generated for an earlier duplicate: in `fn f x x x1 = x1`, the source binds `x1` to the second parameter and the model binds it to the third.
- `printf`'s varargs signature, the format string global (`%f\n`) and the argument list of the `printf` call are not modelled. `Inst.Printf` records only the printed value.
- Ir.Module.AddFunction: LLVM gives a new function with a taken name a fresh name, and the model keeps the table unchanged instead. This can happen only to `printf`, when the program defined its own.
- Errors from the builder (`BuilderError` through `?`) are not modelled: the model's builder always succeeds.
- `visit_expr`'s `panic!()` is modelled as the error value `Panic`, not as a crash. The lemmas show that it is never produced on parsed programs.
- chumsky itself is not modelled: error recovery and `Rich` errors, whitespace padding, keyword and identifier tokenisation, and exact span offsets. Spans are whatever each sub-parser reports. The grammar is modelled through derivations and their semantic actions.
- Grammar.CallAtom: the derivation allows a trailing comma with no arguments (`f(,)`), which the parser rejects, because a trailing separator is accepted only after an argument. That derivation builds the same node as `f()`.
- Basic-block names (`main_enter`, `f_enter`) are not modelled. Each function has one entry block, keyed by the function's name.
- src/main.rs, src/bin.rs, src/error.rs, src/llvm/target.rs and src/llvm/mod.rs are not part of this model. They hold file and process I/O, terminal rendering and LLVM target output.
