/** The evaluation façade of cmd/eval.go: `baseEnv`, `eval`, `evalAndPrint`, and the `eval`
    command's run function that chains the variables flag parser and the façade.

    The CEL engine (cel-go) is foreign code. It is the `Engine` value: five operations, each of
    which may fail: build an environment from options, extend it, compile an expression, build a
    program, run the program against an activation. What the façade adds on top is modelled
    exactly: the fixed base options, one dynamically typed declaration per variable, the
    activation, and the order in which the stages run and stop. */
module Evaluation {
  import opened Wrappers
  import opened Values
  import Variables

  datatype CelType = DynType

  /** The environment options the façade passes to the engine. `ExtensionLibs` stands for the
      whole slice `library.ExtensionLibs` of Kubernetes' CEL libraries. */
  datatype EnvOption =
    | HomogeneousAggregateLiterals
    | EagerlyValidateDeclarations(enabled: bool)
    | DefaultUTCTimeZone(enabled: bool)
    | ExtensionLibs
    | Variable(name: string, celType: CelType)

  /** `cel.OptimizeRegex(library.ExtensionLibRegexOptimizations...)`. */
  datatype ProgramOption = OptimizeRegex

  /** The CEL engine's operations. The declarations reach `extend` as a multiset: Go ranges over
      the variables map in an unspecified order, so only which declarations are made, and how
      often, is determined. */
  datatype Engine<!Env, !Ast, !Prog> = Engine(
    newEnv: seq<EnvOption> -> Result<Env>,
    extend: (Env, multiset<EnvOption>) -> Result<Env>,
    compile: (Env, string) -> Result<Ast>,
    program: (Env, Ast, seq<ProgramOption>) -> Result<Prog>,
    run: (Prog, map<string, Value>) -> Result<Value>)

  /** The engine stages, in the order the façade runs them. */
  datatype Stage = NewEnvStage | ExtendStage | CompileStage | ProgramStage | RunStage

  const AllStages: seq<Stage> := [NewEnvStage, ExtendStage, CompileStage, ProgramStage, RunStage]

  /** The outcome of an evaluation and the engine stages it ran. */
  datatype Evaluated = Evaluated(result: Result<Value>, attempted: seq<Stage>)

  /** The options of the base environment. */
  function BaseOptions(): seq<EnvOption>
  {
    [HomogeneousAggregateLiterals, EagerlyValidateDeclarations(true), DefaultUTCTimeZone(true), ExtensionLibs]
  }

  /** One dynamically typed declaration for each name. */
  function Declarations(names: set<string>): multiset<EnvOption>
  {
    multiset(set n | n in names :: Variable(n, DynType))
  }

  /** What `eval` does, stage by stage: the base environment, its extension by the variables'
      declarations, compilation against the extension, a program built on the base environment,
      and a run with the variables as activation; the first failing stage ends it. */
  function Pipeline<Env, Ast, Prog>(expression: string, vars: map<string, Value>, cel: Engine<Env, Ast, Prog>): Evaluated
  {
    match cel.newEnv(BaseOptions())
    case Err(e) => Evaluated(Err(e), AllStages[..1])
    case Ok(base) =>
      match cel.extend(base, Declarations(vars.Keys))
      case Err(e) => Evaluated(Err(e), AllStages[..2])
      case Ok(env) =>
        match cel.compile(env, expression)
        case Err(e) => Evaluated(Err(e), AllStages[..3])
        case Ok(ast) =>
          match cel.program(base, ast, [OptimizeRegex])
          case Err(e) => Evaluated(Err(e), AllStages[..4])
          case Ok(prog) => Evaluated(cel.run(prog, vars), AllStages)
  }

  /** `baseEnv`: the base environment, built from the options appended in turn. */
  method BaseEnv<Env, Ast, Prog>(cel: Engine<Env, Ast, Prog>) returns (r: Result<Env>)
    ensures r == cel.newEnv(BaseOptions())
  {
    var opts: seq<EnvOption> := [];
    opts := opts + [HomogeneousAggregateLiterals];
    opts := opts + [EagerlyValidateDeclarations(true), DefaultUTCTimeZone(true)];
    opts := opts + [ExtensionLibs];
    assert opts == BaseOptions();
    r := cel.newEnv(opts);
  }

  /** Declaring one more name adds exactly its declaration. */
  lemma DeclarationsAdd(names: set<string>, n: string)
    requires n !in names
    ensures Declarations(names + {n}) == Declarations(names) + multiset{Variable(n, DynType)}
  {
    var before := set m | m in names :: Variable(m, DynType);
    var after := set m | m in names + {n} :: Variable(m, DynType);
    assert after == before + {Variable(n, DynType)};
    assert Variable(n, DynType) !in before;
  }

  /** `eval`: declare each variable with the dynamic type and put it in the activation, then run
      the stages in order, stopping at the first failure. */
  method Eval<Env, Ast, Prog>(expression: string, vars: map<string, Value>, cel: Engine<Env, Ast, Prog>) returns (r: Result<Value>)
    ensures r == Pipeline(expression, vars, cel).result
  {
    var envOpts: seq<EnvOption> := [];
    var baseEnv := BaseEnv(cel);
    if baseEnv.Err? {
      return Err(baseEnv.error);
    }
    var activation: map<string, Value> := map[];
    var remaining := vars.Keys;
    while remaining != {}
      invariant remaining <= vars.Keys
      invariant activation == map n | n in vars.Keys - remaining :: vars[n]
      invariant multiset(envOpts) == Declarations(vars.Keys - remaining)
      decreases remaining
    {
      var variableName :| variableName in remaining;
      DeclarationsAdd(vars.Keys - remaining, variableName);
      assert vars.Keys - (remaining - {variableName}) == (vars.Keys - remaining) + {variableName};
      envOpts := envOpts + [Variable(variableName, DynType)];
      activation := activation[variableName := vars[variableName]];
      remaining := remaining - {variableName};
    }
    assert vars.Keys - remaining == vars.Keys;
    assert activation == vars;
    var env := cel.extend(baseEnv.value, multiset(envOpts));
    if env.Err? {
      return Err(env.error);
    }
    var ast := cel.compile(env.value, expression);
    if ast.Err? {
      return Err(ast.error);
    }
    var program := cel.program(baseEnv.value, ast.value, [OptimizeRegex]);
    if program.Err? {
      return Err(program.error);
    }
    var result := cel.run(program.value, activation);
    if result.Err? {
      return Err(result.error);
    }
    return Ok(result.value);
  }

  /** Exactly one declaration per variable, each of the dynamic type, and nothing else. */
  lemma DeclarationsExact(names: set<string>)
    ensures forall n :: Declarations(names)[Variable(n, DynType)] == (if n in names then 1 else 0)
    ensures forall o :: o in Declarations(names) ==> o.Variable? && o.name in names && o.celType == DynType
    ensures |Declarations(names)| == |names|
  {
    var decls := set n | n in names :: Variable(n, DynType);
    forall n ensures Declarations(names)[Variable(n, DynType)] == (if n in names then 1 else 0) {
      assert Variable(n, DynType) in decls <==> n in names;
    }
    DeclarationsCount(names);
  }

  /** The declarations are as many as the names. */
  lemma {:induction false} DeclarationsCount(names: set<string>)
    ensures |Declarations(names)| == |names|
    decreases |names|
  {
    if names != {} {
      var n :| n in names;
      DeclarationsCount(names - {n});
      DeclarationsAdd(names - {n}, n);
      assert names - {n} + {n} == names;
    }
  }

  /** The stages run in the fixed order and stop at the first failure: the stages attempted are
      a non-empty prefix of all five, every failure ends the run, and a value is produced only
      when all five ran. */
  lemma PipelineStopsAtFirstFailure<Env, Ast, Prog>(expression: string, vars: map<string, Value>, cel: Engine<Env, Ast, Prog>)
    ensures var ev := Pipeline(expression, vars, cel);
      1 <= |ev.attempted| <= |AllStages| && ev.attempted == AllStages[..|ev.attempted|]
    ensures var ev := Pipeline(expression, vars, cel);
      |ev.attempted| < |AllStages| ==> ev.result.Err?
    ensures Pipeline(expression, vars, cel).result.Ok? ==> Pipeline(expression, vars, cel).attempted == AllStages
  {
  }

  /** `eval` yields a value exactly when all five engine calls succeed, and the value is the
      run's; otherwise its error is that of the first engine call that fails. */
  lemma {:induction false} PipelineOutcome<Env, Ast, Prog>(expression: string, vars: map<string, Value>, cel: Engine<Env, Ast, Prog>)
    ensures var r := Pipeline(expression, vars, cel).result;
      var base := cel.newEnv(BaseOptions());
      base.Err? ==> r == Err(base.error)
    ensures var r := Pipeline(expression, vars, cel).result;
      var base := cel.newEnv(BaseOptions());
      base.Ok? ==>
        var env := cel.extend(base.value, Declarations(vars.Keys));
        env.Err? ==> r == Err(env.error)
    ensures var r := Pipeline(expression, vars, cel).result;
      var base := cel.newEnv(BaseOptions());
      base.Ok? ==>
        var env := cel.extend(base.value, Declarations(vars.Keys));
        env.Ok? ==>
          var ast := cel.compile(env.value, expression);
          ast.Err? ==> r == Err(ast.error)
    ensures var r := Pipeline(expression, vars, cel).result;
      var base := cel.newEnv(BaseOptions());
      base.Ok? ==>
        var env := cel.extend(base.value, Declarations(vars.Keys));
        env.Ok? ==>
          var ast := cel.compile(env.value, expression);
          ast.Ok? ==>
            var prog := cel.program(base.value, ast.value, [OptimizeRegex]);
            prog.Err? ==> r == Err(prog.error)
    ensures var r := Pipeline(expression, vars, cel).result;
      var base := cel.newEnv(BaseOptions());
      r.Ok? <==>
        base.Ok? &&
        var env := cel.extend(base.value, Declarations(vars.Keys));
        env.Ok? &&
        var ast := cel.compile(env.value, expression);
        ast.Ok? &&
        var prog := cel.program(base.value, ast.value, [OptimizeRegex]);
        prog.Ok? && cel.run(prog.value, vars).Ok?
    ensures var r := Pipeline(expression, vars, cel).result;
      var base := cel.newEnv(BaseOptions());
      base.Ok? ==>
        var env := cel.extend(base.value, Declarations(vars.Keys));
        env.Ok? ==>
          var ast := cel.compile(env.value, expression);
          ast.Ok? ==>
            var prog := cel.program(base.value, ast.value, [OptimizeRegex]);
            prog.Ok? ==> r == cel.run(prog.value, vars)
  {
  }

  /** A stage that is not reached is not consulted: changing the operations of the stages after
      the last one attempted leaves the outcome unchanged. */
  lemma PipelineIgnoresUnreachedStages<Env, Ast, Prog>(expression: string, vars: map<string, Value>,
      cel: Engine<Env, Ast, Prog>,
      extend': (Env, multiset<EnvOption>) -> Result<Env>,
      compile': (Env, string) -> Result<Ast>,
      program': (Env, Ast, seq<ProgramOption>) -> Result<Prog>,
      run': (Prog, map<string, Value>) -> Result<Value>)
    ensures |Pipeline(expression, vars, cel).attempted| < 2 ==>
      Pipeline(expression, vars, cel.(extend := extend', compile := compile', program := program', run := run'))
        == Pipeline(expression, vars, cel)
    ensures |Pipeline(expression, vars, cel).attempted| < 3 ==>
      Pipeline(expression, vars, cel.(compile := compile', program := program', run := run'))
        == Pipeline(expression, vars, cel)
    ensures |Pipeline(expression, vars, cel).attempted| < 4 ==>
      Pipeline(expression, vars, cel.(program := program', run := run')) == Pipeline(expression, vars, cel)
    ensures |Pipeline(expression, vars, cel).attempted| < 5 ==>
      Pipeline(expression, vars, cel.(run := run')) == Pipeline(expression, vars, cel)
  {
  }

  /** `evalAndPrint`: on success the output is the value's text form and a newline; on failure
      nothing is printed and the error is returned. */
  method EvalAndPrint<Env, Ast, Prog>(expression: string, vars: map<string, Value>, cel: Engine<Env, Ast, Prog>,
      render: Value -> string) returns (r: Outcome, stdout: string)
    ensures Pipeline(expression, vars, cel).result.Ok? ==>
      r == Pass && stdout == render(Pipeline(expression, vars, cel).result.value) + "\n"
    ensures Pipeline(expression, vars, cel).result.Err? ==>
      r == Fail(Pipeline(expression, vars, cel).result.error) && stdout == ""
  {
    var result := Eval(expression, vars, cel);
    if result.Err? {
      return Fail(result.error), "";
    }
    return Pass, render(result.value) + "\n";
  }

  /** The `eval` command: parse the variables flag, and only when that succeeds evaluate and
      print. A parse failure is returned with nothing printed. */
  method RunEvalCommand<Env, Ast, Prog>(expression: string, variables: string, files: Variables.Files,
      cel: Engine<Env, Ast, Prog>, render: Value -> string) returns (r: Outcome, stdout: string)
    ensures Variables.VariablesFlag(variables, files).result.Err? ==>
      r == Fail(Variables.VariablesFlag(variables, files).result.error) && stdout == ""
    ensures Variables.VariablesFlag(variables, files).result.Ok? ==>
      var ev := Pipeline(expression, Variables.VariablesFlag(variables, files).result.value, cel);
      (r == Pass <==> ev.result.Ok?) &&
      (ev.result.Ok? ==> stdout == render(ev.result.value) + "\n") &&
      (ev.result.Err? ==> r == Fail(ev.result.error) && stdout == "")
  {
    var vars, _ := Variables.ParseVariablesFlag(variables, files);
    if vars.Err? {
      return Fail(vars.error), "";
    }
    r, stdout := EvalAndPrint(expression, vars.value, cel, render);
  }
}
