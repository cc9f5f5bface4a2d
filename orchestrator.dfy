/** The one-challenge runner: picking a challenge from the dataset, the fallbacks
    for the exported server name and port, the cleanup bookkeeping around a run,
    and the exit codes of the command line. Docker, the baseline environment, the
    agent and the clock are outside the model: what each external step does is
    given as a parameter (`Environment`). */
module Orchestrator {
  import opened PyDict
  import opened PyText
  import opened PyValue

  /** The exceptions that matter to the control flow. `KeyboardInterrupt` is not
      an `Exception`, so `except Exception` does not catch it. */
  datatype ErrorKind =
    | FileNotFoundError | KeyError | TypeError | ValueError | NameError | StopIteration | OtherError
  datatype Exc = KeyboardInterrupt | Error(kind: ErrorKind)

  /** How one step ends: normally, or by raising. */
  datatype Step = Ok | Raises(exc: Exc)

  // ---------------------------------------------------------------------------
  // Picking a challenge

  datatype Pick = Picked(key: string, meta: Value) | PickRaised(exc: Exc)

  /** `if key:` */
  predicate GivenKey(key: Option<string>) {
    key.Some? && key.value != ""
  }

  /** `pick_challenge(dataset, key)` */
  function PickChallenge(dataset: Dict<string, Value>, key: Option<string>): (r: Pick)
    ensures GivenKey(key) && key.value in Keys(dataset) ==> r == Picked(key.value, Get(dataset, key.value).value)
    ensures GivenKey(key) && key.value !in Keys(dataset) ==> r == PickRaised(Error(KeyError))
    ensures !GivenKey(key) && dataset == [] ==> r == PickRaised(Error(StopIteration))
  {
    if GivenKey(key) then
      match Get(dataset, key.value)
      case None => PickRaised(Error(KeyError))
      case Some(meta) => Picked(key.value, meta)
    else if dataset == [] then PickRaised(Error(StopIteration))
    else Picked(dataset[0].0, dataset[0].1)
  }

  /** Whatever the key, a pick is an entry of the dataset, and without a key it is
      the first entry in insertion order. */
  lemma PickIsEntry(dataset: Dict<string, Value>, key: Option<string>)
    ensures var r := PickChallenge(dataset, key);
            r.Picked? ==> Get(dataset, r.key) == Some(r.meta)
    ensures !GivenKey(key) && dataset != [] ==> PickChallenge(dataset, key) == Picked(Keys(dataset)[0], dataset[0].1)
  {
    if !GivenKey(key) && dataset != [] {
      GetFirst(dataset, 0);
    }
  }

  // ---------------------------------------------------------------------------
  // Server name and port

  /** `meta.get(k)` */
  function MetaGet(meta: Dict<Scalar, Value>, k: string): Value {
    match Get(meta, SStr(k))
    case Some(v) => v
    case None => PNone
  }

  /** `c0 or c1 or ... or fallback` */
  function FirstTruthy(candidates: seq<Value>, fallback: Value): Value {
    if candidates == [] then fallback
    else if Truthy(candidates[0]) then candidates[0]
    else FirstTruthy(candidates[1..], fallback)
  }

  /** An `or` chain gives its first truthy candidate, or the fallback when every
      candidate is falsy. */
  lemma {:induction false} FirstTruthyIsFirst(candidates: seq<Value>, fallback: Value)
    ensures (forall i :: 0 <= i < |candidates| ==> !Truthy(candidates[i]))
            ==> FirstTruthy(candidates, fallback) == fallback
    ensures forall i :: (0 <= i < |candidates| && Truthy(candidates[i])
                         && forall j :: 0 <= j < i ==> !Truthy(candidates[j]))
                        ==> FirstTruthy(candidates, fallback) == candidates[i]
  {
    if candidates != [] {
      FirstTruthyIsFirst(candidates[1..], fallback);
      forall i | 0 < i < |candidates| && Truthy(candidates[i])
                 && forall j :: 0 <= j < i ==> !Truthy(candidates[j])
        ensures FirstTruthy(candidates, fallback) == candidates[i]
      {
        assert candidates[1..][i - 1] == candidates[i];
        assert !Truthy(candidates[0]);
      }
    }
  }

  /** `a or b` */
  function Or(a: Value, b: Value): Value {
    if Truthy(a) then a else b
  }

  /** The server name exported to the agent: never falsy. */
  function ServerName(meta: Dict<Scalar, Value>): (r: Value)
    ensures Truthy(r)
  {
    Or(Or(Or(MetaGet(meta, "server_name"), MetaGet(meta, "box")), MetaGet(meta, "host")),
       PStr("challenge"))
  }

  /** The port value, before `str()`: never falsy. */
  function PortValue(meta: Dict<Scalar, Value>): (r: Value)
    ensures Truthy(r)
  {
    Or(Or(MetaGet(meta, "port"), MetaGet(meta, "internal_port")), PInt(80))
  }

  /** The port exported to the agent, through `str()`: never empty. `None` stands
      for the `repr` of a list or a dict, which the model does not spell out. */
  function Port(meta: Dict<Scalar, Value>): (r: Option<string>)
    ensures r.None? <==> PortValue(meta).PList? || PortValue(meta).PDict?
    ensures r.Some? ==> r.value != ""
  {
    Text(PortValue(meta))
  }

  /** The server name is always truthy: an empty name is skipped, and with no
      truthy field the name is `challenge`. */
  lemma ServerNameTruthy(meta: Dict<Scalar, Value>)
    ensures Truthy(ServerName(meta))
    ensures ServerName(meta) in [MetaGet(meta, "server_name"), MetaGet(meta, "box"),
                                 MetaGet(meta, "host"), PStr("challenge")]
  {
  }

  /** A left-nested `or` chain is the first truthy of its operands. */
  lemma OrChain(a: Value, b: Value, c: Value, d: Value)
    ensures Or(Or(a, b), d) == FirstTruthy([a, b], d)
    ensures Or(Or(Or(a, b), c), d) == FirstTruthy([a, b, c], d)
  {
    assert FirstTruthy([c], d) == Or(c, d) by {
      assert [c][1..] == [];
    }
    assert FirstTruthy([b, c], d) == Or(b, FirstTruthy([c], d)) by {
      assert [b, c][1..] == [c];
    }
    assert FirstTruthy([a, b, c], d) == Or(a, FirstTruthy([b, c], d)) by {
      assert [a, b, c][1..] == [b, c];
    }
    assert FirstTruthy([b], d) == Or(b, d) by {
      assert [b][1..] == [];
    }
    assert FirstTruthy([a, b], d) == Or(a, FirstTruthy([b], d)) by {
      assert [a, b][1..] == [b];
    }
  }

  /** The server name is the first truthy of `server_name`, `box` and `host`, else
      `challenge`; the port is the first truthy of `port` and `internal_port`, else 80. */
  lemma FallbacksAreFirstTruthy(meta: Dict<Scalar, Value>)
    ensures ServerName(meta)
         == FirstTruthy([MetaGet(meta, "server_name"), MetaGet(meta, "box"), MetaGet(meta, "host")],
                        PStr("challenge"))
    ensures Port(meta) == Text(FirstTruthy([MetaGet(meta, "port"), MetaGet(meta, "internal_port")], PInt(80)))
  {
    OrChain(MetaGet(meta, "server_name"), MetaGet(meta, "box"), MetaGet(meta, "host"), PStr("challenge"));
    OrChain(MetaGet(meta, "port"), MetaGet(meta, "internal_port"), PNone, PInt(80));
  }

  lemma ServerNameExamples()
    ensures ServerName([(SStr("server_name"), PStr("")), (SStr("box"), PStr("b"))]) == PStr("b")
    ensures ServerName([(SStr("host"), PStr("h")), (SStr("server_name"), PStr("s"))]) == PStr("s")
    ensures ServerName([]) == PStr("challenge")
  {
    var m1 := [(SStr("server_name"), PStr("")), (SStr("box"), PStr("b"))];
    assert MetaGet(m1, "server_name") == PStr("");
    assert MetaGet(m1, "box") == PStr("b");
    var m2 := [(SStr("host"), PStr("h")), (SStr("server_name"), PStr("s"))];
    assert MetaGet(m2, "server_name") == PStr("s");
  }

  /** A port of 0 falls through to `internal_port`; with neither, the port is 80. */
  lemma PortExamples()
    ensures Port([(SStr("port"), PInt(0)), (SStr("internal_port"), PInt(1337))]) == Some("1337")
    ensures Port([(SStr("port"), PStr("8080"))]) == Some("8080")
    ensures Port([]) == Some("80")
  {
    var m := [(SStr("port"), PInt(0)), (SStr("internal_port"), PInt(1337))];
    assert MetaGet(m, "port") == PInt(0);
    assert MetaGet(m, "internal_port") == PInt(1337);
    assert IntToString(1337) == "1337";
    assert IntToString(80) == "80";
  }

  // ---------------------------------------------------------------------------
  // Running with cleanup

  /** How each external step of a run ends. The compose steps include the
      `subprocess.run(..., check=True)` calls and the waits after them. */
  datatype Environment = Environment(
    composeFileExists: bool,  // `docker-compose.yaml` in the challenge directory
    composeUp: Step,          // `docker compose up -d`, then the 3 s wait
    challengeBuild: Step,     // importing and constructing `CTFChallenge`
    envConstruct: Step,       // `CTFEnvironment(...)`, once the name resolves
    envSetup: Step,           // `env_obj.setup()`, then the 2 s wait
    agentRun: Step,           // importing, constructing and running the agent
    teardown: Step,           // `env_obj.teardown(None, None, None)`
    composeDown: Step)        // `stop_compose_if_needed`

  /** `new_main.py` never imports `CTFEnvironment`. */
  const CtfEnvironmentImported := false

  /** What the run reads from the challenge metadata: `meta['path']`, if present,
      the server name and the port value. */
  datatype Target = Target(path: Option<Value>, serverName: Value, port: Value)

  function TargetOf(meta: Dict<Scalar, Value>): Target {
    Target(Get(meta, SStr("path")), ServerName(meta), PortValue(meta))
  }

  /** `Path(meta['path'])`: a missing key raises `KeyError`, a non-string `TypeError`. */
  function PathStep(t: Target): (r: Step)
    ensures r.Ok? <==> t.path.Some? && t.path.value.PStr?
    ensures r.Raises? ==> r.exc == Error(KeyError) || r.exc == Error(TypeError)
  {
    match t.path
    case None => Raises(Error(KeyError))
    case Some(p) => if p.PStr? then Ok else Raises(Error(TypeError))
  }

  /** `started_compose` ends true exactly when the compose file exists and came up. */
  predicate ComposeStarted(t: Target, env: Environment) {
    PathStep(t).Ok? && env.composeFileExists && env.composeUp.Ok?
  }

  /** Writing the server name, then the port, into `os.environ`: a value that is
      not a string raises `TypeError`, and a string holding a NUL raises `ValueError`.
      The port has been through `str()`, so only a string port can hold a NUL (the
      `repr` of a list or a dict escapes it). */
  function ExportStep(t: Target): (r: Step)
    ensures r.Ok? <==> t.serverName.PStr? && '\0' !in t.serverName.s && !(t.port.PStr? && '\0' in t.port.s)
    ensures r == Raises(Error(TypeError)) <==> !t.serverName.PStr?
    ensures r.Raises? ==> r.exc == Error(TypeError) || r.exc == Error(ValueError)
  {
    if !t.serverName.PStr? then Raises(Error(TypeError))
    else if '\0' in t.serverName.s then Raises(Error(ValueError))
    else if t.port.PStr? && '\0' in t.port.s then Raises(Error(ValueError))
    else Ok
  }

  /** `CTFEnvironment(...)`: a `NameError` unless the name was imported. */
  function ConstructStep(env: Environment, imported: bool): Step {
    if imported then env.envConstruct else Raises(Error(NameError))
  }

  /** The steps of the `try` block in order; a step is only reached when all the
      steps before it ended normally. */
  function BodySteps(t: Target, env: Environment, imported: bool): (r: seq<Step>)
    ensures ComposeStarted(t, env) ==> r == [Ok, Ok, ExportStep(t), env.agentRun]
    ensures !env.composeFileExists ==>
      r == [PathStep(t), ExportStep(t), env.challengeBuild, ConstructStep(env, imported), env.envSetup, env.agentRun]
  {
    [PathStep(t)]
    + (if env.composeFileExists then [env.composeUp] else [])
    + [ExportStep(t)]
    + (if ComposeStarted(t, env) then []
       else [env.challengeBuild, ConstructStep(env, imported), env.envSetup])
    + [env.agentRun]
  }

  /** The first step that raised, or `Ok` when none did. */
  function FirstFailure(steps: seq<Step>): (r: Step)
    ensures r.Ok? <==> forall i :: 0 <= i < |steps| ==> steps[i].Ok?
    ensures r.Raises? ==> r in steps
  {
    if steps == [] then Ok
    else if steps[0].Raises? then steps[0]
    else FirstFailure(steps[1..])
  }

  /** A run of steps ends with the first step that raised. */
  lemma {:induction false} FirstFailureAt(steps: seq<Step>, i: nat)
    requires i < |steps| && steps[i].Raises?
    requires forall j :: 0 <= j < i ==> steps[j].Ok?
    ensures FirstFailure(steps) == steps[i]
  {
    if i > 0 {
      FirstFailureAt(steps[1..], i - 1);
    }
  }

  /** When every step ends normally, so does the run. */
  lemma FirstFailureAllOk(steps: seq<Step>)
    requires forall j :: 0 <= j < |steps| ==> steps[j].Ok?
    ensures FirstFailure(steps) == Ok
  {
  }

  /** `env_obj` is assigned exactly when construction was reached and succeeded. */
  predicate EnvAssigned(t: Target, env: Environment, imported: bool) {
    PathStep(t).Ok? && !env.composeFileExists && ExportStep(t).Ok?
    && env.challengeBuild.Ok? && ConstructStep(env, imported).Ok?
  }

  /** The step the `finally` block runs, if any. */
  datatype Cleanup = Teardown | ComposeDown

  /** What `run_agent_with_env` ends with: the first failure of the body, unless a
      cleanup step raised `KeyboardInterrupt`, which replaces it. Any `Exception`
      from a cleanup step is caught and printed. */
  function RunOutcome(t: Target, env: Environment, imported: bool): (r: Step)
    ensures r != FirstFailure(BodySteps(t, env, imported)) ==> r == Raises(KeyboardInterrupt)
    ensures r != FirstFailure(BodySteps(t, env, imported)) ==>
      (EnvAssigned(t, env, imported) && env.teardown == Raises(KeyboardInterrupt))
      || (ComposeStarted(t, env) && env.composeDown == Raises(KeyboardInterrupt))
    ensures (EnvAssigned(t, env, imported) ==> env.teardown != Raises(KeyboardInterrupt))
         && (ComposeStarted(t, env) ==> env.composeDown != Raises(KeyboardInterrupt))
        ==> r == FirstFailure(BodySteps(t, env, imported))
  {
    var cleanup :=
      if EnvAssigned(t, env, imported) then env.teardown
      else if ComposeStarted(t, env) then env.composeDown
      else Ok;
    if cleanup == Raises(KeyboardInterrupt) then cleanup
    else FirstFailure(BodySteps(t, env, imported))
  }

  /** The `try` block: returns how it ended and the values of the two flags. */
  method RunBody(t: Target, env: Environment, imported: bool)
    returns (result: Step, startedCompose: bool, envObj: bool)
    ensures result == FirstFailure(BodySteps(t, env, imported))
    ensures startedCompose == ComposeStarted(t, env)
    ensures envObj == EnvAssigned(t, env, imported)
  {
    startedCompose, envObj := false, false;
    ghost var steps := BodySteps(t, env, imported);
    var path := PathStep(t);
    if path.Raises? {
      FirstFailureAt(steps, 0);
      return path, startedCompose, envObj;
    }
    if env.composeFileExists {
      if env.composeUp.Raises? {
        FirstFailureAt(steps, 1);
        return env.composeUp, startedCompose, envObj;
      }
      startedCompose := true;
    }
    var exported := ExportStep(t);
    ghost var at := if env.composeFileExists then 2 else 1;
    assert steps[at] == exported;
    if exported.Raises? {
      FirstFailureAt(steps, at);
      return exported, startedCompose, envObj;
    }
    if !startedCompose {
      assert steps == [path] + [exported, env.challengeBuild, ConstructStep(env, imported),
                                env.envSetup, env.agentRun];
      if env.challengeBuild.Raises? {
        FirstFailureAt(steps, 2);
        return env.challengeBuild, startedCompose, envObj;
      }
      var construct := ConstructStep(env, imported);
      if construct.Raises? {
        FirstFailureAt(steps, 3);
        return construct, startedCompose, envObj;
      }
      envObj := true;
      if env.envSetup.Raises? {
        FirstFailureAt(steps, 4);
        return env.envSetup, startedCompose, envObj;
      }
    } else {
      assert steps == [path, env.composeUp, exported, env.agentRun];
    }
    if env.agentRun.Raises? {
      FirstFailureAt(steps, |steps| - 1);
    } else {
      FirstFailureAllOk(steps);
    }
    result := env.agentRun;
  }

  /** `run_agent_with_env(meta)`: the body, then the guarded cleanup. `cleanups`
      lists the cleanup steps attempted. */
  method RunAgentWithEnv(meta: Dict<Scalar, Value>, env: Environment, imported: bool)
    returns (outcome: Step, cleanups: seq<Cleanup>)
    ensures outcome == RunOutcome(TargetOf(meta), env, imported)
    ensures Teardown in cleanups <==> EnvAssigned(TargetOf(meta), env, imported)
    ensures ComposeDown in cleanups <==> ComposeStarted(TargetOf(meta), env)
    ensures |cleanups| <= 1
  {
    var t := TargetOf(meta);
    var startedCompose, envObj;
    outcome, startedCompose, envObj := RunBody(t, env, imported);
    cleanups := [];
    if envObj {
      cleanups := cleanups + [Teardown];
      if env.teardown == Raises(KeyboardInterrupt) {
        return env.teardown, cleanups;
      }
    }
    if startedCompose {
      cleanups := cleanups + [ComposeDown];
      if env.composeDown == Raises(KeyboardInterrupt) {
        return env.composeDown, cleanups;
      }
    }
  }

  /** An `Exception` in either cleanup step never masks how the body ended. */
  lemma CleanupErrorsSwallowed(t: Target, env: Environment, imported: bool, k1: ErrorKind, k2: ErrorKind)
    ensures var env' := env.(teardown := Raises(Error(k1)), composeDown := Raises(Error(k2)));
            RunOutcome(t, env', imported) == FirstFailure(BodySteps(t, env, imported))
  {
    var env' := env.(teardown := Raises(Error(k1)), composeDown := Raises(Error(k2)));
    assert BodySteps(t, env', imported) == BodySteps(t, env, imported);
  }

  /** A server name holding a NUL fails the export with `ValueError`: the agent is
      never reached, and a compose stack that came up is brought down. */
  lemma EmbeddedNulServerName(env: Environment, imported: bool)
    requires !env.composeFileExists || env.composeUp.Ok?
    requires env.composeDown != Raises(KeyboardInterrupt)
    ensures var t := TargetOf([(SStr("path"), PStr("c")), (SStr("server_name"), PStr("a\0b"))]);
            ExportStep(t) == Raises(Error(ValueError))
            && RunOutcome(t, env, imported) == Raises(Error(ValueError))
  {
    var meta := [(SStr("path"), PStr("c")), (SStr("server_name"), PStr("a\0b"))];
    assert MetaGet(meta, "server_name") == PStr("a\0b");
    var t := TargetOf(meta);
    assert t.path == Some(PStr("c"));
    assert t.serverName == PStr("a\0b");
    assert '\0' in t.serverName.s by {
      assert t.serverName.s[1] == '\0';
    }
    var steps := BodySteps(t, env, imported);
    var at := if env.composeFileExists then 2 else 1;
    assert steps[at] == Raises(Error(ValueError));
    FirstFailureAt(steps, at);
  }

  /** As written, the baseline branch (no compose file) fails with `NameError` at
      `CTFEnvironment(...)`: `env_obj` stays `None`, no teardown runs, and the
      agent and the baseline setup are never reached. */
  lemma BaselineNameError(t: Target, env: Environment)
    requires PathStep(t).Ok? && ExportStep(t).Ok?
    requires !env.composeFileExists && env.challengeBuild.Ok?
    ensures !EnvAssigned(t, env, CtfEnvironmentImported)
    ensures RunOutcome(t, env, CtfEnvironmentImported) == Raises(Error(NameError))
    ensures RunOutcome(t, env, CtfEnvironmentImported)
         == RunOutcome(t, env.(envSetup := Ok, agentRun := Ok), CtfEnvironmentImported)
  {
    var steps := BodySteps(t, env, false);
    assert steps == [PathStep(t), ExportStep(t), env.challengeBuild, Raises(Error(NameError)),
                     env.envSetup, env.agentRun];
    FirstFailureAt(steps, 3);
    var env' := env.(envSetup := Ok, agentRun := Ok);
    var steps' := BodySteps(t, env', false);
    assert steps' == [PathStep(t), ExportStep(t), env.challengeBuild, Raises(Error(NameError)), Ok, Ok];
    FirstFailureAt(steps', 3);
  }

  /** With `CTFEnvironment` imported, a constructed environment is torn down even
      when its `setup()` raised, and the setup error is what the run ends with
      (unless the teardown is interrupted). */
  lemma BaselineTeardownAfterSetupFailure(t: Target, env: Environment, e: Exc)
    requires PathStep(t).Ok? && ExportStep(t).Ok?
    requires !env.composeFileExists && env.challengeBuild.Ok? && env.envConstruct.Ok?
    requires env.envSetup == Raises(e) && env.teardown != Raises(KeyboardInterrupt)
    ensures EnvAssigned(t, env, true) && !ComposeStarted(t, env)
    ensures RunOutcome(t, env, true) == Raises(e)
  {
    var steps := BodySteps(t, env, true);
    assert steps == [Ok, Ok, Ok, Ok, Raises(e), env.agentRun];
    FirstFailureAt(steps, 4);
  }

  /** With a compose file that came up, the baseline steps are skipped and only
      compose-down runs, whatever the agent did. */
  lemma ComposeRunCleansUpWithComposeDown(t: Target, env: Environment, imported: bool)
    requires PathStep(t).Ok? && env.composeFileExists && env.composeUp.Ok?
    requires env.composeDown != Raises(KeyboardInterrupt)
    ensures !EnvAssigned(t, env, imported) && ComposeStarted(t, env)
    ensures RunOutcome(t, env, imported) == FirstFailure([ExportStep(t), env.agentRun])
  {
    var steps := BodySteps(t, env, imported);
    assert steps == [Ok, Ok] + [ExportStep(t), env.agentRun];
    assert FirstFailure(steps) == FirstFailure(steps[1..]) == FirstFailure(steps[2..]);
  }

  // ---------------------------------------------------------------------------
  // Command line

  /** What `load_dataset()` gives: the dataset object, or the exception it raised. */
  datatype Load = Loaded(dataset: Dict<string, Value>) | LoadRaised(exc: Exc)

  /** How the process ends: an exit status, or killed by an uncaught
      `KeyboardInterrupt`. */
  datatype ProcessEnd = Exit(code: int) | Interrupted

  /** `sys.argv[1] if len(sys.argv) > 1 else None` */
  function ChosenKey(argv: seq<string>): Option<string> {
    if |argv| > 1 then Some(argv[1]) else None
  }

  /** The outcome of the run for a picked challenge whose `meta['path']` can be read. */
  predicate Runnable(load: Load, argv: seq<string>) {
    load.Loaded? && PickChallenge(load.dataset, ChosenKey(argv)).Picked?
    && HasField(PickChallenge(load.dataset, ChosenKey(argv)).meta, "path")
  }

  /** The `__main__` block. An uncaught `Exception` ends the process with status 1. */
  method Cli(load: Load, argv: seq<string>, env: Environment) returns (end: ProcessEnd)
    ensures end == Exit(2) <==> load == LoadRaised(Error(FileNotFoundError))
    ensures end == Interrupted <==> load == LoadRaised(KeyboardInterrupt)
    ensures end == Exit(3)
        <==> load.Loaded? && PickChallenge(load.dataset, ChosenKey(argv)) == PickRaised(Error(KeyError))
    ensures end == Exit(0)
        <==> Runnable(load, argv)
             && RunOutcome(TargetOf(PickChallenge(load.dataset, ChosenKey(argv)).meta.items),
                           env, CtfEnvironmentImported)
                in [Ok, Raises(KeyboardInterrupt)]
    ensures end.Exit? ==> end.code in [0, 1, 2, 3]
  {
    match load
    case LoadRaised(e) =>
      if e == Error(FileNotFoundError) {
        return Exit(2);
      } else if e == KeyboardInterrupt {
        return Interrupted;
      } else {
        return Exit(1);
      }
    case Loaded(ds) =>
      var pick := PickChallenge(ds, ChosenKey(argv));
      if pick == PickRaised(Error(KeyError)) {
        return Exit(3);
      }
      if pick.PickRaised? {
        return Exit(1);
      }
      if Field(pick.meta, "path").None? {
        return Exit(1);
      }
      var outcome, _ := RunAgentWithEnv(pick.meta.items, env, CtfEnvironmentImported);
      match outcome
      case Ok =>
        return Exit(0);
      case Raises(KeyboardInterrupt) =>
        return Exit(0);
      case Raises(Error(_)) =>
        return Exit(1);
  }
}
