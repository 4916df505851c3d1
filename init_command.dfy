/** The `init` command family: positional-argument handling and validation in
    the persistent pre-run, handler defaulting in the language subcommands,
    and hand-off to the per-language initializer.

    The four field validators and the initializers are collaborators whose
    code is not part of this model; they are parameters here. A validator
    receives its field (and, for two of them, the file path), may rewrite the
    field and may fail; it is a total function, so its answer depends only on
    what it receives. */
module InitCommand {
  import opened Outcomes
  import GoStrings

  /** The options record shared by `init` and all of its subcommands. */
  datatype Options = Options(
    filePath: string,
    functionName: string,
    version: string,
    riffVersion: string,
    userAccount: string,
    artifact: string,
    handler: string,
    input: string,
    output: string,
    protocol: string,
    dryRun: bool,
    force: bool)

  /** A validator's answer: the value its field holds afterwards and its error. */
  datatype Checked = Checked(value: string, outcome: Outcome)

  datatype Validators = Validators(
    filepath: string -> Checked,                // validateFilepath(&FilePath)
    functionName: (string, string) -> Checked,  // validateFunctionName(&FunctionName, FilePath)
    artifact: (string, string) -> Checked,      // validateAndCleanArtifact(&Artifact, FilePath)
    protocol: string -> Checked)                // validateProtocol(&Protocol)

  datatype Check = FilepathCheck | FunctionNameCheck | ArtifactCheck | ProtocolCheck

  /** The fixed order in which the pre-run validates the options. */
  const ValidationOrder: seq<Check> := [FilepathCheck, FunctionNameCheck, ArtifactCheck, ProtocolCheck]

  /** `Root` is plain `init`, which lets the initializers pick the language. */
  datatype Language = Root | Java | Command | Node | Python | Go

  /** One call into a collaborator, with the arguments it received. */
  datatype Event =
    | ValidateFilepath(path: string)
    | ValidateFunctionName(name: string, namePath: string)
    | ValidateArtifact(artifact: string, artifactPath: string)
    | ValidateProtocol(protocol: string)
    | Initialize(language: Language, options: Options)

  /** What a step leaves behind: the options, the calls it made, its error. */
  datatype Effect = Effect(options: Options, events: seq<Event>, outcome: Outcome)

  // ---------------------------------------------------------------------
  // Validation

  /** The call that validator `c` receives on options `o`. */
  function CallOf(c: Check, o: Options): Event {
    match c
    case FilepathCheck => ValidateFilepath(o.filePath)
    case FunctionNameCheck => ValidateFunctionName(o.functionName, o.filePath)
    case ArtifactCheck => ValidateArtifact(o.artifact, o.filePath)
    case ProtocolCheck => ValidateProtocol(o.protocol)
  }

  /** The validator's answer to a validation call. */
  function Answer(v: Validators, e: Event): Checked
    requires !e.Initialize?
  {
    match e
    case ValidateFilepath(p) => v.filepath(p)
    case ValidateFunctionName(n, p) => v.functionName(n, p)
    case ValidateArtifact(a, p) => v.artifact(a, p)
    case ValidateProtocol(p) => v.protocol(p)
  }

  function CheckOf(e: Event): Check
    requires !e.Initialize?
  {
    match e
    case ValidateFilepath(_) => FilepathCheck
    case ValidateFunctionName(_, _) => FunctionNameCheck
    case ValidateArtifact(_, _) => ArtifactCheck
    case ValidateProtocol(_) => ProtocolCheck
  }

  /** Validator `c` writes its answer back into its own field only. */
  function Rewrite(c: Check, o: Options, value: string): (r: Options)
    ensures c == FilepathCheck ==> r.filePath == value
    ensures c == FunctionNameCheck ==> r.functionName == value
    ensures c == ArtifactCheck ==> r.artifact == value
    ensures c == ProtocolCheck ==> r.protocol == value
    ensures c != FilepathCheck ==> r.filePath == o.filePath
    ensures c != FunctionNameCheck ==> r.functionName == o.functionName
    ensures c != ArtifactCheck ==> r.artifact == o.artifact
    ensures c != ProtocolCheck ==> r.protocol == o.protocol
    ensures r == o.(filePath := r.filePath, functionName := r.functionName, artifact := r.artifact, protocol := r.protocol)
  {
    match c
    case FilepathCheck => o.(filePath := value)
    case FunctionNameCheck => o.(functionName := value)
    case ArtifactCheck => o.(artifact := value)
    case ProtocolCheck => o.(protocol := value)
  }

  /** Runs the validators `checks` in order, each on the options as the earlier
      ones left them, and stops at the first one that fails. */
  function ValidateChecks(checks: seq<Check>, v: Validators, o: Options): (r: Effect)
    ensures |r.events| <= |checks|
    ensures checks != [] ==> r.events != [] && r.events[0] == CallOf(checks[0], o)
    decreases |checks|
  {
    if checks == [] then Effect(o, [], Pass)
    else
      var e := CallOf(checks[0], o);
      var answer := Answer(v, e);
      var o' := Rewrite(checks[0], o, answer.value);
      if answer.outcome.Fail? then Effect(o', [e], answer.outcome)
      else
        var rest := ValidateChecks(checks[1..], v, o');
        Effect(rest.options, [e] + rest.events, rest.outcome)
  }

  /** The value-level meaning of validateInitOptions. */
  function ValidationOf(o: Options, v: Validators): (r: Effect)
    ensures 1 <= |r.events| <= 4
    ensures r.events[0] == ValidateFilepath(o.filePath)
  {
    ValidateChecks(ValidationOrder, v, o)
  }

  /** The validators called are a non-empty prefix of `checks`, each one
      before the last passed, the last one's error is the result, and the
      chain only ends early on a failure. */
  lemma {:induction false} ValidateChecksStopsAtFirstFailure(checks: seq<Check>, v: Validators, o: Options)
    ensures var r := ValidateChecks(checks, v, o);
      && |r.events| <= |checks|
      && (checks != [] ==> r.events != [])
      && (forall i :: 0 <= i < |r.events| ==> !r.events[i].Initialize? && CheckOf(r.events[i]) == checks[i])
      && (forall i :: 0 <= i < |r.events| - 1 ==> Answer(v, r.events[i]).outcome.Pass?)
      && r.outcome == (if r.events == [] then Pass else Answer(v, r.events[|r.events| - 1]).outcome)
      && (|r.events| < |checks| ==> r.outcome.Fail?)
    decreases |checks|
  {
    if checks != [] {
      var e := CallOf(checks[0], o);
      var answer := Answer(v, e);
      if answer.outcome.Pass? {
        ValidateChecksStopsAtFirstFailure(checks[1..], v, Rewrite(checks[0], o, answer.value));
      }
    }
  }

  /** Validation only rewrites FilePath, FunctionName, Artifact and Protocol. */
  lemma {:induction false} ValidateChecksFrame(checks: seq<Check>, v: Validators, o: Options)
    ensures var r := ValidateChecks(checks, v, o).options;
      r == o.(filePath := r.filePath, functionName := r.functionName, artifact := r.artifact, protocol := r.protocol)
    decreases |checks|
  {
    if checks != [] {
      var answer := Answer(v, CallOf(checks[0], o));
      if answer.outcome.Pass? {
        ValidateChecksFrame(checks[1..], v, Rewrite(checks[0], o, answer.value));
      }
    }
  }

  /** The file path is validated first: its failure is reported whatever the
      other fields hold, and no other validator runs. */
  lemma ValidationFilepathFails(o: Options, v: Validators)
    requires v.filepath(o.filePath).outcome.Fail?
    ensures var p := v.filepath(o.filePath);
      ValidationOf(o, v) == Effect(o.(filePath := p.value), [ValidateFilepath(o.filePath)], p.outcome)
  {
  }

  /** The function name is validated second, against the file path as
      validateFilepath left it; its failure stops the chain. */
  lemma ValidationFunctionNameFails(o: Options, v: Validators)
    requires v.filepath(o.filePath).outcome.Pass?
    requires v.functionName(o.functionName, v.filepath(o.filePath).value).outcome.Fail?
    ensures var p := v.filepath(o.filePath);
      var n := v.functionName(o.functionName, p.value);
      ValidationOf(o, v)
      == Effect(o.(filePath := p.value, functionName := n.value),
                [ValidateFilepath(o.filePath), ValidateFunctionName(o.functionName, p.value)],
                n.outcome)
  {
    assert ValidationOrder[1..] == [FunctionNameCheck, ArtifactCheck, ProtocolCheck];
  }

  /** The artifact is validated third, also against the rewritten file path. */
  lemma ValidationArtifactFails(o: Options, v: Validators)
    requires v.filepath(o.filePath).outcome.Pass?
    requires v.functionName(o.functionName, v.filepath(o.filePath).value).outcome.Pass?
    requires v.artifact(o.artifact, v.filepath(o.filePath).value).outcome.Fail?
    ensures var p := v.filepath(o.filePath);
      var n := v.functionName(o.functionName, p.value);
      var a := v.artifact(o.artifact, p.value);
      ValidationOf(o, v)
      == Effect(o.(filePath := p.value, functionName := n.value, artifact := a.value),
                [ValidateFilepath(o.filePath), ValidateFunctionName(o.functionName, p.value),
                 ValidateArtifact(o.artifact, p.value)],
                a.outcome)
  {
    assert ValidationOrder[1..] == [FunctionNameCheck, ArtifactCheck, ProtocolCheck];
    assert ValidationOrder[1..][1..] == [ArtifactCheck, ProtocolCheck];
  }

  /** Only when the first three pass is the protocol validated, and its
      error (or nil) is validateInitOptions' result. */
  lemma ValidationReachesProtocol(o: Options, v: Validators)
    requires v.filepath(o.filePath).outcome.Pass?
    requires v.functionName(o.functionName, v.filepath(o.filePath).value).outcome.Pass?
    requires v.artifact(o.artifact, v.filepath(o.filePath).value).outcome.Pass?
    ensures var p := v.filepath(o.filePath);
      var n := v.functionName(o.functionName, p.value);
      var a := v.artifact(o.artifact, p.value);
      var q := v.protocol(o.protocol);
      ValidationOf(o, v)
      == Effect(o.(filePath := p.value, functionName := n.value, artifact := a.value, protocol := q.value),
                [ValidateFilepath(o.filePath), ValidateFunctionName(o.functionName, p.value),
                 ValidateArtifact(o.artifact, p.value), ValidateProtocol(o.protocol)],
                q.outcome)
  {
    var p := v.filepath(o.filePath);
    var n := v.functionName(o.functionName, p.value);
    var a := v.artifact(o.artifact, p.value);
    var o3 := o.(filePath := p.value, functionName := n.value, artifact := a.value);
    var q := v.protocol(o.protocol);
    assert ValidationOrder[1..] == [FunctionNameCheck, ArtifactCheck, ProtocolCheck];
    assert ValidationOrder[1..][1..] == [ArtifactCheck, ProtocolCheck];
    assert ValidationOrder[1..][1..][1..] == [ProtocolCheck];
    assert ValidateChecks([ProtocolCheck], v, o3) == Effect(o3.(protocol := q.value), [ValidateProtocol(o.protocol)], q.outcome);
  }

  // ---------------------------------------------------------------------
  // Pre-run, handler defaulting, dispatch

  /** The value-level meaning of the persistent pre-run: the resolved user
      account is stored, at most one positional argument is accepted and only
      in place of an empty FilePath, then the options are validated. */
  function PreRunOf(o: Options, args: seq<string>, userAccount: string, v: Validators): (r: Effect)
    ensures |r.events| <= |ValidationOrder|
    ensures r.events == [] ==> r.outcome == Fail(InvalidArguments(args))
    ensures r.events != [] ==> r.events[0] == ValidateFilepath(if |args| == 1 then args[0] else o.filePath)
  {
    var o1 := o.(userAccount := userAccount);
    if |args| == 0 then ValidationOf(o1, v)
    else if |args| == 1 && o1.filePath == "" then ValidationOf(o1.(filePath := args[0]), v)
    else Effect(o1, [], Fail(InvalidArguments(args)))
  }

  /** Without positional arguments FilePath keeps its flag value and is validated. */
  lemma PreRunNoArgs(o: Options, userAccount: string, v: Validators)
    ensures PreRunOf(o, [], userAccount, v) == ValidationOf(o.(userAccount := userAccount), v)
    ensures PreRunOf(o, [], userAccount, v).events[0] == ValidateFilepath(o.filePath)
  {
  }

  /** One positional argument fills an empty FilePath; no other field changes
      before validation, and the file-path validator sees that argument. */
  lemma PreRunOneArg(o: Options, arg: string, userAccount: string, v: Validators)
    requires o.filePath == ""
    ensures PreRunOf(o, [arg], userAccount, v) == ValidationOf(o.(userAccount := userAccount, filePath := arg), v)
    ensures PreRunOf(o, [arg], userAccount, v).events[0] == ValidateFilepath(arg)
  {
  }

  /** The pre-run calls no validator exactly when there are several positional
      arguments, or one while FilePath is already set; it then fails with
      "Invalid argument(s)" and changes nothing but the user account. */
  lemma PreRunRejectsArguments(o: Options, args: seq<string>, userAccount: string, v: Validators)
    ensures var r := PreRunOf(o, args, userAccount, v);
      (r.events == [] <==> |args| > 1 || (|args| == 1 && o.filePath != ""))
    ensures var r := PreRunOf(o, args, userAccount, v);
      r.events == [] ==> r.outcome == Fail(InvalidArguments(args)) && r.options == o.(userAccount := userAccount)
  {
  }

  /** The options a language subcommand hands to its initializer. */
  function WithDefaultHandler(language: Language, o: Options): (r: Options)
    ensures r == o.(handler := r.handler)
    ensures o.handler != "" ==> r == o
    ensures language != Python && language != Go ==> r == o
    ensures o.handler == "" && language == Python ==> r.handler == o.functionName
    ensures o.handler == "" && language == Go ==> r.handler == GoStrings.Title(o.functionName)
  {
    if o.handler != "" then o
    else
      match language
      case Python => o.(handler := o.functionName)
      case Go => o.(handler := GoStrings.Title(o.functionName))
      case _ => o
  }

  /** For a one-word function name the Go handler is the name with its first
      letter upper-cased; leaving the handler to its default is the same as
      passing that name. */
  lemma GoHandlerExportsName(o: Options)
    requires o.handler == "" && o.functionName != ""
    requires forall i :: 0 <= i < |o.functionName| - 1 ==> !GoStrings.IsSeparator(o.functionName[i])
    ensures WithDefaultHandler(Go, o).handler
         == [GoStrings.ToTitle(o.functionName[0])] + o.functionName[1..]
    ensures WithDefaultHandler(Go, o) == WithDefaultHandler(Go, o.(handler := WithDefaultHandler(Go, o).handler))
  {
    GoStrings.TitleOfWord(o.functionName);
  }

  /** The value-level meaning of a subcommand's RunE: default the handler,
      then call the language's initializer with a copy of the options. */
  function RunOf(language: Language, o: Options, initialize: (Language, Options) -> Outcome): (r: Effect)
    ensures r.options == o.(handler := r.options.handler)
    ensures r.events == [Initialize(language, r.options)]
    ensures r.outcome == initialize(language, r.options)
  {
    var o' := WithDefaultHandler(language, o);
    Effect(o', [Initialize(language, o')], initialize(language, o'))
  }

  /** Cobra's order: the persistent pre-run, then RunE only if it passed. */
  function ExecuteOf(language: Language, o: Options, args: seq<string>, userAccount: string,
                     v: Validators, initialize: (Language, Options) -> Outcome): (r: Effect)
    ensures var pre := PreRunOf(o, args, userAccount, v);
      |pre.events| <= |r.events| <= |pre.events| + 1 && r.events[..|pre.events|] == pre.events
    ensures r.outcome.Pass? ==> PreRunOf(o, args, userAccount, v).outcome.Pass?
  {
    var pre := PreRunOf(o, args, userAccount, v);
    if pre.outcome.Fail? then pre
    else
      var run := RunOf(language, pre.options, initialize);
      Effect(run.options, pre.events + run.events, run.outcome)
  }

  /** An initializer is called if and only if the pre-run passed; it is then
      the last call, it receives the validated options with the handler
      defaulted, and its error is the command's error. */
  lemma ExecuteInitializesOnlyAfterPreRun(language: Language, o: Options, args: seq<string>, userAccount: string,
                                          v: Validators, initialize: (Language, Options) -> Outcome)
    ensures var r := ExecuteOf(language, o, args, userAccount, v, initialize);
      var pre := PreRunOf(o, args, userAccount, v);
      && ((exists i :: 0 <= i < |r.events| && r.events[i].Initialize?) <==> pre.outcome.Pass?)
      && (pre.outcome.Fail? ==> r == pre)
      && (pre.outcome.Pass? ==>
            var passed := WithDefaultHandler(language, pre.options);
            && r.events == pre.events + [Initialize(language, passed)]
            && r.outcome == initialize(language, passed))
  {
    var pre := PreRunOf(o, args, userAccount, v);
    var o1 := o.(userAccount := userAccount);
    if |args| == 0 {
      ValidateChecksStopsAtFirstFailure(ValidationOrder, v, o1);
    } else if |args| == 1 && o1.filePath == "" {
      ValidateChecksStopsAtFirstFailure(ValidationOrder, v, o1.(filePath := args[0]));
    }
    assert forall i :: 0 <= i < |pre.events| ==> !pre.events[i].Initialize?;
    if pre.outcome.Pass? {
      var r := ExecuteOf(language, o, args, userAccount, v, initialize);
      assert r.events[|r.events| - 1].Initialize?;
    }
  }

  /** A rejected argument list or a failing validator never reaches an
      initializer, and the first failing validator's error is returned. */
  lemma ExecuteFirstErrorWins(language: Language, o: Options, args: seq<string>, userAccount: string,
                              v: Validators, initialize: (Language, Options) -> Outcome)
    requires |args| == 0 || (|args| == 1 && o.filePath == "")
    ensures var r := ExecuteOf(language, o, args, userAccount, v, initialize);
      var validated := if |args| == 0 then o.(userAccount := userAccount)
                       else o.(userAccount := userAccount, filePath := args[0]);
      var p := v.filepath(validated.filePath);
      && (p.outcome.Fail? ==> r.outcome == p.outcome && r.events == [ValidateFilepath(validated.filePath)])
      && (p.outcome.Pass? && v.functionName(validated.functionName, p.value).outcome.Fail? ==>
            r.outcome == v.functionName(validated.functionName, p.value).outcome && |r.events| == 2)
  {
    var validated := if |args| == 0 then o.(userAccount := userAccount)
                     else o.(userAccount := userAccount, filePath := args[0]);
    var p := v.filepath(validated.filePath);
    if p.outcome.Fail? {
      ValidationFilepathFails(validated, v);
    } else if v.functionName(validated.functionName, p.value).outcome.Fail? {
      ValidationFunctionNameFails(validated, v);
    }
  }

  // ---------------------------------------------------------------------
  // The command state

  /** The cobra command flag the root RunE sets. */
  class CobraCommand {
    var silenceUsage: bool

    constructor ()
      ensures !silenceUsage
    {
      silenceUsage := false;
    }
  }

  /** The one options record that flag parsing fills and that the pre-run
      and the subcommands update through a pointer. */
  class InitOptions {
    var filePath: string
    var functionName: string
    var version: string
    var riffVersion: string
    var userAccount: string
    var artifact: string
    var handler: string
    var input: string
    var output: string
    var protocol: string
    var dryRun: bool
    var force: bool

    /** The record as flag parsing left it. */
    constructor (flags: Options)
      ensures Snapshot() == flags
    {
      filePath, functionName, version, riffVersion := flags.filePath, flags.functionName, flags.version, flags.riffVersion;
      userAccount, artifact, handler, input := flags.userAccount, flags.artifact, flags.handler, flags.input;
      output, protocol, dryRun, force := flags.output, flags.protocol, flags.dryRun, flags.force;
    }

    /** The copy `*initOptions` that is passed by value. */
    function Snapshot(): Options
      reads this
    {
      Options(filePath, functionName, version, riffVersion, userAccount, artifact, handler,
              input, output, protocol, dryRun, force)
    }

    /** validateInitOptions: each validator rewrites its own field in place;
        the first error is returned at once. */
    method ValidateInitOptions(v: Validators) returns (err: Outcome, ghost events: seq<Event>)
      modifies this
      ensures Effect(Snapshot(), events, err) == ValidationOf(old(Snapshot()), v)
    {
      ghost var o := Snapshot();
      var p := v.filepath(filePath);
      events := [ValidateFilepath(filePath)];
      filePath := p.value;
      assert Snapshot() == o.(filePath := p.value);
      if p.outcome.Fail? {
        ValidationFilepathFails(o, v);
        return p.outcome, events;
      }
      var n := v.functionName(functionName, filePath);
      events := events + [ValidateFunctionName(functionName, filePath)];
      functionName := n.value;
      assert Snapshot() == o.(filePath := p.value, functionName := n.value);
      assert events == [ValidateFilepath(o.filePath), ValidateFunctionName(o.functionName, p.value)];
      if n.outcome.Fail? {
        ValidationFunctionNameFails(o, v);
        return n.outcome, events;
      }
      var a := v.artifact(artifact, filePath);
      events := events + [ValidateArtifact(artifact, filePath)];
      artifact := a.value;
      assert Snapshot() == o.(filePath := p.value, functionName := n.value, artifact := a.value);
      assert events == [ValidateFilepath(o.filePath), ValidateFunctionName(o.functionName, p.value),
                        ValidateArtifact(o.artifact, p.value)];
      if a.outcome.Fail? {
        ValidationArtifactFails(o, v);
        return a.outcome, events;
      }
      var q := v.protocol(protocol);
      events := events + [ValidateProtocol(protocol)];
      protocol := q.value;
      assert Snapshot() == o.(filePath := p.value, functionName := n.value, artifact := a.value, protocol := q.value);
      assert events == [ValidateFilepath(o.filePath), ValidateFunctionName(o.functionName, p.value),
                        ValidateArtifact(o.artifact, p.value), ValidateProtocol(o.protocol)];
      ValidationReachesProtocol(o, v);
      if q.outcome.Fail? {
        return q.outcome, events;
      }
      err := Pass;
    }

    /** The root command's PersistentPreRunE; `userAccount` is the value the
        configuration lookup resolved. */
    method PersistentPreRunE(args: seq<string>, userAccount: string, v: Validators)
      returns (err: Outcome, ghost events: seq<Event>)
      modifies this
      ensures Effect(Snapshot(), events, err) == PreRunOf(old(Snapshot()), args, userAccount, v)
    {
      this.userAccount := userAccount;
      if |args| > 0 {
        if |args| == 1 && filePath == "" {
          filePath := args[0];
        } else {
          return Fail(InvalidArguments(args)), [];
        }
      }
      err, events := ValidateInitOptions(v);
    }

    /** RunE of plain `init`: an initializer error silences the usage text. */
    method RunInit(cmd: CobraCommand, initialize: (Language, Options) -> Outcome)
      returns (err: Outcome, ghost events: seq<Event>)
      modifies cmd
      ensures Effect(Snapshot(), events, err) == RunOf(Root, Snapshot(), initialize)
      ensures cmd.silenceUsage == (old(cmd.silenceUsage) || err.Fail?)
    {
      err := initialize(Root, Snapshot());
      events := [Initialize(Root, Snapshot())];
      if err.Fail? {
        cmd.silenceUsage := true;
        return err, events;
      }
    }

    /** RunE of `init java`, `init command` and `init node`: no defaulting. */
    method RunPlain(language: Language, initialize: (Language, Options) -> Outcome)
      returns (err: Outcome, ghost events: seq<Event>)
      requires language == Java || language == Command || language == Node
      ensures Effect(Snapshot(), events, err) == RunOf(language, Snapshot(), initialize)
      ensures err == initialize(language, Snapshot())
    {
      err := initialize(language, Snapshot());
      events := [Initialize(language, Snapshot())];
    }

    /** RunE of `init python`: an empty Handler becomes the function name. */
    method RunPython(initialize: (Language, Options) -> Outcome)
      returns (err: Outcome, ghost events: seq<Event>)
      modifies this`handler
      ensures Effect(Snapshot(), events, err) == RunOf(Python, old(Snapshot()), initialize)
    {
      if handler == "" {
        handler := functionName;
      }
      err := initialize(Python, Snapshot());
      events := [Initialize(Python, Snapshot())];
    }

    /** RunE of `init go`: an empty Handler becomes the title-cased function name. */
    method RunGo(initialize: (Language, Options) -> Outcome)
      returns (err: Outcome, ghost events: seq<Event>)
      modifies this`handler
      ensures Effect(Snapshot(), events, err) == RunOf(Go, old(Snapshot()), initialize)
    {
      if handler == "" {
        handler := GoStrings.Title(functionName);
      }
      err := initialize(Go, Snapshot());
      events := [Initialize(Go, Snapshot())];
    }

    /** One invocation as cobra drives it: the persistent pre-run of `init`,
        then the chosen command's RunE only if the pre-run returned nil. */
    method Execute(language: Language, cmd: CobraCommand, args: seq<string>, userAccount: string,
                   v: Validators, initialize: (Language, Options) -> Outcome)
      returns (err: Outcome, ghost events: seq<Event>)
      modifies this, cmd
      ensures Effect(Snapshot(), events, err) == ExecuteOf(language, old(Snapshot()), args, userAccount, v, initialize)
      ensures cmd.silenceUsage
           == (old(cmd.silenceUsage)
               || (language == Root && PreRunOf(old(Snapshot()), args, userAccount, v).outcome.Pass? && err.Fail?))
    {
      ghost var pre;
      err, pre := PersistentPreRunE(args, userAccount, v);
      if err.Fail? {
        return err, pre;
      }
      ghost var run;
      match language {
        case Root => err, run := RunInit(cmd, initialize);
        case Java => err, run := RunPlain(Java, initialize);
        case Command => err, run := RunPlain(Command, initialize);
        case Node => err, run := RunPlain(Node, initialize);
        case Python => err, run := RunPython(initialize);
        case Go => err, run := RunGo(initialize);
      }
      events := pre + run;
    }
  }
}
