# riff CLI: `init` option resolution and `logs` kubectl sequencing

This project models two commands of the riff command-line tool.

- `init` and its language subcommands (`java`, `command`, `node`, `python`, `go`)
  share one mutable `InitOptions` record. The persistent pre-run of `init`
  stores the resolved user account. It accepts at most one positional argument, and only
  as the file path when `--filepath` is empty. Any other argument list is rejected
  with "Invalid argument(s)". It then runs four validators in a fixed order:
  file path, function name, artifact, protocol. A validator may rewrite its
  field, and the first failing one ends the chain with its error. A subcommand's
  `RunE` then defaults the handler (Python: the function name; Go:
  `strings.Title` of it). It passes a copy of the options to the language's
  initializer. Plain `init` sets `SilenceUsage` when its initializer fails.
- `logs` runs `kubectl get [--namespace NS] pod -l function=NAME -o jsonpath={.items[0].metadata.name}`
  to find the function's pod. Only if that succeeds does it run
  `kubectl logs [--namespace NS] POD -c CONTAINER`, either capturing and
  printing the output, or with `-f` as a followed subprocess.

Files:

- `outcomes.dfy` (module `Outcomes`): Go `error` values as `Outcome`, and `Option`.
- `go_strings.dfy` (module `GoStrings`): `strings.Title` on ASCII text.
- `init_command.dfy` (module `InitCommand`): the options record, the validation chain, the pre-run, handler defaulting and dispatch.
  - Value-level meanings: `ValidationOf`, `PreRunOf`, `RunOf`, `ExecuteOf`.
  - The class `InitOptions`: its methods update the fields in place, like the Go closures do through the pointer.
  - Each method's postcondition equates the new state, the calls it made and its error with the value-level meaning.
- `logs_command.dfy` (module `LogsCommand`): the argument-list builders with decoders that invert them, and `Run`.

Collaborators whose code is not part of this model are parameters:

- the four validators (`Validators`: total functions from what they receive to the rewritten field and an error);
- the initializers (`initialize: (Language, Options) -> Outcome`);
- `kubectl.ExecForString` (`exec`);
- the followed `kubectl logs -f` subprocess (`follow`);
- the configuration lookups for the user account and the namespace (plain `string` inputs).

The collaborator calls each operation makes are returned as a ghost trace (`Event`, `KubectlCall`).

The Go handler default comes from `strings.Title`, which upper-cases the first letter of every word, not only the first character.

- For a one-word name the result is the name with its first letter upper-cased (`GoStrings.TitleOfWord`, `InitCommand.GoHandlerExportsName`).
- `my-func` becomes `My-Func` (`GoStrings.TitleEveryWord`).

The source checks only the pod lookup's error. A lookup that prints an empty pod name with a nil error is followed by a log fetch for that empty name.

## Model

| member | source | states |
|---|---|---|
| `GoStrings.IsSeparator` | riff-cli/cmd/init.go:163 | the word separators strings.Title uses: ASCII letters, digits and `_` are not separators; space, `-`, `.`, `/` and tab are; no separator lies beyond ASCII |
| `GoStrings.ToTitle` | riff-cli/cmd/init.go:163 | a lower-case ASCII letter becomes its upper-case letter and every other character is kept; the result is a separator exactly when the input is, and title-casing it again changes nothing |
| `GoStrings.TitleAfter` | riff-cli/cmd/init.go:163 | the length is kept, and a character is title-cased exactly when the character before it (or the given predecessor, for the first) is a separator |
| `GoStrings.Title` | riff-cli/cmd/init.go:163 | strings.Title keeps the length and maps exactly the characters that start a word (the first one, or one after a separator) to title case, keeping every other character |
| `GoStrings.TitleIdempotent` | riff-cli/cmd/init.go:163 | title-casing an already title-cased name changes nothing |
| `GoStrings.TitleOfWord` | riff-cli/cmd/init.go:163 | for a name with no separator, Title upper-cases the first character and keeps the rest |
| `GoStrings.TitleEveryWord` | riff-cli/cmd/init.go:163 | an example of the general fact stated by Title's contract: `my-func` becomes `My-Func`, so a word after a separator is capitalised too |
| `InitCommand.Rewrite` | riff-cli/cmd/init.go:173-184 | a validator given a field pointer writes its value into that field, and no other field changes; the file path the next validators see changes only through validateFilepath |
| `InitCommand.ValidateChecks` | riff-cli/cmd/init.go:172-188 | running validators in order on the options as the earlier ones left them makes at most one call per validator, and the first call is the first validator's, on the current options |
| `InitCommand.ValidationOf` | riff-cli/cmd/init.go:172-188 | validateInitOptions makes one to four validator calls, and the first is always validateFilepath on the current FilePath |
| `InitCommand.ValidateChecksStopsAtFirstFailure` | riff-cli/cmd/init.go:172-188 | the validators called are a non-empty prefix of the fixed order; every one before the last passed; the last one's error (nil if all passed) is the result; the chain ends early only on a failure |
| `InitCommand.ValidateChecksFrame` | riff-cli/cmd/init.go:172-188 | validation rewrites only FilePath, FunctionName, Artifact and Protocol |
| `InitCommand.ValidationFilepathFails` | riff-cli/cmd/init.go:173-175 | a file-path failure is returned whatever the other fields hold, and nothing else is validated |
| `InitCommand.ValidationFunctionNameFails` | riff-cli/cmd/init.go:176-178 | the function name is validated second, against the file path as validateFilepath rewrote it; its failure stops the chain |
| `InitCommand.ValidationArtifactFails` | riff-cli/cmd/init.go:180-182 | the artifact is validated third, against the rewritten file path; its failure stops the chain before the protocol |
| `InitCommand.ValidationReachesProtocol` | riff-cli/cmd/init.go:184-187 | only when the first three pass is the protocol validated; the four calls, in order, and the protocol validator's error are the outcome |
| `InitCommand.PreRunOf` | riff-cli/cmd/init.go:46-60 | the pre-run makes at most the four validator calls; when it makes none it returns "Invalid argument(s)"; otherwise validateFilepath comes first and receives the single positional argument if there is one, else the flag's FilePath |
| `InitCommand.PreRunNoArgs` | riff-cli/cmd/init.go:47-56 | with no positional argument, FilePath keeps its flag value and the options are validated with the resolved user account |
| `InitCommand.PreRunOneArg` | riff-cli/cmd/init.go:49-50 | one argument with an empty FilePath becomes FilePath; nothing else changes before validation, and validateFilepath receives that argument |
| `InitCommand.PreRunRejectsArguments` | riff-cli/cmd/init.go:48-53 | no validator runs if and only if there are several arguments, or one while FilePath is set; the error is then "Invalid argument(s)" with those arguments, and only the user account was stored |
| `InitCommand.WithDefaultHandler` | riff-cli/cmd/init.go:140-166 | only Handler may change; a non-empty Handler is kept; Java, command and node never change it; an empty one becomes FunctionName for Python and Title(FunctionName) for Go |
| `InitCommand.RunOf` | riff-cli/cmd/init.go:140-165 | a subcommand's RunE changes at most the Handler, makes exactly one initializer call with the options it leaves, and returns that initializer's error |
| `InitCommand.ExecuteOf` | riff-cli/cmd/init.go:33-62 | an invocation makes the pre-run's calls and then at most one more, and it can only succeed if the pre-run did |
| `InitCommand.GoHandlerExportsName` | riff-cli/cmd/init.go:162-164 | for a one-word name the default Go handler is the name with its first letter upper-cased, and passing it explicitly gives the same options |
| `InitCommand.ExecuteInitializesOnlyAfterPreRun` | riff-cli/cmd/init.go:46-62 | an initializer is called if and only if the pre-run returned nil (cobra's required `--handler` check for java is not modelled); it is then the last call and receives the validated options with the handler defaulted; its error is the command's error; a failing pre-run is the whole effect |
| `InitCommand.ExecuteFirstErrorWins` | riff-cli/cmd/init.go:56-59 | an invocation whose file path fails returns that error after calling only validateFilepath; one whose name fails returns that error after two calls |
| `InitCommand.CobraCommand.constructor` | riff-cli/cmd/init.go:41 | a command starts with SilenceUsage unset, the field the root RunE sets on an initializer error |
| `InitCommand.InitOptions.constructor` | riff-cli/cmd/init.go:31 | the record holds the values flag parsing gave it |
| `InitCommand.InitOptions.ValidateInitOptions` | riff-cli/cmd/init.go:172-188 | the in-place updates, the calls made and the returned error are those of the validation chain |
| `InitCommand.InitOptions.PersistentPreRunE` | riff-cli/cmd/init.go:46-62 | the in-place updates, the calls made and the error are those of the pre-run's meaning |
| `InitCommand.InitOptions.RunInit` | riff-cli/cmd/init.go:38-45 | passes a copy of the options to the initializer and returns its error; SilenceUsage is set exactly when that error is non-nil, and is otherwise left as it was |
| `InitCommand.InitOptions.RunPlain` | riff-cli/cmd/init.go:85-128 | java, command and node pass the options unchanged to their initializer and return its error |
| `InitCommand.InitOptions.RunPython` | riff-cli/cmd/init.go:140-149 | an empty Handler becomes FunctionName in the shared record before the copy goes to the Python initializer |
| `InitCommand.InitOptions.RunGo` | riff-cli/cmd/init.go:161-166 | an empty Handler becomes Title(FunctionName) in the shared record before the copy goes to the Go initializer |
| `InitCommand.InitOptions.Execute` | riff-cli/cmd/init.go:33-62 | one invocation: the pre-run, then the subcommand's RunE only if the pre-run passed; its state, calls, error and SilenceUsage are those of the value-level meaning |
| `LogsCommand.LogsOptionsFromFlags` | riff-cli/cmd/logs.go:123-125 | the container defaults to "sidecar" and tail to false unless the flags set them |
| `LogsCommand.PodLookupArgs` | riff-cli/cmd/logs.go:60-64 | the pod-lookup list is `get`, then `--namespace NS` only for a non-empty namespace, then `pod -l function=NAME -o jsonpath={.items[0].metadata.name}` |
| `LogsCommand.LogsArgs` | riff-cli/cmd/logs.go:75-81 | the log-fetch list is `logs`, then `--namespace NS` only for a non-empty namespace, then `POD -c CONTAINER`, then `-f` exactly when following |
| `LogsCommand.PodLookupArgsRoundTrip` | riff-cli/cmd/logs.go:60-64 | the pod-lookup list decodes to exactly the namespace and function it was built from, and every list that decodes is the one built from its decoding |
| `LogsCommand.LogsArgsRoundTrip` | riff-cli/cmd/logs.go:75-81 | the log-fetch list decodes to exactly the namespace, pod, container and follow flag it was built from, and every list that decodes is the one built from its decoding |
| `LogsCommand.ArgsInjective` | riff-cli/cmd/logs.go:60-81 | different options never produce the same kubectl argument list |
| `LogsCommand.NamespaceFollowsVerb` | riff-cli/cmd/logs.go:60-78 | in both lists, `--namespace NS` follows the verb if and only if the namespace is non-empty |
| `LogsCommand.FollowFlagIsLast` | riff-cli/cmd/logs.go:79-81 | `-f` is the last element exactly when following, right after the container name; otherwise the container name is last |
| `LogsCommand.Run` | riff-cli/cmd/logs.go:53-121 | the pod lookup is always the first call. If it fails, it is the only call and the function is reported as not active. Otherwise exactly one more call follows, for the pod the lookup printed: a follow when tail is set, else a fetch whose output is printed or whose error is reported |
| `LogsCommand.FetchTargetsLookedUpPod` | riff-cli/cmd/logs.go:73-79 | the second call asks for the pod the lookup printed, the chosen container and the resolved namespace, following exactly when tail is set |

## Left out

- Cobra command and flag registration, help text, the `js` alias and `MarkFlagRequired` are framework behaviour. They are not modelled: the required `--handler` of `init java` and the required `--name` of `logs` are enforced by cobra.
- `InitCommand.InitOptions.Execute` models cobra's order: the persistent pre-run, then `RunE` if it returned nil. It does not model cobra's printing of usage text.
  - Cobra also checks required flags after the pre-run and before `RunE`. That check is not modelled.
  - `init java` registers `--handler` as required (riff-cli/cmd/init.go:94). So for `init java` without `--handler`, cobra runs the validators and stops before the Java initializer, but the model calls that initializer.
- `InitCommand.ExecuteInitializesOnlyAfterPreRun`: the "initializer called if and only if the pre-run passed" holds of the model. For the real `init java` it holds only when `--handler` was given, because cobra's required-flag check is not modelled.
- The configuration lookups `GetUseraccountWithOverride` and `GetStringValueWithOverride` are viper-backed. They are not modelled: their results are inputs.
- The bodies of `validateFilepath`, `validateFunctionName`, `validateAndCleanArtifact` and `validateProtocol`, and the `initializers` package, are not part of this model. They are function parameters, deterministic in what they receive.
- `kubectl.ExecForString`, `exec.Command`, `StdoutPipe`, `Start`, `Wait` and the goroutine that prints each line are subprocess I/O and concurrency.
  - The follow path is one external call `follow`, answering with the error that the pipe, start or wait step reported (nil if none).
  - Which lines are printed, and when, is not modelled.
- All `fmt.Printf`, `fmt.Fprintln` and `ioutils.Errorf` output formatting is left out. `Report` only says which message kind ends the run and carries its error or output.
- `GoStrings.Title`: models `strings.Title` for ASCII only. Characters beyond ASCII are treated as non-separators and are never title-cased, because Unicode letter, space and title-case tables are out of scope.
