/** The `logs` command: find the pod that runs a function with one kubectl
    call, then fetch or follow the logs of one of its containers.

    kubectl is an external executable. `ExecForString` (run to completion,
    capture the output) is a parameter `exec`; following the logs with `-f`
    is a parameter `follow` that stands for starting the subprocess, printing
    its lines and waiting for it, and answers with the first error of those
    steps. */
module LogsCommand {
  import opened Outcomes

  /** The command's options; `namespace` is filled in by Run itself. */
  datatype LogsOptions = LogsOptions(functionName: string, container: string, namespace: string, tail: bool)

  const DefaultContainer: string := "sidecar"
  const FunctionLabelPrefix: string := "function="
  const PodNameJsonPath: string := "jsonpath={.items[0].metadata.name}"

  /** The options as the flags leave them: `--container` defaults to
      "sidecar" and `--tail` to false; `--name` is required. */
  function LogsOptionsFromFlags(name: string, container: Option<string>, tail: Option<bool>): (o: LogsOptions)
    ensures o.functionName == name && o.namespace == ""
    ensures container.None? ==> o.container == DefaultContainer
    ensures container.Some? ==> o.container == container.value
    ensures o.tail <==> tail == Some(true)
  {
    LogsOptions(name,
                if container.Some? then container.value else DefaultContainer,
                "",
                if tail.Some? then tail.value else false)
  }

  // ---------------------------------------------------------------------
  // Argument lists

  function NamespaceArgs(namespace: string): seq<string> {
    if namespace != "" then ["--namespace", namespace] else []
  }

  /** `get [--namespace NS] pod -l function=NAME -o jsonpath=...` */
  function PodLookupArgs(namespace: string, functionName: string): (r: seq<string>)
    ensures |r| == 6 + |NamespaceArgs(namespace)| && r[0] == "get"
    ensures r[1..|r| - 5] == NamespaceArgs(namespace)
    ensures r[|r| - 5..] == ["pod", "-l", FunctionLabelPrefix + functionName, "-o", PodNameJsonPath]
  {
    ["get"] + NamespaceArgs(namespace)
    + ["pod", "-l", FunctionLabelPrefix + functionName, "-o", PodNameJsonPath]
  }

  /** `logs [--namespace NS] POD -c CONTAINER [-f]` */
  function LogsArgs(namespace: string, pod: string, container: string, tail: bool): (r: seq<string>)
    ensures var k := 1 + |NamespaceArgs(namespace)|;
      && |r| == k + 3 + (if tail then 1 else 0) && r[0] == "logs"
      && r[1..k] == NamespaceArgs(namespace)
      && r[k..k + 3] == [pod, "-c", container]
      && r[k + 3..] == (if tail then ["-f"] else [])
  {
    ["logs"] + NamespaceArgs(namespace) + [pod, "-c", container] + (if tail then ["-f"] else [])
  }

  /** What a pod-lookup argument list asks for. */
  datatype PodLookup = PodLookup(namespace: string, functionName: string)

  /** What a log-fetch argument list asks for. */
  datatype LogsRequest = LogsRequest(namespace: string, pod: string, container: string, tail: bool)

  /** Reads a pod-lookup argument list back; the length tells whether a
      namespace is present. */
  function ParsePodLookupArgs(argv: seq<string>): Option<PodLookup> {
    var k := |argv| - 5;
    if (|argv| == 6 || (|argv| == 8 && argv[1] == "--namespace" && argv[2] != ""))
       && argv[0] == "get"
       && argv[k..] == ["pod", "-l", argv[k + 2], "-o", PodNameJsonPath]
       && |argv[k + 2]| >= |FunctionLabelPrefix|
       && argv[k + 2][..|FunctionLabelPrefix|] == FunctionLabelPrefix
    then Some(PodLookup(if |argv| == 8 then argv[2] else "", argv[k + 2][|FunctionLabelPrefix|..]))
    else None
  }

  /** Reads a log-fetch argument list back; lengths 4 and 5 have no
      namespace, 6 and 7 have one, and the odd lengths end in "-f". */
  function ParseLogsArgs(argv: seq<string>): Option<LogsRequest> {
    if 4 <= |argv| <= 7 && argv[0] == "logs" then
      var namespaced := |argv| >= 6;
      var tail := |argv| % 2 == 1;
      var k := if namespaced then 3 else 1;
      if (namespaced ==> argv[1] == "--namespace" && argv[2] != "")
         && argv[k + 1] == "-c"
         && (tail ==> argv[k + 3] == "-f")
      then Some(LogsRequest(if namespaced then argv[2] else "", argv[k], argv[k + 2], tail))
      else None
    else None
  }

  /** The pod-lookup list is read back as exactly what it was built from, and
      every list that reads back is the one built from what it reads as. */
  lemma PodLookupArgsRoundTrip(namespace: string, functionName: string, argv: seq<string>)
    ensures ParsePodLookupArgs(PodLookupArgs(namespace, functionName)) == Some(PodLookup(namespace, functionName))
    ensures ParsePodLookupArgs(argv).Some? ==>
      var p := ParsePodLookupArgs(argv).value;
      PodLookupArgs(p.namespace, p.functionName) == argv
  {
    var r := PodLookupArgs(namespace, functionName);
    var k := |r| - 5;
    assert r[k..] == ["pod", "-l", FunctionLabelPrefix + functionName, "-o", PodNameJsonPath];
    assert (FunctionLabelPrefix + functionName)[..|FunctionLabelPrefix|] == FunctionLabelPrefix;
    assert (FunctionLabelPrefix + functionName)[|FunctionLabelPrefix|..] == functionName;
    if ParsePodLookupArgs(argv).Some? {
      var p := ParsePodLookupArgs(argv).value;
      var j := |argv| - 5;
      var lbl := argv[j + 2];
      assert FunctionLabelPrefix + p.functionName == lbl by {
        assert lbl == lbl[..|FunctionLabelPrefix|] + lbl[|FunctionLabelPrefix|..];
      }
      var built := PodLookupArgs(p.namespace, p.functionName);
      assert |built| == |argv|;
      forall i | 0 <= i < |argv|
        ensures built[i] == argv[i]
      {
        if i >= j {
          assert argv[i] == argv[j..][i - j];
        }
      }
    }
  }

  /** The same holds of the log-fetch list. */
  lemma LogsArgsRoundTrip(namespace: string, pod: string, container: string, tail: bool, argv: seq<string>)
    ensures ParseLogsArgs(LogsArgs(namespace, pod, container, tail)) == Some(LogsRequest(namespace, pod, container, tail))
    ensures ParseLogsArgs(argv).Some? ==>
      var q := ParseLogsArgs(argv).value;
      LogsArgs(q.namespace, q.pod, q.container, q.tail) == argv
  {
    if ParseLogsArgs(argv).Some? {
      var q := ParseLogsArgs(argv).value;
      var built := LogsArgs(q.namespace, q.pod, q.container, q.tail);
      assert |built| == |argv|;
      forall i | 0 <= i < |argv|
        ensures built[i] == argv[i]
      {
      }
    }
  }

  /** Different options never give the same kubectl command. */
  lemma ArgsInjective(ns1: string, fn1: string, pod1: string, c1: string, t1: bool,
                      ns2: string, fn2: string, pod2: string, c2: string, t2: bool)
    ensures PodLookupArgs(ns1, fn1) == PodLookupArgs(ns2, fn2) ==> ns1 == ns2 && fn1 == fn2
    ensures LogsArgs(ns1, pod1, c1, t1) == LogsArgs(ns2, pod2, c2, t2) ==>
      ns1 == ns2 && pod1 == pod2 && c1 == c2 && t1 == t2
  {
    PodLookupArgsRoundTrip(ns1, fn1, []);
    PodLookupArgsRoundTrip(ns2, fn2, []);
    LogsArgsRoundTrip(ns1, pod1, c1, t1, []);
    LogsArgsRoundTrip(ns2, pod2, c2, t2, []);
  }

  /** In both lists "--namespace NS" follows the verb if and only if the
      namespace is not empty, and the list starts with the verb. */
  lemma NamespaceFollowsVerb(namespace: string, functionName: string, pod: string, container: string, tail: bool)
    ensures var r := PodLookupArgs(namespace, functionName);
      r[0] == "get" && (namespace != "" <==> |r| > 2 && r[1] == "--namespace" && r[2] == namespace)
    ensures var r := LogsArgs(namespace, pod, container, tail);
      r[0] == "logs" && (namespace != "" <==> |r| > 2 && r[1] == "--namespace" && r[2] == namespace)
  {
  }

  /** "-f" is the last element when following, after the container name;
      otherwise the container name is last. */
  lemma FollowFlagIsLast(namespace: string, pod: string, container: string, tail: bool)
    ensures var r := LogsArgs(namespace, pod, container, tail);
      var n := |r|;
      && n == 4 + |NamespaceArgs(namespace)| + (if tail then 1 else 0)
      && (tail ==> r[n - 1] == "-f" && r[n - 2] == container && r[n - 4] == pod)
      && (!tail ==> r[n - 1] == container && r[n - 3] == pod)
  {
  }

  // ---------------------------------------------------------------------
  // Run

  /** Go's `(string, error)` result of kubectl.ExecForString. */
  datatype ExecResult = ExecResult(output: string, err: Outcome)

  /** One kubectl invocation. */
  datatype KubectlCall = ExecForString(args: seq<string>) | Follow(args: seq<string>)

  /** What Run ends with: the pod lookup failed ("may not be currently
      active"), the log fetch failed, the fetched logs were printed, or the
      followed subprocess ended (with the error it reported, if any). */
  datatype Report =
    | NotActive(functionName: string, error: Error)
    | FetchFailed(error: Error)
    | Printed(output: string)
    | Followed(outcome: Outcome)

  /** The command's Run; `namespace` is the value the configuration lookup
      resolved. The pod lookup is always issued first; the logs are fetched
      or followed only when it succeeds, for exactly the pod it printed. */
  method Run(flags: LogsOptions, namespace: string,
             exec: seq<string> -> ExecResult, follow: seq<string> -> Outcome)
    returns (report: Report, ghost calls: seq<KubectlCall>)
    ensures var found := exec(PodLookupArgs(namespace, flags.functionName));
      var fetch := LogsArgs(namespace, found.output, flags.container, flags.tail);
      && (found.err.Fail? ==> report == NotActive(flags.functionName, found.err.error))
      && (found.err.Pass? && flags.tail ==> report == Followed(follow(fetch)))
      && (found.err.Pass? && !flags.tail ==>
            report == (if exec(fetch).err.Fail? then FetchFailed(exec(fetch).err.error)
                       else Printed(exec(fetch).output)))
    ensures var lookup := PodLookupArgs(namespace, flags.functionName);
      var found := exec(lookup);
      var fetch := LogsArgs(namespace, found.output, flags.container, flags.tail);
      && (found.err.Fail? ==> calls == [ExecForString(lookup)])
      && (found.err.Pass? ==>
            calls == [ExecForString(lookup), if flags.tail then Follow(fetch) else ExecForString(fetch)])
  {
    var options := flags.(namespace := namespace);

    var cmdArgs := PodLookupArgs(options.namespace, options.functionName);
    var found := exec(cmdArgs);
    calls := [ExecForString(cmdArgs)];

    if found.err.Fail? {
      return NotActive(options.functionName, found.err.error), calls;
    }

    var pod := found.output;

    cmdArgs := LogsArgs(options.namespace, pod, options.container, options.tail);
    if options.tail {
      var outcome := follow(cmdArgs);
      calls := calls + [Follow(cmdArgs)];
      report := Followed(outcome);
    } else {
      var fetched := exec(cmdArgs);
      calls := calls + [ExecForString(cmdArgs)];
      if fetched.err.Fail? {
        return FetchFailed(fetched.err.error), calls;
      }
      report := Printed(fetched.output);
    }
  }

  /** Read through the decoders: the second call asks for the logs of the pod
      the lookup printed, of the chosen container, in the resolved
      namespace, following exactly when `tail` is set. */
  lemma FetchTargetsLookedUpPod(flags: LogsOptions, namespace: string, found: ExecResult)
    ensures var q := ParseLogsArgs(LogsArgs(namespace, found.output, flags.container, flags.tail));
      q == Some(LogsRequest(namespace, found.output, flags.container, flags.tail))
    ensures var p := ParsePodLookupArgs(PodLookupArgs(namespace, flags.functionName));
      p == Some(PodLookup(namespace, flags.functionName))
  {
    LogsArgsRoundTrip(namespace, found.output, flags.container, flags.tail, []);
    PodLookupArgsRoundTrip(namespace, flags.functionName, []);
  }
}
