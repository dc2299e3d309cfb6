/** Running submitted code inside the host and shaping its response. */
module Execution {
  import opened Values
  import opened HostModel
  import opened Responses

  /** What running `code` in the host yields, and the history afterwards. */
  function ExecuteCode(host: Host, log: Log, code: string): (r: Step)
    ensures log <= r.log
  {
    if IsBlank(code) then Completed(NoCode, log)
    else
      var after := log + [RunCode(code)];
      match host.run(log, code)
      case Ran(stdout, stderr) => Completed(Executed(stdout, stderr), after)
      case Raised(error) => Completed(ExecutionError(error), after)
      case Broke(error, traceback) => Completed(ExecutionFailure(error, traceback), after)
      case Exited(error) => Escaped(error, after)
  }

  /** Blank code is refused without touching the host; any other code is run exactly
      once. A completed run reports its standard output as `result` and carries a
      `warnings` field exactly when it wrote to standard error; an exception inside
      the code is reported with its message; one caught by the outer handler is
      reported with its message and traceback; an exception outside `Exception`
      escapes. */
  lemma ExecuteCodeOutcome(host: Host, log: Log, code: string)
    ensures var r := ExecuteCode(host, log, code);
            (IsBlank(code) ==> r == Completed(NoCode, log)) &&
            (!IsBlank(code) ==> r.log == log + [RunCode(code)]) &&
            (r.Escaped? <==> !IsBlank(code) && host.run(log, code).Exited?)
    ensures var r := ExecuteCode(host, log, code);
            ((r.Completed? && Field(r.response, "status") == Some(Str("executed"))) <==>
             (!IsBlank(code) && host.run(log, code).Ran?))
    ensures var r := ExecuteCode(host, log, code);
            !IsBlank(code) && host.run(log, code).Ran? ==>
              Field(r.response, "result") == Some(Str(host.run(log, code).stdout)) &&
              (Field(r.response, "warnings").Some? <==> host.run(log, code).stderr != "")
    ensures var r := ExecuteCode(host, log, code);
            !IsBlank(code) && host.run(log, code).Raised? ==>
              Field(r.response, "status") == Some(Str("error")) &&
              Field(r.response, "error") == Some(Str(host.run(log, code).error))
    ensures var r := ExecuteCode(host, log, code);
            !IsBlank(code) && host.run(log, code).Broke? ==>
              Field(r.response, "status") == Some(Str("error")) &&
              Field(r.response, "error") == Some(Str(host.run(log, code).error)) &&
              Field(r.response, "traceback") == Some(Str(host.run(log, code).traceback))
  {
    if IsBlank(code) {
      ErrorShape("NO code provided");
    } else {
      match host.run(log, code)
      case Ran(stdout, stderr) => ExecutedShape(stdout, stderr);
      case Raised(error) => ExecutionErrorShape(error);
      case Broke(error, traceback) => ExecutionFailureShape(error, traceback);
      case Exited(error) =>
    }
  }
}
