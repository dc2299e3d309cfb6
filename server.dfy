/** `SimpleMCPServer`: its running flag, and the handling of one client connection,
    from the framer through the dispatcher to the waiters on the task queue. */
module Server {
  import opened Values
  import opened HostModel
  import opened Responses
  import opened Tasks
  import opened Protocol

  class McpServer {
    const port: int
    var running: bool
    /** The module-level `code_execution_queue`, shared with the timer. */
    const queue: TaskQueue

    constructor (port: int, queue: TaskQueue)
      ensures this.port == port && this.queue == queue && !running
    {
      this.port := port;
      this.queue := queue;
      running := false;
    }

    /** `start_server()` up to its accept loop: when binding the port succeeds the
        server is running; a failed bind is caught and changes nothing. */
    method StartServer(bindOk: bool)
      modifies this
      ensures running == (old(running) || bindOk)
    {
      if bindOk {
        running := true;
      }
    }

    /** `stop_server()` */
    method StopServer()
      modifies this
      ensures !running
    {
      running := false;
    }

    /** The polling loop of a waiter whose task is the last one queued: until the task
        is completed or the deadline passes, each of the `ticks` timer firings drains
        the queue, and an exception escaping a drain ends the timer. */
    method AwaitTask(task: Task, host: Host, log: Log, ticks: nat) returns (history: Log)
      requires queue.Valid() && queue.pending != [] && queue.pending[|queue.pending| - 1] == task
      modifies queue, queue.pending
      ensures var w := Await(host, log, Jobs(old(queue.pending)), ticks);
              history == w.log && Jobs(queue.pending) == w.remaining &&
              (task.completed <==> w.result.Some?) &&
              (task.completed ==> task.result == w.result.value)
      ensures queue.Valid()
    {
      if ticks == 0 {
        return log;
      }
      ghost var queued := queue.pending;
      ghost var d := Drain(host, log, Jobs(queued));
      var outcome;
      outcome, history := queue.ProcessQueueTimer(host, log);
      var timerAlive := outcome.Rearm?;
      assert task.completed <==> |d.results| == |queued| && d.results[|queued| - 1].Some?;
      history := KeepPolling(task, host, history, timerAlive, ticks - 1);
    }

    /** The firings after the first, while the task is not completed: the first drain
        emptied the queue unless an exception ended the timer, so they change nothing. */
    method KeepPolling(task: Task, host: Host, log: Log, timerAlive: bool, firings: nat) returns (history: Log)
      requires queue.Valid() && (timerAlive ==> queue.pending == [])
      modifies queue, queue.pending
      ensures history == log && queue.pending == old(queue.pending) && unchanged(task) && queue.Valid()
    {
      var alive, fired := timerAlive, 0;
      history := log;
      while !task.completed && fired < firings
        invariant history == log && queue.Valid() && queue.pending == old(queue.pending) && unchanged(task)
        invariant alive ==> queue.pending == [] && alive == timerAlive
        decreases firings - fired
      {
        if alive {
          var outcome;
          outcome, history := queue.ProcessQueueTimer(host, history);
          alive := outcome.Rearm?;
        }
        fired := fired + 1;
      }
    }

    /** `execute_code_via_queue(code)`: blank code is refused before anything is
        queued; otherwise a code task is queued and its result returned if it is
        completed before the deadline, "Code execution timed out" if not. */
    method ExecuteCodeViaQueue(code: string, host: Host, log: Log, ticks: nat) returns (response: Json, history: Log)
      requires queue.Valid()
      modifies queue, queue.pending
      ensures var a := CodeViaQueue(host, log, Jobs(old(queue.pending)), code, ticks);
              response == a.response && history == a.log && Jobs(queue.pending) == a.jobs
      ensures queue.Valid()
    {
      if IsBlank(code) {
        return NoCode, log;
      }
      var task := new Task(CodeJob(code));
      queue.Put(task);
      assert Jobs(queue.pending) == Jobs(old(queue.pending)) + [CodeJob(code)];
      history := AwaitTask(task, host, log, ticks);
      response := if task.completed then task.result else CodeTimedOut;
    }

    /** `handle_asset_data(data)`: the request is queued as an asset task and its
        result returned if it is completed before the deadline, "Asset download /
        import timed out" if not. */
    method HandleAssetData(data: Json, host: Host, log: Log, ticks: nat) returns (response: Json, history: Log)
      requires queue.Valid()
      modifies queue, queue.pending
      ensures var a := AssetViaQueue(host, log, Jobs(old(queue.pending)), data, ticks);
              response == a.response && history == a.log && Jobs(queue.pending) == a.jobs
      ensures queue.Valid()
    {
      var task := new Task(AssetJob(data));
      queue.Put(task);
      assert Jobs(queue.pending) == Jobs(old(queue.pending)) + [AssetJob(data)];
      history := AwaitTask(task, host, log, ticks);
      response := if task.completed then task.result else AssetTimedOut;
    }

    /** `process_message(data)` */
    method ProcessMessage(data: Json, host: Host, log: Log, ticks: nat) returns (response: Json, history: Log)
      requires queue.Valid()
      modifies queue, queue.pending
      ensures var a := Respond(host, log, Jobs(old(queue.pending)), data, ticks);
              response == a.response && history == a.log && Jobs(queue.pending) == a.jobs
      ensures queue.Valid()
    {
      match RouteOf(data)
      case BadRequest(fault) =>
        response, history := ErrorResponse(Describe(fault)), log;
      case CodeRequest(code) =>
        if !code.Str? {
          response, history := ErrorResponse(Describe(NoAttribute(TypeName(code), "strip"))), log;
        } else {
          response, history := ExecuteCodeViaQueue(code.s, host, log, ticks);
        }
      case SceneRequest =>
        response, history := host.sceneInfo(log), log;
      case AssetRequest =>
        response, history := HandleAssetData(data, host, log, ticks);
      case UnknownRequest =>
        response, history := UnknownType, log;
    }

    /** `handle_client`: read chunks into a buffer until it parses, then answer that
        request once; an exception while reading, or one `json.loads` raises other than a
        decode error, is answered with an error; a peer that closes first gets nothing. `sent` is what is written back. */
    method HandleClient(received: seq<Recv>, parse: string -> Parse, host: Host, log: Log, ticks: nat)
      returns (sent: seq<Json>, history: Log)
      requires queue.Valid()
      modifies queue, queue.pending
      ensures match Frame(received, parse, "")
              case Closed => sent == [] && history == log && queue.pending == old(queue.pending)
              case Aborted(e) =>
                sent == [ErrorResponse(e)] && history == log && queue.pending == old(queue.pending)
              case Message(data) =>
                var a := Respond(host, log, Jobs(old(queue.pending)), data, ticks);
                sent == [a.response] && history == a.log && Jobs(queue.pending) == a.jobs
      ensures queue.Valid()
    {
      var buffer := "";
      var i := 0;
      sent, history := [], log;
      while i < |received|
        invariant i <= |received|
        invariant Frame(received, parse, "") == Frame(received[i..], parse, buffer)
        decreases |received| - i
      {
        assert received[i..][0] == received[i] && received[i..][1..] == received[i + 1..];
        if received[i].Broken? {
          sent := [ErrorResponse(received[i].error)];
          return;
        }
        var chunk := received[i].chunk;
        if chunk == "" {
          return;
        }
        buffer := buffer + chunk;
        var parsed := parse(buffer);
        if parsed.Parsed? {
          var response;
          response, history := ProcessMessage(parsed.data, host, log, ticks);
          sent := [response];
          return;
        } else if parsed.ParseRaised? {
          sent := [ErrorResponse(parsed.error)];
          return;
        }
        i := i + 1;
      }
    }
  }
}