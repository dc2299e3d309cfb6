/** The addon's start and stop operators and the module-level state they keep: the
    current server, the `server_running` flag and the registration of the queue
    timer. */
module Operators {
  import opened Tasks
  import opened Server

  /** What an operator returns to Blender. */
  datatype Finish = Finished | Cancelled

  /** A message shown to the user, at level `INFO` or `WARNING`. */
  datatype Report = Info(text: string) | Warning(text: string)

  const Port := 8765

  class Addon {
    /** `socket_server` */
    var server: McpServer?
    /** `server_running` */
    var serverRunning: bool
    /** whether `process_queue_timer` is registered with `bpy.app.timers` */
    var timerRegistered: bool
    /** `code_execution_queue` */
    const queue: TaskQueue

    /** While the flag is set there is a server to stop. */
    ghost predicate Valid()
      reads this
    {
      serverRunning ==> server != null
    }

    constructor (queue: TaskQueue)
      ensures this.queue == queue && server == null && !serverRunning && !timerRegistered && Valid()
    {
      this.queue := queue;
      server := null;
      serverRunning := false;
      timerRegistered := false;
    }

    /** `MCP_OT_StartServer.execute`: refused while the flag is set; otherwise a new
        server on port 8765 is started on its own thread, the timer is registered if
        it is not, and the flag is set. The server thread runs on its own: the flag
        is set whether or not its bind succeeds. */
    method StartServer(bindOk: bool) returns (finish: Finish, report: Report)
      requires Valid()
      modifies this
      ensures Valid()
      ensures old(serverRunning) ==>
                finish == Cancelled && report == Warning("Server already running!") &&
                server == old(server) && serverRunning && timerRegistered == old(timerRegistered)
      ensures !old(serverRunning) ==>
                finish == Finished && report == Info("MCP Server started on port 8765") &&
                serverRunning && timerRegistered && server != null && fresh(server) &&
                server.port == Port && server.queue == queue && server.running == bindOk
    {
      if serverRunning {
        return Cancelled, Warning("Server already running!");
      }
      var started := new McpServer(Port, queue);
      started.StartServer(bindOk);
      server := started;
      if !timerRegistered {
        timerRegistered := true;
      }
      serverRunning := true;
      return Finished, Info("MCP Server started on port 8765");
    }

    /** `MCP_OT_StopServer.execute`: refused while the flag is clear; otherwise the
        server is stopped, the timer unregistered if it is registered, and the flag
        cleared. */
    method StopServer() returns (finish: Finish, report: Report)
      requires Valid()
      modifies this, server
      ensures Valid() && server == old(server)
      ensures !old(serverRunning) ==>
                finish == Cancelled && report == Warning("Server not running!") &&
                !serverRunning && timerRegistered == old(timerRegistered) &&
                (server != null ==> unchanged(server))
      ensures old(serverRunning) ==>
                finish == Finished && report == Info("MCP Server stopped") &&
                !serverRunning && !timerRegistered && !server.running
    {
      if !serverRunning {
        return Cancelled, Warning("Server not running!");
      }
      if server != null {
        server.StopServer();
      }
      if timerRegistered {
        timerRegistered := false;
      }
      serverRunning := false;
      return Finished, Info("MCP Server stopped");
    }
  }
}
