# Simple MCP Receiver, modelled in Dafny

The Blender addon `addon/simple_mcp_addon.py` runs a TCP server. The server
accepts one JSON request per connection and answers it with one JSON response:

- a `code` request queues Python code to run in Blender's main thread;
- a `fetch-scene` request describes the scene;
- an `asset-data` request queues a download-and-import of a blend file and its
  textures.

Queued work is done by a timer in the main thread, `process_queue_timer`. The
server thread polls the task's `completed` flag until a deadline passes. The
addon's two operators start and stop the server and register the timer.

This project models that request handling. Every collaborator outside the addon
is an oracle, and all of them are gathered in `HostModel.Host`:

- Blender (`bpy`);
- the interpreter's `compile`/`exec` with captured streams;
- `urllib`, `tempfile` and `os.makedirs`.

Each oracle is a function of the history (`Log`) of host operations performed so
far. So the model can state and prove what happened in what order. Examples: the
drain runs its tasks first in, first out; nothing is loaded after a failed
download; a failing texture download is the last thing the import does.

Modules, in dependency order:

- `Values` models decoded JSON (`Json`, objects as ordered key/value pairs) and
  `dict.get` with its `AttributeError` on a non-dict. It also models truthiness
  and `str.strip`.
- `HostModel` holds the host oracles, the history, POSIX `os.path.join` and
  `os.path.basename`.
- `Responses` holds the response objects and lemmas about their fields.
- `Execution` holds the result shaping of `execute_code_in_main_thread`.
- `Assets` holds the `download_and_import_asset` pipeline:
  - as specification functions (`Import`, `DownloadTextures`, `LinkObjects`);
  - as the step-by-step method `DownloadAndImportAsset`, with its two loops,
    proved equal to them;
  - with lemmas on the request order, the downloads made and the objects
    linked.
- `Tasks` holds the task records (`Task`, a class whose `completed` and `result`
  the drain writes), the queue (`TaskQueue`) and the drain:
  - the function `Drain` on the queued jobs;
  - the methods `RunTasks` and `TaskQueue.ProcessQueueTimer`, proved against it.
- `Protocol` holds what one request is answered, as functions of the host
  history and the jobs already queued (`Respond`, `CodeViaQueue`,
  `AssetViaQueue`, `Await`). It also holds the framer of `handle_client` as a
  function (`Frame`) over the reads from the socket.
- `Server` holds the `SimpleMCPServer` class: its running flag, the waiters,
  `process_message` and `handle_client`. Each method is proved against the
  `Protocol` function it implements.
- `Operators` holds the start and stop operators and the module-level
  `server_running` flag and timer registration.

How the model treats time and exceptions:

- The waiters' wall-clock deadline is a number of timer firings, `ticks`, that
  happen before the deadline.
  - The first firing drains every queued task, the waiter's own included, since
    it was put last.
  - A task not completed in time stays queued, and a later drain runs it.
  - `ticks` is meant to be 0 while the timer is not registered or has stopped,
    since then nothing drains the queue.
- An exception outside `Exception` (`SystemExit`, `KeyboardInterrupt`) raised by
  submitted code escapes the drain.
  - Its task is not completed, and the tasks behind it stay queued.
  - The timer is taken to stop running (`TimerOutcome.Stopped`).
  - Any other exception is caught and reported the way the addon reports it.

## Model

| member | source | states |
|---|---|---|
| Values.LookupFindsKey | addon/simple_mcp_addon.py:276-278 | a dict lookup finds a value exactly when some pair has the key, and the value found is stored under that key |
| Values.Get | addon/simple_mcp_addon.py:65-67 | `get` raises `AttributeError` ("'T' object has no attribute 'get'") exactly when the value is not a dict |
| Values.TrimStart | addon/simple_mcp_addon.py:315 | `lstrip` removes exactly a leading run of white space and leaves a suffix that does not start with white space |
| Values.TrimEnd | addon/simple_mcp_addon.py:315 | `rstrip` removes exactly a trailing run of white space and leaves a prefix that does not end with white space |
| Values.StripRemovesSpace | addon/simple_mcp_addon.py:135 | `strip()` is empty exactly when every character is white space; otherwise the result starts and ends with non-space |
| HostModel.JoinPlacesName | addon/simple_mcp_addon.py:76 | `os.path.join` ends with the name: a relative name is put under the directory, an absolute one replaces it |
| HostModel.BasenameIsLastComponent | addon/simple_mcp_addon.py:89 | `os.path.basename` is the suffix after the last `/`: it contains no `/` and is preceded by one unless it is the whole path |
| Responses.ErrorShape | addon/simple_mcp_addon.py:284 | an error response has status "error", the given message as `error`, and no `result` |
| Responses.ExecutionErrorShape | addon/simple_mcp_addon.py:145-151 | an exception in submitted code is reported with status "error", its message as `error`, and no `result` |
| Responses.ExecutionFailureShape | addon/simple_mcp_addon.py:163-172 | an exception caught by the outer handler is reported with status "error", its message as `error`, its traceback, and no `result` |
| Responses.ExecutedShape | addon/simple_mcp_addon.py:152-160 | a completed run reports status "executed" with stdout as `result`; `warnings` is present exactly when stderr is not empty, and then holds it |
| Responses.ImportedShape | addon/simple_mcp_addon.py:112-122 | a successful import reports "success"; `textures_downloaded` equals the length of `texture_files`; the files and objects are listed as given |
| Execution.ExecuteCodeOutcome | addon/simple_mcp_addon.py:133-172 | blank code is refused with "NO code provided" without touching the host; other code runs exactly once; status "executed" holds exactly when the run returned normally, with stdout as `result` and `warnings` exactly when stderr is not empty; an exception in the code is reported with its message, one caught by the outer handler with its message and traceback; only a non-`Exception` escapes |
| Assets.Import | addon/simple_mcp_addon.py:62-70 | a request that is not a dict fails on `get`, and a missing or falsy `blend_url` is refused, both before anything is done on the host |
| Assets.ImportAsset | addon/simple_mcp_addon.py:124-128 | every exception of the import is reported as a response; none escapes |
| Assets.Fetch | addon/simple_mcp_addon.py:72-83 | after the URL check the missing-URL response cannot occur |
| Assets.FetchTextures | addon/simple_mcp_addon.py:85-95 | after the blend download only success, a texture failure or a reported exception can follow |
| Assets.LoadAndLink | addon/simple_mcp_addon.py:97-122 | loading and linking ends in success or a reported exception |
| Assets.DownloadTextures | addon/simple_mcp_addon.py:85-95 | the texture loop only extends the history |
| Assets.LinkObjects | addon/simple_mcp_addon.py:103-108 | the linking loop only extends the history |
| Assets.TexturesDoneLog | addon/simple_mcp_addon.py:85-93 | a finished texture loop has downloaded exactly the wanted textures in `includes` order: one per entry with a truthy `url`, into the textures directory under the key's base name |
| Assets.TexturesDoneFiles | addon/simple_mcp_addon.py:85-93 | a finished texture loop lists exactly the paths of those downloads, in order |
| Assets.TextureStep | addon/simple_mcp_addon.py:86-93 | one successful iteration makes its entry's wanted download and appends its path |
| Assets.TextureFailStep | addon/simple_mcp_addon.py:86-95 | a failing loop either fails at its first entry's download or continues past it |
| Assets.TextureFailedPrefix | addon/simple_mcp_addon.py:85-95 | a failed texture loop made the wanted downloads of a non-empty prefix of the entries and nothing after it |
| Assets.TextureFailedLast | addon/simple_mcp_addon.py:92-95 | when a texture download fails, that download is the last thing the loop did |
| Assets.TextureDownloadsSucceeded | addon/simple_mcp_addon.py:92-95 | every download the texture loop makes succeeded, except the last one of a failed loop: the loop stops at the first failed download |
| Assets.TexturesDoneIffDownloaded | addon/simple_mcp_addon.py:85-95 | the texture loop finishes only when every wanted download succeeds in turn; over entries that are all dicts it finishes exactly then and otherwise fails |
| Assets.TextureRunOnlyDownloads | addon/simple_mcp_addon.py:85-95 | the texture loop does nothing on the host but download |
| Assets.LinkStep | addon/simple_mcp_addon.py:104-107 | one iteration links its object and records its name if it is not null, and skips it otherwise |
| Assets.LinkedNames | addon/simple_mcp_addon.py:103-107 | a finished linking loop reports exactly the non-null objects, in order |
| Assets.LinkedLog | addon/simple_mcp_addon.py:103-107 | a finished linking loop linked exactly the non-null objects, in order |
| Assets.LinkRunOnlyLinks | addon/simple_mcp_addon.py:103-108 | the linking loop does nothing on the host but link objects |
| Assets.ReportIdentifies | addon/simple_mcp_addon.py:69-128 | each refusal and download failure has a response of its own; the status is "success" exactly for a successful import |
| Assets.BlendFailureReported | addon/simple_mcp_addon.py:69-80 | with a truthy `blend_url` and a scratch directory, a failed blend download is answered "Failed to download blend file" |
| Assets.TextureFailureReported | addon/simple_mcp_addon.py:79-95 | after a successful blend download and textures directory, over dict entries, a failed wanted texture download is answered "Failed to download texture" |
| Assets.ImportBlendFailure | addon/simple_mcp_addon.py:72-80 | "Failed to download blend file" means a truthy `blend_url`, a created scratch directory and that one failed download, and nothing else |
| Assets.FetchReachesTextures | addon/simple_mcp_addon.py:72-83 | an import that reaches the texture loop created the scratch directory, downloaded the blend file and created the textures directory, in that order |
| Assets.ImportTextureFailure | addon/simple_mcp_addon.py:72-95 | "Failed to download texture" means the blend download succeeded and the textures directory was made, and then exactly the wanted downloads of a non-empty prefix of `includes` were made |
| Assets.ImportTextureFailureStops | addon/simple_mcp_addon.py:86-95 | "Failed to download texture" means every texture download made succeeded except the last, which failed |
| Assets.LoadAndLinkSuccess | addon/simple_mcp_addon.py:97-122 | a successful load and link reports the blend file, the given files and the non-null objects in order, after loading once and linking them |
| Assets.ImportSuccess | addon/simple_mcp_addon.py:62-122 | a successful import downloaded the blend file, made the textures directory and made every wanted texture download successfully; it reports the asset name, the blend path, the wanted texture paths in `includes` order, the non-null objects in order and the scratch directory, with the full history of host operations |
| Assets.FailedDownloadImportsNothing | addon/simple_mcp_addon.py:79-107 | after a failed blend or texture download, nothing is loaded and nothing is linked |
| Assets.DownloadTexturesLoop | addon/simple_mcp_addon.py:85-95 | the imperative texture loop ends exactly as the texture loop specification |
| Assets.LinkLoop | addon/simple_mcp_addon.py:103-108 | the imperative linking loop ends exactly as the linking specification |
| Assets.DownloadAndImportAsset | addon/simple_mcp_addon.py:62-128 | the step-by-step import ends with the pipeline's outcome and history |
| Tasks.RunJob | addon/simple_mcp_addon.py:179-186 | a task is run exactly when its type is `code` or `download_asset`; running only extends the history |
| Tasks.DrainFrom | addon/simple_mcp_addon.py:177-191 | the drain takes every job unless an exception escapes, and then stops at the job it escaped |
| Tasks.DrainAppend | addon/simple_mcp_addon.py:177-186 | draining `a + b` drains `a`, then `b` from where `a` left the host, unless an exception escaped |
| Tasks.DrainInOrder | addon/simple_mcp_addon.py:177-186 | first in, first out: the i-th task runs on the host as the earlier tasks left it, and an exception escaping it ends the drain there |
| Tasks.DrainWritesKnownKinds | addon/simple_mcp_addon.py:179-186 | a task taken gets a result exactly when its type is `code` or `download_asset`, unless it is the one an exception escaped |
| Tasks.RunTask | addon/simple_mcp_addon.py:178-186 | one iteration writes `result` and sets `completed` exactly when the run completes; otherwise the task is untouched |
| Tasks.RunTasks | addon/simple_mcp_addon.py:177-190 | the loop marks each task taken as the drain says and leaves the tasks after them untouched |
| Tasks.Task.constructor | addon/simple_mcp_addon.py:318-323 | a new task is not completed and has no result |
| Tasks.TaskQueue.Put | addon/simple_mcp_addon.py:325 | `put` appends the task at the back |
| Tasks.TaskQueue.ProcessQueueTimer | addon/simple_mcp_addon.py:174-191 | the drain takes the queued tasks in order and writes results as `Drain` says. The tasks it did not reach stay queued and untouched. A normal return asks for 0.1 s and leaves the queue empty |
| Protocol.RouteOf | addon/simple_mcp_addon.py:276-284 | routing by `type` (default `'unknown'`), each route exactly for its type; the code routed is the `code` field, `''` when it is missing; a non-dict fails on `get` |
| Protocol.CodeRouted | addon/simple_mcp_addon.py:276-278 | a `code` request with a string `code` field is answered as that code submitted through the queue |
| Protocol.AssetRouted | addon/simple_mcp_addon.py:281-282 | an `asset-data` request is answered by queueing the whole request as the asset |
| Protocol.NonStringCodeRefused | addon/simple_mcp_addon.py:277-287 | a `code` field that is not a string fails on `strip`, and the error is answered with nothing queued |
| Protocol.Await | addon/simple_mcp_addon.py:327-334 | with no timer firing before the deadline the task is not completed and stays queued |
| Protocol.CodeViaQueue | addon/simple_mcp_addon.py:313-334 | blank code is refused with nothing queued; with no firing in time the answer is "Code execution timed out" and the task stays queued |
| Protocol.AssetViaQueue | addon/simple_mcp_addon.py:289-308 | with no firing in time the answer is "Asset download / import timed out" and the task stays queued |
| Protocol.UnknownTypeRefused | addon/simple_mcp_addon.py:276-284 | a missing or unknown `type` is answered "Unknown message type" with nothing queued and nothing done on the host |
| Protocol.BlankCodeRefused | addon/simple_mcp_addon.py:315-316 | missing, empty or white-space code is answered "NO code provided" with nothing queued |
| Protocol.CodeAnswered | addon/simple_mcp_addon.py:325-334 | when the earlier tasks drain normally, the code runs once on the host as they left it and its own response is returned; the queue is left empty |
| Protocol.CodeBehindEscape | addon/simple_mcp_addon.py:327-334 | when an exception escapes an earlier task, the answer is a timeout and the code stays queued |
| Protocol.AssetAnswered | addon/simple_mcp_addon.py:299-306 | when the earlier tasks drain normally, the asset is imported on the host as they left it and its response is returned; the queue is left empty |
| Protocol.FrameStop | addon/simple_mcp_addon.py:234-258 | the framer reads non-empty chunks whose accumulated text is incomplete, and ends at the first read that is empty, raises, makes the buffer parse or makes `json.loads` raise another exception |
| Protocol.FrameFirstParse | addon/simple_mcp_addon.py:240-251 | the request handled is the first accumulated prefix of the chunks that parses |
| Protocol.FrameClosedUnparsed | addon/simple_mcp_addon.py:236-238 | when the peer closes first, no prefix of the chunks parsed |
| Server.McpServer.constructor | addon/simple_mcp_addon.py:194-197 | a new server is not running |
| Server.McpServer.StartServer | addon/simple_mcp_addon.py:199-208 | the server is running once binding succeeds; a failed bind changes nothing |
| Server.McpServer.StopServer | addon/simple_mcp_addon.py:337-339 | the server is no longer running |
| Server.McpServer.AwaitTask | addon/simple_mcp_addon.py:327-334 | the polling loop ends with the task completed exactly when `Await` has its result, with that result, and leaves queued what `Await` leaves |
| Server.McpServer.KeepPolling | addon/simple_mcp_addon.py:329-330 | timer firings after the first drain change neither the history nor the queue |
| Server.McpServer.ExecuteCodeViaQueue | addon/simple_mcp_addon.py:313-334 | the response, history and queue are those of `CodeViaQueue` |
| Server.McpServer.HandleAssetData | addon/simple_mcp_addon.py:289-308 | the response, history and queue are those of `AssetViaQueue` |
| Server.McpServer.ProcessMessage | addon/simple_mcp_addon.py:270-287 | the response, history and queue are those of `Respond`, including the error for code that is not a string |
| Server.McpServer.HandleClient | addon/simple_mcp_addon.py:229-266 | exactly one response for a request that parses; an error response for a read that raised or a `json.loads` exception other than a decode error; nothing for a peer that closes first |
| Operators.Addon.constructor | addon/simple_mcp_addon.py:24-25 | no server, not running, timer not registered |
| Operators.Addon.StartServer | addon/simple_mcp_addon.py:350-369 | refused with a warning while running; otherwise a new server on port 8765, the timer registered and the flag set |
| Operators.Addon.StopServer | addon/simple_mcp_addon.py:377-393 | refused with a warning while stopped; otherwise the server stopped, the timer unregistered and the flag cleared |

## Left out

- Socket setup, `accept`, `recv`, `send` and `close` (addon/simple_mcp_addon.py:199-227, 232, 249, 261, 265) are I/O. The reads are a given sequence of chunks, and `HandleClient` returns what it sends.
- A read that times out or fails to decode is one `Broken` read. Running out of reads is treated as the peer closing.
- `json.loads` is an oracle on the buffer. It returns a request, reports an incomplete text (a `JSONDecodeError`), or raises another exception. Its decoded objects are assumed to have distinct keys, as `json.loads` keeps only the last value of a repeated key. `json.dumps` is not modelled, so a response that fails to serialise is not modelled either.
- Threads and wall-clock time are not modelled: the daemon server thread, `time.sleep` polling and the concurrent queue. Timer firings before the deadline are counted as `ticks`.
- Protocol.Await: the first firing drains the whole queue before the waiter checks its flag. An interleaving of the server thread with a drain in progress is not modelled.
- `compile`/`exec` with stream redirection is an oracle that returns the captured stdout and stderr, an `Exception`, or an exception outside `Exception`.
- Execution.ExecuteCodeOutcome: when the outer handler of `execute_code_in_main_thread` (addon/simple_mcp_addon.py:163-172) is reached is decided by the `run` oracle (`Broke`), and the text of its traceback is the oracle's.
- An exception escaping the drain ends the timer (`TimerOutcome.Stopped`). This is taken as Blender's behaviour for a timer function that raises.
- `urllib` downloads, `tempfile.mkdtemp`, `os.makedirs`, `bpy.data.libraries.load` and collection linking are oracles. `os.path.join` and `os.path.basename` are modelled for POSIX paths.
- A `BaseException` raised inside the import pipeline is not modelled; only `Exception` is.
- `getSceneInfo` (addon/simple_mcp_addon.py:30-48) is an oracle on the host history. It reads float vectors from the scene.
- JSON numbers with a fraction are `real`, and no float arithmetic is done. A decoded object is an ordered list of pairs with first-match lookup.
- The `except` of `handle_asset_data` (addon/simple_mcp_addon.py:309-311) is not modelled. Nothing in its body raises on a decoded request.
- Tasks.TaskQueue.ProcessQueueTimer takes the queued tasks as a snapshot and sets the queue once at the end. Single-threaded, this is equivalent to taking them one by one.
- Operators.Addon.StartServer: the server thread's start runs synchronously, and the success of its bind is a parameter.
- Console output (`print`, `traceback.print_exc`) is not modelled.
- The UI panel, `register()` and `unregister()` (addon/simple_mcp_addon.py:395-448) are registration and drawing.
- `index.js` is not part of this model. It is an MCP tool that echoes its input.
