/** What the server answers to one request, as functions of the host history and of
    the jobs waiting in the task queue; the server's methods are proved against them. */
module Protocol {
  import opened Values
  import opened HostModel
  import opened Responses
  import opened Execution
  import opened Assets
  import opened Tasks

  /** Where `process_message` sends a decoded request, by its `type` (default
      `'unknown'`); a request that is not a dict has no `get` and is refused. */
  datatype Route =
    | CodeRequest(code: Json)
    | SceneRequest
    | AssetRequest
    | UnknownRequest
    | BadRequest(fault: Fault)

  function RouteOf(data: Json): (r: Route)
    ensures r.BadRequest? <==> !data.Obj?
    ensures r.BadRequest? ==> r.fault == NoAttribute(TypeName(data), "get")
    ensures r.CodeRequest? <==> data.Obj? && Field(data, "type") == Some(Str("code"))
    ensures r.SceneRequest? <==> data.Obj? && Field(data, "type") == Some(Str("fetch-scene"))
    ensures r.AssetRequest? <==> data.Obj? && Field(data, "type") == Some(Str("asset-data"))
    ensures data.Obj? && Field(data, "type").None? ==> r == UnknownRequest
    ensures r.CodeRequest? && Field(data, "code").None? ==> r.code == Str("")
    ensures r.CodeRequest? && Field(data, "code").Some? ==> r.code == Field(data, "code").value
  {
    if !data.Obj? then BadRequest(NoAttribute(TypeName(data), "get"))
    else
      var t := Get(data, "type", Str("unknown")).value;
      if t == Str("code") then CodeRequest(Get(data, "code", Str("")).value)
      else if t == Str("fetch-scene") then SceneRequest
      else if t == Str("asset-data") then AssetRequest
      else UnknownRequest
  }

  /** The response, the history afterwards and the jobs left in the queue. */
  datatype Answer = Answer(response: Json, log: Log, jobs: seq<Job>)

  /** What a waiter sees: the result written into its task, if it was completed in
      time, the history, and the jobs left queued. `ticks` is how many times the
      timer fires before the deadline. The first firing drains every queued job; an
      exception escaping it ends the timer, so later firings do nothing. */
  datatype Waited = Waited(result: Option<Json>, log: Log, remaining: seq<Job>)

  function Await(host: Host, log: Log, jobs: seq<Job>, ticks: nat): (w: Waited)
    requires jobs != []
    ensures ticks == 0 ==> w == Waited(None, log, jobs)
  {
    if ticks == 0 then Waited(None, log, jobs)
    else
      var d := Drain(host, log, jobs);
      Waited(if |d.results| == |jobs| then d.results[|jobs| - 1] else None, d.log, jobs[|d.results|..])
  }

  /** `execute_code_via_queue(code)` on a string. */
  function CodeViaQueue(host: Host, log: Log, jobs: seq<Job>, code: string, ticks: nat): (a: Answer)
    ensures IsBlank(code) ==> a == Answer(NoCode, log, jobs)
    ensures !IsBlank(code) && ticks == 0 ==> a == Answer(CodeTimedOut, log, jobs + [CodeJob(code)])
  {
    if IsBlank(code) then Answer(NoCode, log, jobs)
    else
      var w := Await(host, log, jobs + [CodeJob(code)], ticks);
      Answer(if w.result.Some? then w.result.value else CodeTimedOut, w.log, w.remaining)
  }

  /** `handle_asset_data(data)`: the whole request is the asset data. */
  function AssetViaQueue(host: Host, log: Log, jobs: seq<Job>, data: Json, ticks: nat): (a: Answer)
    ensures ticks == 0 ==> a == Answer(AssetTimedOut, log, jobs + [AssetJob(data)])
  {
    var w := Await(host, log, jobs + [AssetJob(data)], ticks);
    Answer(if w.result.Some? then w.result.value else AssetTimedOut, w.log, w.remaining)
  }

  /** `process_message(data)`. Code that is not a string has no `strip`, and that
      exception is reported like any other the dispatcher catches. */
  function Respond(host: Host, log: Log, jobs: seq<Job>, data: Json, ticks: nat): Answer
  {
    match RouteOf(data)
    case BadRequest(f) => Answer(ErrorResponse(Describe(f)), log, jobs)
    case CodeRequest(code) =>
      if !code.Str? then Answer(ErrorResponse(Describe(NoAttribute(TypeName(code), "strip"))), log, jobs)
      else CodeViaQueue(host, log, jobs, code.s, ticks)
    case SceneRequest => Answer(host.sceneInfo(log), log, jobs)
    case AssetRequest => AssetViaQueue(host, log, jobs, data, ticks)
    case UnknownRequest => Answer(UnknownType, log, jobs)
  }

  /** A request whose `type` is missing or is none of the three known ones is
      answered "Unknown message type", with nothing queued and nothing done. */
  lemma UnknownTypeRefused(host: Host, log: Log, jobs: seq<Job>, data: Json, ticks: nat)
    requires data.Obj?
    requires Field(data, "type") !in {Some(Str("code")), Some(Str("fetch-scene")), Some(Str("asset-data"))}
    ensures Respond(host, log, jobs, data, ticks) == Answer(UnknownType, log, jobs)
  {
    assert RouteOf(data).UnknownRequest?;
  }

  /** A `code` request whose `code` field is a string is handled as that code
      submitted through the queue. */
  lemma CodeRouted(host: Host, log: Log, jobs: seq<Job>, data: Json, code: string, ticks: nat)
    requires data.Obj? && Field(data, "type") == Some(Str("code")) && Field(data, "code") == Some(Str(code))
    ensures Respond(host, log, jobs, data, ticks) == CodeViaQueue(host, log, jobs, code, ticks)
  {
    assert RouteOf(data) == CodeRequest(Str(code));
  }

  /** An `asset-data` request is handled by queueing the whole request as the asset
      to import. */
  lemma AssetRouted(host: Host, log: Log, jobs: seq<Job>, data: Json, ticks: nat)
    requires data.Obj? && Field(data, "type") == Some(Str("asset-data"))
    ensures Respond(host, log, jobs, data, ticks) == AssetViaQueue(host, log, jobs, data, ticks)
  {
    assert RouteOf(data) == AssetRequest;
  }

  /** A `code` request whose `code` field is not a string fails on `strip`, and that
      exception is answered as an error with nothing queued. */
  lemma NonStringCodeRefused(host: Host, log: Log, jobs: seq<Job>, data: Json, ticks: nat)
    requires data.Obj? && Field(data, "type") == Some(Str("code"))
    requires Field(data, "code").Some? && !Field(data, "code").value.Str?
    ensures var c := Field(data, "code").value;
            Respond(host, log, jobs, data, ticks)
              == Answer(ErrorResponse(Describe(NoAttribute(TypeName(c), "strip"))), log, jobs)
  {
    assert RouteOf(data) == CodeRequest(Field(data, "code").value);
  }

  /** Blank code is refused with "NO code provided" before anything is queued. */
  lemma BlankCodeRefused(host: Host, log: Log, jobs: seq<Job>, data: Json, ticks: nat)
    requires data.Obj? && Field(data, "type") == Some(Str("code"))
    requires Field(data, "code").None? ||
             (Field(data, "code").value.Str? && IsBlank(Field(data, "code").value.s))
    ensures Respond(host, log, jobs, data, ticks) == Answer(NoCode, log, jobs)
  {
    assert IsBlank([]);
  }

  /** When the jobs queued before it drain without an exception escaping, submitted
      code is run once on the host as those jobs left it, and its own response is
      returned; the queue is left empty. An exception escaping the code itself ends
      the wait with a timeout. */
  lemma CodeAnswered(host: Host, log: Log, jobs: seq<Job>, code: string, ticks: nat)
    requires !IsBlank(code) && ticks > 0 && Drain(host, log, jobs).escape.None?
    ensures var s := ExecuteCode(host, Drain(host, log, jobs).log, code);
            CodeViaQueue(host, log, jobs, code, ticks)
              == Answer(if s.Completed? then s.response else CodeTimedOut, s.log, [])
  {
    var all := jobs + [CodeJob(code)];
    DrainAppend(host, log, jobs, [CodeJob(code)], []);
    var d := Drain(host, log, jobs);
    assert [CodeJob(code)][1..] == [];
    assert |all[|all|..]| == 0;
  }

  /** When an exception escapes one of the jobs queued before it, submitted code is
      never run in time: the answer is a timeout and the code stays queued. */
  lemma CodeBehindEscape(host: Host, log: Log, jobs: seq<Job>, code: string, ticks: nat)
    requires !IsBlank(code) && ticks > 0 && Drain(host, log, jobs).escape.Some?
    ensures var a := CodeViaQueue(host, log, jobs, code, ticks);
            a.response == CodeTimedOut && a.log == Drain(host, log, jobs).log &&
            a.jobs != [] && a.jobs[|a.jobs| - 1] == CodeJob(code)
  {
    DrainAppend(host, log, jobs, [CodeJob(code)], []);
  }

  /** When the jobs queued before it drain without an exception escaping, an asset
      request is imported on the host as those jobs left it, and the import's response
      is returned; the queue is left empty. */
  lemma AssetAnswered(host: Host, log: Log, jobs: seq<Job>, data: Json, ticks: nat)
    requires ticks > 0 && Drain(host, log, jobs).escape.None?
    ensures var s := ImportAsset(host, Drain(host, log, jobs).log, data);
            AssetViaQueue(host, log, jobs, data, ticks) == Answer(s.response, s.log, [])
  {
    var all := jobs + [AssetJob(data)];
    DrainAppend(host, log, jobs, [AssetJob(data)], []);
    assert [AssetJob(data)][1..] == [];
    assert |all[|all|..]| == 0;
  }

  /** One read from the client's socket: a decoded chunk (`""` when the peer has
      closed), or the exception raised while receiving or decoding it. */
  datatype Recv = Data(chunk: string) | Broken(error: string)

  /** How the framer's loop ends: the peer closed, a read raised, or the buffer
      parsed as a request. */
  datatype Framed = Closed | Aborted(error: string) | Message(data: Json)

  /** `json.loads` on the buffer: the request it decodes, `Incomplete` where it raises
      a `JSONDecodeError` (the framer then reads on), or another exception it raises
      (a `RecursionError` on deep nesting, a `ValueError` on an over-long integer),
      which ends the connection. */
  datatype Parse = Parsed(data: Json) | Incomplete | ParseRaised(error: string)

  /** The framer from `received` on with `buffer` received so far. An exception that
      `json.loads` raises other than a decode error ends it like a read that raised.
      Running out of reads is taken as the peer closing. */
  function Frame(received: seq<Recv>, parse: string -> Parse, buffer: string): Framed
    decreases |received|
  {
    if received == [] then Closed
    else match received[0]
      case Broken(e) => Aborted(e)
      case Data(chunk) =>
        if chunk == "" then Closed
        else match parse(buffer + chunk)
          case Parsed(data) => Message(data)
          case ParseRaised(e) => Aborted(e)
          case Incomplete => Frame(received[1..], parse, buffer + chunk)
  }

  /** The received are all non-empty chunks. */
  predicate Chunks(received: seq<Recv>)
  {
    forall i :: 0 <= i < |received| ==> received[i].Data? && received[i].chunk != ""
  }

  /** The text of a run of chunks. */
  function Joined(received: seq<Recv>): string
    requires Chunks(received)
  {
    if received == [] then "" else received[0].chunk + Joined(received[1..])
  }

  /** The framer reads non-empty chunks, whose accumulated texts are all incomplete, up
      to the first read that is empty, raises, or completes a text that parses or makes
      `json.loads` raise; it ends there (or at the end of the reads) with what that read
      says. */
  lemma {:induction false} FrameStop(received: seq<Recv>, parse: string -> Parse, buffer: string)
    returns (k: nat)
    ensures k <= |received| && Chunks(received[..k])
    ensures forall j :: 0 < j <= k ==> parse(buffer + Joined(received[..j])).Incomplete?
    ensures Frame(received, parse, buffer) ==
              if k == |received| then Closed
              else match received[k]
                case Broken(e) => Aborted(e)
                case Data(c) =>
                  if c == "" then Closed
                  else match parse(buffer + Joined(received[..k]) + c)
                    case Parsed(data) => Message(data)
                    case ParseRaised(e) => Aborted(e)
                    case Incomplete => Closed
    ensures k < |received| && received[k].Data? && received[k].chunk != "" ==>
              !parse(buffer + Joined(received[..k]) + received[k].chunk).Incomplete?
    decreases |received|
  {
    if received == [] || received[0].Broken? || received[0].chunk == "" {
      k := 0;
      assert received[..0] == [];
      assert buffer + Joined(received[..0]) == buffer;
    } else {
      var chunk := received[0].chunk;
      var rest := received[1..];
      JoinedFront(received, 0);
      assert rest[..0] == [];
      assert buffer + Joined(received[..1]) == buffer + chunk;
      assert buffer + Joined(received[..0]) + chunk == buffer + chunk by { assert received[..0] == []; }
      if !parse(buffer + chunk).Incomplete? {
        k := 0;
      } else {
        var m := FrameStop(rest, parse, buffer + chunk);
        JoinedShift(received, buffer, m);
        forall j | 0 < j <= m + 1
          ensures parse(buffer + Joined(received[..j])).Incomplete?
        {
          assert buffer + Joined(received[..j]) == buffer + chunk + Joined(rest[..j - 1]);
        }
        k := m + 1;
        assert Frame(received, parse, buffer) == Frame(rest, parse, buffer + chunk);
        if m < |rest| {
          assert received[k] == rest[m];
        }
      }
    }
  }

  /** The request handled is the first prefix of the chunks that parses: the texts of
      the chunks before it were incomplete, and no read before it was empty or raised. */
  lemma FrameFirstParse(received: seq<Recv>, parse: string -> Parse, buffer: string)
    requires Frame(received, parse, buffer).Message?
    ensures exists k :: 0 < k <= |received| && Chunks(received[..k]) &&
              parse(buffer + Joined(received[..k])) == Parsed(Frame(received, parse, buffer).data) &&
              forall j :: 0 < j < k ==> parse(buffer + Joined(received[..j])).Incomplete?
  {
    var k := FrameStop(received, parse, buffer);
    assert Chunks(received[..k + 1]) by {
      assert forall i :: 0 <= i < k ==> received[..k + 1][i] == received[..k][i];
    }
    JoinedBack(received, k);
    assert buffer + Joined(received[..k + 1]) == buffer + Joined(received[..k]) + received[k].chunk;
    assert 0 < k + 1 <= |received| && Chunks(received[..k + 1]) &&
           parse(buffer + Joined(received[..k + 1])) == Parsed(Frame(received, parse, buffer).data);
  }

  /** When the peer closes before the buffer parses (or the reads run out), every
      prefix of the chunks received was incomplete, and nothing is answered. */
  lemma FrameClosedUnparsed(received: seq<Recv>, parse: string -> Parse, buffer: string)
    requires Frame(received, parse, buffer).Closed?
    ensures exists k :: 0 <= k <= |received| && Chunks(received[..k]) &&
              (k == |received| || received[k] == Data("")) &&
              forall j :: 0 < j <= k ==> parse(buffer + Joined(received[..j])).Incomplete?
  {
    var k := FrameStop(received, parse, buffer);
  }

  /** Each run of chunks starting at the first is the first chunk followed by a run
      of the chunks after it. */
  lemma JoinedShift(received: seq<Recv>, buffer: string, m: nat)
    requires m < |received| && received[0].Data? && received[0].chunk != "" && Chunks(received[1..][..m])
    ensures forall j :: 0 <= j <= m ==>
              (Chunks(received[1..][..j]) && Chunks(received[..j + 1]) &&
               buffer + Joined(received[..j + 1]) == buffer + received[0].chunk + Joined(received[1..][..j]))
  {
    var rest := received[1..];
    forall j | 0 <= j <= m
      ensures Chunks(rest[..j]) && Chunks(received[..j + 1])
      ensures buffer + Joined(received[..j + 1]) == buffer + received[0].chunk + Joined(rest[..j])
    {
      assert Chunks(rest[..j]) by { assert forall i :: 0 <= i < j ==> rest[..j][i] == rest[..m][i]; }
      JoinedFront(received, j);
    }
  }

  /** Joining a chunk and the chunks after it. */
  lemma JoinedFront(received: seq<Recv>, j: nat)
    requires j < |received| && received[0].Data? && received[0].chunk != "" && Chunks(received[1..][..j])
    ensures Chunks(received[..j + 1])
    ensures Joined(received[..j + 1]) == received[0].chunk + Joined(received[1..][..j])
  {
    assert received[..j + 1][1..] == received[1..][..j];
  }

  /** Joining chunks and one more. */
  lemma {:induction false} JoinedBack(received: seq<Recv>, k: nat)
    requires k < |received| && Chunks(received[..k + 1])
    ensures Chunks(received[..k])
    ensures Joined(received[..k + 1]) == Joined(received[..k]) + received[k].chunk
    decreases k
  {
    assert Chunks(received[..k]) by { assert forall i :: 0 <= i < k ==> received[..k][i] == received[..k + 1][i]; }
    if k == 0 {
      assert received[..1][1..] == [] && received[..0] == [];
    } else {
      assert received[1..][..k] == received[..k + 1][1..];
      assert Chunks(received[1..][..k]) by {
        assert forall i :: 0 <= i < k ==> received[1..][..k][i] == received[..k + 1][i + 1];
      }
      JoinedBack(received[1..], k - 1);
      assert received[1..][..k - 1] == received[..k][1..];
    }
  }
}
