/** The response objects the addon writes back to its client. */
module Responses {
  import opened Values

  /** `{"status": "error", "error": message}` */
  function ErrorResponse(message: string): Json
  {
    Obj([("status", Str("error")), ("error", Str(message))])
  }

  const UnknownType := ErrorResponse("Unknown message type")
  const NoCode := ErrorResponse("NO code provided")
  const CodeTimedOut := ErrorResponse("Code execution timed out")
  const AssetTimedOut := ErrorResponse("Asset download / import timed out")
  const NoBlendUrl := ErrorResponse("No blend URL provided")
  const BlendDownloadFailed := ErrorResponse("Failed to download blend file")
  const TextureDownloadFailed := ErrorResponse("Failed to download texture")

  /** An exception raised while importing an asset. */
  function ImportError(message: string): Json
  {
    ErrorResponse("Error importing asset: " + message)
  }

  /** An exception raised by compiling or running submitted code. */
  function ExecutionError(message: string): Json
  {
    Obj([("status", Str("error")), ("error", Str(message)), ("message", Str("Code execution error"))])
  }

  /** An exception the outer handler of an execution caught, with its traceback. */
  function ExecutionFailure(message: string, traceback: string): Json
  {
    Obj([("status", Str("error")), ("error", Str(message)), ("message", Str("Code execution error")),
         ("traceback", Str(traceback))])
  }

  /** A completed execution: its standard output, and its standard error as
      `warnings` when there was any. */
  function Executed(stdout: string, stderr: string): Json
  {
    var base := [("status", Str("executed")), ("result", Str(stdout))];
    Obj(if stderr == "" then base else base + [("warnings", Str(stderr))])
  }

  function Strings(ss: seq<string>): (r: Json)
    ensures r.Arr? && |r.items| == |ss|
    ensures forall i :: 0 <= i < |ss| ==> r.items[i] == Str(ss[i])
  {
    Arr(seq(|ss|, i requires 0 <= i < |ss| => Str(ss[i])))
  }

  /** A completed import and what it downloaded and linked. */
  function Imported(assetName: string, blendFile: string, textureFiles: seq<string>,
                    objects: seq<string>, tempDir: string): Json
  {
    Obj([("status", Str("success")),
         ("message", Str("Asset '" + assetName + "' imported successfully")),
         ("details", Obj([("blend_file", Str(blendFile)),
                          ("textures_downloaded", Int(|textureFiles|)),
                          ("texture_files", Strings(textureFiles)),
                          ("imported_objects", Strings(objects)),
                          ("temp_directory", Str(tempDir))]))])
  }

  /** An error response reports status "error" and its message, and no output. */
  lemma ErrorShape(message: string)
    ensures Field(ErrorResponse(message), "status") == Some(Str("error"))
    ensures Field(ErrorResponse(message), "error") == Some(Str(message))
    ensures Field(ErrorResponse(message), "result").None?
  {
    var m := ErrorResponse(message).members;
    assert m[1..] == [("error", Str(message))] && m[1..][1..] == [];
    assert "error"[0] != "status"[0];
    assert "result"[0] != "status"[0] && "result"[0] != "error"[0];
    assert Lookup(m, "error") == Lookup(m[1..], "error");
    assert Lookup(m, "result") == Lookup(m[1..], "result") == Lookup(m[1..][1..], "result");
  }

  /** An execution error reports status "error", the exception's message, and no output. */
  lemma ExecutionErrorShape(message: string)
    ensures Field(ExecutionError(message), "status") == Some(Str("error"))
    ensures Field(ExecutionError(message), "error") == Some(Str(message))
    ensures Field(ExecutionError(message), "result").None?
  {
    var m := ExecutionError(message).members;
    assert m[1..] == [("error", Str(message)), ("message", Str("Code execution error"))];
    assert m[1..][1..] == [("message", Str("Code execution error"))] && m[1..][1..][1..] == [];
    assert "error"[0] != "status"[0];
    assert "result"[0] != "status"[0] && "result"[0] != "error"[0] && "result"[0] != "message"[0];
    assert Lookup(m, "error") == Lookup(m[1..], "error");
    assert Lookup(m, "result") == Lookup(m[1..], "result") == Lookup(m[1..][1..], "result")
        == Lookup(m[1..][1..][1..], "result");
  }

  /** A failure caught by the outer handler reports status "error", the exception's
      message, its traceback, and no output. */
  lemma ExecutionFailureShape(message: string, traceback: string)
    ensures Field(ExecutionFailure(message, traceback), "status") == Some(Str("error"))
    ensures Field(ExecutionFailure(message, traceback), "error") == Some(Str(message))
    ensures Field(ExecutionFailure(message, traceback), "traceback") == Some(Str(traceback))
    ensures Field(ExecutionFailure(message, traceback), "result").None?
  {
    var m := ExecutionFailure(message, traceback).members;
    assert m[1..] == [("error", Str(message)), ("message", Str("Code execution error")), ("traceback", Str(traceback))];
    assert m[1..][1..] == [("message", Str("Code execution error")), ("traceback", Str(traceback))];
    assert m[1..][1..][1..] == [("traceback", Str(traceback))] && m[1..][1..][1..][1..] == [];
    assert "error"[0] != "status"[0];
    assert "traceback"[0] != "status"[0] && "traceback"[0] != "error"[0] && "traceback"[0] != "message"[0];
    assert "result"[0] != "status"[0] && "result"[0] != "error"[0] && "result"[0] != "message"[0]
        && "result"[0] != "traceback"[0];
    assert Lookup(m, "error") == Lookup(m[1..], "error");
    assert Lookup(m, "traceback") == Lookup(m[1..], "traceback") == Lookup(m[1..][1..], "traceback")
        == Lookup(m[1..][1..][1..], "traceback");
    assert Lookup(m, "result") == Lookup(m[1..], "result") == Lookup(m[1..][1..], "result")
        == Lookup(m[1..][1..][1..], "result") == Lookup(m[1..][1..][1..][1..], "result");
  }

  /** A completed execution reports status "executed" and its standard output as
      `result`; the `warnings` field is present exactly when standard error is not empty. */
  lemma ExecutedShape(stdout: string, stderr: string)
    ensures Field(Executed(stdout, stderr), "status") == Some(Str("executed"))
    ensures Field(Executed(stdout, stderr), "result") == Some(Str(stdout))
    ensures Field(Executed(stdout, stderr), "warnings") == if stderr == "" then None else Some(Str(stderr))
  {
    var m := Executed(stdout, stderr).members;
    assert m[1..][0] == ("result", Str(stdout));
    assert "result"[0] != "status"[0];
    assert "warnings"[0] != "status"[0] && "warnings"[0] != "result"[0];
    assert Lookup(m, "result") == Lookup(m[1..], "result");
    assert Lookup(m, "warnings") == Lookup(m[1..], "warnings") == Lookup(m[1..][1..], "warnings");
    if stderr == "" {
      assert m[1..][1..] == [];
    } else {
      assert m[1..][1..] == [("warnings", Str(stderr))];
    }
  }

  /** A completed import reports status "success", and its count of downloaded
      textures is the length of its list of texture files. */
  lemma ImportedShape(assetName: string, blendFile: string, textureFiles: seq<string>,
                      objects: seq<string>, tempDir: string)
    ensures var r := Imported(assetName, blendFile, textureFiles, objects, tempDir);
            Field(r, "status") == Some(Str("success")) &&
            Field(r, "details").Some? &&
            Field(Field(r, "details").value, "texture_files") == Some(Strings(textureFiles)) &&
            Field(Field(r, "details").value, "textures_downloaded") == Some(Int(|Strings(textureFiles).items|)) &&
            Field(Field(r, "details").value, "imported_objects") == Some(Strings(objects))
  {
    var m := Imported(assetName, blendFile, textureFiles, objects, tempDir).members;
    assert "details"[0] != "status"[0] && "details"[0] != "message"[0];
    assert Lookup(m, "details") == Lookup(m[1..], "details") == Lookup(m[1..][1..], "details");
    var d := m[2].1.members;
    assert "textures_downloaded"[0] != "blend_file"[0];
    assert "texture_files"[0] != "blend_file"[0] && "texture_files"[7] != "textures_downloaded"[7];
    assert "imported_objects"[0] != "blend_file"[0] && "imported_objects"[0] != "textures_downloaded"[0]
        && "imported_objects"[0] != "texture_files"[0];
    assert Lookup(d, "textures_downloaded") == Lookup(d[1..], "textures_downloaded");
    assert Lookup(d, "texture_files") == Lookup(d[1..], "texture_files") == Lookup(d[1..][1..], "texture_files");
    assert Lookup(d, "imported_objects") == Lookup(d[1..], "imported_objects")
        == Lookup(d[1..][1..], "imported_objects") == Lookup(d[1..][1..][1..], "imported_objects");
  }
}
