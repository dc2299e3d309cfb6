/** The asset import pipeline run by the host for an `asset-data` request: validate,
    create a scratch directory, download the blend file, download every texture in
    turn, then load the blend file as a library and link the objects it yields. */
module Assets {
  import opened Values
  import opened HostModel
  import opened Responses

  /** One download asked for: the URL and the destination path. */
  datatype Request = Request(url: Json, path: string)

  /** The texture downloads asked for when every one of them succeeds: one for each
      entry of `includes` whose `url` is truthy, in iteration order, into `dir` under
      the base name of the entry's key. Entries without a url are skipped. */
  function Wanted(dir: string, entries: seq<(string, Json)>): seq<Request>
  {
    if entries == [] then [] else WantedEntry(dir, entries[0]) + Wanted(dir, entries[1..])
  }

  /** The download one entry of `includes` asks for, if any. */
  function WantedEntry(dir: string, entry: (string, Json)): seq<Request>
  {
    var url := Get(entry.1, "url", Null);
    if url.Ok? && Truthy(url.value) then [Request(url.value, Join(dir, Basename(entry.0)))] else []
  }

  function Downloads(reqs: seq<Request>): seq<Effect>
  {
    if reqs == [] then [] else [Download(reqs[0].url, reqs[0].path)] + Downloads(reqs[1..])
  }

  function Paths(reqs: seq<Request>): seq<string>
  {
    if reqs == [] then [] else [reqs[0].path] + Paths(reqs[1..])
  }

  /** The names of the non-null objects a library yields, in order. */
  function Present(objects: seq<Option<string>>): seq<string>
  {
    if objects == [] then []
    else (if objects[0].Some? then [objects[0].value] else []) + Present(objects[1..])
  }

  function Links(names: seq<string>): (r: seq<Effect>)
    ensures |r| == |names|
    ensures forall i :: 0 <= i < |names| ==> r[i] == LinkObject(names[i])
  {
    seq(|names|, i requires 0 <= i < |names| => LinkObject(names[i]))
  }

  /** Where the texture loop stops: after the last entry with the files it downloaded,
      at a failed download, or at an entry that is not a dict. */
  datatype TextureRun =
    | TexturesDone(files: seq<string>, log: Log)
    | TextureFailed(log: Log)
    | TextureFault(fault: Fault, log: Log)

  /** The texture loop from `entries` on, `files` being the downloads so far. */
  function DownloadTextures(host: Host, log: Log, dir: string, entries: seq<(string, Json)>,
                            files: seq<string>): (r: TextureRun)
    ensures log <= r.log
    decreases |entries|
  {
    if entries == [] then TexturesDone(files, log)
    else match Get(entries[0].1, "url", Null)
      case Err(f) => TextureFault(f, log)
      case Ok(url) =>
        if !Truthy(url) then DownloadTextures(host, log, dir, entries[1..], files)
        else
          var path := Join(dir, Basename(entries[0].0));
          var after := log + [Download(url, path)];
          if host.download(log, url, path) then
            var r := DownloadTextures(host, after, dir, entries[1..], files + [path]);
            r
          else TextureFailed(after)
  }

  /** Where the linking loop stops: after the last object, or at a link that raised. */
  datatype LinkRun = Linked(names: seq<string>, log: Log) | LinkFailed(error: string, log: Log)

  /** The linking loop from `objects` on, `names` being the objects linked so far. */
  function LinkObjects(host: Host, log: Log, objects: seq<Option<string>>, names: seq<string>): (r: LinkRun)
    ensures log <= r.log
    decreases |objects|
  {
    if objects == [] then Linked(names, log)
    else match objects[0]
      case None => LinkObjects(host, log, objects[1..], names)
      case Some(name) =>
        var after := log + [LinkObject(name)];
        match host.link(log, name)
        case Failed(e) => LinkFailed(e, after)
        case Done(_) =>
          var r := LinkObjects(host, after, objects[1..], names + [name]);
          r
  }

  /** How an import ends. `Failure` is an exception raised on the way, reported with
      its message. */
  datatype Outcome =
    | Success(assetName: string, blendFile: string, textureFiles: seq<string>,
              objects: seq<string>, tempDir: string)
    | MissingBlendUrl
    | BlendNotDownloaded
    | TextureNotDownloaded
    | Failure(message: string)

  /** An outcome and the history afterwards. */
  datatype Run = Run(outcome: Outcome, log: Log)

  /** The response the addon sends for an outcome. */
  function Report(o: Outcome): Json
  {
    match o
    case Success(name, blendFile, files, objects, dir) => Imported(name, blendFile, files, objects, dir)
    case MissingBlendUrl => NoBlendUrl
    case BlendNotDownloaded => BlendDownloadFailed
    case TextureNotDownloaded => TextureDownloadFailed
    case Failure(message) => ImportError(message)
  }

  function AssetName(host: Host, asset: Json): string
    requires asset.Obj?
  {
    Format(host, Get(asset, "asset_name", Null).value)
  }

  function BlendUrl(asset: Json): Json
    requires asset.Obj?
  {
    Get(asset, "blend_url", Null).value
  }

  function Includes(asset: Json): Json
    requires asset.Obj?
  {
    Get(asset, "includes", Obj([])).value
  }

  function Prefix(name: string): string { "polyhaven_" + name + "_" }

  function BlendPath(dir: string, name: string): string { Join(dir, name + ".blend") }

  function TexturesDir(dir: string): string { Join(dir, "textures") }

  /** `download_and_import_asset(asset)` as the response and the history afterwards.
      Every exception is reported; none escapes. */
  function ImportAsset(host: Host, log: Log, asset: Json): (r: Step)
    ensures r.Completed? && log <= r.log
  {
    var run := Import(host, log, asset);
    Completed(Report(run.outcome), run.log)
  }

  /** The pipeline: a request that is not a dict, or has no truthy `blend_url`, is
      refused before anything is done to the host. */
  function Import(host: Host, log: Log, asset: Json): (r: Run)
    ensures log <= r.log
    ensures !asset.Obj? ==> r == Run(Failure(Describe(NoAttribute(TypeName(asset), "get"))), log)
    ensures asset.Obj? && !Truthy(BlendUrl(asset)) ==> r == Run(MissingBlendUrl, log)
  {
    if !asset.Obj? then Run(Failure(Describe(NoAttribute(TypeName(asset), "get"))), log)
    else if !Truthy(BlendUrl(asset)) then Run(MissingBlendUrl, log)
    else Fetch(host, log, AssetName(host, asset), BlendUrl(asset), Includes(asset))
  }

  /** From the scratch directory to the blend file and the textures directory. */
  function Fetch(host: Host, log: Log, name: string, url: Json, includes: Json): (r: Run)
    ensures log <= r.log && !r.outcome.MissingBlendUrl?
  {
    var log1 := log + [MakeTempDir(Prefix(name))];
    match host.mkdtemp(log, Prefix(name))
    case Failed(e) => Run(Failure(e), log1)
    case Done(dir) =>
      var log2 := log1 + [Download(url, BlendPath(dir, name))];
      if !host.download(log1, url, BlendPath(dir, name)) then Run(BlendNotDownloaded, log2)
      else
        var log3 := log2 + [MakeDirs(TexturesDir(dir))];
        match host.makedirs(log2, TexturesDir(dir))
        case Failed(e) => Run(Failure(e), log3)
        case Done(_) => FetchTextures(host, log3, name, dir, includes)
  }

  /** The texture loop, then the import. */
  function FetchTextures(host: Host, log: Log, name: string, dir: string, includes: Json): (r: Run)
    ensures log <= r.log
    ensures r.outcome.Success? || r.outcome.TextureNotDownloaded? || r.outcome.Failure?
  {
    if !includes.Obj? then Run(Failure(Describe(NoAttribute(TypeName(includes), "items"))), log)
    else match DownloadTextures(host, log, TexturesDir(dir), includes.members, [])
      case TextureFault(f, log4) => Run(Failure(Describe(f)), log4)
      case TextureFailed(log4) => Run(TextureNotDownloaded, log4)
      case TexturesDone(files, log4) => LoadAndLink(host, log4, name, dir, files)
  }

  /** Loading the blend file as a library and linking the objects it yields. */
  function LoadAndLink(host: Host, log: Log, name: string, dir: string, files: seq<string>): (r: Run)
    ensures log <= r.log
    ensures r.outcome.Success? || r.outcome.Failure?
  {
    var log5 := log + [LoadLibrary(BlendPath(dir, name))];
    match host.load(log, BlendPath(dir, name))
    case Failed(e) => Run(Failure(e), log5)
    case Done(objects) =>
      match LinkObjects(host, log5, objects, [])
      case LinkFailed(e, log6) => Run(Failure(e), log6)
      case Linked(names, log6) => Run(Success(name, BlendPath(dir, name), files, names, dir), log6)
  }

  lemma {:induction false} WantedAppend(dir: string, a: seq<(string, Json)>, b: seq<(string, Json)>)
    ensures Wanted(dir, a + b) == Wanted(dir, a) + Wanted(dir, b)
  {
    if a == [] {
      assert a + b == b;
    } else {
      assert (a + b)[0] == a[0] && (a + b)[1..] == a[1..] + b;
      WantedAppend(dir, a[1..], b);
    }
  }

  lemma {:induction false} DownloadsAppend(a: seq<Request>, b: seq<Request>)
    ensures Downloads(a + b) == Downloads(a) + Downloads(b)
  {
    if a == [] {
      assert a + b == b;
    } else {
      assert (a + b)[1..] == a[1..] + b;
      DownloadsAppend(a[1..], b);
    }
  }

  lemma {:induction false} PathsAppend(a: seq<Request>, b: seq<Request>)
    ensures Paths(a + b) == Paths(a) + Paths(b)
  {
    if a == [] {
      assert a + b == b;
    } else {
      assert (a + b)[1..] == a[1..] + b;
      PathsAppend(a[1..], b);
    }
  }

  /** A finished texture loop went past its first entry by making that entry's wanted
      download, if any, and recording its path. */
  lemma TextureStep(host: Host, log: Log, dir: string, entries: seq<(string, Json)>, files: seq<string>)
    returns (after: Log, more: seq<string>)
    requires entries != [] && DownloadTextures(host, log, dir, entries, files).TexturesDone?
    ensures after == log + Downloads(WantedEntry(dir, entries[0]))
    ensures more == files + Paths(WantedEntry(dir, entries[0]))
    ensures DownloadTextures(host, log, dir, entries, files) == DownloadTextures(host, after, dir, entries[1..], more)
  {
    var w := WantedEntry(dir, entries[0]);
    if w == [] {
      after, more := log, files;
    } else {
      assert w[1..] == [];
      after, more := log + [Download(w[0].url, w[0].path)], files + [w[0].path];
    }
  }

  /** When the texture loop finishes, it has made exactly the wanted downloads, in
      the order of `includes`. */
  lemma {:induction false} TexturesDoneLog(host: Host, log: Log, dir: string,
                                           entries: seq<(string, Json)>, files: seq<string>)
    requires DownloadTextures(host, log, dir, entries, files).TexturesDone?
    ensures DownloadTextures(host, log, dir, entries, files).log == log + Downloads(Wanted(dir, entries))
    decreases |entries|
  {
    if entries != [] {
      var after, more := TextureStep(host, log, dir, entries, files);
      var first, rest := WantedEntry(dir, entries[0]), Wanted(dir, entries[1..]);
      TexturesDoneLog(host, after, dir, entries[1..], more);
      DownloadsAppend(first, rest);
      assert Wanted(dir, entries) == first + rest;
      assert (log + Downloads(first)) + Downloads(rest) == log + (Downloads(first) + Downloads(rest));
    }
  }

  /** When the texture loop finishes, it reports the paths of the wanted downloads,
      in the order of `includes`. */
  lemma {:induction false} TexturesDoneFiles(host: Host, log: Log, dir: string,
                                             entries: seq<(string, Json)>, files: seq<string>)
    requires DownloadTextures(host, log, dir, entries, files).TexturesDone?
    ensures DownloadTextures(host, log, dir, entries, files).files == files + Paths(Wanted(dir, entries))
    decreases |entries|
  {
    if entries != [] {
      var after, more := TextureStep(host, log, dir, entries, files);
      var first, rest := WantedEntry(dir, entries[0]), Wanted(dir, entries[1..]);
      TexturesDoneFiles(host, after, dir, entries[1..], more);
      PathsAppend(first, rest);
      assert Wanted(dir, entries) == first + rest;
      assert (files + Paths(first)) + Paths(rest) == files + (Paths(first) + Paths(rest));
    }
  }

  /** The wanted downloads of the first entry, then those of the next `m - 1`
      entries, are the wanted downloads of the first `m` entries. */
  lemma ConsDownloads(log: Log, dir: string, entries: seq<(string, Json)>, m: nat)
    requires 0 < m <= |entries|
    ensures (log + Downloads(WantedEntry(dir, entries[0]))) + Downloads(Wanted(dir, entries[1..][..m - 1]))
            == log + Downloads(Wanted(dir, entries[..m]))
  {
    var first, rest := WantedEntry(dir, entries[0]), Wanted(dir, entries[1..][..m - 1]);
    assert entries[..m][0] == entries[0] && entries[..m][1..] == entries[1..][..m - 1];
    assert Wanted(dir, entries[..m]) == first + rest;
    DownloadsAppend(first, rest);
    assert (log + Downloads(first)) + Downloads(rest) == log + (Downloads(first) + Downloads(rest));
  }

  /** When a texture download fails, the loop has made the wanted downloads of the
      entries up to the failing one and nothing for the entries after it. */
  lemma {:induction false} TextureFailedPrefix(host: Host, log: Log, dir: string,
                                               entries: seq<(string, Json)>, files: seq<string>)
    returns (k: nat)
    requires DownloadTextures(host, log, dir, entries, files).TextureFailed?
    ensures 0 < k <= |entries|
    ensures DownloadTextures(host, log, dir, entries, files).log == log + Downloads(Wanted(dir, entries[..k]))
    decreases |entries|
  {
    var after, more, stop := TextureFailStep(host, log, dir, entries, files);
    if stop {
      k := 1;
      assert entries[1..][..0] == [];
      assert after + Downloads(Wanted(dir, [])) == after;
    } else {
      var m := TextureFailedPrefix(host, after, dir, entries[1..], more);
      k := m + 1;
    }
    ConsDownloads(log, dir, entries, k);
  }

  /** A texture loop that fails either fails at its first entry, right after that
      entry's download, or goes past it as a finished one does. */
  lemma TextureFailStep(host: Host, log: Log, dir: string, entries: seq<(string, Json)>, files: seq<string>)
    returns (after: Log, more: seq<string>, stop: bool)
    requires DownloadTextures(host, log, dir, entries, files).TextureFailed?
    ensures entries != [] && after == log + Downloads(WantedEntry(dir, entries[0]))
    ensures stop ==> DownloadTextures(host, log, dir, entries, files).log == after
    ensures !stop ==> more == files + Paths(WantedEntry(dir, entries[0])) &&
                      DownloadTextures(host, log, dir, entries, files) == DownloadTextures(host, after, dir, entries[1..], more)
  {
    var w := WantedEntry(dir, entries[0]);
    if w == [] {
      after, more, stop := log, files, false;
    } else {
      assert w[1..] == [];
      after, more := log + [Download(w[0].url, w[0].path)], files + [w[0].path];
      stop := !host.download(log, w[0].url, w[0].path);
    }
  }

  /** When a texture download fails, that download is the last thing the loop did. */
  lemma {:induction false} TextureFailedLast(host: Host, log: Log, dir: string,
                                             entries: seq<(string, Json)>, files: seq<string>)
    requires DownloadTextures(host, log, dir, entries, files).TextureFailed?
    ensures var l := DownloadTextures(host, log, dir, entries, files).log;
            |l| > |log| && l[|l| - 1].Download? &&
            !host.download(l[..|l| - 1], l[|l| - 1].url, l[|l| - 1].path)
    decreases |entries|
  {
    var url := Get(entries[0].1, "url", Null);
    if Truthy(url.value) {
      var path := Join(dir, Basename(entries[0].0));
      var after := log + [Download(url.value, path)];
      if host.download(log, url.value, path) {
        TextureFailedLast(host, after, dir, entries[1..], files + [path]);
      } else {
        assert after[..|after| - 1] == log;
      }
    } else {
      TextureFailedLast(host, log, dir, entries[1..], files);
    }
  }

  /** Every download in `r`'s history from position `start` on succeeded when it was
      made, except the last one when `r` is a failed loop. */
  predicate SucceededFrom(host: Host, start: nat, r: TextureRun)
  {
    forall i :: start <= i < |r.log| && (r.TextureFailed? ==> i < |r.log| - 1) ==>
      r.log[i].Download? && host.download(r.log[..i], r.log[i].url, r.log[i].path)
  }

  /** Every download the texture loop makes succeeds, except the last one of a loop
      that failed: the loop stops at the first failed download. */
  lemma {:induction false} TextureDownloadsSucceeded(host: Host, log: Log, dir: string,
                                                     entries: seq<(string, Json)>, files: seq<string>)
    ensures SucceededFrom(host, |log|, DownloadTextures(host, log, dir, entries, files))
    decreases |entries|
  {
    if entries != [] {
      var url := Get(entries[0].1, "url", Null);
      if url.Ok? && Truthy(url.value) {
        var path := Join(dir, Basename(entries[0].0));
        var after := log + [Download(url.value, path)];
        if !host.download(log, url.value, path) {
          assert DownloadTextures(host, log, dir, entries, files) == TextureFailed(after);
        } else {
          TextureDownloadsSucceeded(host, after, dir, entries[1..], files + [path]);
          var r := DownloadTextures(host, after, dir, entries[1..], files + [path]);
          assert DownloadTextures(host, log, dir, entries, files) == r;
          assert r.log[..|after|] == after;
          assert r.log[|log|] == after[|log|] && r.log[..|log|] == log;
        }
      } else if url.Ok? {
        TextureDownloadsSucceeded(host, log, dir, entries[1..], files);
        assert DownloadTextures(host, log, dir, entries, files) == DownloadTextures(host, log, dir, entries[1..], files);
      } else {
        assert DownloadTextures(host, log, dir, entries, files).log == log;
      }
    }
  }

  /** Each of the downloads `reqs`, made in order from `log`, succeeds. */
  predicate AllDownloaded(host: Host, log: Log, reqs: seq<Request>)
    decreases |reqs|
  {
    reqs == [] ||
    (host.download(log, reqs[0].url, reqs[0].path) &&
     AllDownloaded(host, log + [Download(reqs[0].url, reqs[0].path)], reqs[1..]))
  }

  /** Every entry of `includes` is a dict, so that `.get("url")` does not raise. */
  predicate DictEntries(entries: seq<(string, Json)>)
  {
    forall i :: 0 <= i < |entries| ==> entries[i].1.Obj?
  }

  /** The texture loop finishes only when every wanted download succeeds; over entries
      that are all dicts, it finishes exactly then, and fails otherwise. */
  lemma {:induction false} TexturesDoneIffDownloaded(host: Host, log: Log, dir: string,
                                                     entries: seq<(string, Json)>, files: seq<string>)
    ensures var r := DownloadTextures(host, log, dir, entries, files);
            r.TexturesDone? ==> AllDownloaded(host, log, Wanted(dir, entries))
    ensures var r := DownloadTextures(host, log, dir, entries, files);
            DictEntries(entries) ==>
              !r.TextureFault? && (r.TexturesDone? <==> AllDownloaded(host, log, Wanted(dir, entries)))
    decreases |entries|
  {
    if entries != [] {
      var url := Get(entries[0].1, "url", Null);
      if url.Ok? {
        var rest := Wanted(dir, entries[1..]);
        assert DictEntries(entries) ==> DictEntries(entries[1..]) by {
          assert forall i :: 0 <= i < |entries[1..]| ==> entries[1..][i] == entries[i + 1];
        }
        if Truthy(url.value) {
          var path := Join(dir, Basename(entries[0].0));
          var req := Request(url.value, path);
          assert Wanted(dir, entries) == [req] + rest;
          assert ([req] + rest)[0] == req && ([req] + rest)[1..] == rest;
          if host.download(log, url.value, path) {
            TexturesDoneIffDownloaded(host, log + [Download(url.value, path)], dir, entries[1..], files + [path]);
          }
        } else {
          assert Wanted(dir, entries) == rest;
          TexturesDoneIffDownloaded(host, log, dir, entries[1..], files);
        }
      }
    }
  }

  /** The texture loop does nothing to the host but download. */
  lemma {:induction false} TextureRunOnlyDownloads(host: Host, log: Log, dir: string,
                                                   entries: seq<(string, Json)>, files: seq<string>)
    ensures forall i :: |log| <= i < |DownloadTextures(host, log, dir, entries, files).log| ==>
              DownloadTextures(host, log, dir, entries, files).log[i].Download?
    decreases |entries|
  {
    if entries != [] {
      var url := Get(entries[0].1, "url", Null);
      if url.Ok? && Truthy(url.value) {
        var path := Join(dir, Basename(entries[0].0));
        var after := log + [Download(url.value, path)];
        if host.download(log, url.value, path) {
          TextureRunOnlyDownloads(host, after, dir, entries[1..], files + [path]);
          assert DownloadTextures(host, log, dir, entries, files).log[|log|] == after[|log|];
        }
      } else if url.Ok? {
        TextureRunOnlyDownloads(host, log, dir, entries[1..], files);
      }
    }
  }

  lemma LinksAppend(a: seq<string>, b: seq<string>)
    ensures Links(a + b) == Links(a) + Links(b)
  {
    assert forall i :: 0 <= i < |a + b| ==> Links(a + b)[i] == (Links(a) + Links(b))[i];
  }

  /** The name of an object if it is not null. */
  function PresentOne(o: Option<string>): seq<string>
  {
    if o.Some? then [o.value] else []
  }

  /** A finished linking loop went past its first object by linking it, if it is not
      null, and recording its name. */
  lemma LinkStep(host: Host, log: Log, objects: seq<Option<string>>, names: seq<string>)
    returns (after: Log, more: seq<string>)
    requires objects != [] && LinkObjects(host, log, objects, names).Linked?
    ensures after == log + Links(PresentOne(objects[0])) && more == names + PresentOne(objects[0])
    ensures LinkObjects(host, log, objects, names) == LinkObjects(host, after, objects[1..], more)
    ensures Present(objects) == PresentOne(objects[0]) + Present(objects[1..])
  {
    if objects[0].None? {
      after, more := log, names;
    } else {
      assert Links([objects[0].value]) == [LinkObject(objects[0].value)];
      after, more := log + [LinkObject(objects[0].value)], names + [objects[0].value];
    }
  }

  /** When the linking loop finishes, it reports the names of exactly the non-null
      objects, in the order the library yielded them. */
  lemma {:induction false} LinkedNames(host: Host, log: Log, objects: seq<Option<string>>, names: seq<string>)
    requires LinkObjects(host, log, objects, names).Linked?
    ensures LinkObjects(host, log, objects, names).names == names + Present(objects)
    decreases |objects|
  {
    if objects != [] {
      var after, more := LinkStep(host, log, objects, names);
      var first, rest := PresentOne(objects[0]), Present(objects[1..]);
      LinkedNames(host, after, objects[1..], more);
      assert (names + first) + rest == names + (first + rest);
    }
  }

  /** When the linking loop finishes, it has linked exactly the non-null objects, in
      the order the library yielded them. */
  lemma {:induction false} LinkedLog(host: Host, log: Log, objects: seq<Option<string>>, names: seq<string>)
    requires LinkObjects(host, log, objects, names).Linked?
    ensures LinkObjects(host, log, objects, names).log == log + Links(Present(objects))
    decreases |objects|
  {
    if objects != [] {
      var after, more := LinkStep(host, log, objects, names);
      var first, rest := PresentOne(objects[0]), Present(objects[1..]);
      LinkedLog(host, after, objects[1..], more);
      LinksAppend(first, rest);
      assert (log + Links(first)) + Links(rest) == log + (Links(first) + Links(rest));
    }
  }

  /** The linking loop does nothing to the host but link objects. */
  lemma {:induction false} LinkRunOnlyLinks(host: Host, log: Log, objects: seq<Option<string>>, names: seq<string>)
    ensures forall i :: |log| <= i < |LinkObjects(host, log, objects, names).log| ==>
              LinkObjects(host, log, objects, names).log[i].LinkObject?
    decreases |objects|
  {
    if objects != [] {
      if objects[0].None? {
        LinkRunOnlyLinks(host, log, objects[1..], names);
      } else if host.link(log, objects[0].value).Done? {
        var after := log + [LinkObject(objects[0].value)];
        LinkRunOnlyLinks(host, after, objects[1..], names + [objects[0].value]);
        assert LinkObjects(host, log, objects, names).log[|log|] == after[|log|];
      }
    }
  }

  /** The response names the way the import ended: each download failure and the
      missing URL have their own response, and only a success reports "success". */
  lemma ReportIdentifies(o: Outcome)
    ensures Report(o) == NoBlendUrl <==> o.MissingBlendUrl?
    ensures Report(o) == BlendDownloadFailed <==> o.BlendNotDownloaded?
    ensures Report(o) == TextureDownloadFailed <==> o.TextureNotDownloaded?
    ensures Field(Report(o), "status") == Some(Str(if o.Success? then "success" else "error"))
  {
    assert "No blend URL provided" != "Failed to download blend file" by {
      assert "No blend URL provided"[0] != "Failed to download blend file"[0];
    }
    assert "No blend URL provided" != "Failed to download texture" by {
      assert "No blend URL provided"[0] != "Failed to download texture"[0];
    }
    assert "Failed to download blend file" != "Failed to download texture" by {
      assert |"Failed to download blend file"| != |"Failed to download texture"|;
    }
    match o
    case Failure(m) =>
      var text := "Error importing asset: " + m;
      assert text[0] == 'E';
      assert text != "No blend URL provided" by { assert "No blend URL provided"[0] == 'N'; }
      assert text != "Failed to download blend file" by { assert "Failed to download blend file"[0] == 'F'; }
      assert text != "Failed to download texture" by { assert "Failed to download texture"[0] == 'F'; }
      ErrorShape(text);
    case Success(_, _, _, _, _) =>
      assert Report(o).members[0] == ("status", Str("success"));
    case MissingBlendUrl => ErrorShape("No blend URL provided");
    case BlendNotDownloaded => ErrorShape("Failed to download blend file");
    case TextureNotDownloaded => ErrorShape("Failed to download texture");
  }

  /** "Failed to download blend file" means the request had a truthy `blend_url`,
      and the import created the scratch directory, tried that one download, which
      failed, and did nothing else: no texture download, no import. */
  lemma ImportBlendFailure(host: Host, log: Log, asset: Json)
    requires ImportAsset(host, log, asset).response == BlendDownloadFailed
    ensures asset.Obj? && Truthy(BlendUrl(asset))
    ensures var name := AssetName(host, asset);
            host.mkdtemp(log, Prefix(name)).Done? &&
            var dir := host.mkdtemp(log, Prefix(name)).value;
            ImportAsset(host, log, asset).log
              == log + [MakeTempDir(Prefix(name)), Download(BlendUrl(asset), BlendPath(dir, name))] &&
            !host.download(log + [MakeTempDir(Prefix(name))], BlendUrl(asset), BlendPath(dir, name))
  {
    ReportIdentifies(Import(host, log, asset).outcome);
  }

  /** The history of an import that got as far as the textures directory. */
  function Prepared(log: Log, name: string, url: Json, dir: string): Log
  {
    log + [MakeTempDir(Prefix(name)), Download(url, BlendPath(dir, name)), MakeDirs(TexturesDir(dir))]
  }

  /** An import that reaches the texture loop has created the scratch directory,
      downloaded the blend file and created the textures directory, in that order. */
  lemma FetchReachesTextures(host: Host, log: Log, name: string, url: Json, includes: Json)
    requires var o := Fetch(host, log, name, url, includes).outcome;
             o.Success? || o.TextureNotDownloaded?
    ensures host.mkdtemp(log, Prefix(name)).Done?
    ensures var dir := host.mkdtemp(log, Prefix(name)).value;
            host.download(log + [MakeTempDir(Prefix(name))], url, BlendPath(dir, name)) &&
            host.makedirs(log + [MakeTempDir(Prefix(name)), Download(url, BlendPath(dir, name))],
                          TexturesDir(dir)).Done?
    ensures var dir := host.mkdtemp(log, Prefix(name)).value;
            Fetch(host, log, name, url, includes)
              == FetchTextures(host, Prepared(log, name, url, dir), name, dir, includes)
  {
    var dir := host.mkdtemp(log, Prefix(name)).value;
    assert log + [MakeTempDir(Prefix(name)), Download(url, BlendPath(dir, name))]
        == (log + [MakeTempDir(Prefix(name))]) + [Download(url, BlendPath(dir, name))];
    assert Prepared(log, name, url, dir)
        == (log + [MakeTempDir(Prefix(name))]) + [Download(url, BlendPath(dir, name))] + [MakeDirs(TexturesDir(dir))];
  }

  /** "Failed to download texture" means the blend file was downloaded and the
      textures directory made, and the import then made the wanted texture downloads
      of the entries of `includes` up to the failing one, in order, and nothing after. */
  lemma ImportTextureFailure(host: Host, log: Log, asset: Json)
    requires ImportAsset(host, log, asset).response == TextureDownloadFailed
    ensures asset.Obj? && Truthy(BlendUrl(asset)) && Includes(asset).Obj?
    ensures var name := AssetName(host, asset);
            host.mkdtemp(log, Prefix(name)).Done? &&
            var dir := host.mkdtemp(log, Prefix(name)).value;
            var entries := Includes(asset).members;
            exists k :: 0 < k <= |entries| &&
              ImportAsset(host, log, asset).log
                == Prepared(log, name, BlendUrl(asset), dir) + Downloads(Wanted(TexturesDir(dir), entries[..k]))
    ensures var name := AssetName(host, asset);
            var dir := host.mkdtemp(log, Prefix(name)).value;
            host.download(log + [MakeTempDir(Prefix(name))], BlendUrl(asset), BlendPath(dir, name)) &&
            host.makedirs(log + [MakeTempDir(Prefix(name)), Download(BlendUrl(asset), BlendPath(dir, name))],
                          TexturesDir(dir)).Done?
  {
    ReportIdentifies(Import(host, log, asset).outcome);
    var name, url, includes := AssetName(host, asset), BlendUrl(asset), Includes(asset);
    FetchReachesTextures(host, log, name, url, includes);
    var dir := host.mkdtemp(log, Prefix(name)).value;
    var k := TextureFailedPrefix(host, Prepared(log, name, url, dir), TexturesDir(dir), includes.members, []);
  }

  /** "Failed to download texture" means the import stopped at the first texture
      download that failed: every texture download it made succeeded but the last,
      which failed. */
  lemma ImportTextureFailureStops(host: Host, log: Log, asset: Json)
    requires ImportAsset(host, log, asset).response == TextureDownloadFailed
    ensures asset.Obj? && host.mkdtemp(log, Prefix(AssetName(host, asset))).Done?
    ensures var name := AssetName(host, asset);
            var dir := host.mkdtemp(log, Prefix(name)).value;
            var l := ImportAsset(host, log, asset).log;
            var start := |Prepared(log, name, BlendUrl(asset), dir)|;
            start < |l| &&
            (forall i :: start <= i < |l| - 1 ==> l[i].Download? && host.download(l[..i], l[i].url, l[i].path)) &&
            l[|l| - 1].Download? && !host.download(l[..|l| - 1], l[|l| - 1].url, l[|l| - 1].path)
  {
    ReportIdentifies(Import(host, log, asset).outcome);
    var name, url, includes := AssetName(host, asset), BlendUrl(asset), Includes(asset);
    FetchReachesTextures(host, log, name, url, includes);
    var dir := host.mkdtemp(log, Prefix(name)).value;
    var prepared := Prepared(log, name, url, dir);
    var t := DownloadTextures(host, prepared, TexturesDir(dir), includes.members, []);
    assert t.TextureFailed? && ImportAsset(host, log, asset).log == t.log;
    TextureDownloadsSucceeded(host, prepared, TexturesDir(dir), includes.members, []);
    TextureFailedLast(host, prepared, TexturesDir(dir), includes.members, []);
    assert |prepared| < |t.log| && SucceededFrom(host, |prepared|, t);
  }

  /** A successful load and link reports the blend file, the files given and the
      non-null objects of the library in order, after loading it and linking them. */
  lemma LoadAndLinkSuccess(host: Host, log: Log, name: string, dir: string, files: seq<string>)
    requires LoadAndLink(host, log, name, dir, files).outcome.Success?
    ensures host.load(log, BlendPath(dir, name)).Done?
    ensures var objects := Present(host.load(log, BlendPath(dir, name)).value);
            LoadAndLink(host, log, name, dir, files)
              == Run(Success(name, BlendPath(dir, name), files, objects, dir),
                     log + [LoadLibrary(BlendPath(dir, name))] + Links(objects))
  {
    var objects := host.load(log, BlendPath(dir, name)).value;
    var log5 := log + [LoadLibrary(BlendPath(dir, name))];
    LinkedNames(host, log5, objects, []);
    LinkedLog(host, log5, objects, []);
    assert [] + Present(objects) == Present(objects);
  }

  /** A successful import downloaded the blend file, made the textures directory and
      made every wanted texture download successfully; it reports the asset name, the
      blend file, the paths of those downloads in the order of `includes`, the
      non-null objects the library yielded in order, and the scratch directory. */
  lemma ImportSuccess(host: Host, log: Log, asset: Json)
    requires Field(ImportAsset(host, log, asset).response, "status") == Some(Str("success"))
    ensures asset.Obj? && Truthy(BlendUrl(asset)) && Includes(asset).Obj?
    ensures var name := AssetName(host, asset);
            host.mkdtemp(log, Prefix(name)).Done? &&
            var dir := host.mkdtemp(log, Prefix(name)).value;
            var wanted := Wanted(TexturesDir(dir), Includes(asset).members);
            var fetched := Prepared(log, name, BlendUrl(asset), dir) + Downloads(wanted);
            host.load(fetched, BlendPath(dir, name)).Done? &&
            var objects := Present(host.load(fetched, BlendPath(dir, name)).value);
            ImportAsset(host, log, asset)
              == Completed(Imported(name, BlendPath(dir, name), Paths(wanted), objects, dir),
                           fetched + [LoadLibrary(BlendPath(dir, name))] + Links(objects))
    ensures var name := AssetName(host, asset);
            var dir := host.mkdtemp(log, Prefix(name)).value;
            host.download(log + [MakeTempDir(Prefix(name))], BlendUrl(asset), BlendPath(dir, name)) &&
            host.makedirs(log + [MakeTempDir(Prefix(name)), Download(BlendUrl(asset), BlendPath(dir, name))],
                          TexturesDir(dir)).Done? &&
            AllDownloaded(host, Prepared(log, name, BlendUrl(asset), dir), Wanted(TexturesDir(dir), Includes(asset).members))
  {
    ReportIdentifies(Import(host, log, asset).outcome);
    var name, url, includes := AssetName(host, asset), BlendUrl(asset), Includes(asset);
    FetchReachesTextures(host, log, name, url, includes);
    var dir := host.mkdtemp(log, Prefix(name)).value;
    var prepared := Prepared(log, name, url, dir);
    var t := DownloadTextures(host, prepared, TexturesDir(dir), includes.members, []);
    TexturesDoneLog(host, prepared, TexturesDir(dir), includes.members, []);
    TexturesDoneFiles(host, prepared, TexturesDir(dir), includes.members, []);
    TexturesDoneIffDownloaded(host, prepared, TexturesDir(dir), includes.members, []);
    assert [] + Paths(Wanted(TexturesDir(dir), includes.members)) == Paths(Wanted(TexturesDir(dir), includes.members));
    LoadAndLinkSuccess(host, t.log, name, dir, t.files);
  }

  /** A request with a truthy `blend_url` whose blend download fails, once the
      scratch directory is made, is answered "Failed to download blend file". */
  lemma BlendFailureReported(host: Host, log: Log, asset: Json)
    requires asset.Obj? && Truthy(BlendUrl(asset))
    requires host.mkdtemp(log, Prefix(AssetName(host, asset))).Done?
    requires var name := AssetName(host, asset);
             var dir := host.mkdtemp(log, Prefix(name)).value;
             !host.download(log + [MakeTempDir(Prefix(name))], BlendUrl(asset), BlendPath(dir, name))
    ensures ImportAsset(host, log, asset).response == BlendDownloadFailed
  {
  }

  /** Once the blend file is downloaded and the textures directory made, over entries
      of `includes` that are all dicts, a wanted texture download that fails is
      answered "Failed to download texture". */
  lemma TextureFailureReported(host: Host, log: Log, asset: Json)
    requires asset.Obj? && Truthy(BlendUrl(asset)) && Includes(asset).Obj? && DictEntries(Includes(asset).members)
    requires host.mkdtemp(log, Prefix(AssetName(host, asset))).Done?
    requires var name := AssetName(host, asset);
             var dir := host.mkdtemp(log, Prefix(name)).value;
             host.download(log + [MakeTempDir(Prefix(name))], BlendUrl(asset), BlendPath(dir, name)) &&
             host.makedirs(log + [MakeTempDir(Prefix(name)), Download(BlendUrl(asset), BlendPath(dir, name))],
                           TexturesDir(dir)).Done? &&
             !AllDownloaded(host, Prepared(log, name, BlendUrl(asset), dir), Wanted(TexturesDir(dir), Includes(asset).members))
    ensures ImportAsset(host, log, asset).response == TextureDownloadFailed
  {
    var name, url, includes := AssetName(host, asset), BlendUrl(asset), Includes(asset);
    var dir := host.mkdtemp(log, Prefix(name)).value;
    var prepared := Prepared(log, name, url, dir);
    assert log + [MakeTempDir(Prefix(name)), Download(url, BlendPath(dir, name))]
        == (log + [MakeTempDir(Prefix(name))]) + [Download(url, BlendPath(dir, name))];
    assert prepared == (log + [MakeTempDir(Prefix(name))]) + [Download(url, BlendPath(dir, name))]
                       + [MakeDirs(TexturesDir(dir))];
    TexturesDoneIffDownloaded(host, prepared, TexturesDir(dir), includes.members, []);
    assert Fetch(host, log, name, url, includes) == FetchTextures(host, prepared, name, dir, includes);
  }

  /** After a failed download, blend file or texture, nothing is loaded and nothing is
      linked into the scene. */
  lemma FailedDownloadImportsNothing(host: Host, log: Log, asset: Json)
    requires ImportAsset(host, log, asset).response in {BlendDownloadFailed, TextureDownloadFailed}
    ensures forall i :: |log| <= i < |ImportAsset(host, log, asset).log| ==>
              !ImportAsset(host, log, asset).log[i].LoadLibrary? &&
              !ImportAsset(host, log, asset).log[i].LinkObject?
  {
    var l := ImportAsset(host, log, asset).log;
    if ImportAsset(host, log, asset).response == BlendDownloadFailed {
      ImportBlendFailure(host, log, asset);
    } else {
      ReportIdentifies(Import(host, log, asset).outcome);
      var name, url, includes := AssetName(host, asset), BlendUrl(asset), Includes(asset);
      FetchReachesTextures(host, log, name, url, includes);
      var dir := host.mkdtemp(log, Prefix(name)).value;
      var prepared := Prepared(log, name, url, dir);
      TextureRunOnlyDownloads(host, prepared, TexturesDir(dir), includes.members, []);
      assert l == DownloadTextures(host, prepared, TexturesDir(dir), includes.members, []).log;
      assert forall i :: |log| <= i < |prepared| ==> !prepared[i].LoadLibrary? && !prepared[i].LinkObject?;
      assert forall i :: |log| <= i < |prepared| ==> l[i] == prepared[i];
    }
  }

  /** The texture loop of `download_and_import_asset`, appending to the list of
      downloaded files as it goes. */
  method DownloadTexturesLoop(host: Host, log: Log, dir: string, entries: seq<(string, Json)>)
    returns (r: TextureRun)
    ensures r == DownloadTextures(host, log, dir, entries, [])
  {
    var downloaded: seq<string> := [];
    var history := log;
    var i := 0;
    while i < |entries|
      invariant 0 <= i <= |entries|
      invariant DownloadTextures(host, log, dir, entries, [])
                == DownloadTextures(host, history, dir, entries[i..], downloaded)
    {
      assert entries[i..][0] == entries[i] && entries[i..][1..] == entries[i + 1..];
      var url := Get(entries[i].1, "url", Null);
      if url.Err? {
        return TextureFault(url.fault, history);
      }
      if Truthy(url.value) {
        var path := Join(dir, Basename(entries[i].0));
        var ok := host.download(history, url.value, path);
        history := history + [Download(url.value, path)];
        if !ok {
          return TextureFailed(history);
        }
        downloaded := downloaded + [path];
      }
      i := i + 1;
    }
    return TexturesDone(downloaded, history);
  }

  /** The linking loop of `download_and_import_asset`, appending to the list of
      imported objects as it goes. */
  method LinkLoop(host: Host, log: Log, objects: seq<Option<string>>) returns (r: LinkRun)
    ensures r == LinkObjects(host, log, objects, [])
  {
    var imported: seq<string> := [];
    var history := log;
    var i := 0;
    while i < |objects|
      invariant 0 <= i <= |objects|
      invariant LinkObjects(host, log, objects, []) == LinkObjects(host, history, objects[i..], imported)
    {
      assert objects[i..][0] == objects[i] && objects[i..][1..] == objects[i + 1..];
      if objects[i].Some? {
        var name := objects[i].value;
        var linked := host.link(history, name);
        history := history + [LinkObject(name)];
        if linked.Failed? {
          return LinkFailed(linked.error, history);
        }
        imported := imported + [name];
      }
      i := i + 1;
    }
    return Linked(imported, history);
  }

  /** `download_and_import_asset(asset)` step by step: it ends as the pipeline does,
      with the same history. */
  method DownloadAndImportAsset(host: Host, log: Log, asset: Json) returns (r: Run)
    ensures r == Import(host, log, asset)
  {
    if !asset.Obj? {
      return Run(Failure(Describe(NoAttribute(TypeName(asset), "get"))), log);
    }
    var name := AssetName(host, asset);
    var url := BlendUrl(asset);
    var includes := Includes(asset);
    if !Truthy(url) {
      return Run(MissingBlendUrl, log);
    }
    var history := log + [MakeTempDir(Prefix(name))];
    var made := host.mkdtemp(log, Prefix(name));
    if made.Failed? {
      return Run(Failure(made.error), history);
    }
    var dir := made.value;
    var blendFile := BlendPath(dir, name);
    var fetched := host.download(history, url, blendFile);
    history := history + [Download(url, blendFile)];
    if !fetched {
      return Run(BlendNotDownloaded, history);
    }
    var texturesDir := TexturesDir(dir);
    var madeDirs := host.makedirs(history, texturesDir);
    history := history + [MakeDirs(texturesDir)];
    if madeDirs.Failed? {
      return Run(Failure(madeDirs.error), history);
    }
    if !includes.Obj? {
      return Run(Failure(Describe(NoAttribute(TypeName(includes), "items"))), history);
    }
    var textures := DownloadTexturesLoop(host, history, texturesDir, includes.members);
    if textures.TextureFault? {
      return Run(Failure(Describe(textures.fault)), textures.log);
    } else if textures.TextureFailed? {
      return Run(TextureNotDownloaded, textures.log);
    }
    history := textures.log + [LoadLibrary(blendFile)];
    var loaded := host.load(textures.log, blendFile);
    if loaded.Failed? {
      return Run(Failure(loaded.error), history);
    }
    var linked := LinkLoop(host, history, loaded.value);
    if linked.LinkFailed? {
      return Run(Failure(linked.error), linked.log);
    }
    return Run(Success(name, blendFile, textures.files, linked.names, dir), linked.log);
  }
}
