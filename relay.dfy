/** What one POST /outpaint request does (app.py, lines 23-124), as a function
    of the request, of the outcomes of everything outside the relay (the
    temporary directory, the upload's save, the two remote calls, the copy and
    the removal), and of the filesystem before the request. */
module Relay {
  import opened PyValues
  import opened LocalFs
  import opened Normalizer

  /** A file field of the multipart form. */
  datatype Upload = Upload(filename: string, content: Bytes)

  /** The part of the request the handler reads: `request.files`. */
  datatype Request = Request(files: map<string, Upload>)

  /** An I/O step that either completes or raises with message `str(e)`. */
  datatype Step = Done | Fail(msg: string)

  /** One `client.predict` call: it raises, or it returns a value after the
      client has written `downloads` to the local disk. */
  datatype Call = Raise(msg: string) | Return(value: Value, downloads: map<Path, Bytes>)

  /** What `shutil.copy2` does once it has accepted its two paths: it copies,
      it raises, or it returns with the copy missing afterwards (an
      interrupted copy, or another process removing it): then nothing is at
      the destination. */
  datatype CopyStep = Copied | CopyRaise(msg: string) | CopyLost

  /** The outcomes of everything the handler cannot decide itself. `tempDir`
      is the name `tempfile.mkdtemp` hands out. */
  datatype World = World(
    tempDir: Path,
    mkdtemp: Step,
    save: Step,
    useOutputAsInput: Call,
    inpaint: Call,
    copy: CopyStep,
    rmtree: Step)

  /** A JSON `{"error": ...}` answer with its status, or `send_file`. */
  datatype Response =
    | JsonError(status: int, error: string)
    | SendFile(path: Path, mimetype: string, asAttachment: bool, downloadName: string, content: Bytes)

  function Status(r: Response): int
  {
    if r.SendFile? then 200 else r.status
  }

  const NO_IMAGE_FILE := "No image file provided"
  const NO_IMAGE_SELECTED := "No image selected"
  const INPUT_NAME := "input.png"
  const OUTPUT_NAME := "output.webp"
  const MIMETYPE := "image/webp"
  const DOWNLOAD_NAME := "outpainted-image.webp"

  /** The message of a 500 answer for a remote call that raised. */
  function ProcessingError(msg: string): string
  {
    "Error in image processing: " + msg
  }

  function ServerError(msg: string): Response
  {
    JsonError(500, msg)
  }

  datatype Outcome = Outcome(response: Response, fs: FsState)

  /** The request carries an `image` file with a name. */
  predicate Submitted(req: Request)
  {
    "image" in req.files && req.files["image"].filename != ""
  }

  /** The handler gets as far as creating its temporary directory, so that
      `temp_dir` is no longer None when the `finally` block runs. */
  predicate Creates(req: Request, w: World)
  {
    Submitted(req) && w.mkdtemp.Done?
  }

  /** What every answer given after the temporary directory `t` exists looks
      like: a 500 JSON error, or the copy in `t` sent as a WEBP attachment. */
  predicate LateAnswer(r: Response, t: Path)
  {
    match r
    case JsonError(status, _) => status == 500
    case SendFile(path, mimetype, asAttachment, downloadName, _) =>
      path == Join(t, OUTPUT_NAME) && mimetype == MIMETYPE && asAttachment &&
      downloadName == DOWNLOAD_NAME
  }

  /** The try block from the copy of the result on (app.py:98-112). `copy2`
      refuses a source that is not a regular file, or that is the destination
      itself; once it returns normally the destination holds the source's
      bytes, unless the copy went missing, which the re-check at app.py:103
      turns into "Copied file not found". */
  function Deliver(py: Python, src: Path, w: World, fs: FsState): (o: Outcome)
    requires Join(w.tempDir, OUTPUT_NAME) !in fs.dirs
    ensures o.fs.dirs == fs.dirs
    ensures SameOutside(o.fs, fs, w.tempDir)
    ensures LateAnswer(o.response, w.tempDir)
    ensures src !in fs.files || src == Join(w.tempDir, OUTPUT_NAME) ==>
              o.response == JsonError(500, py.copyError(src, Join(w.tempDir, OUTPUT_NAME)))
    ensures src in fs.files && src != Join(w.tempDir, OUTPUT_NAME) && w.copy.CopyRaise? ==>
              o.response == JsonError(500, w.copy.msg)
    ensures src in fs.files && src != Join(w.tempDir, OUTPUT_NAME) && w.copy.Copied? ==>
              o.response == SendFile(Join(w.tempDir, OUTPUT_NAME), MIMETYPE, true, DOWNLOAD_NAME, fs.files[src])
    ensures src in fs.files && src != Join(w.tempDir, OUTPUT_NAME) && w.copy.CopyLost? ==>
              o.response == JsonError(500, "Copied file not found: " + Join(w.tempDir, OUTPUT_NAME))
  {
    var out := Join(w.tempDir, OUTPUT_NAME);
    if src !in fs.files || src == out then Outcome(ServerError(py.copyError(src, out)), fs)
    else if w.copy.CopyRaise? then Outcome(ServerError(w.copy.msg), fs)
    else
      var fs' := if w.copy.Copied? then Put(fs, out, fs.files[src]) else Drop(fs, out);
      PutInside(fs, out, fs.files[src], w.tempDir);
      DropInside(fs, out, w.tempDir);
      if !Exists(fs', out) then Outcome(ServerError(Message(py, CopiedNotFound(out))), fs')
      else Outcome(SendFile(out, MIMETYPE, true, DOWNLOAD_NAME, fs'.files[out]), fs')
  }

  /** The try block from the save of the upload on (app.py:42-112), starting
      from a state in which the temporary directory exists. */
  function Staged(py: Python, image: Upload, w: World, fs: FsState): (o: Outcome)
    requires Join(w.tempDir, OUTPUT_NAME) !in fs.dirs
    ensures o.fs.dirs == fs.dirs
    ensures LateAnswer(o.response, w.tempDir)
  {
    if w.save.Fail? then Outcome(ServerError(w.save.msg), fs)
    else
      var fs1 := Put(fs, Join(w.tempDir, INPUT_NAME), image.content);
      match w.useOutputAsInput
      case Raise(m) => Outcome(ServerError(ProcessingError(m)), fs1)
      case Return(_, d1) =>
        var fs2 := PutAll(fs1, d1);
        match w.inpaint
        case Raise(m) => Outcome(ServerError(ProcessingError(m)), fs2)
        case Return(result, d2) =>
          var fs3 := PutAll(fs2, d2);
          match Normalize(py, result)
          case Err(f) => Outcome(ServerError(Message(py, f)), fs3)
          case Ok(p) =>
            match CheckResultPath(py, p, fs3)
            case Err(f) => Outcome(ServerError(Message(py, f)), fs3)
            case Ok(src) => Deliver(py, src, w, fs3)
  }

  /** The try block with its `except` clauses (app.py:29-116). */
  function Attempt(py: Python, req: Request, w: World, fs: FsState): (o: Outcome)
    requires Creates(req, w) ==> Fresh(fs, w.tempDir)
    ensures Creates(req, w) ==> o.fs.dirs == fs.dirs + {w.tempDir}
    ensures !Creates(req, w) ==> o.fs == fs
  {
    if "image" !in req.files then Outcome(JsonError(400, NO_IMAGE_FILE), fs)
    else if req.files["image"].filename == "" then Outcome(JsonError(400, NO_IMAGE_SELECTED), fs)
    else if w.mkdtemp.Fail? then Outcome(ServerError(w.mkdtemp.msg), fs)
    else Staged(py, req.files["image"], w, AddDir(fs, w.tempDir))
  }

  /** The `finally` block (app.py:117-124): the directory is removed when it
      is named and still there; a failing `rmtree` is only logged. */
  function CleanUp(fs: FsState, t: Path, rmtree: Step): (r: FsState)
    ensures Truthy(Str(t)) && Exists(fs, t) && rmtree.Done? ==> Gone(r, t) && SameOutside(r, fs, t)
    ensures !(Truthy(Str(t)) && Exists(fs, t) && rmtree.Done?) ==> r == fs
    ensures r.dirs <= fs.dirs
  {
    if Truthy(Str(t)) && Exists(fs, t) && rmtree.Done? then Prune(fs, t) else fs
  }

  /** The directory a request leaves behind: its own, when it created one and
      the removal failed. */
  function Leak(req: Request, w: World): set<Path>
  {
    if Creates(req, w) && w.rmtree.Fail? then {w.tempDir} else {}
  }

  /** The whole handler. Answers are 200, 400 or 500; 400 exactly when the
      upload is missing or unnamed; a file answer is always the copy in the
      request's own directory, sent as a WEBP attachment; a request that
      never created its directory leaves the filesystem untouched; one that
      did, and whose removal succeeds, leaves nothing at or under it, whatever
      the answer; and no directory other than a failed removal's survives. */
  function Outpaint(py: Python, req: Request, w: World, fs: FsState): (o: Outcome)
    requires Creates(req, w) ==> Fresh(fs, w.tempDir)
    ensures Status(o.response) in {200, 400, 500}
    ensures Status(o.response) == 400 <==> !Submitted(req)
    ensures o.response.SendFile? ==>
              Creates(req, w) && o.response.path == Join(w.tempDir, OUTPUT_NAME) &&
              o.response.mimetype == MIMETYPE && o.response.asAttachment &&
              o.response.downloadName == DOWNLOAD_NAME
    ensures !Creates(req, w) ==> o.fs == fs
    ensures Creates(req, w) && w.rmtree.Done? ==> Gone(o.fs, w.tempDir)
    ensures o.fs.dirs <= fs.dirs + Leak(req, w)
  {
    var a := Attempt(py, req, w, fs);
    if Creates(req, w) then Outcome(a.response, CleanUp(a.fs, w.tempDir, w.rmtree)) else a
  }

  /** A request without an `image` field is refused and changes nothing. */
  lemma RejectsMissingImage(py: Python, req: Request, w: World, fs: FsState)
    requires "image" !in req.files
    ensures Outpaint(py, req, w, fs) == Outcome(JsonError(400, NO_IMAGE_FILE), fs)
  {
  }

  /** A request whose file has an empty name is refused and changes nothing. */
  lemma RejectsUnnamedImage(py: Python, req: Request, w: World, fs: FsState)
    requires "image" in req.files && req.files["image"].filename == ""
    ensures Outpaint(py, req, w, fs) == Outcome(JsonError(400, NO_IMAGE_SELECTED), fs)
  {
  }

  /** The files the remote client wrote to the local disk, in call order. */
  function Downloads(w: World): map<Path, Bytes>
  {
    if w.save.Fail? then map[]
    else match w.useOutputAsInput
      case Raise(_) => map[]
      case Return(_, d1) =>
        match w.inpaint
        case Raise(_) => d1
        case Return(_, d2) => d1 + d2
  }

  /** A remote call that raises ends the request with a 500 whose message
      wraps the call's own; `/use_output_as_input` runs first. */
  lemma RemoteFailure(py: Python, req: Request, w: World, fs: FsState)
    requires Creates(req, w) && Fresh(fs, w.tempDir) && w.save.Done?
    ensures w.useOutputAsInput.Raise? ==>
              Outpaint(py, req, w, fs).response == JsonError(500, ProcessingError(w.useOutputAsInput.msg))
    ensures w.useOutputAsInput.Return? && w.inpaint.Raise? ==>
              Outpaint(py, req, w, fs).response == JsonError(500, ProcessingError(w.inpaint.msg))
  {
  }

  /** When `/use_output_as_input` raises, `/inpaint` is never called: nothing
      about its outcome, the normalisation of its answer or the copy can
      change what happens. */
  lemma FirstFailureSkipsInpaint(py: Python, req: Request, w: World, fs: FsState, inpaint: Call, copy: CopyStep)
    requires Creates(req, w) ==> Fresh(fs, w.tempDir)
    requires w.useOutputAsInput.Raise?
    ensures Outpaint(py, req, w, fs) == Outpaint(py, req, w.(inpaint := inpaint, copy := copy), fs)
  {
  }

  /** An answer of no accepted shape ends the request with a 500 carrying the
      "Unexpected result format" message. */
  lemma MalformedResult(py: Python, req: Request, w: World, fs: FsState)
    requires Creates(req, w) && Fresh(fs, w.tempDir) && w.save.Done?
    requires w.useOutputAsInput.Return? && w.inpaint.Return? && !Accepted(w.inpaint.value)
    ensures Outpaint(py, req, w, fs).response ==
              JsonError(500, "Unexpected result format: " + ToStr(py, w.inpaint.value))
  {
  }

  /** A normalised path that is empty or that nothing on the disk answers to
      (neither before the request, nor among the client's downloads, nor the
      request's own directory or saved upload) ends the request with a 500
      "Result file not found". */
  lemma MissingResultFile(py: Python, req: Request, w: World, fs: FsState, s: string)
    requires Creates(req, w) && Fresh(fs, w.tempDir) && w.save.Done?
    requires w.useOutputAsInput.Return? && w.inpaint.Return?
    requires Normalize(py, w.inpaint.value) == Ok(Str(s))
    requires s == "" ||
             (!Exists(fs, s) && s !in Downloads(w) && s != w.tempDir && s != Join(w.tempDir, INPUT_NAME))
    ensures Outpaint(py, req, w, fs).response == JsonError(500, "Result file not found: " + s)
  {
  }

  /** Any falsy normalised value (None, an empty string or container, a zero
      or false) is rejected before the disk is asked, with its `str()` in the
      message. */
  lemma FalsyResult(py: Python, req: Request, w: World, fs: FsState, v: Value)
    requires Creates(req, w) && Fresh(fs, w.tempDir) && w.save.Done?
    requires w.useOutputAsInput.Return? && w.inpaint.Return?
    requires Normalize(py, w.inpaint.value) == Ok(v) && !Truthy(v)
    ensures Outpaint(py, req, w, fs).response == JsonError(500, "Result file not found: " + ToStr(py, v))
  {
  }

  /** End to end: an answer of any of the five shapes known to carry a path `p` that
      names a file the client has downloaded, copied without trouble, is sent
      back byte for byte. */
  lemma EndToEnd(py: Python, req: Request, w: World, fs: FsState, shape: Shape, p: Path)
    requires Creates(req, w) && Fresh(fs, w.tempDir) && w.save.Done?
    requires w.useOutputAsInput.Return?
    requires w.inpaint.Return? && w.inpaint.value == Wrap(shape, p)
    requires p != "" && p in w.inpaint.downloads && p != Join(w.tempDir, OUTPUT_NAME)
    requires w.copy.Copied?
    ensures Outpaint(py, req, w, fs).response ==
              SendFile(Join(w.tempDir, OUTPUT_NAME), MIMETYPE, true, DOWNLOAD_NAME, w.inpaint.downloads[p])
  {
    NormalizeWrap(py, shape, p);
  }

  /** A tuple whose first item is a file mapping `{"path": p}` passes that
      mapping on uncoerced, so `os.path.exists` gets a non-string and the
      TypeError from `os.stat` becomes the 500 answer. */
  lemma FileDataTuple(py: Python, req: Request, w: World, fs: FsState, p: Path, extra: Value)
    requires Creates(req, w) && Fresh(fs, w.tempDir) && w.save.Done?
    requires w.useOutputAsInput.Return?
    requires w.inpaint.Return? && w.inpaint.value == Tuple([Dict(map["path" := Str(p)]), extra])
    ensures Outpaint(py, req, w, fs).response == JsonError(500, py.statTypeError(Dict(map["path" := Str(p)])))
  {
  }

  /** A failing `rmtree` never changes the answer already chosen. */
  lemma CleanupFailureKeepsResponse(py: Python, req: Request, w: World, fs: FsState, rmtree: Step)
    requires Creates(req, w) ==> Fresh(fs, w.tempDir)
    ensures Outpaint(py, req, w, fs).response == Outpaint(py, req, w.(rmtree := rmtree), fs).response
  {
  }

  /** Everything the handler writes itself lies inside its own directory, so
      outside it the try block leaves the disk as the client's downloads do. */
  lemma StagedOutside(py: Python, image: Upload, w: World, fs: FsState)
    requires Fresh(fs, w.tempDir)
    ensures SameOutside(Staged(py, image, w, AddDir(fs, w.tempDir)).fs, PutAll(fs, Downloads(w)), w.tempDir)
  {
    var t := w.tempDir;
    var fs0 := AddDir(fs, t);
    var o := Staged(py, image, w, fs0);
    assert SameOutside(fs0, PutAll(fs, map[]), t);
    if w.save.Done? {
      var fs1 := Put(fs0, Join(t, INPUT_NAME), image.content);
      PutInside(fs0, Join(t, INPUT_NAME), image.content, t);
      SameOutsideTrans(fs1, fs0, fs, t);
      if w.useOutputAsInput.Return? {
        var d1 := w.useOutputAsInput.downloads;
        var fs2 := PutAll(fs1, d1);
        PutAllBoth(fs1, fs, d1, t);
        if w.inpaint.Return? {
          var d2 := w.inpaint.downloads;
          var fs3 := PutAll(fs2, d2);
          PutAllBoth(fs2, PutAll(fs, d1), d2, t);
          PutAllTwice(fs, d1, d2);
          var n := Normalize(py, w.inpaint.value);
          if n.Ok? && CheckResultPath(py, n.value, fs3).Ok? {
            assert o == Deliver(py, CheckResultPath(py, n.value, fs3).value, w, fs3);
          } else {
            assert o.fs == fs3;
          }
          assert SameOutside(o.fs, fs3, t);
          SameOutsideTrans(o.fs, fs3, PutAll(fs, Downloads(w)), t);
        }
      }
    }
  }

  /** With a successful removal a request leaves exactly the filesystem it
      found plus the client's downloads outside its directory: every
      directory it found is still there and no other one is. */
  lemma OutpaintRestores(py: Python, req: Request, w: World, fs: FsState)
    requires Creates(req, w) && Fresh(fs, w.tempDir) && w.rmtree.Done?
    ensures Outpaint(py, req, w, fs).fs == Prune(PutAll(fs, Downloads(w)), w.tempDir)
    ensures Outpaint(py, req, w, fs).fs.dirs == fs.dirs
  {
    var t := w.tempDir;
    var a := Attempt(py, req, w, fs);
    StagedOutside(py, req.files["image"], w, fs);
    PruneSameOutside(a.fs, PutAll(fs, Downloads(w)), t);
    var r := Prune(PutAll(fs, Downloads(w)), t);
    assert r.dirs == fs.dirs;
  }

  /** A run of requests served one after another. Each request's temporary
      directory is fresh in the state the earlier ones left. */
  predicate Admissible(py: Python, batch: seq<(Request, World)>, fs: FsState)
    decreases |batch|
  {
    batch == [] ||
    ((Creates(batch[0].0, batch[0].1) ==> Fresh(fs, batch[0].1.tempDir)) &&
     Admissible(py, batch[1..], Outpaint(py, batch[0].0, batch[0].1, fs).fs))
  }

  datatype Served = Served(responses: seq<Response>, fs: FsState)

  function Serve(py: Python, batch: seq<(Request, World)>, fs: FsState): (r: Served)
    requires Admissible(py, batch, fs)
    decreases |batch|
  {
    if batch == [] then Served([], fs)
    else
      var first := Outpaint(py, batch[0].0, batch[0].1, fs);
      var rest := Serve(py, batch[1..], first.fs);
      Served([first.response] + rest.responses, rest.fs)
  }

  /** The directories a run of requests leaves behind. */
  function Leaked(batch: seq<(Request, World)>): set<Path>
    decreases |batch|
  {
    if batch == [] then {} else Leak(batch[0].0, batch[0].1) + Leaked(batch[1..])
  }

  /** No leakage across many requests: after a run, every directory was
      there before or belongs to a request whose removal failed. */
  lemma {:induction false} NoLeak(py: Python, batch: seq<(Request, World)>, fs: FsState)
    requires Admissible(py, batch, fs)
    ensures Serve(py, batch, fs).fs.dirs <= fs.dirs + Leaked(batch)
  {
    if batch != [] {
      var first := Outpaint(py, batch[0].0, batch[0].1, fs);
      NoLeak(py, batch[1..], first.fs);
    }
  }

  /** When every removal succeeds, a run of requests adds no directory. */
  lemma {:induction false} NoLeakWhenRemovalsSucceed(py: Python, batch: seq<(Request, World)>, fs: FsState)
    requires Admissible(py, batch, fs)
    requires forall i :: 0 <= i < |batch| ==> batch[i].1.rmtree.Done?
    ensures Serve(py, batch, fs).fs.dirs <= fs.dirs
  {
    NoLeak(py, batch, fs);
    NothingLeaked(batch);
  }

  /** Helper for `NoLeakWhenRemovalsSucceed`: no request of the run is one
      whose removal failed. */
  lemma {:induction false} NothingLeaked(batch: seq<(Request, World)>)
    requires forall i :: 0 <= i < |batch| ==> batch[i].1.rmtree.Done?
    ensures Leaked(batch) == {}
  {
    if batch != [] {
      NothingLeaked(batch[1..]);
    }
  }
}
