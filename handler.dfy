/** The `outpaint()` request handler (app.py, lines 23-124) as it runs: it
    changes the disk step by step, leaves the try block early on every error,
    and always passes through its `finally` block. */
module Handler {
  import opened PyValues
  import opened LocalFs
  import opened Normalizer
  import opened Relay

  datatype Option<T> = None | Some(value: T)

  /** The try block with its `except` clauses (app.py:29-116). `tempDir` is
      the local `temp_dir` as the `finally` block finds it. */
  method Attempt(disk: Disk, py: Python, req: Request, w: World) returns (response: Response, tempDir: Option<Path>)
    requires Creates(req, w) ==> Fresh(disk.State(), w.tempDir)
    modifies disk
    ensures tempDir == if Creates(req, w) then Some(w.tempDir) else None
    ensures Outcome(response, disk.State()) == Relay.Attempt(py, req, w, old(disk.State()))
  {
    tempDir := None;
    if "image" !in req.files {
      return JsonError(400, NO_IMAGE_FILE), tempDir;
    }
    var image := req.files["image"];
    if image.filename == "" {
      return JsonError(400, NO_IMAGE_SELECTED), tempDir;
    }

    if w.mkdtemp.Fail? {
      return ServerError(w.mkdtemp.msg), tempDir;
    }
    disk.CreateDir(w.tempDir);
    tempDir := Some(w.tempDir);

    var inputTmp := Join(w.tempDir, INPUT_NAME);
    if w.save.Fail? {
      return ServerError(w.save.msg), tempDir;
    }
    disk.WriteFile(inputTmp, image.content);

    // The two remote calls, in order; either one raising ends the request.
    match w.useOutputAsInput {
      case Raise(m) =>
        return ServerError(ProcessingError(m)), tempDir;
      case Return(_, downloads) =>
        disk.WriteFiles(downloads);
    }
    var result: Value;
    match w.inpaint {
      case Raise(m) =>
        return ServerError(ProcessingError(m)), tempDir;
      case Return(v, downloads) =>
        disk.WriteFiles(downloads);
        result := v;
    }

    var normalized := Normalize(py, result);
    if normalized.Err? {
      return ServerError(Message(py, normalized.fault)), tempDir;
    }
    var outpaintResult := normalized.value;
    if !Truthy(outpaintResult) {
      return ServerError(Message(py, ResultNotFound(outpaintResult))), tempDir;
    }
    if !outpaintResult.Str? {
      return ServerError(py.statTypeError(outpaintResult)), tempDir;
    }
    var found := disk.PathExists(outpaintResult.s);
    if !found {
      return ServerError(Message(py, ResultNotFound(outpaintResult))), tempDir;
    }
    var src := outpaintResult.s;

    var outputTmp := Join(w.tempDir, OUTPUT_NAME);
    var isFile := disk.IsFile(src);
    if !isFile || src == outputTmp {
      return ServerError(py.copyError(src, outputTmp)), tempDir;
    }
    match w.copy {
      case CopyRaise(m) =>
        return ServerError(m), tempDir;
      case Copied =>
        disk.CopyFile(src, outputTmp);
      case CopyLost =>
        // copy2 returned, but nothing is at the destination afterwards.
        disk.DropFile(outputTmp);
    }
    var copied := disk.PathExists(outputTmp);
    if !copied {
      return ServerError(Message(py, CopiedNotFound(outputTmp))), tempDir;
    }
    var content := disk.Read(outputTmp);
    response := SendFile(outputTmp, MIMETYPE, true, DOWNLOAD_NAME, content);
  }

  /** The whole handler: the try block, then the `finally` block, which
      removes the temporary directory when there is one and it still exists,
      and only logs a failing removal. */
  method Outpaint(disk: Disk, py: Python, req: Request, w: World) returns (response: Response)
    requires Creates(req, w) ==> Fresh(disk.State(), w.tempDir)
    modifies disk
    ensures Outcome(response, disk.State()) == Relay.Outpaint(py, req, w, old(disk.State()))
  {
    var tempDir;
    response, tempDir := Attempt(disk, py, req, w);
    if tempDir.Some? && Truthy(Str(tempDir.value)) {
      var live := disk.PathExists(tempDir.value);
      if live && w.rmtree.Done? {
        disk.RemoveTree(tempDir.value);
      }
    }
  }
}
