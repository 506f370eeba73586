# Outpainting relay: the `/outpaint` handler

The relay is a small Flask service. `POST /outpaint` takes an uploaded image
and stages it in a fresh temporary directory. It then makes two calls, in
order, to a hosted Gradio outpainting model: `/use_output_as_input`, then
`/inpaint`. It reads a file path off the loosely typed answer of the second
call, copies that file into its own directory as `output.webp`, and sends it
back as a WEBP attachment. Its `finally` block removes the temporary
directory on every exit path.

The project models the two pieces of logic in that handler:

- **The result normaliser** (`normalizer.dfy`, module `Normalizer`). The
  remote answer is a closed datatype `Value` (`pyvalues.dfy`): a string,
  None, a list, a string-keyed mapping, a tuple, or a number or boolean.
  `Normalize` is the priority-ordered chain of type tests. It returns the
  chosen value or the "Unexpected result format" fault. `CheckResultPath` is
  the test that follows it: falsy, or `os.path.exists`. It runs against an
  abstract filesystem. The lemmas state each case. `NormalizeWrap` proves
  that all five answer shapes known to carry a path give that path
  back.
- **The request handler** (`relay.dfy`, module `Relay`, and `handler.dfy`,
  module `Handler`). The filesystem is a set of directories plus a map from
  file paths to bytes (`localfs.dfy`, module `LocalFs`). The handler changes
  it in place through the class `LocalFs.Disk`. `Handler.Outpaint` is the
  imperative handler. It has early returns from the try block and a
  `finally` step, and it is proved equal to the pure specification
  `Relay.Outpaint`. The properties are stated about that specification:
  - the mapping from exit path to status and body;
  - the cleanup guarantee;
  - that the filesystem is restored;
  - that a run of many requests leaks no directory (`Relay.Serve`,
    `Relay.NoLeak`).

Everything outside the handler's control is an input value:

- `Relay.World` gives the name `tempfile.mkdtemp` hands out and whether
  `mkdtemp` raises.
- It gives whether `image.save` raises.
- It gives the outcome of each remote call: `Raise(msg)`, or
  `Return(value, downloads)`, where `downloads` are the files the Gradio
  client wrote to the local disk.
- It gives what `shutil.copy2` and `shutil.rmtree` do.
- `PyValues.Python` stands for Python runtime text the model does not fix:
  `str(x)` of values other than strings and None, the TypeError text of
  `os.stat`, and the error text of `copy2`. Its members are function-valued
  parameters, so they stay uninterpreted.

The handler needs one assumption: the directory `mkdtemp` creates is fresh.
Nothing exists at that name or inside it. This is what `mkdtemp` guarantees.
It appears as `requires Creates(req, w) ==> Fresh(fs, w.tempDir)`.

Some of what the code does is easy to misread, and the model follows the code
there:

- A list whose first item is a mapping without `"path"` is stringified.
  It is not rejected.
- A tuple of one item is accepted.
- A mapping's `"path"` entry and a tuple's first item are taken as they
  are, without `str()`. So the normalised "path" may not be a string. A
  falsy one (None, "") gives "Result file not found". A truthy non-string
  makes `os.stat` raise a TypeError, which the outer `except` turns into a
  500.
- `os.path.exists` is also true for a directory. A result path naming a
  directory therefore passes the check, and `copy2` then fails with a 500.
- `copy2` also raises when the result file is the request's own
  `output.webp` (SameFileError).

## Model

| member | source | states |
|---|---|---|
| `Normalizer.Normalize` | app.py:78-92 | a path is read off the answer exactly when it is a string, a non-empty list, a mapping with "path" or a non-empty tuple; every other answer fails with the "Unexpected result format" fault for that answer |
| `Normalizer.Message` | app.py:91-104 | `str(e)` of each fault: "Unexpected result format: ", "Result file not found: " or "Copied file not found: " followed by `str()` of the offending value, and any other exception's own text |
| `Normalizer.MessagesDistinct` | app.py:91-104 | the messages of two of the handler's own faults of different kinds always differ, so a 500 body tells them apart |
| `PyValues.ToStr` | app.py:86 | `str()` of a string is that string and of None is "None" |
| `PyValues.Truthy` | app.py:94 | a string, list, tuple or mapping is truthy exactly when it is non-empty; None is falsy |
| `Normalizer.NormalizeString` | app.py:80-81 | a string answer is itself the path, unchanged |
| `Normalizer.NormalizeList` | app.py:82-86 | a non-empty list gives the "path" entry of a leading mapping that has one, and otherwise `str()` of its first item, including a leading mapping without "path" |
| `Normalizer.NormalizeDict` | app.py:87-88 | a mapping gives its "path" entry uncoerced, and is rejected with "Unexpected result format" when it has none |
| `Normalizer.NormalizeTuple` | app.py:89-90 | a non-empty tuple gives its first item uncoerced |
| `Normalizer.NormalizeRejects` | app.py:91-92 | an empty list, an empty tuple, None and non-container values are rejected with "Unexpected result format" |
| `Normalizer.NormalizeWrap` | app.py:78-92 | each of the five answer shapes known to carry a path p (bare string, list of mapping, list of string, mapping, pair) normalises back to exactly p |
| `Normalizer.CheckResultPath` | app.py:94-95 | the check passes exactly for a non-empty string that names an existing file or directory, and then yields that string; a failing string or None gives "Result file not found" for that value; any falsy value (such as `{"path": 0}` giving 0) gives "Result file not found" without asking the filesystem; a truthy value that is not a string gives the TypeError `os.stat` raises |
| `Normalizer.StringifiedNeverRaises` | app.py:82-95 | a non-empty list whose first item is not a mapping with "path" yields a string, so the check on it never raises the `os.stat` TypeError |
| `LocalFs.Join` | app.py:42 | a joined path lies inside its directory and differs from it |
| `LocalFs.Put` | app.py:43 | after a write the path holds exactly the written bytes, no path other than it appears or disappears, and every other file keeps its bytes |
| `LocalFs.PutAll` | app.py:49-70 | after the client's downloads every downloaded path holds its downloaded bytes, every other file keeps its bytes, and nothing else appears or disappears |
| `LocalFs.Prune` | app.py:121 | after `rmtree(d)` nothing is at or inside d, everything outside d is unchanged, and no directory is added |
| `LocalFs.PruneSameOutside` | app.py:121 | removing a tree from two states that agree outside it gives the same state |
| `LocalFs.Disk.PathExists` | app.py:94 | `os.path.exists` answers whether a directory or file is at the path |
| `LocalFs.Disk.CreateDir` | app.py:38 | `mkdtemp` adds its directory and changes nothing else |
| `LocalFs.Disk.WriteFile` | app.py:43 | `image.save` writes the upload's bytes at `input.png` and changes nothing else |
| `LocalFs.Disk.WriteFiles` | app.py:49-70 | a remote call's downloads are written to the disk, later writes winning |
| `LocalFs.Disk.IsFile` | app.py:99 | whether the result path is a regular file that `copy2` can read |
| `LocalFs.Disk.CopyFile` | app.py:99 | `copy2` puts the source's bytes at the destination and changes nothing else |
| `LocalFs.Disk.Read` | app.py:107-112 | `send_file` sends the bytes of the copy |
| `LocalFs.Drop` | app.py:103-104 | afterwards nothing is at the path, every other file keeps its bytes, and no directory changes |
| `LocalFs.Disk.DropFile` | app.py:103-104 | a copy that went missing leaves the disk as `Drop` describes |
| `LocalFs.Disk.RemoveTree` | app.py:121 | a successful `rmtree` leaves the disk as `Prune` describes |
| `Relay.Deliver` | app.py:98-112 | `copy2` refusing a source that is not a regular file or is `output.webp` itself gives a 500 with its error; `copy2` raising gives a 500 with its message; a normal copy sends the source file's bytes as `<t>/output.webp`, `image/webp`, attachment `outpainted-image.webp`; a copy that went missing gives 500 "Copied file not found: <t>/output.webp"; nothing outside the request's directory changes |
| `Relay.Staged` | app.py:42-112 | once the directory exists, the try block adds no directory and answers with a 500 or with the WEBP attachment of its own copy |
| `Relay.Attempt` | app.py:29-116 | the try block leaves the disk untouched unless it creates its directory, and then adds exactly that directory |
| `Relay.CleanUp` | app.py:117-124 | when the directory name is truthy, exists and `rmtree` succeeds, nothing is left at or under it and everything outside it is kept; otherwise the disk is unchanged; no directory is ever added |
| `Relay.Outpaint` | app.py:23-124 | statuses are 200, 400 or 500; the status is 400 exactly when the upload is missing or unnamed; a file answer is the request's own `output.webp` sent as an `image/webp` attachment named `outpainted-image.webp`; a request that never ran `mkdtemp` changes nothing; a successful removal leaves nothing at or under the directory on every exit path; the only directory added is one whose removal failed |
| `Relay.RejectsMissingImage` | app.py:25-31 | without an `image` field the answer is 400 "No image file provided" and the disk is unchanged, so no directory is created |
| `Relay.RejectsUnnamedImage` | app.py:33-35 | with an empty filename the answer is 400 "No image selected" and the disk is unchanged |
| `Relay.RemoteFailure` | app.py:47-76 | a remote call that raises gives 500 "Error in image processing: " followed by its message; `/use_output_as_input` is called first |
| `Relay.FirstFailureSkipsInpaint` | app.py:47-76 | when `/use_output_as_input` raises, the outcome of `/inpaint`, the normalisation of its answer and the copy cannot affect the result |
| `Relay.MalformedResult` | app.py:91-92 | an answer of no accepted shape gives 500 "Unexpected result format: " followed by `str()` of the answer |
| `Relay.MissingResultFile` | app.py:94-95 | a normalised string path that is empty or names nothing on the disk (not present before, not downloaded, not the request's directory or its saved upload; other paths under that directory included) gives 500 "Result file not found: " followed by the path |
| `Relay.FalsyResult` | app.py:94-95 | any falsy normalised value (None, empty string or container, zero, false) gives 500 "Result file not found: " followed by its `str()` |
| `Relay.EndToEnd` | app.py:78-112 | an answer of any of the five shapes known to carry a path (bare string, list of mapping, list of string, mapping, pair) carrying `p`, a file the client downloaded, copied normally, is sent back byte for byte as `output.webp`, `image/webp`, as the attachment `outpainted-image.webp` |
| `Relay.FileDataTuple` | app.py:89-95 | a tuple answer whose first item is a file mapping `{"path": p}` passes the mapping on uncoerced, and the handler answers 500 with the TypeError `os.stat` raises for it |
| `Relay.CleanupFailureKeepsResponse` | app.py:117-124 | what `rmtree` does never changes the answer |
| `Relay.StagedOutside` | app.py:42-112 | outside its own directory the try block leaves the disk exactly as the client's downloads leave it |
| `Relay.OutpaintRestores` | app.py:117-124 | with a successful removal the disk afterwards is the disk before plus the client's downloads, minus the request's directory tree; the set of directories is exactly what it was |
| `Relay.NoLeak` | app.py:117-124 | after any run of requests served one after another, every directory existed before or belongs to a request whose removal failed |
| `Relay.NoLeakWhenRemovalsSucceed` | app.py:117-124 | when every removal succeeds, a run of requests adds no directory |
| `Handler.Attempt` | app.py:29-116 | the imperative try block leaves `temp_dir` set exactly when `mkdtemp` ran, and gives the answer and disk of `Relay.Attempt` |
| `Handler.Outpaint` | app.py:23-124 | the imperative handler, with its `finally` block, gives the answer and disk of `Relay.Outpaint` |

## Left out

- Flask routing, CORS, the `index` route, `render_template` and the
  `__main__` server start-up (app.py:1-21, 126-129) are web-framework
  plumbing.
- The Gradio `Client` and the network behaviour of `client.predict` are left
  out. Each call is an outcome given as input. The fixed `/inpaint` arguments
  (720x1280, overlap 10, 28 steps, "75%", 50, "", "Middle", all four overlap
  flags) are passed through unchanged and carry no logic.
- Logging is left out.
- The exact text of Python's `str()`, f-strings and exception messages for
  arbitrary values is left out. It stays uninterpreted in `PyValues.Python`.
- LocalFs.Disk.RemoveTree: a failing `shutil.rmtree` is modelled as
  leaving the disk unchanged. A removal that deletes part of the tree before
  it raises is not modelled.
- Normalizer.CheckResultPath: every truthy value that is not a string is
  modelled as making `os.stat` raise a TypeError. Python also accepts an
  integer (or boolean) as a file descriptor there, and `bytes` and
  `os.PathLike` objects as paths. Those cases are not modelled; `bytes` and
  path-like objects are not among the modelled answer values at all.
- Paths are compared as strings. Python's `os.path.samefile` (used by
  `copy2` to raise SameFileError) compares inodes, so two spellings of one
  file (relative paths, "..", "//", hard links, symbolic links) are distinct
  files in the model.
- `LocalFs.Join` is `os.path.join` only for non-empty directory names without
  a trailing "/", which is what `mkdtemp` returns and what `Fresh` admits.
- `tempfile.mkdtemp` choosing a unique name is not modelled. The name is an
  input assumed fresh.
- `image.save` and `shutil.copy2` are modelled as writing whole files or
  raising. Partial writes, permissions, symbolic links and file metadata
  are not modelled.
- Directories that the Gradio client creates for its downloads are not
  modelled. Only the downloaded files are.
- Streaming is not modelled. The answer carries the bytes of `output.webp`
  at the moment `send_file` is called. The timing of the transfer relative
  to the `finally` removal is a transport concern.
- Concurrency between requests is not modelled. Requests are served one
  after another (`Relay.Serve`). The only shared state is the disk.
