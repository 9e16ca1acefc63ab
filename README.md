# pyxunlei submission core, modelled in Dafny

This project models the decision logic of `XunLeiClient`, a Python client for
the Xunlei remote-download service hosted on a NAS. The logic covers five things:

- choosing the bound device and the download root folder when the client is built;
- normalising task-list records;
- flattening a magnet link's resource tree into numbered task files;
- the built-in size filter;
- the submission pipeline of `download_magnetic`: dedup on the task name, the
  optional preprocessing callback, the sub-directory check, the choice of the
  parent folder, the request body, and the 0/1/2 outcome.

Every vendor response enters the model as a value:

- the resource tree;
- the device and folder listings;
- the task lists;
- the id answered by folder creation;
- the `HttpStatus` of the submission response.

The requests that change remote state (folder creation, task submission) are
returned as a trace of `Effect`s, each carrying its body.

Modules, one per concern:

- `Wrappers`: `Option` and `Result`.
- `ClientErrors`: the exceptions that abort a call.
- `Resources`: the tree (`File(name, size) | Dir(name, children)`); `FileLeaves`,
  the reference list of files in pre-order; `FlattenFrom`/`Flatten`, the
  counter-threading flattening; `TotalSize`.
- `SizeFilter`: `filter_file_by_size` and its default bounds (500 MiB, 40 GiB).
- `Decimal`: Python's `str()` of an integer and `",".join`, with the parsers that
  read them back. Body contracts are stated as "this field reads back as …".
- `TaskRegistry`: the record normalisation loop shared by `completed_tasks` and
  `uncompleted_tasks`, and the set of task names used for deduplication.
- `DeviceContext`: the device and root-folder scans (loops with `break`) and the
  functions that specify them.
- `TaskRequest`: the submission body and the `Effect` trace.
- `Client`: class `XunLeiClient` with the device id, root folder id and name as
  constants and the flattening counter `index` as its one mutable field; `Connect`,
  the recursive `Helper` and `DownloadMagnetic`.

Behaviour of the code worth noting:

- With no root folder name, the client keeps the first listed folder's
  `parent_id`, not its `id`.
- A device whose name matches but whose `params.target` is empty is reported as
  not found. The scan stops at the first match, so a later match is never tried.
- An empty folder listing with no root folder name fails on `files[0]`. It is
  modelled as `MalformedResponse`. An empty chosen folder id is reported as not
  found.
- A nested `sub_dir` is rejected only after the resource listing and both task
  queries. Flattening and the callback have also already run. What the check does
  guarantee is that no folder is created and no task is submitted.
- A task record without `file_size` or `speed` makes the task query raise:
  `int(None)` fails. Neither is read as 0.
- A nested `sub_dir` makes `download_magnetic` return `False`, not the int 0 its
  docstring lists. `False == 0` holds in Python, so the model returns 0.

## Model

| member | source | states |
|---|---|---|
| Resources.FileLeaves | pyxunlei/pyxunlei.py:231-242 | the pre-order list of a tree's non-directory resources contains only files: a directory never stands for a task file |
| Resources.FlattenNumbersLeaves | pyxunlei/pyxunlei.py:226-244 | the flattening has exactly one task file per file leaf; the i-th is the i-th leaf in pre-order with that leaf's name and size and index `next + i` |
| Resources.FlattenIndicesContiguous | pyxunlei/pyxunlei.py:226-244 | the indices of a resolution's task files are exactly 0, 1, …, n-1, where n is the number of files in the tree |
| Resources.FlattenAppend | pyxunlei/pyxunlei.py:230-242 | walking consecutive siblings equals walking the first run and then the second, with the counter advanced by what the first run appended |
| Resources.FileLeavesAppend | pyxunlei/pyxunlei.py:231-233 | pre-order: the files of two runs of siblings are those of the first run followed by those of the second |
| Resources.DirectoryBeforeSiblings | pyxunlei/pyxunlei.py:231-233 | a directory takes no number; its m files take `next` .. `next + m - 1` in pre-order, and its later siblings' files follow from `next + m` on |
| Resources.FlattenLength | pyxunlei/pyxunlei.py:230-242 | the walk appends one task file per file of the tree, whatever the counter's start |
| Resources.FlattenAt | pyxunlei/pyxunlei.py:230-242 | for each position i below the number of files, the i-th task file is the i-th file leaf in pre-order, with its name and size, numbered `next + i` |
| Resources.TotalSizeAppend | pyxunlei/pyxunlei.py:262 | the `sum(...)` of the selected sizes adds over concatenation: the size of two lists joined is the sum of their sizes |
| Resources.FlattenTotalSize | pyxunlei/pyxunlei.py:262 | with no callback, the summed size of the flattening equals the summed size of every file in the tree |
| Client.XunLeiClient.Helper | pyxunlei/pyxunlei.py:226-244 | the recursive helper appends exactly the pure flattening that starts at the counter's value, and advances the counter by the number of files in the tree |
| SizeFilter.FilterBySize | pyxunlei/pyxunlei.py:298-311 | a file is kept iff it is in the input and `min_size <= file_size <= max_size`; never longer than the input; empty input gives empty output |
| SizeFilter.FilterAppend | pyxunlei/pyxunlei.py:311 | the filter keeps order: filtering a concatenation concatenates the filtered parts |
| SizeFilter.FilterIdempotent | pyxunlei/pyxunlei.py:311 | filtering twice with the same bounds equals filtering once |
| SizeFilter.FilterKeepsIndexOrder | pyxunlei/pyxunlei.py:311 | strictly increasing indices stay strictly increasing after filtering |
| SizeFilter.SizeFilteredSelection | pyxunlei/pyxunlei.py:298-311 | flatten then filter selects exactly the tree's in-range files, each under its pre-order number, in increasing number order |
| SizeFilter.DefaultBoundsExample | pyxunlei/pyxunlei.py:298 | `{A: [f1 1 MiB, f2 600 MiB], f3 50 GiB}` numbers f1, f2, f3 as 0, 1, 2, and the default bounds keep only f2 |
| Decimal.NatToString | pyxunlei/pyxunlei.py:247 | `str` of a non-negative integer is a non-empty digit string whose first digit is 0 only for 0 |
| Decimal.IntToString | pyxunlei/pyxunlei.py:247 | `str` of an integer is non-empty and holds only digits and `-`, so never a comma; IntToStringRoundTrip parses it back |
| Decimal.Join | pyxunlei/pyxunlei.py:263 | `",".join` of no pieces is empty; otherwise it starts with the first piece and, when no piece holds a comma, holds exactly one comma between consecutive pieces |
| Decimal.IntToStringRoundTrip | pyxunlei/pyxunlei.py:262 | parsing `str(i)` gives back i, for every integer |
| Decimal.SplitJoin | pyxunlei/pyxunlei.py:263 | splitting a comma join gives back the pieces, provided no piece contains a comma |
| Decimal.JoinIntsRoundTrip | pyxunlei/pyxunlei.py:263 | the comma-joined `str` of a list of indices reads back as exactly that list; the empty list gives the empty text |
| TaskRequest.BuildBody | pyxunlei/pyxunlei.py:262-263 | the body has the fixed task type, is named after the task for both `name` and `file_name`, targets the device and the chosen parent folder, carries the magnet link and an empty `file_id` |
| TaskRequest.BuildBodyReadsBack | pyxunlei/pyxunlei.py:262-263 | the body's `file_size` reads back as the summed size of the selected files; `sub_file_index` reads back as their indices in list order; `total_file_count` reads back as the reported count |
| TaskRegistry.NormalizeTasks | pyxunlei/pyxunlei.py:141-158 | no tasks gives an empty list; otherwise it succeeds iff every record has a size and a speed, and then maps each record in order; a missing or zero progress becomes 0 |
| TaskRegistry.TaskNames | pyxunlei/pyxunlei.py:219-220 | the dedup set holds exactly the names of the given tasks |
| Client.Selected | pyxunlei/pyxunlei.py:245-246 | without a callback, the selection is the whole flattening |
| Client.NoCallbackSubmitsWholeTree | pyxunlei/pyxunlei.py:245-263 | without a callback, the body's `sub_file_index` is `",".join` of `str(0)` .. `str(n-1)`, where n is the number of files in the tree, and its `file_size` is `str` of the summed size of every file in the tree |
| DeviceContext.FirstIndexOf | pyxunlei/pyxunlei.py:75-78 | gives the first position holding the name, or nothing iff the name is absent |
| DeviceContext.DeviceChoice | pyxunlei/pyxunlei.py:70-85 | no devices is an error; with a name, the chosen id is the non-empty target of the first device so named, and otherwise the result is DeviceNotFound; with no name, the result is the first device's target |
| DeviceContext.RootFolderChoice | pyxunlei/pyxunlei.py:94-107 | with no name, the result is the first folder's parent id (an error if the listing is empty or that id is empty); with a name, the id of the first folder so named, which must be non-empty, and otherwise RootFolderNotFound |
| DeviceContext.SelectDevice | pyxunlei/pyxunlei.py:70-85 | the scan that stops at the first match returns exactly DeviceChoice |
| DeviceContext.SelectRootFolder | pyxunlei/pyxunlei.py:94-107 | the scan that stops at the first match returns exactly RootFolderChoice |
| Client.XunLeiClient.Connect | pyxunlei/pyxunlei.py:62-107 | HTTP 500 gives NotLoggedIn with the error text; then `error_code` 403 gives PanAuthInvalid; then a failed device or root-folder choice aborts; otherwise a fresh client holds the chosen device id and root folder |
| Client.XunLeiClient.DownloadMagnetic | pyxunlei/pyxunlei.py:195-269 | no resources fails; a known task name gives 2 with nothing sent; a nested sub-directory gives 0 (Python's `False`) with nothing sent; otherwise an optional folder creation then one submission of `BuildBody` over the (callback-filtered) flattening, code 1 iff `HttpStatus` is 0, no rollback (details below) |

`DownloadMagnetic` states:

- An empty resource list fails.
- A task name already among the completed and uncompleted tasks returns 2. Nothing
  is sent and the counter is untouched.
- Otherwise the counter ends at the number of files in the tree.
- A nested sub-directory returns 0 (`False` in Python) and sends nothing.
- In every other case it sends one folder creation when a sub-directory is asked
  for, then one submission. The submission's body is `BuildBody` of the
  flattening, after the callback, with the root folder or the created folder as
  target.
- The code is 1 iff `HttpStatus` is 0, and 0 otherwise. A created folder stays in
  the trace whatever the outcome: there is no rollback.

## Left out

- HTTP transport, URLs, query strings, JSON encoding and decoding, and the request
  headers are I/O; every response is an input value instead.
- The `pan_auth` token needs the wall clock and MD5 (`hashlib`), a foreign call.
  It is not modelled.
- `download_torrent` and `_torrent2magnet` rely on `torrentool` and
  `urllib.parse.quote`, which cannot be seen. They are not modelled.
- `download_http_task` is a stub that always returns `False`. It is not modelled.
- Logging, pydantic validation, datetime parsing (timestamps are opaque strings)
  and the `int(...)` coercions of JSON strings are not modelled. A numeric field
  is an integer when present; only `file_size` and `speed` of task records may be
  absent.
- The phase and type filters and the 200-entry page limit of the two task queries
  live in their URLs. The model keeps one normalisation loop for both queries.
- Client.XunLeiClient.DownloadMagnetic: takes the completed and uncompleted lists
  already normalised. An exception escaping either query (see
  `NormalizeTasks`) is therefore not part of its contract.
- Client.XunLeiClient.DownloadMagnetic: the preprocessing callback is a pure
  function. Side effects it might have are not modelled.
- Client.XunLeiClient.DownloadMagnetic: `HttpStatus` is an optional integer.
  Python's `False == 0`, and answers of other JSON types, are not distinguished.
- Client.XunLeiClient.DownloadMagnetic: the vendor's `file_count` and the created
  folder's `file.id` are assumed present. A missing one (`None`, or an
  `AttributeError`) is not modelled.
- TaskRegistry.NormalizeTasks: assumes every record has `params`. Only a
  missing `file_size` or `speed` is modelled; a missing `params` (`None.get`)
  is not.
- Client.XunLeiClient.Helper: the list that the Python closure appends to in place
  is passed in and returned.
- Client.XunLeiClient.Connect: the device listing's `tasks` is a list. A missing
  `tasks` field (`len(None)`) is not modelled.
- `index` starts at 0 at construction. Python first assigns `_index` inside
  `download_magnetic`.
