# IndexQ: a durable, filesystem-backed work queue, in Dafny

This project models `IndexQ` from SolrClient (`SolrClient/indexq.py`). `IndexQ` is a local work queue that sits between producers of Solr documents and the process that indexes them. Every queue has the layout `<basepath>/<queue>/todo`, `<basepath>/<queue>/done` and `<basepath>/<queue>/index.lock`.

- **Producer side.** A queue opened in mode `"in"` buffers records (dicts) in memory. When the buffer passes `threshold` of its capacity, or when the caller finalizes, it writes the whole buffer as one JSON segment file into `todo`. The file gets a fresh name of the form `<queue>_Y-M-D-h-m-s-rand.json`, plus `.gz` when compressing. A string item skips the buffer and becomes a segment on its own.
- **Consumer side.** `get_todo_items` takes a PID-stamped lock file, in whatever mode the queue was opened. It then drains the `.json`/`.json.gz` files of `todo` in order of modification time, and releases the lock when the drain is exhausted. `complete` moves a finished segment into `done` under the same name.

The modules follow the parts of the source:

| file | module | what it holds |
|---|---|---|
| results.dfy | `Results` | `Option`, `Result` and the queue's error kinds |
| decimal.dfy | `Decimal` | `str(n)` and `int(s)` on natural numbers, and their round trip |
| segments.dfy | `Segments` | how `str.format` reads the queue name, segment file names, their shape, and that distinct stamps give distinct names |
| items.dfy | `Items` | the argument of `add`, Python truthiness, and the type dispatch |
| buffer_policy.dfy | `BufferPolicy` | effective capacity and the flush test |
| ordering.dfy | `Ordering` | the sort by modification time: sorted, a permutation, unique under distinct keys |
| files.dfy | `Files` | paths, the shared `FileSystem` object, the queue layout, `listdir` and the move |
| lockfile.dfy | `LockFile` | lock status, acquire and release as functions, with mutual exclusion and stale-lock recovery |
| indexq.dfy | `IndexQueue` | the `IndexQ` class (buffer, writer, lock, drain, complete) and the drain generator `TodoItems` |
| scenario.dfy | `QueueScenario` | a producer and a consumer on one disk, from `add` to `done` |

How the environment is represented:

- **Filesystem.** A `FileSystem` object holds a map from paths to text and a set of directories. Several queue objects can share it, for example a producer and a consumer.
- **Clock and random generator.** A sequence of `Stamp`s, one per name `_write_file` tries. Every stamp keeps to the ranges `datetime` and `randint(0, 10000)` produce (`ValidStamp`). The writer needs some stamp in it to give a free name; otherwise the source loops forever.
- **Processes.** A `Host` value says whether `psutil` imports, which PIDs are alive and what our own PID is.
- **Modification times.** A function `mtime`.
- **I/O success.** An `ioOk` flag for each write or move.
- **`json.dumps` and `len(str(...))`.** Function-valued constants `dumps` and `reprLen` given when the queue is opened. `reprLen` gives at least 2 for any non-empty list, as the brackets alone do (`ReprLenSound`).

The queue name is pasted into the output pattern `<queue>_{}.json` before `str.format` fills it. Its braces are therefore format syntax, and `FormatLiteral` models how they are read:

- `{{` and `}}` each give one brace. Queue `a{{b` writes files named `a{b_...`.
- Any other brace makes every name generation raise: a second replacement field, a switch to manual numbering, an unknown key, a malformed field or a lone `}`. The model reports this as `BadQueueName`. A string `add` then fails, and so does every flush; a failed flush keeps its buffer.

The constructor, `add`, the buffer closure and `get_all_as_list` take the source's default arguments: no compression, size 0, threshold 0.90, mode `"in"`, no item, no finalize, and the `todo` directory.

Where the source's behaviour differs from what its docstrings suggest, the model follows the source:

- The random part of a name ranges over 0..10000 inclusive (`random.randint(0, 10000)`).
- A flush that fails keeps the items appended by that same call, because they are appended before the flush test.
- The "could not write" branch (indexq.py:141-142) cannot be reached: `_write_file` either returns a non-empty path or raises. Were it reached, `"..." + _c` would raise `TypeError`.
- `complete` on a missing path raises a string, which Python reports as `TypeError`. The model reports it as `Missing`.
- `complete` never compresses: its `compress` argument is unused.
- `add` on a queue not opened in mode `"in"` fails with `AttributeError`, because neither the buffer nor the name pattern exists. The list and type checks run first, so a bad list or item still raises `ValueError`.
- Lock release happens on the `next()` call that finds the listing exhausted. Nothing releases the lock when the consumer abandons the drain early.

## Model

| member | source | states |
|---|---|---|
| `Decimal.NatToString` | SolrClient/indexq.py:71 | `str(n)` of a natural number is a non-empty string of decimal digits without a leading zero |
| `Decimal.ParseNatToString` | SolrClient/indexq.py:152-169 | reading back with `int` the PID that `_lock` wrote with `str` gives the same PID |
| `Decimal.NatToStringInjective` | SolrClient/indexq.py:71 | distinct numbers have distinct decimal texts |
| `Segments.FormatLiteral` | SolrClient/indexq.py:59-72 | how `str.format` reads the queue name inside the output pattern: a brace-free name comes out unchanged; otherwise `None` (the call raises) unless every brace is doubled |
| `Segments.FormatLiteralOfEscaped` | SolrClient/indexq.py:59-72 | a name made by doubling every brace of `s` formats to exactly `s` |
| `Segments.FormattedIsEscaped` | SolrClient/indexq.py:59-72 | a name that formats without raising is the brace-doubled form of what it yields, so formatting and escaping are inverse both ways |
| `Segments.FormatLiteralExamples` | SolrClient/indexq.py:59-72 | queue `a{{b` gives the prefix `a{b`; queues `a{b`, `a}b` and `{}` make name generation raise |
| `Segments.FileName` | SolrClient/indexq.py:66-72 | the generated name starts with the formatted queue name and `_`, and ends in `.json` |
| `Segments.SegmentName` | SolrClient/indexq.py:96-100 | a tried name starts with `<prefix>_`, passes the drain filter (`.json` or `.json.gz`), and ends in `.gz` exactly when the queue compresses |
| `Segments.SegmentNameInjective` | SolrClient/indexq.py:66-72 | two stamps that differ in any field (date, time or random part) give different names |
| `Items.FailsListCheck` | SolrClient/indexq.py:83-85 | on a non-empty list, the test "more than one element type, or dict not among them" rejects exactly the lists with an element that is not a dict. The empty list, which `add` never tests, fails it |
| `Items.Classify` | SolrClient/indexq.py:80-94 | falsy item: only the flush check runs. Non-empty list: rejected exactly when some element is not a dict, otherwise buffered as is. Non-empty dict: becomes a one-element list. Non-empty str: written directly. Other truthy value: rejected. Whatever reaches the buffer is all dicts |
| `BufferPolicy.EffectiveCapacity` | SolrClient/indexq.py:113-117 | `osize` is `size*1000000` when that is positive and 1 otherwise, so it is never below 1 |
| `BufferPolicy.FlushDue` | SolrClient/indexq.py:129 | the ratio test `size / osize > threshold` holds exactly when the size has passed `threshold * osize`; with `finalize`, any non-empty buffer is due |
| `BufferPolicy.NoFlushBelowThreshold` | SolrClient/indexq.py:129 | without `finalize`, a buffer whose size is at most `threshold * osize` is not written |
| `BufferPolicy.FlushAboveThreshold` | SolrClient/indexq.py:129 | a buffer whose size exceeds `threshold * osize` is written, whatever `finalize` says |
| `BufferPolicy.UnsizedBufferFlushesEveryAdd` | SolrClient/indexq.py:117-129 | with no configured size and a threshold below 1, any buffered text triggers a write |
| `BufferPolicy.FinalizeOnEmptyBuffer` | SolrClient/indexq.py:129 | `finalize` on an empty buffer of size 0 writes nothing exactly when the threshold is not negative |
| `BufferPolicy.FinalizeFlushesNonEmpty` | SolrClient/indexq.py:129 | `finalize` on a non-empty buffer always writes it |
| `Ordering.SortByCorrect` | SolrClient/indexq.py:191 | sorting by modification time gives a sequence sorted by that key and a permutation of its input |
| `Files.LayoutDistinct` | SolrClient/indexq.py:44-51 | `todo`, `done` and the directory of the lock file are three different directories |
| `Files.MoveInto` | SolrClient/indexq.py:220-223 | after the move the file is under the target directory with the same name and content, the source path is gone (unless it already was the target), and every other path is unchanged |
| `Files.MoveTransfersOneName` | SolrClient/indexq.py:209-227 | moving a file out of `todo` into `done` removes exactly its name from `todo`, adds exactly that name to `done`, and changes no other directory |
| `Files.FileSystem.ListDir` | SolrClient/indexq.py:189 | `os.listdir` yields each file of the directory exactly once and nothing else |
| `LockFile.Status` | SolrClient/indexq.py:159-171 | `_is_locked`: unlocked exactly when there is no lock file or, with `psutil`, the recorded PID is dead; locked exactly when there is a lock file and either `psutil` is missing or the recorded PID is alive; raises exactly when `psutil` is present and the file is not a decimal number |
| `LockFile.Acquire` | SolrClient/indexq.py:147-157 | `_lock` raises exactly when the status does. It takes the lock exactly when the queue is unlocked, and then the lock file names our PID and no other file changes. Otherwise nothing changes |
| `LockFile.Release` | SolrClient/indexq.py:173-179 | `_unlock` raises exactly when the status does. Otherwise the queue reads as unlocked afterwards, no file other than the lock file changes, a held lock file is deleted, and a stale lock file stays |
| `LockFile.LiveOwnerHoldsLock` | SolrClient/indexq.py:159-169 | a lock file naming a live process makes the queue locked. Without `psutil`, any lock file does |
| `LockFile.DeadOwnerFreesLock` | SolrClient/indexq.py:159-169 | with `psutil`, a lock file naming a dead process leaves the queue unlocked (stale-lock recovery) |
| `LockFile.AcquireExcludes` | SolrClient/indexq.py:147-169 | once one process has taken the lock, another attempt returns false and changes nothing while the owner is seen alive (or `psutil` is missing) |
| `LockFile.ReleaseUndoesAcquire` | SolrClient/indexq.py:147-179 | `_unlock` after a successful `_lock` by a live process removes the lock file, a stale one included, and leaves every other file as it was |
| `IndexQueue.FirstFresh` | SolrClient/indexq.py:97-102 | the retry loop stops at the first candidate path that does not exist; every earlier candidate existed |
| `IndexQueue.SegmentsOnly` | SolrClient/indexq.py:189 | the filter keeps exactly the names ending in `.json` or `.json.gz`, and keeps a duplicate-free listing duplicate-free |
| `IndexQueue.SegmentPaths` | SolrClient/indexq.py:189-191 | the filtered, joined and sorted listing is ordered by modification time, holds exactly the paths in `dir` whose names are listed segment names, and repeats none when the listing repeats none |
| `IndexQueue.SegmentPathsInDrainOrder` | SolrClient/indexq.py:188-192 | the filtered and sorted listing of a directory holds each segment file of that directory exactly once, nothing else, in non-decreasing modification time |
| `IndexQueue.DrainOrderDetermined` | SolrClient/indexq.py:181-192 | when segment files have distinct modification times, the drain order is fully determined: they come out in increasing time |
| `IndexQueue.IndexQ.constructor` | SolrClient/indexq.py:24-61 | opening fixes the configuration, with the source's defaults. It starts with an empty buffer of size 0, adds the queue, `todo` and `done` directories (idempotently), and touches no file |
| `IndexQueue.IndexQ.WriteOutcome` | SolrClient/indexq.py:96-110 | `_write_file` raises on an unreadable queue name, fails on a failed write, and otherwise returns the first tried name that was free. That name is in `todo`, starts with `<prefix>_`, is a segment name and ends in `.gz` exactly when compressing |
| `IndexQueue.IndexQ.WriteFile` | SolrClient/indexq.py:96-110 | the loop returns `WriteOutcome` of the files it started from, writes the content there on success, and changes nothing else |
| `IndexQueue.IndexQ.InnerEffect` | SolrClient/indexq.py:121-143 | one call of the buffer closure never changes or removes an existing file. A write adds exactly one new path and empties the buffer; any other outcome leaves the files alone and the buffer grown by exactly the new items |
| `IndexQueue.IndexQ.Inner` | SolrClient/indexq.py:121-143 | appends the items in order and adds `reprLen(items)` when the items are non-empty. If the flush test fails, returns the new size. If it holds, writes `dumps` of the whole buffer, empties the buffer and returns the path. A failed write or an unreadable queue name keeps the grown buffer and size and raises |
| `IndexQueue.IndexQ.Add` | SolrClient/indexq.py:74-94 | rejected items raise `ValueError` and change nothing. Any other item on a queue not in mode "in" fails and changes nothing. A string is written directly, with `_write_file`'s outcome, and leaves the buffer alone. A list or dict goes through the buffer closure |
| `IndexQueue.IndexQ.NoWriteBelowThreshold` | SolrClient/indexq.py:121-143 | a non-finalizing call that keeps the size at most `threshold * osize` only appends: no file is written and the size is returned |
| `IndexQueue.IndexQ.FlushWritesWholeBuffer` | SolrClient/indexq.py:129-140 | a call that writes a segment writes `dumps` of the old buffer followed by the new items, to a path in `todo` that was free, and empties the buffer |
| `IndexQueue.IndexQ.UnsizedQueueWritesEveryAdd` | SolrClient/indexq.py:113-140 | with no configured size and a threshold below 1, every call that brings records writes the whole buffer to the next free segment and empties it, given a readable name and a successful write |
| `IndexQueue.IndexQ.Lock` | SolrClient/indexq.py:147-157 | when not locked, writes our PID into the lock file and returns true. Otherwise returns false and changes nothing. An unreadable lock file raises |
| `IndexQueue.IndexQ.Unlock` | SolrClient/indexq.py:173-179 | returns true. Removes the lock file only when it is held, so a stale file stays |
| `IndexQueue.IndexQ.GetAllAsList` | SolrClient/indexq.py:181-192 | returns each `.json`/`.json.gz` file of the chosen directory (`todo` by default) exactly once, nothing else, sorted by modification time |
| `IndexQueue.IndexQ.GetTodoItems` | SolrClient/indexq.py:196-207 | raises when the queue is locked (or the lock file is unreadable), changing nothing. Otherwise takes the lock and returns a fresh drain that has not started |
| `IndexQueue.IndexQ.Complete` | SolrClient/indexq.py:209-227 | mode "in": raises, nothing moves. Mode "out" with a missing path: raises, nothing moves. A failed move raises, nothing moves. Otherwise the file moves to `done` under its base name and nothing else changes. Any other mode does nothing |
| `IndexQueue.TodoItems.Next` | SolrClient/indexq.py:200-202 | the first `next()` scans `todo` in drain order. Each call yields the next scanned path. The call after the last path releases the lock and ends the iteration. After the end, nothing happens |
| `QueueScenario.AddUnbuffered` | SolrClient/indexq.py:113-140 | with no configured size and the default threshold, adding one record writes it at once as a one-record segment and leaves the buffer empty |
| `QueueScenario.AddDrainComplete` | SolrClient/indexq.py:74-227 | two records added to a queue opened with the defaults become two segments. The consumer drains them oldest first. Completing both leaves `todo` empty and exactly these two names in `done`, with the lock file gone |

## Left out

- `IndexQ.index` (indexq.py:230-241): it hands segments to an external Solr client, whose code is not part of this model. It also ignores `procs > 1` and never calls `complete`.
- `SolrClient/transport/transportbase.py` and `SolrClient/routers/base.py` (host retry, response error mapping, host shuffling): network glue outside the queue.
- Logging and the `devel` debug branches: they change no state.
- Gzip encoding: a compressed segment is stored as its uncompressed text, and only the `.gz` suffix is modelled.
- `json.dumps` and `len(str(...))` are parameters (`dumps`, `reprLen`), not real serialisers. Record content is therefore not round-tripped through JSON.
- A write that fails after `open` can leave an empty or partial file behind. The model's failed write leaves the filesystem unchanged.
- Writing the lock file is assumed to succeed.
- `os.path.join` is plain concatenation with `/`. Absolute second components and trailing separators are not modelled.
- `Files.Path`: queue names containing `/`, and the names `.`, `..` and the empty name, are not modelled. `os.path.join` does not treat them as one path component: with queue `a/b` the source writes segments under a subdirectory `todo/a` that does not exist, so every write raises, while the model stores `a/b_<stamp>.json` as a file name directly in `todo`.
- `IndexQueue.IndexQ.GetAllAsList`: the `Area` argument allows only `todo` and `done`. The source looks the directory up with `getattr(self, dir)` and accepts any attribute name, including `_qpathdir` or non-directory attributes.
- Paths denote files only. `os.listdir` also lists subdirectories, and `os.path.exists` also holds for directories; neither is modelled. Neither are `os.makedirs` failures or its creation of parent directories.
- `int()` in the model accepts only plain decimal digits. Python also accepts surrounding whitespace, a sign and underscores. This matters only for lock files written by another program.
- `psutil.pid_exists` is the membership test of the `Host`'s set of live PIDs. PID reuse and the special meaning of PID 0 are not modelled.
- The threshold is a Dafny `real` and the buffer size an integer number of megabytes. IEEE double division and fractional sizes are not modelled.
- Concurrency: several processes racing on the lock file or on names in `todo`. Every operation is one sequential step.
- The attribute `self._locked` is set but never read, so it is not modelled.
- `os.path.getmtime` returns a float; the model's modification time is an `int` key. Only the order matters for the sort, so nothing is lost for two distinct times; the model does not cover the float's rounding.
- `Segments.ValidStamp` allows day 31 in every month and does not tie successive stamps to a running clock. The stamps therefore over-approximate what `datetime.now()` can return.
- `ReprLenSound` only bounds `len(str(items))` from below by 2. It does not fix its exact value.
- `IndexQueue.IndexQ.WriteFile` requires the stamp sequence to contain a stamp whose name is free. The source would loop forever otherwise, so the model does not cover that case.
