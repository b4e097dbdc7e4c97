# media_ext_py: a model of the history and extraction-session bookkeeping

media_ext_py is a small macOS audio extractor. The user pastes a URL. An
external downloader (yt-dlp driving ffmpeg) fetches the best audio into a
scratch directory and converts it to MP3. The front end asks where to save the
file and moves it there. The file then goes into a history sidebar, backed by
an SQLite `history` table and grouped by age.

The model covers the deterministic parts around the foreign download call. The
clock, `strftime` and the downloader are passed in as parameters.

- `models.dfy`: the sidebar's `MediaItem` rows and `HistoryFormatter.format`,
  which files history records into five fixed age windows. The method `Format`
  keeps the source's nested loops with their `break`. It is proved equal to a
  recursive definition, `Formatted`, and the lemmas state what that definition
  means.
- `database.dfy`: the append-only `history` table. `MediaDB` is a class holding
  the rows, the AUTOINCREMENT counter and whether the connection is open.
- `logging.dfy`: `DownloaderLogger`, the log buffer that both front ends hand to
  the downloader.
- `downloader.dfy`: the options given to the downloader, the scan of the scratch
  directory for the first MP3, and `move_file` with its clean-up.
- `files.dfy` and `paths.dfy`: the filesystem as a map from path to entry, plus
  POSIX `join`/`dirname`/`basename`, `shutil.move` and
  `shutil.rmtree(ignore_errors=True)`.
- `user_defaults.dfy`: the normalization tiers and the preference lookup with
  its fallback.
- `app.dfy`: the main window. It covers:
  - the status pill as a record;
  - the sidebar's "Just now" splice and its queue of history inserts;
  - the content pane's URL check, busy gate, worker and save step.
- `main_window.dfy`: the older single-window front end. It covers the frame
  arithmetic of `_layout`, the submit check, the busy toggle and the worker.
- `notes_sidebar.dfy`: the recency-bucketing prototype and its newest-first
  section loop.
- `text.dfy`, `sorting.dfy` and `common.dfy`: `str.strip`, the case-insensitive
  `https://` test, ordering by an integer key, and `Option`/`Result`.

The worker threads run here as ordinary sequential calls. An exception becomes
the `Err` case of a `Result` and carries its message.

A few facts about the code that shape the model:
- The default normalization tier is the last option, "High" (user_defaults.py:15-16).
- `select_history` orders by `ts` alone, so SQLite decides the order of equal timestamps (database.py:70-72).
- `extract_` switches the status pill from whatever it showed straight to progress "Downloading" (app.py:565).
- `download` applies the same filter, `loudnorm=I=-13:TP=-1.0:LRA=6`, whatever tier is selected (downloader.py:25).

## Model

| member | source | states |
|---|---|---|
| Sorting.Sort | database.py:70-72 | The result is ordered by the key (non-increasing when descending, non-decreasing otherwise), is a permutation of the input, and has the same length |
| Text.Strip | app.py:552 | `str.strip()`: the result is the slice of the input that starts right after its leading whitespace, every character outside that slice is whitespace, the slice neither starts nor ends with whitespace, and it is empty exactly when every character is whitespace |
| Text.StripIdempotent | app.py:552 | Stripping an already stripped string changes nothing |
| Text.Lower | app.py:557 | `lower()` keeps the length and lower-cases each ASCII letter in place |
| Text.IsHttpsUrlCaseInsensitive | app.py:557 | `text.lower().startswith("https://")` holds exactly when the text has at least 8 characters and each of the first 8 matches "https://" in one letter case or the other |
| Paths.JoinSplits | downloader.py:37 | Joining a directory without a trailing '/' and a plain name gives `d + "/" + name`; `dirname` of it is `d` and `basename` is `name` |
| Paths.JoinWithin | downloader.py:17 | A relative name joined under a directory lies within that directory |
| Files.WrittenElsewhere | downloader.py:32-33 | Writing the downloader's files leaves every path that is not one of the joined names exactly as it was |
| Files.WrittenIsFile | downloader.py:32-33 | Every file the downloader writes ends up as a regular file at `join(dir, name)` |
| Files.RemovedTreeKeepsOutside | downloader.py:47 | `rmtree(d, ignore_errors=True)` keeps exactly the entries outside `d`, unchanged; when `d` is not an existing directory it changes nothing |
| Files.MoveError | downloader.py:46 | `shutil.move` succeeds exactly when the source is a file, the target's parent directory exists, and a directory destination does not already hold an entry of the source's name; on success the target is not a directory |
| Files.MoveErrorChecksTargetFirst | downloader.py:46 | An existing entry at the target inside a destination directory is reported ("Destination path ... already exists") before anything about the source, even a missing one |
| Files.MoveIntoMissingDirectoryFails | downloader.py:46 | Moving a file to a path whose directory does not exist fails with `[Errno 2]` naming the target |
| Files.MovedRelocates | downloader.py:46 | After a move the target holds the source's content, the source is gone, and every other entry is unchanged |
| Files.FileSystem.Move | downloader.py:46 | Returns the move's error and leaves the tree unchanged, or performs the move |
| Files.FileSystem.RemoveTree | downloader.py:47 | The tree becomes the tree with `d` and everything below it removed |
| Logging.RenderLineCount | app.py:55-56 | A buffer built from lines without embedded newlines holds exactly one newline per line |
| Logging.InfoIsNotError | app.py:66-73 | An `[INFO]` line never equals an `[ERROR]` line, whatever the messages |
| Logging.DownloaderLogger.constructor | app.py:51-53 | The buffer starts empty and nothing has been handed to the handler yet |
| Logging.DownloaderLogger.Output | app.py:55-61 | Appends `text + "\n"` to the buffer, then hands the whole buffer to the handler once; the buffer stays the rendering of its lines |
| Logging.DownloaderLogger.Debug | app.py:63-64 | Appends the message with no prefix |
| Logging.DownloaderLogger.Info | app.py:66-67 | Appends `"[INFO] " + msg` and delivers the buffer |
| Logging.DownloaderLogger.Warning | app.py:69-70 | Appends `"[WARNING] " + msg` and delivers the buffer |
| Logging.DownloaderLogger.Error | app.py:72-73 | Appends `"[ERROR] " + msg` and delivers the buffer |
| Logging.DownloaderLogger.Log | app.py:63-73 | A call at a given level appends that level's line and delivers the buffer once |
| Logging.DownloaderLogger.Reset | app.py:75-76 | Empties the buffer without calling the handler |
| Logging.LinesAt | app.py:63-73 | A series of logger calls appends one line per call, the `i`-th line being that of the `i`-th call |
| Logging.LinesStep | app.py:63-73 | One more call appends its own line after the earlier calls' lines |
| Logging.SnapshotsStep | app.py:55-61 | One more line hands the handler one more buffer: the whole buffer including that line |
| Logging.SnapshotsAreBuffers | app.py:55-61 | The `i`-th value the handler receives is the rendering of every earlier line plus the first `i + 1` new ones |
| Database.NextId | database.py:30 | AUTOINCREMENT hands out an id larger than the counter and larger than every stored id |
| Database.MediaDB.constructor | database.py:22-38 | Opening an existing table (`CREATE ... IF NOT EXISTS`) keeps every row and the id counter |
| Database.MediaDB.Close | database.py:47-50 | After `close` the connection is gone and the stored table is unchanged, however many times it is called |
| Database.MediaDB.InsertHistory | database.py:53-66 | On an open store, appends exactly one row `(id, file, url, ts or now)`, returns its id, and that id exceeds every earlier id; strictly increasing ids are preserved; after `close` it fails with the `NoneType` error and changes nothing |
| Database.MediaDB.SelectHistory | database.py:68-73 | Returns every stored row, as a permutation, ordered by `ts` (non-increasing when newest first); changes nothing; fails after `close` |
| Database.InsertTwice | database.py:53-66 | Two inserts in a row append two rows and return strictly increasing ids |
| Database.CloseTwiceThenReopen | database.py:47-50 | Closing twice equals closing once; reopening the file finds every row again |
| Models.RowShapes | models.py:12-18 | `group` rows are headers with an empty timestamp; `item` rows are not headers and keep their title and timestamp |
| Models.Bounds | models.py:29-35 | Each window is a non-empty `[lo, hi)` within `[0, 10**12)`, and the first starts at 0 |
| Models.Age | models.py:43 | `max(0, now - ts)`: never negative, at least `now - ts`, and one of the two |
| Models.FirstWindow | models.py:44-47 | The inner loop with `break` finds the first window from `k` on that holds the age, or reports that none does |
| Models.WindowOfUnique | models.py:29-35 | An age in `[0, 10**12)` is filed in exactly the one window containing it; any other age is filed nowhere |
| Models.FutureIsRecent | models.py:43 | A record stamped at or after `now` lands in "Last 24 hours" |
| Models.Format | models.py:37-58 | The nested loops with `break`, then the emit loop, compute exactly `Formatted` |
| Models.BucketedItems | models.py:41-47 | Window `k`'s list is the items of the records the window holds, in input order (no sorting) |
| Models.BucketItemsAppend | models.py:41-47 | Filing is compositional: the items of `a + b` are those of `a` followed by those of `b` |
| Models.BucketItemsSingle | models.py:46 | A record yields one item titled with its `file`, in its own window only |
| Models.FormatEmpty | models.py:37-58 | `format([])` is empty |
| Models.TotalPlaced | models.py:41-47 | The window lists hold one item per record whose age some window contains |
| Models.FormattedLength | models.py:49-57 | The output length is the number of placed records plus the number of non-empty windows |
| Models.FormattedHeaders | models.py:49-57 | The header rows are the labels of the non-empty windows, each once, in the fixed window order |
| Models.SectionInPlace | models.py:56-57 | The output is the earlier windows' sections, then window `k`'s header immediately followed by its items, then the later windows' sections |
| Models.FormatOneFresh | models.py:37-58 | A single record of age 0 gives a "Last 24 hours" header followed by its item |
| UserDefaults.FromValue | user_defaults.py:5-8 | `Normalization(s)` gives the member whose value is `s`, or fails when no member has that value |
| UserDefaults.FromValueOfValue | user_defaults.py:5-8 | Each tier survives the trip to its value and back |
| UserDefaults.OptionsInOrder | user_defaults.py:11 | The options are Low, Medium, High in that order, distinct, cover every tier, and have the values "Low", "Medium", "High" |
| UserDefaults.DefaultNormalization | user_defaults.py:15-16 | The default is the last option, High, with value "High" |
| UserDefaults.GetNormalization | user_defaults.py:18-20 | Returns the stored string when it is present and non-empty, otherwise "High"; never empty |
| UserDefaults.GetNormalizationNamesTier | user_defaults.py:18-20 | When the store holds nothing or a tier's value, the answer names a tier |
| Downloader.OptionsFixed | downloader.py:14-30 | The output template lies in the scratch directory; the filter is always `loudnorm=I=-13:TP=-1.0:LRA=6` whatever the arguments; audio goes to MP3; no metadata or thumbnail |
| Downloader.FirstMp3 | downloader.py:35-37 | Finds the first listing entry ending in ".mp3", and no earlier entry ends so; or reports that none does |
| Downloader.UpperCaseExtensionMissed | downloader.py:36 | The suffix test is case-sensitive: "song.MP3" is not found, and a later "song.mp3" is |
| Downloader.Relay | downloader.py:14-33 | The messages the downloader writes through the logger it is handed reach the buffer in order, one line each at its level, and the handler receives the buffer after each |
| Downloader.FindMp3 | downloader.py:35-37 | The scan loop returns the index of the first listing entry ending in ".mp3", or none when no entry does |
| Downloader.Download | downloader.py:7-40 | The log gains the downloader's own lines first. Then it returns the path of the first MP3 in the listing, or, with none, logs one error line and fails with "Downloaded file not found"; a downloader error propagates unchanged after its lines. The handler receives the buffer once per line, and the scratch directory holds the downloader's files |
| Downloader.DownloadedFileExists | downloader.py:35-37 | On success the returned path is a regular file directly inside the scratch directory, and its name ends in ".mp3" |
| Downloader.MoveFile | downloader.py:43-48 | A failing move raises before anything is removed; otherwise it returns `dest`, and the tree is the moved tree with the source's directory removed |
| Downloader.SaveOutsideScratch | downloader.py:43-48 | Saving outside the scratch directory puts the content at the target and leaves nothing of the scratch directory |
| Downloader.SaveInsideScratchLosesFile | downloader.py:43-48 | Saving into the scratch directory itself returns `dest`, but the clean-up deletes the saved file |
| App.SetKindShows | app.py:317-343 | `setKind_message_` shows the requested kind with its message (empty for none), coloured green/red/label by kind, and a visible spinner keeps animating |
| App.ResetKeepsSpinnerRunning | app.py:345-349 | `reset_` after progress hides the spinner without stopping it |
| App.WithNewRow | app.py:214-233 | After the splice, row 0 is the "Just now" header and row 1 is the new item; the length grows by 1 when a "Just now" header was already on top, otherwise by 2 |
| App.WithNewRowInverse | app.py:214-233 | Removing the inserted rows gives back the old list, so earlier rows keep their order |
| App.SecondRowSharesHeader | app.py:216-231 | A second addition reuses the "Just now" header and pushes the first item down by one |
| App.Sidebar.AddRow | app.py:210-243 | `None` changes nothing; otherwise the list is spliced as `WithNewRow` says and exactly one history insert is queued |
| App.Sidebar.GetHistoryData | app.py:245-247 | The table becomes the formatted history of every stored row, newest first; on a closed store it fails and the table is unchanged |
| App.Sidebar.AddHistoryData | app.py:249-250 | Inserts one row with the item's file and url, stamped with the clock reading, under the next AUTOINCREMENT id, which exceeds every stored id and becomes the counter; on a closed store it fails with the `NoneType` error and the table is unchanged |
| App.Sidebar.RunPending | app.py:243 | The oldest queued insert runs exactly once and leaves the queue, with `AddHistoryData`'s outcome: the next id and one more row on an open store, the `NoneType` error and an unchanged table on a closed one; an empty queue changes nothing |
| App.Sidebar.AppWillTerminate | app.py:252-253 | Closes the store; the rows stay on disk |
| App.ContentVC.SetBusy | app.py:603-609 | The button and the field are enabled and editable exactly when not busy; releasing clears the field |
| App.ContentVC.Extract | app.py:551-569 | An empty URL beeps; a URL that is not "https://" in any letter case alerts; neither changes the pill, the log, what the handler received, or any of the three gate flags (button enabled, field enabled, field editable). A valid URL shows progress "Downloading", leaves the log holding only "[INFO] Extract started.", hands the handler exactly that one-line buffer, and takes the gate: the button and the field disabled and the field not editable |
| App.ContentVC.Launch | app.py:565-569 | Shows progress "Downloading", restarts the log with the single line "[INFO] Extract started.", hands the handler that one-line buffer, and takes the gate (all three flags off), keeping the field and the notices |
| App.ContentVC.ReportFailure | app.py:597-599 | Logs the error, hands the handler the buffer once, shows error "Failed", and leaves the gate flags alone |
| App.ContentVC.ReportSaved | app.py:591-596 | Logs the save and hands the handler the buffer once, adds the "Just now" row, queues the insert, posts the notification, shows success "Success", and leaves the gate flags alone |
| App.ContentVC.FinishExtract | app.py:587-601 | Logs "Saving to:" and the save result, and the handler receives the buffer after each of the two lines. A failed move leaves the files, the sidebar and the notices as they were and shows "Failed"; a successful one saves the file, adds the sidebar row and shows "Success". The gate is released on both paths: the button and the field enabled, the field editable and cleared |
| App.ContentVC.SaveAndReport | app.py:611-623 | The move, then a report of its outcome: one result line logged and delivered, the gate flags unchanged |
| App.ContentVC.Begin | app.py:572-576 | Logs the preference, then runs `download`: its result, its log lines (each delivered to the handler as the buffer up to that line) and the scratch directory it fills |
| App.ContentVC.DownloadThread | app.py:571-585 | Logs the preference, the downloader's own lines, the scan's line and the outcome, in order, and the handler receives the buffer after each line. A failed download shows "Failed" and leaves the scratch directory as the download left it, and the sidebar, its queue and the notices alone; a successful one ends exactly as `finishExtract_` leaves the pane after that download. The gate is released on every path: all three flags on and the field cleared |
| App.ContentVC.Conclude | app.py:577-585 | After `download` returns: a path goes through `finishExtract_`, with its full outcome (files, sidebar rows, queue, notices, pill); a failure logs "Download failed", shows "Failed" and changes nothing else. Every logged line reaches the handler as the buffer up to it. The gate is released either way: all three flags on and the field cleared |
| App.ContentVC.Session | app.py:551-585 | A download starts exactly for an "https://" URL. A rejected URL leaves the pill, the files, the log, what the handler received, the field, all three gate flags and the sidebar alone. An accepted one ends with the gate released (all three flags on), the log holding exactly this session's lines, the handler having received the one-line restart buffer and then the buffer after each later line, and the pane, the files and the sidebar as the worker leaves them |
| App.ImportFrom | app.py:41 | `from m import names` succeeds exactly when `m` binds every name; otherwise the ImportError reads "cannot import name 'x' from 'm' (file)", for the first name `x` that `m` does not bind, where file is where `m` was loaded from |
| App.AsWrittenImportFails | app.py:41 | Wherever downloader.py was loaded from, `from downloader import Downloader` raises "cannot import name 'Downloader' from 'downloader' (file)" |
| App.IntendedImportSucceeds | app.py:41 | Importing `download` and `move_file` from downloader succeeds |
| MainWindow.Layout | main.py:166-191 | Button x is at least `SIDE_PAD + INPUT_MIN_W + SPACING`; input width is at least `INPUT_MIN_W`, ending exactly `SPACING` before the button; the spinner sits `SPINNER_SPACING` right of the button and is vertically centred with it; at the minimum width or more the spinner ends at `cw - SIDE_PAD`; the log's height is never negative |
| MainWindow.TopRowInOrder | main.py:165 | Input, button and spinner run left to right without overlap |
| MainWindow.OnlyInputResizes | main.py:183-191 | Above the minimum width, widening by `d` widens only the input by `d` and shifts the button and the spinner by `d` |
| MainWindow.NarrowWindowOverflows | main.py:72-75 | Below `min_w` the row is clamped, so the spinner passes the right margin (why the window's minimum size is `min_w`) |
| MainWindow.AppDelegate.constructor | main.py:76-121 | The controls start enabled with the spinner stopped |
| MainWindow.AppDelegate.SetBusy | main.py:242-281 | The spinner runs exactly while busy; the button and the field are enabled exactly while not |
| MainWindow.AppDelegate.SubmitClicked | main.py:204-223 | An empty input does nothing; a non-"https://" input alerts and nothing else; otherwise it clears the field, logs one INFO line, hands the handler the buffer once, and goes busy |
| MainWindow.AppDelegate.DownloadThread | main.py:225-240 | As written: always logs the `TypeError` of the three-argument call and hands the handler the buffer, then releases the controls |
| MainWindow.AppDelegate.DownloadThreadIntended | main.py:225-240 | With `download(url, logger)`: logs the downloader's lines and the scan's line, then success with the path or failure with the error, and the handler receives the buffer after each line; the scratch directory holds the downloader's files; the controls are always released |
| MainWindow.AppDelegate.Session | main.py:204-240 | A download starts exactly for an "https://" input. A rejected input keeps the field, the log and what the handler received, and alerts exactly when it was not empty. A started download clears the field and ends with the controls enabled and the spinner stopped, the log and the handler gaining the start line and the failure line |
| MainWindow.AsWrittenHidesSuccess | main.py:227-230 | For a download that would succeed, the line logged as written differs from the success line the intended call logs |
| NotesSidebar.Bucket | sidebar_test.py:44-50 | `bucket` always returns a section index 0..3 |
| NotesSidebar.BucketDays | sidebar_test.py:44-50 | 0 exactly for today, 1 exactly for yesterday, 2 exactly for 2-6 days ago or any future day, 3 exactly for 7 or more days ago |
| NotesSidebar.SectionLabels | sidebar_test.py:42 | `SECTIONS` has exactly four distinct labels, one per bucket index |
| NotesSidebar.InSectionMembers | sidebar_test.py:131-132 | A note is in section `k` exactly when it is one of the notes and its day buckets to `k` |
| NotesSidebar.SectionsPartition | sidebar_test.py:130-132 | Together the four sections hold each note exactly as often as the input does |
| NotesSidebar.InSectionSorted | sidebar_test.py:131-132 | Selecting one section from newest-first notes keeps them newest first |
| NotesSidebar.NotesViewController.LoadSections | sidebar_test.py:129-132 | The loop over the sorted notes leaves four sections, each the sorted notes whose day buckets to it, in order |
| NotesSidebar.LoadedPartition | sidebar_test.py:129-132 | After loading, the sections together hold exactly the input notes, counted with multiplicity |
| NotesSidebar.LoadedPlacement | sidebar_test.py:129-132 | After loading, a note is shown in section `k` exactly when it is an input note whose day buckets to `k` |
| NotesSidebar.LoadedNewestFirst | sidebar_test.py:129-132 | After loading, each section's dates are non-increasing |

## Left out

- Cocoa views, layout constraints, table cells, the toolbar, menus, the settings window and notification delivery are not modelled. A posted notification is recorded as a `Notice`, and the invalid-URL alert as a value.
- yt-dlp and imageio_ffmpeg are not modelled. The downloader is the `Fetch` parameter: the messages it sent through the logger, the files it wrote, and its error if it raised. Its messages are replayed in their order after the files are written; how yt-dlp interleaves logging with writing is not modelled.
- Threads and main-thread marshalling are left out. Each worker runs as a sequential call, and `addHistoryData:` waits in a queue that `RunPending` drains. The status pill is updated from the worker thread at app.py:583; that race is not modelled.
- `_download_thread`'s `finally` at app.py:585 queues a second `setBusy_(False)` after `finishExtract_` has already released the gate. The model releases it once, because a second release changes nothing.
- The save-panel loop at app.py:613-615 may never end. The model takes the path it eventually returns as the `savePath` parameter. `openSavePanel_`'s own error logging is left out.
- `time.time()`, `datetime.now()`, `date.today()` and `strftime` are parameters (`now`, `stamp`, `today`). Dates in the notes prototype are whole microseconds, and the calendar day is the quotient by one day, so time zones are not modelled.
- SQLite itself is not modelled; only its documented behaviour for this schema is. Write failures (disk full, permissions) and `db_path.py` are left out.
- `generate_notes` (sidebar_test.py:52-59) is random demo data and is not modelled.
- The `--dev` echo to standard output in app.py:58-59 and the unconditional `print` in main.py:35 are output only, and are left out.
- main.py:27-53 has the same logger class without `reset`. It is modelled by the same `Logging.DownloaderLogger`, and main.py never calls `Reset`.
- app.py:41 imports a `Downloader` class that downloader.py does not define (see Findings). app.py:372 constructs it, and app.py:576 calls its `download` with `normalization=`. The model uses the module functions `download(url, logger)` and `move_file` instead, and the normalization is only logged. No tier-to-filter mapping exists in the code, and none is invented. `setNormalization`, called at settings.py:86, does not exist either.
- The file a module was loaded from, which CPython appends to the ImportError message, depends on the installation; it is the `location` parameter of `App.ImportFrom`.
- main.py's `setBusy_` has fallbacks for a raising `setEnabled_`. These are left out because the modelled controls never raise.
- `collectionView_numberOfItemsInSection_` and the header view of the notes prototype are left out as views. `NumberOfSections` and `HeaderTitle` give their data.
- `shutil.move` is modelled with three failures, in the order it meets them: an existing entry of the same name inside a destination directory, a missing source, and a missing or non-directory parent of the target. Permission and cross-device errors are left out.
- Files.MoveError: a directory as the source is reported as missing, where `shutil.move` would move the whole directory; `move_file` is only ever handed the downloaded file. A target whose parent is missing below an ancestor that is a file gets `[Errno 2]`, where the system reports `[Errno 20]`.
- Sorting.Sort: the contract does not state that equal keys keep their input order. `sorted` in the notes prototype is stable, and `Sort` does insert ahead of equal keys, but that is not proved.
- Text.Lower: only ASCII letters are folded. For the "https://" test this is exact, because no other character lower-cases into one of those eight characters.

## Findings

| source | as written | input that shows it | evidently intended | confidence | as-written member | corrected member |
|---|---|---|---|---|---|---|
| app.py:41 | `from downloader import Downloader` imports a class downloader.py never defines (it has only the functions `download` and `move_file`), so loading app.py raises `ImportError` ("cannot import name 'Downloader' from 'downloader' (…)"); app.py:372 and app.py:576 use that class and pass `normalization=` | starting the application at all | import `download` and `move_file` and call `download(url, self.logger)` | high (not executed) | App.AsWrittenImportFails | App.IntendedImportSucceeds, App.ContentVC.DownloadThread |
| main.py:227 | `download(url, "audio", self.logger)` passes three arguments to a function of two (downloader.py:7), so every call raises `TypeError` and the worker logs "Download failed" | any accepted URL, including one whose download would succeed | `download(url, self.logger)`, logging the path on success | high (not executed) | MainWindow.AppDelegate.DownloadThread, MainWindow.AsWrittenHidesSuccess | MainWindow.AppDelegate.DownloadThreadIntended |
