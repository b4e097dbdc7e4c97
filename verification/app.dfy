/**
 * The main window's bookkeeping: the status pill, the history sidebar's row
 * list, and the extraction session of the content pane (URL check, busy gate,
 * download, save, sidebar update). Cocoa views are reduced to the fields these
 * steps set; the worker thread runs as an ordinary call.
 */
module App {
  import opened Common
  import Text
  import Paths
  import Files
  import Logging
  import Database
  import Sorting
  import Models
  import UserDefaults
  import Downloader

  // ---------------------------------------------------------------------------
  // Imports

  /** The top-level names downloader.py binds: its five imported modules and its two functions. */
  const DownloaderModuleNames: set<string> :=
    {"tempfile", "os", "shutil", "yt_dlp", "imageio_ffmpeg", "download", "move_file"}

  /**
   * `from <source> import <names>`, where `location` is the file the module
   * was loaded from: the ImportError message for the first name the module
   * does not bind, or nothing when it binds them all.
   */
  function ImportFrom(source: string, location: string, defined: set<string>, names: seq<string>): (r: Option<string>)
    ensures r.None? <==> forall k :: 0 <= k < |names| ==> names[k] in defined
    ensures r.Some? ==> exists k :: (0 <= k < |names| && names[k] !in defined
      && (forall j :: 0 <= j < k ==> names[j] in defined)
      && r.value == "cannot import name '" + names[k] + "' from '" + source + "' (" + location + ")")
  {
    if names == [] then None
    else if names[0] !in defined then Some("cannot import name '" + names[0] + "' from '" + source + "' (" + location + ")")
    else
      var rest := ImportFrom(source, location, defined, names[1..]);
      assert forall k :: 1 <= k < |names| ==> names[k] == names[1..][k - 1];
      if rest.Some? then
        var k :| 0 <= k < |names[1..]| && names[1..][k] !in defined
          && (forall j :: 0 <= j < k ==> names[1..][j] in defined)
          && rest.value == "cannot import name '" + names[1..][k] + "' from '" + source + "' (" + location + ")";
        assert forall j :: 0 <= j < k + 1 ==> names[j] in defined;
        rest
      else rest
  }

  /**
   * app.py's `from downloader import Downloader` names a class downloader.py
   * never defines, wherever downloader.py was loaded from.
   */
  lemma AsWrittenImportFails(location: string)
    ensures ImportFrom("downloader", location, DownloaderModuleNames, ["Downloader"])
      == Some("cannot import name 'Downloader' from 'downloader' (" + location + ")")
  {
    assert "Downloader" !in DownloaderModuleNames by {
      assert |"Downloader"| == 10;
    }
    assert "cannot import name '" + "Downloader" + "' from '" + "downloader" + "' ("
      == "cannot import name 'Downloader' from 'downloader' (";
  }

  /** Importing the two functions the pane actually needs succeeds. */
  lemma IntendedImportSucceeds(location: string)
    ensures ImportFrom("downloader", location, DownloaderModuleNames, ["download", "move_file"]).None?
  {
    assert ["download", "move_file"][1..] == ["move_file"];
  }

  // ---------------------------------------------------------------------------
  // Status pill

  /** `StatusPill.KindNone` .. `KindError`. */
  datatype Kind = KindNone | KindSuccess | KindProgress | KindError

  datatype Symbol = Checkmark | Xmark

  datatype Color = Green | Red | LabelColor

  /** What `setKind_message_` and `reset_` set on the pill's icon, spinner and label. */
  datatype Pill = Pill(
    iconHidden: bool, icon: Symbol, iconTint: Color,
    spinnerHidden: bool, spinning: bool,
    message: string, messageColor: Color)

  /** `reset_`: hides the icon and the spinner and clears the label; it does not stop the spinner. */
  function ResetPill(p: Pill): Pill {
    p.(iconHidden := true, spinnerHidden := true, message := "", messageColor := LabelColor)
  }

  /** The pill `init` leaves: a green checkmark image, a stopped spinner, then `reset_`. */
  const InitialPill: Pill := ResetPill(Pill(false, Checkmark, Green, false, false, "", LabelColor))

  /** `setKind_message_(kind, msg)`. */
  function SetKind(p: Pill, kind: Kind, msg: string): Pill {
    match kind
    case KindNone => ResetPill(p)
    case KindSuccess =>
      p.(spinning := false, spinnerHidden := true, iconHidden := false, icon := Checkmark,
         iconTint := Green, message := msg, messageColor := Green)
    case KindError =>
      p.(spinning := false, spinnerHidden := true, iconHidden := false, icon := Xmark,
         iconTint := Red, message := msg, messageColor := Red)
    case KindProgress =>
      p.(iconHidden := true, spinnerHidden := false, spinning := true, message := msg, messageColor := LabelColor)
  }

  /** The kind a user reads off the pill: the visible icon, else a visible spinner, else nothing. */
  function ShownKind(p: Pill): Kind {
    if !p.iconHidden then (if p.icon == Checkmark then KindSuccess else KindError)
    else if !p.spinnerHidden then KindProgress
    else KindNone
  }

  /** A visible spinner is always animating. */
  predicate SpinnerConsistent(p: Pill) {
    !p.spinnerHidden ==> p.spinning
  }

  /**
   * Whatever the pill showed before, `setKind_message_(kind, msg)` shows `kind`
   * with `msg` (an empty label for `KindNone`), coloured by the kind, and keeps
   * a visible spinner animating.
   */
  lemma SetKindShows(p: Pill, kind: Kind, msg: string)
    requires SpinnerConsistent(p)
    ensures ShownKind(SetKind(p, kind, msg)) == kind
    ensures SetKind(p, kind, msg).message == if kind == KindNone then "" else msg
    ensures SetKind(p, kind, msg).messageColor
      == match kind case KindSuccess => Green case KindError => Red case _ => LabelColor
    ensures SpinnerConsistent(SetKind(p, kind, msg))
  {
  }

  /** `reset_` after a progress message hides a spinner that keeps running. */
  lemma ResetKeepsSpinnerRunning(p: Pill, msg: string)
    ensures var q := SetKind(SetKind(p, KindProgress, msg), KindNone, "");
      ShownKind(q) == KindNone && q.spinnerHidden && q.spinning
  {
  }

  // ---------------------------------------------------------------------------
  // Sidebar

  /** The `{"file": ..., "url": ...}` dictionary handed to `addRow_`. */
  datatype NewMedia = NewMedia(file: string, url: string)

  const JustNow: string := "Just now"

  predicate StartsWithJustNow(data: seq<Models.MediaItem>) {
    |data| > 0 && data[0].isGroup && data[0].title == JustNow
  }

  /**
   * The row list after `addRow_` inserts `item`: the item goes right below a
   * "Just now" header, which is added on top unless the list already starts
   * with one; every earlier row keeps its place relative to the others.
   */
  function WithNewRow(data: seq<Models.MediaItem>, item: Models.MediaItem): (r: seq<Models.MediaItem>)
    ensures |r| == |data| + (if StartsWithJustNow(data) then 1 else 2)
    ensures StartsWithJustNow(r) && r[1] == item
  {
    if StartsWithJustNow(data) then [data[0], item] + data[1..]
    else [Models.Group(JustNow), item] + data
  }

  /** Taking the new rows out again gives back the old list. */
  lemma WithNewRowInverse(data: seq<Models.MediaItem>, item: Models.MediaItem)
    ensures var r := WithNewRow(data, item);
      if StartsWithJustNow(data) then [r[0]] + r[2..] == data else r[2..] == data
  {
    if StartsWithJustNow(data) {
      assert data == [data[0]] + data[1..];
    }
  }

  /** A second row added on top shares the "Just now" header with the first. */
  lemma SecondRowSharesHeader(data: seq<Models.MediaItem>, first: Models.MediaItem, second: Models.MediaItem)
    ensures var once := WithNewRow(data, first);
      var twice := WithNewRow(once, second);
      |twice| == |once| + 1 && twice[0] == once[0] && twice[1] == second && twice[2..] == once[1..]
  {
  }

  /** `SidebarVC`: the history list and its store. */
  class Sidebar {
    /** The rows the table shows. */
    var data: seq<Models.MediaItem>
    /** `addHistoryData:` calls queued on the main thread, oldest first. */
    var pending: seq<NewMedia>
    const db: Database.MediaDB
    /** `HistoryFormatter._now`, fixed when the program starts. */
    const formatterNow: int

    constructor (db: Database.MediaDB, formatterNow: int)
      ensures data == [] && pending == []
      ensures this.db == db && this.formatterNow == formatterNow
    {
      data := [];
      pending := [];
      this.db := db;
      this.formatterNow := formatterNow;
    }

    /**
     * `addRow_(obj)`: nothing for `None`; otherwise splices the item (stamped
     * `stamp`, the current time as text) and perhaps a header into `data`, and
     * queues exactly one `addHistoryData:` for `obj`.
     */
    method AddRow(obj: Option<NewMedia>, stamp: string)
      modifies this
      ensures obj.None? ==> data == old(data) && pending == old(pending)
      ensures obj.Some? ==> data == WithNewRow(old(data), Models.Item(obj.value.file, stamp))
      ensures obj.Some? ==> pending == old(pending) + [obj.value]
    {
      if obj.None? {
        return;
      }
      var addGroup := if |data| > 0 then !(data[0].isGroup && data[0].title == JustNow) else true;
      var items := [Models.Item(obj.value.file, stamp)];
      if addGroup {
        items := [Models.Group(JustNow)] + items;
        data := items[..2] + data;
      } else {
        data := data[..1] + items + data[1..];
      }
      pending := pending + [obj.value];
    }

    /**
     * `getHistoryData_`: the table becomes the formatted history, newest
     * first. On a closed store the query raises and `data` stays as it was.
     */
    method GetHistoryData(stamp: int -> string) returns (selected: Result<seq<Database.Record>>)
      modifies this
      ensures pending == old(pending)
      ensures selected.Err? <==> !db.isOpen
      ensures selected.Err? ==> data == old(data)
      ensures selected.Ok? ==> multiset(selected.value) == multiset(db.rows)
      ensures selected.Ok? ==> Sorting.SortedBy(selected.value, Database.Ts, true)
      ensures selected.Ok? ==> data == Models.Formatted(selected.value, formatterNow, stamp)
    {
      selected := db.SelectHistory(true);
      if selected.Ok? {
        data := Models.Format(selected.value, formatterNow, stamp);
      }
    }

    /**
     * `addHistoryData_(obj)`: one history row for the saved file, stamped `now`,
     * under a fresh id larger than every id already stored; on a closed store
     * the insert raises and the table stays as it was.
     */
    method AddHistoryData(obj: NewMedia, now: int) returns (r: Result<int>)
      modifies db
      ensures db.isOpen == old(db.isOpen)
      ensures !db.isOpen ==> r == Err(Database.ClosedError) && db.Disk() == old(db.Disk())
      ensures db.isOpen ==> r.Ok? && db.rows == old(db.rows) + [Database.Record(r.value, obj.file, obj.url, now)]
      ensures db.isOpen ==> r.value == Database.NextId(old(db.rows), old(db.lastId)) && db.lastId == r.value
      ensures db.isOpen ==> forall k :: 0 <= k < |old(db.rows)| ==> old(db.rows)[k].id < r.value
    {
      r := db.InsertHistory(obj.file, obj.url, None, now);
    }

    /** The main thread runs the oldest queued `addHistoryData:`, if any. */
    method RunPending(now: int) returns (r: Option<Result<int>>)
      modifies this, db
      ensures db.isOpen == old(db.isOpen) && data == old(data)
      ensures old(pending) == [] ==> r.None? && pending == [] && db.Disk() == old(db.Disk())
      ensures old(pending) != [] ==> pending == old(pending)[1..] && r.Some?
      ensures old(pending) != [] && !db.isOpen ==> r == Some(Err(Database.ClosedError)) && db.Disk() == old(db.Disk())
      ensures old(pending) != [] && db.isOpen ==>
        && r.value.Ok? && r.value.value == Database.NextId(old(db.rows), old(db.lastId)) && db.lastId == r.value.value
        && db.rows == old(db.rows) + [Database.Record(r.value.value, old(pending)[0].file, old(pending)[0].url, now)]
    {
      if pending == [] {
        return None;
      }
      var obj := pending[0];
      pending := pending[1..];
      var inserted := AddHistoryData(obj, now);
      r := Some(inserted);
    }

    /** `_appWillTerminate_`: closes the store; its rows stay on disk. */
    method AppWillTerminate()
      modifies db
      ensures !db.isOpen && db.Disk() == old(db.Disk())
    {
      db.Close();
    }
  }

  // ---------------------------------------------------------------------------
  // Content pane

  /** What the pane shows the user besides its fields: a beep, the invalid-URL alert, a system notification. */
  datatype Notice = Beep | InvalidUrlAlert | Notification(title: string, subtitle: string)

  /** The line `finishExtract_` logs once the move has returned, given its error if it failed. */
  function SaveResultLine(err: Option<string>): string {
    match err
    case Some(e) => Logging.ErrorLine("Save failed: " + e)
    case None => Logging.InfoLine("File saved successfully.")
  }

  /** The lines `finishExtract_` logs. */
  function SaveLog(savePath: string, err: Option<string>): seq<string> {
    [Logging.InfoLine("Saving to: " + savePath), SaveResultLine(err)]
  }

  /** A log that gains the lines of `finishExtract_` gains the "Saving to" line, then the result line. */
  lemma SaveLogSplit(before: seq<string>, savePath: string, err: Option<string>)
    ensures SaveLog(savePath, err) == [Logging.InfoLine("Saving to: " + savePath)] + [SaveResultLine(err)]
    ensures before + SaveLog(savePath, err) == before + [Logging.InfoLine("Saving to: " + savePath)] + [SaveResultLine(err)]
  {
    assert SaveLog(savePath, err) == [Logging.InfoLine("Saving to: " + savePath)] + [SaveResultLine(err)];
  }

  /** The error the save step meets, if the download succeeded; `None` otherwise. */
  function SaveErrorOf(t: Files.Tree, got: Result<string>, savePath: string): Option<string> {
    if got.Ok? then Files.MoveError(t, got.value, savePath) else None
  }

  /** The lines `_download_thread` logs once `download` has returned (with `finishExtract_`'s on success). */
  function ConcludeLog(got: Result<string>, saveErr: Option<string>, savePath: string): seq<string> {
    match got
    case Err(e) => [Logging.ErrorLine("Download failed: " + e)]
    case Ok(path) => [Logging.InfoLine("Download finished successfully: " + path)] + SaveLog(savePath, saveErr)
  }

  /** A log that gains the lines logged after a successful download gains the success line, then the save's. */
  lemma ConcludeLogSplit(before: seq<string>, path: string, saveErr: Option<string>, savePath: string)
    ensures ConcludeLog(Ok(path), saveErr, savePath)
      == [Logging.InfoLine("Download finished successfully: " + path)] + SaveLog(savePath, saveErr)
    ensures before + ConcludeLog(Ok(path), saveErr, savePath)
      == before + [Logging.InfoLine("Download finished successfully: " + path)] + SaveLog(savePath, saveErr)
  {
  }

  /** The lines `_download_thread` logs up to the return of `download`: the preference, then the download's. */
  function BeginLog(defaults: map<string, string>, fetch: Downloader.Fetch): seq<string> {
    [Logging.InfoLine("Using normalization: " + UserDefaults.GetNormalization(defaults))] + Downloader.DownloadLines(fetch)
  }

  /** A log that gains the first lines of a worker run gains the preference line, then the download's. */
  lemma BeginLogSplit(before: seq<string>, defaults: map<string, string>, fetch: Downloader.Fetch)
    ensures before + BeginLog(defaults, fetch)
      == before + [Logging.InfoLine("Using normalization: " + UserDefaults.GetNormalization(defaults))]
        + Downloader.DownloadLines(fetch)
  {
  }

  /** The lines of one worker run, given the tree before it. */
  function DownloadLog(defaults: map<string, string>, t: Files.Tree, tmpdir: string, fetch: Downloader.Fetch,
                       savePath: string): seq<string> {
    var got := Downloader.Outcome(tmpdir, fetch);
    BeginLog(defaults, fetch) + ConcludeLog(got, SaveErrorOf(Downloader.Downloaded(t, tmpdir, fetch), got, savePath), savePath)
  }

  /** A log that gains the lines of a worker run gains its first lines, then the rest. */
  lemma DownloadLogSplit(before: seq<string>, defaults: map<string, string>, t: Files.Tree, tmpdir: string,
                         fetch: Downloader.Fetch, savePath: string)
    ensures var got := Downloader.Outcome(tmpdir, fetch);
      DownloadLog(defaults, t, tmpdir, fetch, savePath)
        == BeginLog(defaults, fetch) + ConcludeLog(got, SaveErrorOf(Downloader.Downloaded(t, tmpdir, fetch), got, savePath), savePath)
    ensures var got := Downloader.Outcome(tmpdir, fetch);
      before + DownloadLog(defaults, t, tmpdir, fetch, savePath)
        == before + BeginLog(defaults, fetch)
          + ConcludeLog(got, SaveErrorOf(Downloader.Downloaded(t, tmpdir, fetch), got, savePath), savePath)
  {
  }

  /** `ContentVC`: the URL field, the Extract button, the status pill and the log. */
  class ContentVC {
    var urlField: string
    var urlEnabled: bool
    var urlEditable: bool
    var extractEnabled: bool
    var pill: Pill
    var notices: seq<Notice>
    const logger: Logging.DownloaderLogger
    const sidebar: Sidebar
    const fs: Files.FileSystem

    /** A session is running: the Extract button is disabled. */
    predicate Busy()
      reads this
    {
      !extractEnabled
    }

    /** What `setBusy_` sets: the Extract button's state, then the URL field's enabled and editable flags. */
    function Gate(): (bool, bool, bool)
      reads this
    {
      (extractEnabled, urlEnabled, urlEditable)
    }

    /** The gate is open: the button, and the field for typing. */
    predicate Released()
      reads this
    {
      extractEnabled && urlEnabled && urlEditable
    }

    /** The gate is taken: the button and the field are both off. */
    predicate Taken()
      reads this
    {
      !extractEnabled && !urlEnabled && !urlEditable
    }

    constructor (logger: Logging.DownloaderLogger, sidebar: Sidebar, fs: Files.FileSystem)
      requires logger.Valid()
      ensures logger.Valid() && Released()
      ensures urlField == "" && pill == InitialPill && notices == []
      ensures this.logger == logger && this.sidebar == sidebar && this.fs == fs
    {
      urlField := "";
      urlEnabled := true;
      urlEditable := true;
      extractEnabled := true;
      pill := InitialPill;
      notices := [];
      this.logger := logger;
      this.sidebar := sidebar;
      this.fs := fs;
    }

    /** `setBusy_(b)`: the button and the field follow `not b`; releasing also clears the field. */
    method SetBusy(busy: bool)
      modifies this
      ensures Busy() == busy && urlEnabled == !busy && urlEditable == !busy
      ensures urlField == if busy then old(urlField) else ""
      ensures pill == old(pill) && notices == old(notices)
    {
      extractEnabled := !busy;
      urlEnabled := !busy;
      urlEditable := !busy;
      if !busy {
        urlField := "";
      }
    }

    /**
     * `extract_`: beeps at an empty URL and alerts at one that does not start
     * with "https://" in any letter case, touching nothing else. A valid URL
     * shows "Downloading", restarts the log with one line (handing that buffer
     * to the on-screen log), takes the busy gate and is handed to the worker.
     */
    method Extract() returns (started: Option<string>)
      requires logger.Valid()
      modifies this, logger
      ensures logger.Valid() && urlField == old(urlField)
      ensures started.Some? <==> Text.IsHttpsUrl(Text.Strip(old(urlField)))
      ensures Text.Strip(old(urlField)) == [] ==> notices == old(notices) + [Beep]
      ensures Text.Strip(old(urlField)) != [] && started.None? ==> notices == old(notices) + [InvalidUrlAlert]
      ensures started.None? ==>
        && pill == old(pill) && Gate() == old(Gate())
        && logger.lines == old(logger.lines) && logger.delivered == old(logger.delivered)
      ensures started.Some? ==>
        && started.value == Text.Strip(old(urlField))
        && Taken() && notices == old(notices)
        && ShownKind(pill) == KindProgress && pill.message == "Downloading"
        && logger.lines == [Logging.InfoLine("Extract started.")]
        && logger.delivered == old(logger.delivered) + [Logging.Render([Logging.InfoLine("Extract started.")])]
    {
      var text := Text.Strip(urlField);
      if text == [] {
        notices := notices + [Beep];
        return None;
      }
      if !Text.IsHttpsUrl(text) {
        notices := notices + [InvalidUrlAlert];
        return None;
      }
      Launch();
      started := Some(text);
    }

    /**
     * The accepting end of `extract_`: "Downloading", a log restarted with one
     * line (the reset hands nothing over, the line hands over the new buffer),
     * the gate taken.
     */
    method Launch()
      requires logger.Valid()
      modifies this, logger
      ensures logger.Valid() && logger.lines == [Logging.InfoLine("Extract started.")]
      ensures logger.delivered == old(logger.delivered) + [Logging.Render([Logging.InfoLine("Extract started.")])]
      ensures Taken() && urlField == old(urlField) && notices == old(notices)
      ensures ShownKind(pill) == KindProgress && pill.message == "Downloading"
    {
      pill := SetKind(pill, KindProgress, "Downloading");
      logger.Reset();
      logger.Info("Extract started.");
      SetBusy(true);
    }

    /** Logs `msg` as an error and shows "Failed": the reaction to a failed download or save. */
    method ReportFailure(msg: string)
      requires logger.Valid()
      modifies this, logger
      ensures logger.Valid()
      ensures logger.lines == old(logger.lines) + [Logging.ErrorLine(msg)]
      ensures logger.delivered == old(logger.delivered) + Logging.Snapshots(old(logger.lines), [Logging.ErrorLine(msg)])
      ensures ShownKind(pill) == KindError && pill.message == "Failed"
      ensures urlField == old(urlField) && Gate() == old(Gate()) && notices == old(notices)
    {
      logger.Error(msg);
      pill := SetKind(pill, KindError, "Failed");
    }

    /** The success half of `finishExtract_`: log, sidebar row, notification, "Success". */
    method ReportSaved(file: string, url: string, stamp: string)
      requires logger.Valid()
      modifies this, logger, sidebar
      ensures logger.Valid()
      ensures logger.lines == old(logger.lines) + [SaveResultLine(None)]
      ensures logger.delivered == old(logger.delivered) + Logging.Snapshots(old(logger.lines), [SaveResultLine(None)])
      ensures ShownKind(pill) == KindSuccess && pill.message == "Success"
      ensures sidebar.data == WithNewRow(old(sidebar.data), Models.Item(file, stamp))
      ensures sidebar.pending == old(sidebar.pending) + [NewMedia(file, url)]
      ensures notices == old(notices) + [Notification("Extraction Completed", "File saved: " + file)]
      ensures urlField == old(urlField) && Gate() == old(Gate())
    {
      logger.Info("File saved successfully.");
      sidebar.AddRow(Some(NewMedia(file, url)), stamp);
      notices := notices + [Notification("Extraction Completed", "File saved: " + file)];
      pill := SetKind(pill, KindSuccess, "Success");
    }

    /** The pane after a failed step: "Failed" shown, the tree, the sidebar and the notices as given. */
    ghost predicate ShowsFailure(t: Files.Tree, data: seq<Models.MediaItem>, pending: seq<NewMedia>, shown: seq<Notice>)
      reads this`pill, this`notices, fs, sidebar
    {
      && ShownKind(pill) == KindError && pill.message == "Failed"
      && fs.entries == t
      && sidebar.data == data && sidebar.pending == pending && notices == shown
    }

    /**
     * The pane after `finishExtract_` moved `src` to `savePath`, starting from
     * tree `t`, sidebar rows `data`, queue `pending` and notices `shown`: a
     * failed move changes none of them and shows "Failed"; a successful one
     * moves the file, adds its name to the sidebar under "Just now", queues its
     * history row with `url`, posts a notification and shows "Success".
     */
    ghost predicate SaveReported(t: Files.Tree, data: seq<Models.MediaItem>, pending: seq<NewMedia>, shown: seq<Notice>,
                                 src: string, savePath: string, url: string, stamp: string)
      reads this`pill, this`notices, fs, sidebar
    {
      var file := Paths.BaseName(savePath);
      if Files.MoveError(t, src, savePath).Some? then ShowsFailure(t, data, pending, shown)
      else
        && ShownKind(pill) == KindSuccess && pill.message == "Success"
        && fs.entries == Downloader.Saved(t, src, savePath)
        && sidebar.data == WithNewRow(data, Models.Item(file, stamp))
        && sidebar.pending == pending + [NewMedia(file, url)]
        && notices == shown + [Notification("Extraction Completed", "File saved: " + file)]
    }

    /**
     * `finishExtract_(src)` with `savePath` the path the save panel returned:
     * shows "Saving File", moves the file, then either reports the failure or
     * adds the file to the sidebar, posts a notification and shows "Success".
     * The busy gate is released on both paths.
     */
    method FinishExtract(src: string, savePath: string, stamp: string)
      requires logger.Valid()
      modifies this, logger, fs, sidebar
      ensures logger.Valid() && Released() && urlField == ""
      ensures logger.lines == old(logger.lines) + SaveLog(savePath, Files.MoveError(old(fs.entries), src, savePath))
      ensures logger.delivered == old(logger.delivered)
        + Logging.Snapshots(old(logger.lines), SaveLog(savePath, Files.MoveError(old(fs.entries), src, savePath)))
      ensures SaveReported(old(fs.entries), old(sidebar.data), old(sidebar.pending), old(notices),
                           src, savePath, Text.Strip(old(urlField)), stamp)
    {
      ghost var before, earlier, err := logger.lines, logger.delivered, Files.MoveError(fs.entries, src, savePath);
      var url := Text.Strip(urlField);
      pill := SetKind(pill, KindProgress, "Saving File");
      logger.Info("Saving to: " + savePath);
      ghost var saving := [Logging.InfoLine("Saving to: " + savePath)];
      SaveAndReport(src, savePath, url, stamp);
      SaveLogSplit(before, savePath, err);
      Logging.DeliveredAppend(before, earlier, saving, [SaveResultLine(err)], logger.delivered);
      SetBusy(false);
    }

    /** The middle of `finishExtract_`: the move, then the report of its outcome. */
    method SaveAndReport(src: string, savePath: string, url: string, stamp: string)
      requires logger.Valid()
      modifies this, logger, fs, sidebar
      ensures logger.Valid() && urlField == old(urlField) && Gate() == old(Gate())
      ensures logger.lines == old(logger.lines) + [SaveResultLine(Files.MoveError(old(fs.entries), src, savePath))]
      ensures logger.delivered == old(logger.delivered)
        + Logging.Snapshots(old(logger.lines), [SaveResultLine(Files.MoveError(old(fs.entries), src, savePath))])
      ensures SaveReported(old(fs.entries), old(sidebar.data), old(sidebar.pending), old(notices),
                           src, savePath, url, stamp)
    {
      var moved := Downloader.MoveFile(fs, src, savePath);
      if moved.Err? {
        ReportFailure("Save failed: " + moved.message);
      } else {
        ReportSaved(Paths.BaseName(savePath), url, stamp);
      }
    }

    /**
     * The pane once `_download_thread` has handled the result `got` of
     * `download`: a failed download shows "Failed" and changes nothing else;
     * a path goes through `finishExtract_`.
     */
    ghost predicate Concluded(got: Result<string>, t: Files.Tree, data: seq<Models.MediaItem>, pending: seq<NewMedia>,
                              shown: seq<Notice>, savePath: string, url: string, stamp: string)
      reads this`pill, this`notices, fs, sidebar
    {
      if got.Err? then ShowsFailure(t, data, pending, shown)
      else SaveReported(t, data, pending, shown, got.value, savePath, url, stamp)
    }

    /**
     * `_download_thread(url)`, where `fetch` is what the external downloader
     * did with the URL. Logs the preference (which changes nothing else), runs
     * the download, and on success hands over to `finishExtract_`; a failure
     * is logged and shown as "Failed". Every path ends with the gate released.
     */
    method DownloadThread(defaults: map<string, string>, tmpdir: string, fetch: Downloader.Fetch,
                          savePath: string, stamp: string)
      requires logger.Valid() && Downloader.FreshScratch(fs.entries, tmpdir)
      modifies this, logger, fs, sidebar
      ensures logger.Valid() && Released() && urlField == ""
      ensures logger.lines == old(logger.lines) + DownloadLog(defaults, old(fs.entries), tmpdir, fetch, savePath)
      ensures logger.delivered == old(logger.delivered)
        + Logging.Snapshots(old(logger.lines), DownloadLog(defaults, old(fs.entries), tmpdir, fetch, savePath))
      ensures Concluded(Downloader.Outcome(tmpdir, fetch), Downloader.Downloaded(old(fs.entries), tmpdir, fetch),
                        old(sidebar.data), old(sidebar.pending), old(notices), savePath, Text.Strip(old(urlField)), stamp)
    {
      DownloadLogSplit(logger.lines, defaults, fs.entries, tmpdir, fetch, savePath);
      var got := Begin(defaults, tmpdir, fetch);
      ghost var t := fs.entries;
      Conclude(got, savePath, stamp);
      Logging.DeliveredAppend(old(logger.lines), old(logger.delivered), BeginLog(defaults, fetch),
                              ConcludeLog(got, SaveErrorOf(t, got, savePath), savePath), logger.delivered);
    }

    /** The start of `_download_thread`: the preference line, then `download`. */
    method Begin(defaults: map<string, string>, tmpdir: string, fetch: Downloader.Fetch) returns (got: Result<string>)
      requires logger.Valid() && Downloader.FreshScratch(fs.entries, tmpdir)
      modifies logger, fs
      ensures got == Downloader.Outcome(tmpdir, fetch)
      ensures fs.entries == Downloader.Downloaded(old(fs.entries), tmpdir, fetch)
      ensures logger.Valid()
      ensures logger.lines == old(logger.lines) + BeginLog(defaults, fetch)
      ensures logger.delivered == old(logger.delivered) + Logging.Snapshots(old(logger.lines), BeginLog(defaults, fetch))
    {
      ghost var before, earlier := logger.lines, logger.delivered;
      var normalization := UserDefaults.GetNormalization(defaults);
      logger.Info("Using normalization: " + normalization);
      ghost var preference := [Logging.InfoLine("Using normalization: " + normalization)];
      got := Downloader.Download(fs, logger, tmpdir, fetch);
      BeginLogSplit(before, defaults, fetch);
      Logging.DeliveredAppend(before, earlier, preference, Downloader.DownloadLines(fetch), logger.delivered);
    }

    /** `_download_thread` once `download` has returned `got`: save or report, then release the gate. */
    method Conclude(got: Result<string>, savePath: string, stamp: string)
      requires logger.Valid()
      modifies this, logger, fs, sidebar
      ensures logger.Valid() && Released() && urlField == ""
      ensures logger.lines == old(logger.lines) + ConcludeLog(got, SaveErrorOf(old(fs.entries), got, savePath), savePath)
      ensures logger.delivered == old(logger.delivered)
        + Logging.Snapshots(old(logger.lines), ConcludeLog(got, SaveErrorOf(old(fs.entries), got, savePath), savePath))
      ensures Concluded(got, old(fs.entries), old(sidebar.data), old(sidebar.pending), old(notices),
                        savePath, Text.Strip(old(urlField)), stamp)
    {
      if got.Ok? {
        ghost var before, earlier, err := logger.lines, logger.delivered, Files.MoveError(fs.entries, got.value, savePath);
        logger.Info("Download finished successfully: " + got.value);
        ghost var finished := [Logging.InfoLine("Download finished successfully: " + got.value)];
        FinishExtract(got.value, savePath, stamp);
        ConcludeLogSplit(before, got.value, err, savePath);
        Logging.DeliveredAppend(before, earlier, finished, SaveLog(savePath, err), logger.delivered);
      } else {
        ReportFailure("Download failed: " + got.message);
        SetBusy(false);
      }
    }

    /**
     * One press of Extract followed by the worker it starts: a rejected URL
     * leaves the pill, the files, the log and the gate alone; an accepted one
     * always ends with the gate released, the log holding this session's
     * lines only, and the pane as `_download_thread` leaves it.
     */
    method Session(defaults: map<string, string>, tmpdir: string, fetch: Downloader.Fetch,
                   savePath: string, stamp: string) returns (started: Option<string>)
      requires logger.Valid() && !Busy() && Downloader.FreshScratch(fs.entries, tmpdir)
      modifies this, logger, fs, sidebar
      ensures logger.Valid()
      ensures started.Some? <==> Text.IsHttpsUrl(Text.Strip(old(urlField)))
      ensures Text.Strip(old(urlField)) == [] ==> notices == old(notices) + [Beep]
      ensures Text.Strip(old(urlField)) != [] && started.None? ==> notices == old(notices) + [InvalidUrlAlert]
      ensures started.None? ==>
        && pill == old(pill) && fs.entries == old(fs.entries) && urlField == old(urlField) && Gate() == old(Gate())
        && logger.lines == old(logger.lines) && logger.delivered == old(logger.delivered)
        && sidebar.data == old(sidebar.data) && sidebar.pending == old(sidebar.pending)
      ensures started.Some? ==>
        && Released() && urlField == ""
        && logger.lines == [Logging.InfoLine("Extract started.")] + DownloadLog(defaults, old(fs.entries), tmpdir, fetch, savePath)
        && logger.delivered == old(logger.delivered) + [Logging.Render([Logging.InfoLine("Extract started.")])]
          + Logging.Snapshots([Logging.InfoLine("Extract started.")], DownloadLog(defaults, old(fs.entries), tmpdir, fetch, savePath))
        && Concluded(Downloader.Outcome(tmpdir, fetch), Downloader.Downloaded(old(fs.entries), tmpdir, fetch),
                     old(sidebar.data), old(sidebar.pending), old(notices), savePath, started.value, stamp)
    {
      started := Extract();
      if started.Some? {
        DownloadThread(defaults, tmpdir, fetch, savePath, stamp);
      }
    }
  }
}
