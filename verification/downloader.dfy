/**
 * The download step and the save step around the external downloader. The
 * downloader itself (yt-dlp driving ffmpeg) is an oracle: it either fails with
 * a message or leaves files in the scratch directory. What is modelled is the
 * option set handed to it, the scan of the scratch directory for the first MP3,
 * and `move_file` with its clean-up of the scratch directory.
 */
module Downloader {
  import opened Common
  import Text
  import Paths
  import Files
  import Logging

  /** The audio filter passed to ffmpeg, the same on every call. */
  const LoudnormFilter: string := "loudnorm=I=-13:TP=-1.0:LRA=6"

  /** Name of the output template inside the scratch directory. */
  const OutputTemplate: string := "%(title)s.%(ext)s"

  datatype Postprocessor = Postprocessor(key: string, preferredCodec: string, preferredQuality: string)

  /** The `ydl_opts` dictionary, without the logger object it also carries. */
  datatype YdlOptions = YdlOptions(
    format: string,
    outtmpl: string,
    postprocessors: seq<Postprocessor>,
    ffmpegLocation: string,
    ffmpegArgs: seq<string>,
    addMetadata: bool,
    writeThumbnail: bool,
    embedThumbnail: bool)

  /** The options `download` builds for scratch directory `tmpdir`. */
  function Options(tmpdir: string, ffmpegPath: string): YdlOptions {
    YdlOptions(
      "bestaudio/best",
      Paths.Join(tmpdir, OutputTemplate),
      [Postprocessor("FFmpegExtractAudio", "mp3", "0")],
      ffmpegPath,
      ["-af", LoudnormFilter],
      false, false, false)
  }

  /**
   * Whatever the scratch directory and ffmpeg location, the downloader writes
   * into the scratch directory, converts to MP3 and always applies the same
   * loudness filter; no caller preference reaches it.
   */
  lemma OptionsFixed(tmpdir: string, ffmpegPath: string, otherDir: string, otherPath: string)
    requires tmpdir != []
    ensures Paths.Within(Options(tmpdir, ffmpegPath).outtmpl, tmpdir)
    ensures Options(tmpdir, ffmpegPath).ffmpegArgs == Options(otherDir, otherPath).ffmpegArgs == ["-af", LoudnormFilter]
    ensures Options(tmpdir, ffmpegPath).postprocessors == [Postprocessor("FFmpegExtractAudio", "mp3", "0")]
    ensures !Options(tmpdir, ffmpegPath).addMetadata && !Options(tmpdir, ffmpegPath).embedThumbnail
  {
    Paths.JoinWithin(tmpdir, OutputTemplate);
  }

  /**
   * What the external downloader did: the messages it wrote through the logger
   * it was handed (`'logger': logger`), the files it left, in the order the
   * listing reports them, and its error if it raised.
   */
  datatype Fetch = Fetch(logged: seq<Logging.Message>, written: seq<Files.NamedFile>, failure: Option<string>)

  /** The scratch tree once the downloader ran: `tmpdir` created, then filled. */
  function Downloaded(t: Files.Tree, tmpdir: string, fetch: Fetch): Files.Tree {
    Files.Written(t[tmpdir := Files.Directory], tmpdir, fetch.written)
  }

  /** The downloader's calls on the logger, each to the method of its level, in order. */
  method Relay(logger: Logging.DownloaderLogger, messages: seq<Logging.Message>)
    requires logger.Valid()
    modifies logger
    ensures logger.Valid()
    ensures logger.lines == old(logger.lines) + Logging.Lines(messages)
    ensures logger.delivered == old(logger.delivered) + Logging.Snapshots(old(logger.lines), Logging.Lines(messages))
  {
    for i := 0 to |messages|
      invariant logger.Valid()
      invariant logger.lines == old(logger.lines) + Logging.Lines(messages[..i])
      invariant logger.delivered
        == old(logger.delivered) + Logging.Snapshots(old(logger.lines), Logging.Lines(messages[..i]))
    {
      var m := messages[i];
      assert messages[..i + 1] == messages[..i] + [m];
      Logging.LinesStep(messages[..i], m);
      logger.Log(m);
      Logging.DeliveredStep(old(logger.lines), old(logger.delivered), Logging.Lines(messages[..i]), Logging.LineOf(m), logger.delivered);
    }
    assert messages[..|messages|] == messages;
  }

  function Names(files: seq<Files.NamedFile>): (names: seq<string>)
    ensures |names| == |files|
    ensures forall k :: 0 <= k < |files| ==> names[k] == files[k].name
  {
    seq(|files|, k requires 0 <= k < |files| => files[k].name)
  }

  predicate IsMp3(name: string) {
    Text.EndsWith(name, ".mp3")
  }

  /** Index of the first listing entry ending in ".mp3", compared case-sensitively. */
  function FirstMp3(names: seq<string>): (i: Option<nat>)
    ensures i.Some? ==> i.value < |names| && IsMp3(names[i.value])
    ensures i.Some? ==> forall j :: 0 <= j < i.value ==> !IsMp3(names[j])
    ensures i.None? ==> forall j :: 0 <= j < |names| ==> !IsMp3(names[j])
  {
    if names == [] then None
    else if IsMp3(names[0]) then Some(0)
    else match FirstMp3(names[1..])
      case None => None
      case Some(j) => Some(j + 1)
  }

  /** An upper-case extension is not recognised. */
  lemma UpperCaseExtensionMissed()
    ensures FirstMp3(["song.MP3"]) == None
    ensures FirstMp3(["song.MP3", "song.mp3"]) == Some(1)
  {
    assert !IsMp3("song.MP3") by {
      assert "song.MP3"[4..] != ".mp3" by { assert "song.MP3"[4..][1] == 'M'; }
    }
    assert IsMp3("song.mp3") by { assert "song.mp3"[4..] == ".mp3"; }
    assert ["song.MP3", "song.mp3"][1..] == ["song.mp3"];
  }

  const NotFound: string := "Downloaded file not found"

  /** What `download` returns or raises, given what the downloader did. */
  function Outcome(tmpdir: string, fetch: Fetch): Result<string> {
    if fetch.failure.Some? then Err(fetch.failure.value)
    else match FirstMp3(Names(fetch.written))
      case None => Err(NotFound)
      case Some(i) => Ok(Paths.Join(tmpdir, fetch.written[i].name))
  }

  /** What the scan logs: one error line when the downloader succeeded but left no MP3. */
  function ScanLog(fetch: Fetch): seq<string> {
    if fetch.failure.None? && FirstMp3(Names(fetch.written)).None? then [Logging.ErrorLine(NotFound)] else []
  }

  /** The lines `download` adds to the log: the downloader's own, then the scan's. */
  function DownloadLines(fetch: Fetch): seq<string> {
    Logging.Lines(fetch.logged) + ScanLog(fetch)
  }

  /** A plain file name, as a directory listing reports it. */
  predicate PlainName(name: string) {
    name != [] && forall i :: 0 <= i < |name| ==> name[i] != '/'
  }

  /**
   * A scratch directory as `tempfile` makes it: an absolute path without a
   * trailing '/', not yet present, with nothing below it.
   */
  predicate FreshScratch(t: Files.Tree, tmpdir: string) {
    && |tmpdir| > 1 && tmpdir[0] == '/' && tmpdir[|tmpdir| - 1] != '/'
    && forall p :: p in t ==> !Paths.Within(p, tmpdir)
  }

  /** A listing names each file once. */
  predicate ListingOk(files: seq<Files.NamedFile>) {
    && (forall k :: 0 <= k < |files| ==> PlainName(files[k].name))
    && (forall j, k :: 0 <= j < k < |files| ==> files[j].name != files[k].name)
  }

  /** The scan at the end of `download`: the first listing entry that ends in ".mp3". */
  method FindMp3(listing: seq<string>) returns (found: Option<nat>)
    ensures found == FirstMp3(listing)
  {
    var i := 0;
    while i < |listing|
      invariant 0 <= i <= |listing|
      invariant forall j :: 0 <= j < i ==> !IsMp3(listing[j])
    {
      if Text.EndsWith(listing[i], ".mp3") {
        return Some(i);
      }
      i := i + 1;
    }
    return None;
  }

  /**
   * `download(url, logger)`: makes the scratch directory, lets the downloader
   * fill it and write to the log, then scans the listing in order and returns
   * the path of the first MP3. When there is none it logs an error and raises
   * "Downloaded file not found". An error of the downloader itself propagates
   * unchanged, after whatever the downloader logged.
   */
  method Download(fs: Files.FileSystem, logger: Logging.DownloaderLogger, tmpdir: string, fetch: Fetch)
    returns (r: Result<string>)
    requires logger.Valid() && FreshScratch(fs.entries, tmpdir)
    modifies fs, logger
    ensures r == Outcome(tmpdir, fetch)
    ensures fs.entries == Downloaded(old(fs.entries), tmpdir, fetch)
    ensures logger.Valid()
    ensures logger.lines == old(logger.lines) + DownloadLines(fetch)
    ensures logger.delivered == old(logger.delivered) + Logging.Snapshots(old(logger.lines), DownloadLines(fetch))
  {
    fs.Populate(tmpdir, fetch.written);
    Relay(logger, fetch.logged);
    if fetch.failure.Some? {
      assert DownloadLines(fetch) == Logging.Lines(fetch.logged);
      return Err(fetch.failure.value);
    }
    var found := FindMp3(Names(fetch.written));
    if found.Some? {
      assert DownloadLines(fetch) == Logging.Lines(fetch.logged);
      return Ok(Paths.Join(tmpdir, fetch.written[found.value].name));
    }
    assert DownloadLines(fetch) == Logging.Lines(fetch.logged) + [Logging.ErrorLine(NotFound)];
    logger.Error(NotFound);
    Logging.DeliveredStep(old(logger.lines), old(logger.delivered), Logging.Lines(fetch.logged), Logging.ErrorLine(NotFound), logger.delivered);
    r := Err(NotFound);
  }

  /**
   * On success `download` names a regular file directly inside the scratch
   * directory whose name ends in ".mp3".
   */
  lemma DownloadedFileExists(t: Files.Tree, tmpdir: string, fetch: Fetch)
    requires FreshScratch(t, tmpdir) && ListingOk(fetch.written)
    requires Outcome(tmpdir, fetch).Ok?
    ensures var p := Outcome(tmpdir, fetch).value;
      && Files.IsFile(Downloaded(t, tmpdir, fetch), p)
      && Paths.DirName(p) == tmpdir
      && IsMp3(Paths.BaseName(p))
  {
    var i := FirstMp3(Names(fetch.written)).value;
    Files.WrittenIsFile(t[tmpdir := Files.Directory], tmpdir, fetch.written, i);
    Paths.JoinSplits(tmpdir, fetch.written[i].name);
  }

  /**
   * `move_file(src, dest)`: `shutil.move`, then `shutil.rmtree` of the source's
   * directory with errors ignored; returns `dest`. A failing move raises before
   * anything is removed.
   */
  method MoveFile(fs: Files.FileSystem, src: string, dest: string) returns (r: Result<string>)
    modifies fs
    ensures Files.MoveError(old(fs.entries), src, dest).Some? ==>
      r == Err(Files.MoveError(old(fs.entries), src, dest).value) && fs.entries == old(fs.entries)
    ensures Files.MoveError(old(fs.entries), src, dest).None? ==>
      r == Ok(dest) && fs.entries == Files.RemovedTree(Files.Moved(old(fs.entries), src, dest), Paths.DirName(src))
  {
    var err := fs.Move(src, dest);
    if err.Some? {
      return Err(err.value);
    }
    fs.RemoveTree(Paths.DirName(src));
    r := Ok(dest);
  }

  /** The tree after `move_file(src, dest)` succeeds. */
  function Saved(t: Files.Tree, src: string, dest: string): Files.Tree
    requires Files.MoveError(t, src, dest).None?
  {
    Files.RemovedTree(Files.Moved(t, src, dest), Paths.DirName(src))
  }

  /**
   * Saving a downloaded file outside its scratch directory puts its content at
   * the target and leaves nothing of the scratch directory behind.
   */
  lemma SaveOutsideScratch(t: Files.Tree, src: string, dest: string)
    requires Files.MoveError(t, src, dest).None?
    requires Paths.DirName(src) != [] && Files.IsDir(t, Paths.DirName(src))
    requires !Paths.Within(Files.MoveTarget(t, src, dest), Paths.DirName(src))
    ensures var after := Saved(t, src, dest);
      && Files.IsFile(after, Files.MoveTarget(t, src, dest))
      && after[Files.MoveTarget(t, src, dest)] == t[src]
      && forall p :: p in after ==> !Paths.Within(p, Paths.DirName(src))
  {
    var moved := Files.Moved(t, src, dest);
    assert Files.IsDir(moved, Paths.DirName(src));
  }

  /**
   * Saving into the scratch directory itself loses the file: `move_file`
   * still returns `dest`, but the clean-up removes it.
   */
  lemma SaveInsideScratchLosesFile(t: Files.Tree, src: string, dest: string)
    requires Files.MoveError(t, src, dest).None?
    requires Paths.DirName(src) != [] && Files.IsDir(t, Paths.DirName(src))
    requires Paths.Within(Files.MoveTarget(t, src, dest), Paths.DirName(src))
    ensures Files.MoveTarget(t, src, dest) !in Saved(t, src, dest)
  {
    var moved := Files.Moved(t, src, dest);
    assert Files.IsDir(moved, Paths.DirName(src));
  }
}
