/**
 * The older single-window front end: a URL field, a Submit button and a
 * spinner on one row above a scrolling log. What is modelled is the frame
 * arithmetic that keeps that row from overlapping, the URL check, the busy
 * toggle, and the worker thread.
 */
module MainWindow {
  import opened Common
  import Text
  import Logging
  import Files
  import Downloader

  const TopPad: real := 20.0
  const SidePad: real := 20.0
  const BottomPad: real := 20.0
  const RowH: real := 24.0
  const Gap: real := 12.0
  const BtnW: real := 100.0
  /** Between the input and the button. */
  const Spacing: real := 10.0
  /** Between the button and the spinner. */
  const SpinnerSpacing: real := 8.0
  const InputMinW: real := 80.0
  const SpinnerSize: real := 16.0

  /** `min_w`: the narrowest content the window may be resized to. */
  const MinContentWidth: real := SidePad + InputMinW + Spacing + BtnW + SpinnerSpacing + SpinnerSize + SidePad
  const MinContentHeight: real := 260.0

  datatype Rect = Rect(x: real, y: real, w: real, h: real) {
    function Right(): real { x + w }
  }

  /** The four frames `_layout` sets. */
  datatype Frames = Frames(button: Rect, spinner: Rect, input: Rect, scroll: Rect)

  function Max(a: real, b: real): real {
    if a >= b then a else b
  }

  /**
   * `_layout()` for content size `cw` x `ch`: the button is pushed left of the
   * spinner but never so far that the input drops below its minimum width; the
   * input fills the space left of the button; the spinner sits right of the
   * button, centred in the row; the log takes what is left below the row.
   */
  function Layout(cw: real, ch: real): (f: Frames)
    ensures f.button.x >= SidePad + InputMinW + Spacing
    ensures f.input.x == SidePad && f.input.w >= InputMinW
    ensures f.input.Right() == f.button.x - Spacing
    ensures f.spinner.x == f.button.Right() + SpinnerSpacing
    ensures f.spinner.y + f.spinner.h / 2.0 == f.button.y + f.button.h / 2.0
    ensures f.button.y == f.input.y == ch - TopPad - RowH
    ensures cw >= MinContentWidth ==> f.spinner.Right() == cw - SidePad
    ensures cw < MinContentWidth ==> f.button.x == SidePad + InputMinW + Spacing
    ensures f.scroll.h >= 0.0 && f.scroll.x == SidePad && f.scroll.y == BottomPad
    ensures ch >= MinContentHeight ==> f.scroll.y + f.scroll.h == f.input.y - Gap
  {
    var rowY := ch - TopPad - RowH;
    var btnX := Max(cw - SidePad - BtnW - SpinnerSpacing - SpinnerSize, SidePad + InputMinW + Spacing);
    var spinX := btnX + BtnW + SpinnerSpacing;
    var spinY := rowY + (RowH - SpinnerSize) / 2.0;
    var inputW := Max(InputMinW, btnX - Spacing - SidePad);
    var scrollTop := rowY - Gap;
    var scrollH := Max(0.0, scrollTop - BottomPad);
    Frames(
      Rect(btnX, rowY, BtnW, RowH),
      Rect(spinX, spinY, SpinnerSize, SpinnerSize),
      Rect(SidePad, rowY, inputW, RowH),
      Rect(SidePad, BottomPad, cw - 2.0 * SidePad, scrollH))
  }

  /** The top row reads input, button, spinner from left to right, with gaps and no overlap. */
  lemma TopRowInOrder(cw: real, ch: real)
    ensures var f := Layout(cw, ch);
      && f.input.x < f.input.Right() < f.button.x < f.button.Right() < f.spinner.x < f.spinner.Right()
  {
  }

  /**
   * Above the minimum width only the input resizes: widening the window by
   * `d` widens the input by `d` and moves the button and the spinner by `d`.
   */
  lemma OnlyInputResizes(cw: real, ch: real, d: real)
    requires cw >= MinContentWidth && d >= 0.0
    ensures var f := Layout(cw, ch); var g := Layout(cw + d, ch);
      && g.input.w == f.input.w + d && g.input.x == f.input.x
      && g.button.x == f.button.x + d && g.button.w == f.button.w
      && g.spinner.x == f.spinner.x + d && g.spinner.w == f.spinner.w
  {
  }

  /** Below the minimum width the row is clamped and the spinner runs past the right margin. */
  lemma NarrowWindowOverflows(cw: real, ch: real)
    requires cw < MinContentWidth
    ensures Layout(cw, ch).spinner.Right() > cw - SidePad
  {
  }

  /** The modal alert `submitClicked_` shows for a URL it rejects. */
  datatype Alert = Alert(message: string, informative: string)

  const InvalidUrl: Alert := Alert("Invalid URL", "Please enter a valid URL.")

  /**
   * `str(e)` of the `TypeError` raised by `download(url, "audio", logger)`:
   * `download` takes two parameters, the worker passes three.
   */
  const ArityError: string := "download() takes 2 positional arguments but 3 were given"

  /** What the worker logs when the download call raises `e`. */
  function FailureLine(e: string): string {
    Logging.ErrorLine("Download failed: " + e)
  }

  /** What the worker logs when the download call returns `out`. */
  function SuccessLine(out: string): string {
    Logging.InfoLine("Download finished successfully: " + out)
  }

  /** What the worker logs once the intended download call has returned `got`. */
  function OutcomeLine(got: Result<string>): string {
    if got.Ok? then SuccessLine(got.value) else FailureLine(got.message)
  }

  /** `AppDelegate`: the field, the button, the spinner and the shared log. */
  class AppDelegate {
    var input: string
    var inputEnabled: bool
    var buttonEnabled: bool
    var spinnerAnimating: bool
    /** Alerts shown so far, oldest first. */
    var alerts: seq<Alert>
    const logger: Logging.DownloaderLogger

    /** Controls as `applicationDidFinishLaunching_` leaves them: enabled, spinner stopped. */
    constructor (logger: Logging.DownloaderLogger)
      ensures input == "" && inputEnabled && buttonEnabled && !spinnerAnimating && alerts == []
      ensures this.logger == logger
    {
      input := "";
      inputEnabled := true;
      buttonEnabled := true;
      spinnerAnimating := false;
      alerts := [];
      this.logger := logger;
    }

    /** `setBusy_(busy)`: the spinner runs exactly while busy; button and field are enabled exactly while not. */
    method SetBusy(busy: bool)
      modifies this
      ensures spinnerAnimating == busy && buttonEnabled == !busy && inputEnabled == !busy
      ensures input == old(input) && alerts == old(alerts)
    {
      spinnerAnimating := busy;
      buttonEnabled := !busy;
      inputEnabled := !busy;
    }

    /**
     * `submitClicked_`: ignores an empty field, alerts at a URL that does not
     * start with "https://" in any letter case, and otherwise clears the field,
     * logs one line and goes busy, handing the URL to the worker.
     */
    method SubmitClicked() returns (started: Option<string>)
      requires logger.Valid()
      modifies this, logger
      ensures logger.Valid()
      ensures started.Some? <==> Text.IsHttpsUrl(Text.Strip(old(input)))
      ensures Text.Strip(old(input)) == [] ==> alerts == old(alerts)
      ensures Text.Strip(old(input)) != [] && started.None? ==> alerts == old(alerts) + [InvalidUrl]
      ensures started.None? ==>
        && input == old(input) && logger.lines == old(logger.lines) && logger.delivered == old(logger.delivered)
        && spinnerAnimating == old(spinnerAnimating) && buttonEnabled == old(buttonEnabled)
        && inputEnabled == old(inputEnabled)
      ensures started.Some? ==>
        && started.value == Text.Strip(old(input)) && input == "" && alerts == old(alerts)
        && logger.lines == old(logger.lines) + [Logging.InfoLine("Starting download for URL: " + started.value)]
        && logger.delivered == old(logger.delivered)
          + Logging.Snapshots(old(logger.lines), [Logging.InfoLine("Starting download for URL: " + started.value)])
        && spinnerAnimating && !buttonEnabled && !inputEnabled
    {
      var text := Text.Strip(input);
      if text == [] {
        return None;
      }
      if !Text.IsHttpsUrl(text) {
        alerts := alerts + [InvalidUrl];
        return None;
      }
      input := "";
      logger.Info("Starting download for URL: " + text);
      SetBusy(true);
      started := Some(text);
    }

    /**
     * `_download_thread(url)` as written: the call to `download` passes one
     * argument too many, so it raises every time; the failure is logged and
     * the `finally` clause releases the controls.
     */
    method DownloadThread(url: string)
      requires logger.Valid()
      modifies this, logger
      ensures logger.Valid()
      ensures logger.lines == old(logger.lines) + [FailureLine(ArityError)]
      ensures logger.delivered == old(logger.delivered) + Logging.Snapshots(old(logger.lines), [FailureLine(ArityError)])
      ensures !spinnerAnimating && buttonEnabled && inputEnabled
      ensures input == old(input) && alerts == old(alerts)
    {
      logger.Error("Download failed: " + ArityError);
      SetBusy(false);
    }

    /**
     * `_download_thread(url)` with the call as evidently intended,
     * `download(url, logger)`, where `fetch` is what the downloader did: the
     * outcome reaches the log and the controls are released on every path.
     */
    method DownloadThreadIntended(fs: Files.FileSystem, tmpdir: string, fetch: Downloader.Fetch)
      requires logger.Valid() && Downloader.FreshScratch(fs.entries, tmpdir)
      modifies this, logger, fs
      ensures logger.Valid()
      ensures logger.lines == old(logger.lines) + Downloader.DownloadLines(fetch)
        + [OutcomeLine(Downloader.Outcome(tmpdir, fetch))]
      ensures logger.delivered == old(logger.delivered) + Logging.Snapshots(old(logger.lines),
        Downloader.DownloadLines(fetch) + [OutcomeLine(Downloader.Outcome(tmpdir, fetch))])
      ensures fs.entries == Downloader.Downloaded(old(fs.entries), tmpdir, fetch)
      ensures !spinnerAnimating && buttonEnabled && inputEnabled
      ensures input == old(input) && alerts == old(alerts)
    {
      ghost var before, earlier := logger.lines, logger.delivered;
      var got := Downloader.Download(fs, logger, tmpdir, fetch);
      if got.Ok? {
        logger.Info("Download finished successfully: " + got.value);
      } else {
        logger.Error("Download failed: " + got.message);
      }
      Logging.DeliveredAppend(before, earlier, Downloader.DownloadLines(fetch), [OutcomeLine(got)], logger.delivered);
      SetBusy(false);
    }

    /**
     * One submission and the worker it starts: whatever the field held, the
     * controls end up enabled and the spinner stopped. A rejected field keeps
     * its text and the log; a started download clears the field, and the log
     * and its handler gain the start line and the failure line.
     */
    method Session() returns (started: Option<string>)
      requires logger.Valid() && buttonEnabled && inputEnabled && !spinnerAnimating
      modifies this, logger
      ensures logger.Valid() && buttonEnabled && inputEnabled && !spinnerAnimating
      ensures started.Some? <==> Text.IsHttpsUrl(Text.Strip(old(input)))
      ensures Text.Strip(old(input)) == [] ==> alerts == old(alerts)
      ensures Text.Strip(old(input)) != [] && started.None? ==> alerts == old(alerts) + [InvalidUrl]
      ensures started.None? ==>
        input == old(input) && logger.lines == old(logger.lines) && logger.delivered == old(logger.delivered)
      ensures started.Some? ==>
        && started.value == Text.Strip(old(input)) && input == "" && alerts == old(alerts)
        && logger.lines == old(logger.lines) + SessionLog(started.value)
        && logger.delivered == old(logger.delivered) + Logging.Snapshots(old(logger.lines), SessionLog(started.value))
    {
      ghost var before, earlier := logger.lines, logger.delivered;
      started := SubmitClicked();
      if started.Some? {
        DownloadThread(started.value);
        ghost var start := [Logging.InfoLine("Starting download for URL: " + started.value)];
        Logging.DeliveredAppend(before, earlier, start, [FailureLine(ArityError)], logger.delivered);
        assert start + [FailureLine(ArityError)] == SessionLog(started.value);
      }
    }
  }

  /** The lines one started session logs: the start line, then the worker's failure. */
  function SessionLog(url: string): seq<string> {
    [Logging.InfoLine("Starting download for URL: " + url), FailureLine(ArityError)]
  }

  /**
   * The worker as written logs a failure even for a download that would have
   * succeeded, where the intended call logs the success.
   */
  lemma AsWrittenHidesSuccess(tmpdir: string, fetch: Downloader.Fetch)
    requires Downloader.Outcome(tmpdir, fetch).Ok?
    ensures FailureLine(ArityError) != SuccessLine(Downloader.Outcome(tmpdir, fetch).value)
  {
    Logging.InfoIsNotError(
      "Download finished successfully: " + Downloader.Outcome(tmpdir, fetch).value,
      "Download failed: " + ArityError);
  }
}
