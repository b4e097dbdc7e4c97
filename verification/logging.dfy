/**
 * The log buffer both front ends give the downloader: every message becomes a
 * line of `content`, and after each line the whole buffer goes to the handler
 * that refreshes the on-screen log.
 */
module Logging {

  /** The buffer text for a list of lines: each line followed by a newline. */
  function Render(lines: seq<string>): string {
    if lines == [] then "" else Render(lines[..|lines| - 1]) + lines[|lines| - 1] + "\n"
  }

  function Count(s: string, c: char): nat {
    if s == [] then 0 else Count(s[..|s| - 1], c) + (if s[|s| - 1] == c then 1 else 0)
  }

  lemma {:induction false} CountAppend(a: string, b: string, c: char)
    ensures Count(a + b, c) == Count(a, c) + Count(b, c)
    decreases |b|
  {
    if b == [] {
      assert a + b == a;
    } else {
      assert (a + b)[..|a + b| - 1] == a + b[..|b| - 1];
      CountAppend(a, b[..|b| - 1], c);
    }
  }

  /** A buffer of lines without embedded newlines holds exactly one newline per line. */
  lemma {:induction false} RenderLineCount(lines: seq<string>)
    requires forall k :: 0 <= k < |lines| ==> Count(lines[k], '\n') == 0
    ensures Count(Render(lines), '\n') == |lines|
    decreases |lines|
  {
    if lines != [] {
      var front := lines[..|lines| - 1];
      var last := lines[|lines| - 1];
      RenderLineCount(front);
      CountAppend(Render(front), last, '\n');
      CountAppend(Render(front) + last, "\n", '\n');
      assert Count("\n", '\n') == 1 by { assert "\n"[..0] == ""; }
    }
  }

  /** A line as `info`, `warning` and `error` write it: the level tag, then the message. */
  function InfoLine(msg: string): string { "[INFO] " + msg }

  function WarningLine(msg: string): string { "[WARNING] " + msg }

  function ErrorLine(msg: string): string { "[ERROR] " + msg }

  /** An info line is never an error line, whatever the two messages. */
  lemma InfoIsNotError(a: string, b: string)
    ensures InfoLine(a) != ErrorLine(b)
  {
    assert InfoLine(a)[1] == 'I';
    assert ErrorLine(b)[1] == 'E';
  }

  /** The four methods code holding the logger may call. */
  datatype Level = DebugLevel | InfoLevel | WarningLevel | ErrorLevel

  /** One call `logger.<level>(text)`. */
  datatype Message = Message(level: Level, text: string)

  /** The line such a call appends. */
  function LineOf(m: Message): string {
    match m.level
    case DebugLevel => m.text
    case InfoLevel => InfoLine(m.text)
    case WarningLevel => WarningLine(m.text)
    case ErrorLevel => ErrorLine(m.text)
  }

  /** The lines a series of calls appends: one per call, in call order. */
  function Lines(ms: seq<Message>): (r: seq<string>)
    ensures |r| == |ms|
  {
    if ms == [] then [] else Lines(ms[..|ms| - 1]) + [LineOf(ms[|ms| - 1])]
  }

  /** The `i`-th line is the line of the `i`-th call. */
  lemma {:induction false} LinesAt(ms: seq<Message>, i: nat)
    requires i < |ms|
    ensures Lines(ms)[i] == LineOf(ms[i])
    decreases |ms|
  {
    if i < |ms| - 1 {
      LinesAt(ms[..|ms| - 1], i);
    }
  }

  /** One more call adds its own line at the end. */
  lemma LinesStep(ms: seq<Message>, m: Message)
    ensures Lines(ms + [m]) == Lines(ms) + [LineOf(m)]
  {
    assert (ms + [m])[..|ms|] == ms;
  }

  /**
   * What the handler receives while `added` is appended to a buffer of lines
   * `before`: after each line, the whole buffer so far.
   */
  function Snapshots(before: seq<string>, added: seq<string>): (r: seq<string>)
    ensures |r| == |added|
  {
    if added == [] then [] else Snapshots(before, added[..|added| - 1]) + [Render(before + added)]
  }

  /** One more line hands over one more buffer: the whole buffer with that line. */
  lemma SnapshotsStep(before: seq<string>, added: seq<string>, line: string)
    ensures Snapshots(before, added + [line]) == Snapshots(before, added) + [Render(before + added + [line])]
  {
    assert (added + [line])[..|added|] == added;
    assert before + (added + [line]) == before + added + [line];
  }

  /** A handler log that held the buffers of `added` and then got one more buffer holds those of `added + [line]`. */
  lemma DeliveredStep(before: seq<string>, earlier: seq<string>, added: seq<string>, line: string, delivered: seq<string>)
    requires delivered == earlier + Snapshots(before, added) + [Render(before + added + [line])]
    ensures delivered == earlier + Snapshots(before, added + [line])
  {
    SnapshotsStep(before, added, line);
  }

  /** A single line hands over a single buffer: the one that ends with it. */
  lemma SnapshotsOne(before: seq<string>, line: string)
    ensures Snapshots(before, [line]) == [Render(before + [line])]
  {
    assert [line][..0] == [];
  }

  /** Appending `more` after `added` hands over the buffers of `added`, then those of `more` on top of them. */
  lemma {:induction false} SnapshotsAppend(before: seq<string>, added: seq<string>, more: seq<string>)
    ensures Snapshots(before, added + more) == Snapshots(before, added) + Snapshots(before + added, more)
    decreases |more|
  {
    if more == [] {
      assert added + more == added;
    } else {
      var front := more[..|more| - 1];
      var last := more[|more| - 1];
      calc {
        Snapshots(before, added + more);
        { assert added + more == (added + front) + [last]; }
        Snapshots(before, (added + front) + [last]);
        { SnapshotsStep(before, added + front, last); }
        Snapshots(before, added + front) + [Render(before + (added + front) + [last])];
        { SnapshotsAppend(before, added, front); }
        Snapshots(before, added) + Snapshots(before + added, front) + [Render(before + (added + front) + [last])];
        { assert before + (added + front) + [last] == (before + added) + front + [last]; }
        Snapshots(before, added) + Snapshots(before + added, front) + [Render((before + added) + front + [last])];
        { SnapshotsStep(before + added, front, last); assert front + [last] == more; }
        Snapshots(before, added) + Snapshots(before + added, more);
      }
    }
  }

  /**
   * A handler log that held the buffers of `added` and then those of `more`
   * holds the buffers of `added + more`.
   */
  lemma DeliveredAppend(before: seq<string>, earlier: seq<string>, added: seq<string>, more: seq<string>,
                        delivered: seq<string>)
    requires delivered == earlier + Snapshots(before, added) + Snapshots(before + added, more)
    ensures delivered == earlier + Snapshots(before, added + more)
  {
    SnapshotsAppend(before, added, more);
  }

  /** The `i`-th buffer handed over is the buffer after the first `i + 1` added lines. */
  lemma {:induction false} SnapshotsAreBuffers(before: seq<string>, added: seq<string>, i: nat)
    requires i < |added|
    ensures Snapshots(before, added)[i] == Render(before + added[..i + 1])
    decreases |added|
  {
    var front := added[..|added| - 1];
    if i < |front| {
      SnapshotsAreBuffers(before, front, i);
      assert front[..i + 1] == added[..i + 1];
    } else {
      assert added[..i + 1] == added;
    }
  }

  /** `DownloaderLogger` (the same class in app.py and main.py; only app.py's has `reset`). */
  class DownloaderLogger {
    var content: string
    /** Every value passed to the handler, oldest first. */
    var delivered: seq<string>
    /** The lines `content` is made of. */
    ghost var lines: seq<string>

    ghost predicate Valid()
      reads this
    {
      content == Render(lines)
    }

    constructor ()
      ensures Valid() && content == "" && lines == [] && delivered == []
    {
      content := "";
      lines := [];
      delivered := [];
    }

    /** Appends `text` and a newline, then hands the whole buffer to the handler. */
    method Output(text: string)
      requires Valid()
      modifies this
      ensures Valid()
      ensures content == old(content) + text + "\n"
      ensures lines == old(lines) + [text]
      ensures delivered == old(delivered) + [content]
      ensures delivered == old(delivered) + Snapshots(old(lines), [text])
    {
      content := content + text + "\n";
      lines := lines + [text];
      assert lines[..|lines| - 1] == old(lines);
      delivered := delivered + [content];
      SnapshotsOne(old(lines), text);
    }

    method Debug(msg: string)
      requires Valid()
      modifies this
      ensures Valid() && lines == old(lines) + [msg]
      ensures content == old(content) + msg + "\n"
      ensures delivered == old(delivered) + [content]
      ensures delivered == old(delivered) + Snapshots(old(lines), [msg])
    {
      Output(msg);
    }

    method Info(msg: string)
      requires Valid()
      modifies this
      ensures Valid() && lines == old(lines) + [InfoLine(msg)]
      ensures content == old(content) + InfoLine(msg) + "\n"
      ensures delivered == old(delivered) + [content]
      ensures delivered == old(delivered) + Snapshots(old(lines), [InfoLine(msg)])
    {
      Output(InfoLine(msg));
    }

    method Warning(msg: string)
      requires Valid()
      modifies this
      ensures Valid() && lines == old(lines) + [WarningLine(msg)]
      ensures content == old(content) + WarningLine(msg) + "\n"
      ensures delivered == old(delivered) + [content]
      ensures delivered == old(delivered) + Snapshots(old(lines), [WarningLine(msg)])
    {
      Output(WarningLine(msg));
    }

    method Error(msg: string)
      requires Valid()
      modifies this
      ensures Valid() && lines == old(lines) + [ErrorLine(msg)]
      ensures content == old(content) + ErrorLine(msg) + "\n"
      ensures delivered == old(delivered) + [content]
      ensures delivered == old(delivered) + Snapshots(old(lines), [ErrorLine(msg)])
    {
      Output(ErrorLine(msg));
    }

    /** `logger.<level>(text)` for the level `m` names. */
    method Log(m: Message)
      requires Valid()
      modifies this
      ensures Valid() && lines == old(lines) + [LineOf(m)]
      ensures delivered == old(delivered) + [content]
      ensures delivered == old(delivered) + Snapshots(old(lines), [LineOf(m)])
    {
      match m.level
      case DebugLevel => Debug(m.text);
      case InfoLevel => Info(m.text);
      case WarningLevel => Warning(m.text);
      case ErrorLevel => Error(m.text);
    }

    /** Empties the buffer; the handler is not called. */
    method Reset()
      modifies this
      ensures Valid() && content == "" && lines == [] && delivered == old(delivered)
    {
      content := "";
      lines := [];
    }
  }
}
