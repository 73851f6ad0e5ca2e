/** The repository console panel: the text put on the clipboard by "Copy
    Logs", the colour of each entry, the entry count and the `copied` flag.
    The clipboard is a field; whether its write resolves is an input. */
module ConsoleOutput {
  import opened Common

  /** A console entry; its optional `data` payload is only rendered, never
      copied, and is left out. */
  datatype ConsoleLog = ConsoleLog(timestamp: string, logType: string, message: string)

  /** One copied line: "[timestamp] TYPE: message". */
  function FormatLine(log: ConsoleLog): string {
    "[" + log.timestamp + "] " + Upper(log.logType) + ": " + log.message
  }

  /** `logs.map(FormatLine)`. */
  function FormatAll(logs: seq<ConsoleLog>): (lines: seq<string>)
    ensures |lines| == |logs|
    ensures forall i :: 0 <= i < |logs| ==> lines[i] == FormatLine(logs[i])
  {
    if logs == [] then [] else [FormatLine(logs[0])] + FormatAll(logs[1..])
  }

  /** The clipboard text of `copyLogs`. */
  function CopyText(logs: seq<ConsoleLog>): string {
    Join(FormatAll(logs), "\n")
  }

  predicate SingleLine(s: string) {
    '\n' !in s
  }

  /** An entry none of whose parts holds a line break. */
  predicate SingleLineEntry(log: ConsoleLog) {
    SingleLine(log.timestamp) && SingleLine(log.logType) && SingleLine(log.message)
  }

  /** Upper-casing never creates or removes a line break. */
  lemma UpperKeepsSingleLine(s: string)
    requires SingleLine(s)
    ensures SingleLine(Upper(s))
  {
    forall i | 0 <= i < |s|
      ensures Upper(s)[i] != '\n'
    {
      assert s[i] != '\n';
    }
  }

  lemma FormatLineIsSingleLine(log: ConsoleLog)
    requires SingleLineEntry(log)
    ensures SingleLine(FormatLine(log))
  {
    UpperKeepsSingleLine(log.logType);
  }

  /** The copied text has exactly one line per entry, in order, each the
      entry's formatted line: splitting it at line breaks gives the
      formatted entries back (no trailing newline, nothing added). An empty
      log gives the empty text. */
  lemma CopyTextLines(logs: seq<ConsoleLog>)
    requires forall i :: 0 <= i < |logs| ==> SingleLineEntry(logs[i])
    ensures logs == [] ==> CopyText(logs) == ""
    ensures logs != [] ==> Split(CopyText(logs), '\n') == FormatAll(logs)
    ensures logs != [] ==> |Split(CopyText(logs), '\n')| == |logs|
  {
    if logs != [] {
      var lines := FormatAll(logs);
      forall k | 0 <= k < |lines|
        ensures '\n' !in lines[k]
      {
        FormatLineIsSingleLine(logs[k]);
      }
      SplitJoin(lines, '\n');
    }
  }

  /** The entry's type shown in capitals, whatever case it was logged in. */
  lemma FormatLineShowsUpperType(log: ConsoleLog)
    ensures FormatLine(log)[|log.timestamp| + 3..|log.timestamp| + 3 + |log.logType|] == Upper(log.logType)
    ensures FormatLine(log)[..|log.timestamp| + 3] == "[" + log.timestamp + "] "
  {
    var prefix := "[" + log.timestamp + "] ";
    assert FormatLine(log) == prefix + Upper(log.logType) + (": " + log.message);
  }

  /** The count shown next to the title: `logs.length`. */
  function EntryCount(logs: seq<ConsoleLog>): (n: nat)
    ensures n == |logs|
    ensures n == |FormatAll(logs)|
  {
    |logs|
  }

  datatype Colour = Red | Green | Blue

  /** The entry colour: red for "error", green for "success", blue for any
      other type, compared case-sensitively. */
  function EntryColour(logType: string): (c: Colour)
    ensures c == Red <==> logType == "error"
    ensures c == Green <==> logType == "success"
    ensures c == Blue <==> logType != "error" && logType != "success"
  {
    if logType == "error" then Red else if logType == "success" then Green else Blue
  }

  datatype Toast = Toast(title: string, description: string)

  class ConsoleOutputView {
    var copied: bool
    var clipboard: Option<string>
    var toasts: seq<Toast>

    constructor()
      ensures !copied && clipboard.None? && toasts == []
    {
      copied := false;
      clipboard := None;
      toasts := [];
    }

    /** `copyLogs`: the text is written to the clipboard; only when that
        write resolves does `copied` become true and the "Copied!" toast
        appear. A rejected write leaves the view as it was. */
    method CopyLogs(logs: seq<ConsoleLog>, writeResolves: bool)
      modifies this
      ensures writeResolves ==>
                clipboard == Some(CopyText(logs)) && copied
                && toasts == old(toasts) + [Toast("Copied!", "Console logs have been copied to clipboard")]
      ensures !writeResolves ==> clipboard == old(clipboard) && copied == old(copied) && toasts == old(toasts)
    {
      var logText := CopyText(logs);
      if writeResolves {
        clipboard := Some(logText);
        copied := true;
        toasts := toasts + [Toast("Copied!", "Console logs have been copied to clipboard")];
      }
    }

    /** The timeout after a copy: `copied` goes back to false. */
    method ResetCopied()
      modifies this
      ensures !copied
      ensures clipboard == old(clipboard) && toasts == old(toasts)
    {
      copied := false;
    }
  }
}
