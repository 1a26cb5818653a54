/** The browser-log collector of the development server: each log file is appended to and,
    once it outgrows its limit, cut back to its newest lines. */
module DebugLog {
  import opened Text

  const MAX_LOG_SIZE_BYTES: nat := 1 * 1024 * 1024
  // 60% of the limit, rounded down
  const TRIM_TARGET_BYTES: nat := MAX_LOG_SIZE_BYTES * 6 / 10

  // ------------------------------------------------------------ byte lengths

  /** Bytes of one Unicode scalar value in UTF-8. */
  function Utf8Width(c: char): nat {
    var v := c as int;
    if v < 0x80 then 1 else if v < 0x800 then 2 else if v < 0x10000 then 3 else 4
  }

  function ByteLength(s: string): nat {
    if s == "" then 0 else Utf8Width(s[0]) + ByteLength(s[1..])
  }

  lemma {:induction false} ByteLengthConcat(a: string, b: string)
    ensures ByteLength(a + b) == ByteLength(a) + ByteLength(b)
  {
    if a == "" {
      assert a + b == b;
    } else {
      ByteLengthConcat(a[1..], b);
      assert (a + b)[1..] == a[1..] + b;
    }
  }

  /** Bytes of the lines, each with its newline. */
  function Counted(lines: seq<string>): nat {
    if lines == [] then 0 else ByteLength(lines[0] + "\n") + Counted(lines[1..])
  }

  /** Lines as a file holds them: every one newline-terminated. */
  function Render(lines: seq<string>): string {
    if lines == [] then "" else lines[0] + "\n" + Render(lines[1..])
  }

  lemma {:induction false} RenderConcat(a: seq<string>, b: seq<string>)
    ensures Render(a + b) == Render(a) + Render(b)
  {
    if a == [] {
      assert a + b == b;
    } else {
      RenderConcat(a[1..], b);
      assert (a + b)[1..] == a[1..] + b;
      var head := a[0] + "\n";
      assert head + (Render(a[1..]) + Render(b)) == head + Render(a[1..]) + Render(b);
    }
  }

  lemma {:induction false} RenderSize(lines: seq<string>)
    ensures ByteLength(Render(lines)) == Counted(lines)
  {
    if lines != [] {
      RenderSize(lines[1..]);
      ByteLengthConcat(lines[0] + "\n", Render(lines[1..]));
    }
  }

  lemma {:induction false} RenderIsJoin(lines: seq<string>)
    ensures Render(lines) == Join(lines + [""], '\n')
    ensures lines != [] ==> Render(lines) == Join(lines, '\n') + "\n"
  {
    if lines != [] {
      RenderIsJoin(lines[1..]);
      assert (lines + [""])[1..] == lines[1..] + [""];
      if |lines| > 1 {
        assert lines[0] + "\n" + (Join(lines[1..], '\n') + "\n") == lines[0] + "\n" + Join(lines[1..], '\n') + "\n";
      }
    }
  }

  lemma {:induction false} CountedConcat(a: seq<string>, b: seq<string>)
    ensures Counted(a + b) == Counted(a) + Counted(b)
  {
    if a == [] {
      assert a + b == b;
    } else {
      CountedConcat(a[1..], b);
      assert (a + b)[1..] == a[1..] + b;
    }
  }

  lemma CountedNothing()
    ensures Counted([]) == 0
  {
  }

  lemma CountedFrom(lines: seq<string>, i: nat)
    requires i < |lines|
    ensures Counted(lines[i..]) == ByteLength(lines[i] + "\n") + Counted(lines[i + 1..])
    ensures lines[i..] == [lines[i]] + lines[i + 1..]
  {
  }

  lemma ShorterSuffixCountsLess(lines: seq<string>, j: nat, k: nat)
    requires j <= k <= |lines|
    ensures Counted(lines[k..]) <= Counted(lines[j..])
  {
    CountedConcat(lines[j..k], lines[k..]);
    assert lines[j..k] + lines[k..] == lines[j..];
  }

  // ---------------------------------------------------------------- trimming

  /** The longest suffix whose counted bytes fit. */
  function Keep(lines: seq<string>, target: nat): seq<string> {
    if Counted(lines) <= target then lines else Keep(lines[1..], target)
  }

  /** `Keep` drops a shortest prefix: what it keeps fits, and one line more would not. */
  lemma {:induction false} KeepIsLongest(lines: seq<string>, target: nat) returns (k: nat)
    ensures k <= |lines| && Keep(lines, target) == lines[k..]
    ensures Counted(lines[k..]) <= target
    ensures forall j :: 0 <= j < k ==> Counted(lines[j..]) > target
  {
    if Counted(lines) <= target {
      k := 0;
    } else {
      var k' := KeepIsLongest(lines[1..], target);
      k := k' + 1;
      forall j | 0 <= j < k ensures Counted(lines[j..]) > target {
        if j == 0 {
          assert lines[0..] == lines;
        } else {
          assert lines[j..] == lines[1..][j - 1..];
        }
      }
    }
  }

  lemma {:induction false} KeepFrom(lines: seq<string>, target: nat, k: nat)
    requires k <= |lines| && Counted(lines[k..]) <= target
    requires k > 0 ==> Counted(lines[k - 1..]) > target
    ensures Keep(lines, target) == lines[k..]
  {
    if k == 0 {
      assert lines[0..] == lines;
    } else {
      ShorterSuffixCountsLess(lines, 0, k - 1);
      assert lines[0..] == lines;
      assert lines[1..][k - 1..] == lines[k..];
      if k > 1 {
        assert lines[1..][k - 2..] == lines[k - 1..];
      }
      KeepFrom(lines[1..], target, k - 1);
    }
  }

  /** The file after a trim that runs to its end. */
  function AfterTrim(content: string, maxSize: nat): string {
    if ByteLength(content) <= maxSize then content
    else Join(Keep(Split(content, '\n'), TRIM_TARGET_BYTES), '\n')
  }

  /** The empty piece after the last newline is kept first and costs one byte. */
  lemma {:induction false} KeepPieces(lines: seq<string>, target: nat)
    requires target >= 1
    ensures Keep(lines + [""], target) == Keep(lines, target - 1) + [""]
  {
    CountedConcat(lines, [""]);
    assert "" + "\n" == "\n" && "\n"[1..] == "" && [""][1..] == [];
    if Counted(lines) > target - 1 {
      KeepPieces(lines[1..], target);
      assert (lines + [""])[1..] == lines[1..] + [""];
    }
  }

  /** Lines that do not fit anyway do not change what is kept. */
  lemma {:induction false} KeepOfSuffix(lines: seq<string>, target: nat, k: nat)
    requires k <= |lines| && Counted(lines[k..]) > target
    ensures Keep(lines, target) == Keep(lines[k..], target)
  {
    if k == 0 {
      assert lines[0..] == lines;
    } else {
      ShorterSuffixCountsLess(lines, 0, k);
      assert lines[0..] == lines && lines[1..][k - 1..] == lines[k..];
      KeepOfSuffix(lines[1..], target, k - 1);
    }
  }

  /** On a file of whole lines trimming keeps whole lines. */
  lemma TrimRendered(lines: seq<string>, maxSize: nat)
    requires Free(lines, '\n') && Counted(lines) > maxSize
    ensures AfterTrim(Render(lines), maxSize) == Render(Keep(lines, TRIM_TARGET_BYTES - 1))
  {
    hide ByteLength, Counted, Render, Keep, Split, Join;
    RenderSize(lines);
    RenderIsJoin(lines);
    SplitJoin(lines + [""], '\n');
    KeepPieces(lines, TRIM_TARGET_BYTES);
    RenderIsJoin(Keep(lines, TRIM_TARGET_BYTES - 1));
  }

  lemma {:induction false} JoinSize(parts: seq<string>)
    requires parts != []
    ensures ByteLength(Join(parts, '\n')) + 1 == Counted(parts)
  {
    ByteLengthConcat(parts[0], "\n");
    if |parts| > 1 {
      JoinSize(parts[1..]);
      ByteLengthConcat(parts[0] + "\n", Join(parts[1..], '\n'));
    } else {
      assert Counted(parts[1..]) == 0;
    }
  }

  /** On every file: a trim leaves at most the limit, and trimming again changes nothing. */
  lemma TrimBoundedAndStable(content: string)
    ensures ByteLength(AfterTrim(content, MAX_LOG_SIZE_BYTES)) <= MAX_LOG_SIZE_BYTES
    ensures ByteLength(content) > MAX_LOG_SIZE_BYTES ==>
      ByteLength(AfterTrim(content, MAX_LOG_SIZE_BYTES)) < TRIM_TARGET_BYTES
    ensures AfterTrim(AfterTrim(content, MAX_LOG_SIZE_BYTES), MAX_LOG_SIZE_BYTES)
         == AfterTrim(content, MAX_LOG_SIZE_BYTES)
  {
    if ByteLength(content) > MAX_LOG_SIZE_BYTES {
      var lines := Split(content, '\n');
      var k := KeepIsLongest(lines, TRIM_TARGET_BYTES);
      if k < |lines| {
        JoinSize(lines[k..]);
      }
    }
  }

  /** The limits in bytes: up to 1048576 bytes a trim leaves the file alone, above it fewer than
      629145 remain. */
  lemma TrimLimits(content: string)
    ensures ByteLength(content) <= 1048576 ==> AfterTrim(content, MAX_LOG_SIZE_BYTES) == content
    ensures ByteLength(content) > 1048576 ==> ByteLength(AfterTrim(content, MAX_LOG_SIZE_BYTES)) < 629145
    ensures TRIM_TARGET_BYTES == 629145
  {
    TrimBoundedAndStable(content);
  }

  // ---------------------------------------------------------- entries as lines

  // an ISO 8601 time: visible characters only
  type Timestamp = s: string | forall i :: 0 <= i < |s| ==> s[i] as int > 0x20

  predicate IsNumberChar(c: char) { '0' <= c <= '9' || c in "+-.eE" }

  // the text of a JSON number
  type NumberText = s: string | s != "" && forall i :: 0 <= i < |s| ==> IsNumberChar(s[i]) witness "0"

  /** A value the browser sent. */
  datatype Value =
    | Null
    | Bool(b: bool)
    | Number(text: NumberText)
    | Str(s: string)
    | Arr(items: seq<Value>)
    | Obj(members: seq<Member>)

  datatype Member = Member(key: string, value: Value)

  const HEX := "0123456789abcdef"

  /** One character inside a JSON string literal (RFC 8259, section 7). */
  function EscapeChar(c: char): (r: string)
    ensures '\n' !in r
  {
    if c == '"' then "\\\""
    else if c == '\\' then "\\\\"
    else if c == '\n' then "\\n"
    else if c == '\r' then "\\r"
    else if c == '\t' then "\\t"
    else if c as int == 8 then "\\b"
    else if c as int == 12 then "\\f"
    else if c as int < 0x20 then
      assert forall i :: 0 <= i < |HEX| ==> HEX[i] != '\n';
      "\\u00" + [HEX[c as int / 16], HEX[c as int % 16]]
    else [c]
  }

  function EscapeText(s: string): (r: string)
    ensures '\n' !in r
  {
    if s == "" then "" else EscapeChar(s[0]) + EscapeText(s[1..])
  }

  function Stringify(v: Value): (r: string)
    ensures '\n' !in r
    decreases v, 1
  {
    match v
    case Null => "null"
    case Bool(b) => if b then "true" else "false"
    case Number(text) => text
    case Str(s) => "\"" + EscapeText(s) + "\""
    case Arr(items) => "[" + StringifyItems(items) + "]"
    case Obj(members) => "{" + StringifyMembers(members) + "}"
  }

  function StringifyItems(items: seq<Value>): (r: string)
    ensures '\n' !in r
    decreases items, 0
  {
    if items == [] then ""
    else if |items| == 1 then Stringify(items[0])
    else Stringify(items[0]) + "," + StringifyItems(items[1..])
  }

  function StringifyMembers(members: seq<Member>): (r: string)
    ensures '\n' !in r
    decreases members, 0
  {
    if members == [] then ""
    else
      var first := "\"" + EscapeText(members[0].key) + "\":" + Stringify(members[0].value);
      if |members| == 1 then first else first + "," + StringifyMembers(members[1..])
  }

  /** One log line. Whatever newlines the entry carries, the line has none. */
  function FormatEntry(ts: Timestamp, entry: Value): (line: string)
    ensures '\n' !in line
  {
    "[" + ts + "] " + Stringify(entry)
  }

  // -------------------------------------------------------------- whole runs

  /** One call: its formatted lines, and whether reading the file back for trimming fails. */
  datatype Batch = Batch(lines: seq<string>, trimFails: bool)

  function AfterWrite(content: string, batch: Batch): string {
    if batch.lines == [] then content
    else
      var appended := content + Join(batch.lines, '\n') + "\n";
      if batch.trimFails then appended else AfterTrim(appended, MAX_LOG_SIZE_BYTES)
  }

  /** The file after all batches, oldest first. */
  function RunLog(batches: seq<Batch>): string {
    if batches == [] then ""
    else AfterWrite(RunLog(batches[..|batches| - 1]), batches[|batches| - 1])
  }

  /** Every line ever written. */
  function History(batches: seq<Batch>): seq<string> {
    if batches == [] then []
    else History(batches[..|batches| - 1]) + batches[|batches| - 1].lines
  }

  predicate WellFormed(batches: seq<Batch>) {
    forall i :: 0 <= i < |batches| ==> Free(batches[i].lines, '\n')
  }

  /** The content is the newest lines of the history: a suffix, whole, in order, once each. */
  predicate IsNewest(content: string, history: seq<string>, k: nat) {
    k <= |history| && content == Render(history[k..])
  }

  lemma WriteAppends(content: string, history: seq<string>, k: nat, batch: Batch)
    requires IsNewest(content, history, k) && batch.lines != []
    ensures content + Join(batch.lines, '\n') + "\n" == Render((history + batch.lines)[k..])
  {
    RenderIsJoin(batch.lines);
    RenderConcat(history[k..], batch.lines);
    assert (history + batch.lines)[k..] == history[k..] + batch.lines;
    assert content + (Join(batch.lines, '\n') + "\n") == content + Join(batch.lines, '\n') + "\n";
  }

  /** One write keeps the newest lines. When it trims, it keeps the longest suffix of the
      whole history that fits the target, although earlier trims have dropped lines. */
  lemma WriteKeepsNewest(content: string, history: seq<string>, k: nat, batch: Batch) returns (k': nat)
    requires IsNewest(content, history, k) && Free(history, '\n') && Free(batch.lines, '\n')
    ensures IsNewest(AfterWrite(content, batch), history + batch.lines, k') && k <= k'
    ensures var all := history + batch.lines;
      if batch.lines != [] && !batch.trimFails && Counted(all[k..]) > MAX_LOG_SIZE_BYTES
      then AfterWrite(content, batch) == Render(Keep(all, TRIM_TARGET_BYTES - 1))
      else k' == k
  {
    hide ByteLength, Counted, Render, Keep, Split, Join;
    var all := history + batch.lines;
    k' := k;
    if batch.lines == [] {
      assert all == history;
    } else {
      WriteAppends(content, history, k, batch);
      RenderSize(all[k..]);
      if !batch.trimFails && Counted(all[k..]) > MAX_LOG_SIZE_BYTES {
        TrimRendered(all[k..], MAX_LOG_SIZE_BYTES);
        KeepOfSuffix(all, TRIM_TARGET_BYTES - 1, k);
        var j := KeepIsLongest(all[k..], TRIM_TARGET_BYTES - 1);
        k' := k + j;
        assert all[k..][j..] == all[k'..];
      }
    }
  }

  lemma {:induction false} HistoryFree(batches: seq<Batch>)
    requires WellFormed(batches)
    ensures Free(History(batches), '\n')
  {
    if batches != [] {
      HistoryFree(batches[..|batches| - 1]);
    }
  }

  /** MAIN RESULT. After every run from an empty file, with any pattern of failed trims, the
      file is exactly the newest lines of everything ever written. */
  lemma {:induction false} FileIsNewestHistory(batches: seq<Batch>) returns (k: nat)
    requires WellFormed(batches)
    ensures IsNewest(RunLog(batches), History(batches), k)
    ensures Split(RunLog(batches), '\n') == History(batches)[k..] + [""]
  {
    if batches == [] {
      k := 0;
    } else {
      var init, last := batches[..|batches| - 1], batches[|batches| - 1];
      var k0 := FileIsNewestHistory(init);
      HistoryFree(init);
      k := WriteKeepsNewest(RunLog(init), History(init), k0, last);
    }
    HistoryFree(batches);
    RenderIsJoin(History(batches)[k..]);
    SplitJoin(History(batches)[k..] + [""], '\n');
  }

  /** The newest batch that wrote anything was also trimmed, whatever failed before. */
  predicate LastTrimSucceeds(batches: seq<Batch>) {
    batches == [] ||
    var last := batches[|batches| - 1];
    if last.lines == [] then LastTrimSucceeds(batches[..|batches| - 1]) else !last.trimFails
  }

  /** After every write whose trim succeeds the file is within the limit; and whatever fails,
      lines are lost only once the full history would exceed it. */
  lemma {:induction false} FileStaysBounded(batches: seq<Batch>)
    requires WellFormed(batches)
    ensures LastTrimSucceeds(batches) ==> ByteLength(RunLog(batches)) <= MAX_LOG_SIZE_BYTES
    ensures Counted(History(batches)) <= MAX_LOG_SIZE_BYTES ==> RunLog(batches) == Render(History(batches))
  {
    if batches != [] {
      var init, last := batches[..|batches| - 1], batches[|batches| - 1];
      FileStaysBounded(init);
      if last.lines != [] {
        TrimBoundedAndStable(RunLog(init) + Join(last.lines, '\n') + "\n");
      } else {
        assert History(batches) == History(init);
      }
      if Counted(History(batches)) <= MAX_LOG_SIZE_BYTES {
        CountedConcat(History(init), last.lines);
        assert History(init)[0..] == History(init);
        assert History(batches)[0..] == History(batches);
        HistoryFree(init);
        var k := WriteKeepsNewest(RunLog(init), History(init), 0, last);
      }
    }
  }

  // ----------------------------------------------------------------- the file

  /** The scan from the last line upwards that collects the lines to keep. */
  method NewestLines(lines: seq<string>, targetSize: nat) returns (keptLines: seq<string>)
    ensures keptLines == Keep(lines, targetSize)
  {
    hide ByteLength, Counted, Keep;
    CountedNothing();
    keptLines := [];
    var keptBytes := 0;
    var i := |lines| - 1;
    while i >= 0
      invariant -1 <= i < |lines|
      invariant keptLines == lines[i + 1..]
      invariant keptBytes == Counted(keptLines) <= targetSize
    {
      CountedFrom(lines, i);
      var lineBytes := ByteLength(lines[i] + "\n");
      if keptBytes + lineBytes > targetSize {
        break;
      }
      keptLines := [lines[i]] + keptLines;
      keptBytes := keptBytes + lineBytes;
      i := i - 1;
    }
    KeepFrom(lines, targetSize, i + 1);
  }

  class LogFile {
    var exists_: bool
    var content: string

    constructor ()
      ensures !exists_ && content == ""
    {
      exists_, content := false, "";
    }

    /** Cuts the file back to its newest lines. */
    method TrimLogFile(maxSize: nat, readFails: bool)
      modifies this`content
      ensures content ==
        if !exists_ || readFails then old(content) else AfterTrim(old(content), maxSize)
    {
      if !exists_ || ByteLength(content) <= maxSize || readFails {
        return;
      }
      var keptLines := NewestLines(Split(content, '\n'), TRIM_TARGET_BYTES);
      content := Join(keptLines, '\n');
    }

    /** Appends one batch, then trims. A batch without entries does not touch the file. */
    method WriteToLogFile(entries: seq<(Timestamp, Value)>, readFails: bool)
      requires !exists_ ==> content == ""
      modifies this
      ensures content == AfterWrite(old(content), Batch(FormatAll(entries), readFails))
      ensures exists_ == (old(exists_) || entries != [])
      ensures !exists_ ==> content == ""
    {
      if |entries| == 0 {
        return;
      }
      var lines := FormatAll(entries);
      exists_, content := true, content + Join(lines, '\n') + "\n";
      TrimLogFile(MAX_LOG_SIZE_BYTES, readFails);
    }
  }

  function FormatAll(entries: seq<(Timestamp, Value)>): (lines: seq<string>)
    ensures |lines| == |entries| && Free(lines, '\n')
  {
    seq(|entries|, i requires 0 <= i < |entries| => FormatEntry(entries[i].0, entries[i].1))
  }
}
