/** Reading a browser log back: every line gives the time and the value that were sent. */
module LogReader {
  import opened Wrappers
  import opened Text
  import opened DebugLog

  // ------------------------------------------------------------------- a reader

  function HexValue(c: char): Option<int> {
    if '0' <= c <= '9' then Some(c as int - '0' as int)
    else if 'a' <= c <= 'f' then Some(c as int - 'a' as int + 10)
    else None
  }

  /** One character of a string literal, and what follows it. */
  function ReadChar(s: string): (r: Option<(char, string)>)
    requires s != ""
    ensures r.Some? ==> |r.value.1| < |s|
  {
    if s[0] != '\\' then Some((s[0], s[1..]))
    else if |s| < 2 then None
    else
      match s[1]
      case '"' => Some(('"', s[2..]))
      case '\\' => Some(('\\', s[2..]))
      case 'n' => Some(('\n', s[2..]))
      case 'r' => Some(('\r', s[2..]))
      case 't' => Some(('\t', s[2..]))
      case 'b' => Some((8 as char, s[2..]))
      case 'f' => Some((12 as char, s[2..]))
      case 'u' =>
        if |s| >= 6 && s[2] == '0' && s[3] == '0' && HexValue(s[4]).Some? && HexValue(s[5]).Some? then
          Some(((16 * HexValue(s[4]).value + HexValue(s[5]).value) as char, s[6..]))
        else None
      case _ => None
  }

  /** The rest of a string literal, up to its closing quote. */
  function ReadText(s: string): (r: Option<(string, string)>)
    ensures r.Some? ==> |r.value.1| < |s|
    decreases |s|
  {
    if s == "" then None
    else if s[0] == '"' then Some(("", s[1..]))
    else
      match ReadChar(s)
      case None => None
      case Some((c, rest)) =>
        match ReadText(rest)
        case None => None
        case Some((text, after)) => Some(([c] + text, after))
  }

  /** The longest prefix of number characters. */
  function NumberPrefix(s: string): (n: nat)
    ensures n <= |s| && forall i :: 0 <= i < n ==> IsNumberChar(s[i])
  {
    if s == "" || !IsNumberChar(s[0]) then 0 else 1 + NumberPrefix(s[1..])
  }

  function ReadValue(s: string): (r: Option<(Value, string)>)
    ensures r.Some? ==> |r.value.1| < |s|
    decreases |s|, 0
  {
    if s == "" then None
    else
      match s[0]
      case '"' =>
        (match ReadText(s[1..])
         case None => None
         case Some((text, rest)) => Some((Str(text), rest)))
      case '[' =>
        if |s| >= 2 && s[1] == ']' then Some((Arr([]), s[2..]))
        else
          (match ReadItems(s[1..])
           case None => None
           case Some((items, rest)) => Some((Arr(items), rest)))
      case '{' =>
        if |s| >= 2 && s[1] == '}' then Some((Obj([]), s[2..]))
        else
          (match ReadMembers(s[1..])
           case None => None
           case Some((members, rest)) => Some((Obj(members), rest)))
      case 'n' => if "null" <= s then Some((Null, s[4..])) else None
      case 't' => if "true" <= s then Some((Bool(true), s[4..])) else None
      case 'f' => if "false" <= s then Some((Bool(false), s[5..])) else None
      case _ =>
        if NumberPrefix(s) >= 1 then Some((Number(s[..NumberPrefix(s)]), s[NumberPrefix(s)..])) else None
  }

  /** The items up to the closing bracket. */
  function ReadItems(s: string): (r: Option<(seq<Value>, string)>)
    ensures r.Some? ==> |r.value.1| < |s|
    decreases |s|, 1
  {
    match ReadValue(s)
    case None => None
    case Some((v, rest)) =>
      if rest != "" && rest[0] == ']' then Some(([v], rest[1..]))
      else if rest != "" && rest[0] == ',' then
        match ReadItems(rest[1..])
        case None => None
        case Some((items, after)) => Some(([v] + items, after))
      else None
  }

  /** One key and its value. */
  function ReadMember(s: string): (r: Option<(Member, string)>)
    ensures r.Some? ==> |r.value.1| < |s|
    decreases |s|, 1
  {
    if s == "" || s[0] != '"' then None
    else
      match ReadText(s[1..])
      case None => None
      case Some((key, colon)) =>
        if colon == "" || colon[0] != ':' then None
        else
          match ReadValue(colon[1..])
          case None => None
          case Some((v, rest)) => Some((Member(key, v), rest))
  }

  /** The members up to the closing brace. */
  function ReadMembers(s: string): (r: Option<(seq<Member>, string)>)
    ensures r.Some? ==> |r.value.1| < |s|
    decreases |s|, 2
  {
    match ReadMember(s)
    case None => None
    case Some((m, rest)) =>
      if rest != "" && rest[0] == '}' then Some(([m], rest[1..]))
      else if rest != "" && rest[0] == ',' then
        match ReadMembers(rest[1..])
        case None => None
        case Some((members, after)) => Some(([m] + members, after))
      else None
  }

  // ----------------------------------------------------------- the value is back

  lemma CharIsBack(c: char, rest: string)
    ensures EscapeChar(c) != "" && EscapeChar(c)[0] != '"'
    ensures ReadChar(EscapeChar(c) + rest) == Some((c, rest))
  {
    var e := EscapeChar(c);
    assert (e + rest)[|e|..] == rest;
    if c as int < 0x20 && |e| == 6 {
      assert HEX[..16] == HEX;
      HexIsBack(c as int / 16);
      HexIsBack(c as int % 16);
      assert 16 * (c as int / 16) + c as int % 16 == c as int;
    }
  }

  lemma HexIsBack(n: int)
    requires 0 <= n < 16
    ensures HexValue(HEX[n]) == Some(n)
  {
  }

  lemma {:induction false} TextIsBack(s: string, rest: string)
    ensures ReadText(EscapeText(s) + "\"" + rest) == Some((s, rest))
  {
    if s == "" {
      assert ("" + "\"" + rest)[1..] == rest;
    } else {
      hide EscapeChar, ReadChar;
      var more := EscapeText(s[1..]) + "\"" + rest;
      CharIsBack(s[0], more);
      assert EscapeText(s) + "\"" + rest == EscapeChar(s[0]) + more;
      TextIsBack(s[1..], rest);
      assert [s[0]] + s[1..] == s;
    }
  }

  /** No number goes on here. */
  predicate Terminated(rest: string) { rest == "" || !IsNumberChar(rest[0]) }

  lemma {:induction false} NumberIsBack(text: string, rest: string)
    requires Terminated(rest) && forall i :: 0 <= i < |text| ==> IsNumberChar(text[i])
    ensures NumberPrefix(text + rest) == |text|
  {
    if text == "" {
      assert text + rest == rest;
    } else {
      assert (text + rest)[1..] == text[1..] + rest;
      NumberIsBack(text[1..], rest);
    }
  }

  /** A value never starts like the end of a list or of an object. */
  lemma ValueStarts(v: Value)
    ensures Stringify(v) != "" && Stringify(v)[0] != ']' && Stringify(v)[0] != '}'
  {
  }

  lemma WordsAreBack(rest: string)
    ensures ReadValue("null" + rest) == Some((Null, rest))
    ensures ReadValue("true" + rest) == Some((Bool(true), rest))
    ensures ReadValue("false" + rest) == Some((Bool(false), rest))
  {
    hide ReadItems, ReadMembers, ReadText, NumberPrefix;
    assert ("null" + rest)[4..] == rest && ("null" + rest)[0] == 'n';
    assert ("true" + rest)[4..] == rest && ("true" + rest)[0] == 't';
    assert ("false" + rest)[5..] == rest && ("false" + rest)[0] == 'f';
  }

  lemma QuotedIsBack(text: string, rest: string)
    ensures ReadValue("\"" + EscapeText(text) + "\"" + rest) == Some((Str(text), rest))
  {
    TextIsBack(text, rest);
    hide ReadItems, ReadMembers, ReadText, NumberPrefix, EscapeText;
    var s := "\"" + EscapeText(text) + "\"" + rest;
    assert s[0] == '"' && s[1..] == EscapeText(text) + "\"" + rest;
  }

  lemma NumberValueIsBack(text: NumberText, rest: string)
    requires Terminated(rest)
    ensures ReadValue(text + rest) == Some((Number(text), rest))
  {
    NumberIsBack(text, rest);
    hide ReadItems, ReadMembers, ReadText, NumberPrefix;
    assert IsNumberChar(text[0]);
    var s := text + rest;
    assert s[0] == text[0] && s[..|text|] == text && s[|text|..] == rest;
  }

  lemma ScalarIsBack(v: Value, rest: string)
    requires Terminated(rest) && !v.Arr? && !v.Obj?
    ensures ReadValue(Stringify(v) + rest) == Some((v, rest))
  {
    hide ReadValue;
    match v
    case Null => WordsAreBack(rest);
    case Bool(_) => WordsAreBack(rest);
    case Str(text) => QuotedIsBack(text, rest);
    case Number(text) => NumberValueIsBack(text, rest);
  }

  lemma ListIsRead(s: string, items: seq<Value>, rest: string)
    requires s != "" && s[0] != ']' && ReadItems(s) == Some((items, rest))
    ensures ReadValue("[" + s) == Some((Arr(items), rest))
  {
    assert ("[" + s)[1..] == s && ("[" + s)[0] == '[' && ("[" + s)[1] != ']';
    hide ReadItems, ReadMembers, ReadText, NumberPrefix;
  }

  lemma ObjectIsRead(s: string, members: seq<Member>, rest: string)
    requires s != "" && s[0] != '}' && ReadMembers(s) == Some((members, rest))
    ensures ReadValue("{" + s) == Some((Obj(members), rest))
  {
    assert ("{" + s)[1..] == s && ("{" + s)[0] == '{' && ("{" + s)[1] != '}';
    hide ReadItems, ReadMembers, ReadText, NumberPrefix;
  }

  lemma EmptyIsBack(rest: string)
    ensures ReadValue(Stringify(Arr([])) + rest) == Some((Arr([]), rest))
    ensures ReadValue(Stringify(Obj([])) + rest) == Some((Obj([]), rest))
  {
    assert Stringify(Arr([])) == "[]" && Stringify(Obj([])) == "{}";
    hide ReadItems, ReadMembers, ReadText, NumberPrefix;
    var list, obj := "[]" + rest, "{}" + rest;
    assert list[0] == '[' && list[1] == ']' && list[2..] == rest;
    assert obj[0] == '{' && obj[1] == '}' && obj[2..] == rest;
  }

  lemma ItemsText(items: seq<Value>, rest: string)
    requires items != []
    ensures var first := Stringify(items[0]);
      StringifyItems(items) + "]" + rest ==
        if |items| == 1 then first + ("]" + rest)
        else first + ("," + (StringifyItems(items[1..]) + "]" + rest))
  {
    hide Stringify;
    var first := Stringify(items[0]);
    if |items| == 1 {
      assert StringifyItems(items) == first;
      Regroup(first, "]", rest, "");
      assert "]" + (rest + "") == "]" + rest;
    } else {
      assert StringifyItems(items) == first + "," + StringifyItems(items[1..]);
      Separated(first, StringifyItems(items[1..]), "]", rest);
    }
  }

  lemma MembersText(members: seq<Member>, rest: string)
    requires members != []
    ensures var first := MemberText(members[0]);
      StringifyMembers(members) + "}" + rest ==
        if |members| == 1 then first + ("}" + rest)
        else first + ("," + (StringifyMembers(members[1..]) + "}" + rest))
  {
    hide Stringify, EscapeText;
    var first := MemberText(members[0]);
    if |members| == 1 {
      assert StringifyMembers(members) == first;
      Regroup(first, "}", rest, "");
      assert "}" + (rest + "") == "}" + rest;
    } else {
      assert StringifyMembers(members) == first + "," + StringifyMembers(members[1..]);
      Separated(first, StringifyMembers(members[1..]), "}", rest);
    }
  }

  lemma Regroup(a: string, b: string, c: string, d: string)
    ensures a + b + c + d == a + (b + (c + d))
  {
  }

  lemma Separated(first: string, tail: string, close: string, rest: string)
    ensures first + "," + tail + close + rest == first + ("," + (tail + close + rest))
  {
    Regroup(first, ",", tail + close, rest);
  }

  /** A member as it is written. */
  function MemberText(m: Member): string { "\"" + EscapeText(m.key) + "\":" + Stringify(m.value) }

  lemma ListText(items: seq<Value>, rest: string)
    ensures Stringify(Arr(items)) + rest == "[" + (StringifyItems(items) + "]" + rest)
  {
    Regroup("[", StringifyItems(items), "]", rest);
    hide StringifyItems;
  }

  lemma ObjectText(members: seq<Member>, rest: string)
    ensures Stringify(Obj(members)) + rest == "{" + (StringifyMembers(members) + "}" + rest)
  {
    Regroup("{", StringifyMembers(members), "}", rest);
    hide StringifyMembers;
  }

  lemma ItemsStart(items: seq<Value>, rest: string)
    requires items != []
    ensures StringifyItems(items) + rest != "" && (StringifyItems(items) + rest)[0] != ']'
  {
    ValueStarts(items[0]);
    hide Stringify;
  }

  lemma MembersStart(members: seq<Member>, rest: string)
    requires members != []
    ensures StringifyMembers(members) + rest != "" && (StringifyMembers(members) + rest)[0] != '}'
  {
    hide Stringify, EscapeText;
    assert StringifyMembers(members)[0] == '"';
  }

  /** MAIN RESULT. Reading the JSON text of a value gives the value back, whatever follows. */
  lemma {:induction false} ValueIsBack(v: Value, rest: string)
    requires Terminated(rest)
    ensures ReadValue(Stringify(v) + rest) == Some((v, rest))
    decreases v, 1
  {
    hide ReadValue, ReadItems, ReadMembers, Stringify, StringifyItems, StringifyMembers;
    match v
    case Arr(items) =>
      ListText(items, rest);
      if items == [] {
        EmptyIsBack(rest);
      } else {
        ItemsStart(items, "]" + rest);
        ItemsAreBack(items, rest);
        assert StringifyItems(items) + ("]" + rest) == StringifyItems(items) + "]" + rest;
        ListIsRead(StringifyItems(items) + "]" + rest, items, rest);
      }
    case Obj(members) =>
      ObjectText(members, rest);
      if members == [] {
        EmptyIsBack(rest);
      } else {
        MembersStart(members, "}" + rest);
        MembersAreBack(members, rest);
        assert StringifyMembers(members) + ("}" + rest) == StringifyMembers(members) + "}" + rest;
        ObjectIsRead(StringifyMembers(members) + "}" + rest, members, rest);
      }
    case _ => ScalarIsBack(v, rest);
  }

  lemma LastItem(s: string, v: Value, rest: string)
    requires ReadValue(s) == Some((v, "]" + rest))
    ensures ReadItems(s) == Some(([v], rest))
  {
    assert ("]" + rest)[0] == ']' && ("]" + rest)[1..] == rest;
    hide ReadValue;
  }

  lemma ItemBeforeMore(s: string, v: Value, more: string, items: seq<Value>, rest: string)
    requires ReadValue(s) == Some((v, "," + more)) && ReadItems(more) == Some((items, rest))
    ensures ReadItems(s) == Some(([v] + items, rest))
  {
    assert ("," + more)[0] == ',' && ("," + more)[1..] == more;
    hide ReadValue;
  }

  lemma {:induction false} ItemsAreBack(items: seq<Value>, rest: string)
    requires items != []
    ensures ReadItems(StringifyItems(items) + "]" + rest) == Some((items, rest))
    decreases items, 0
  {
    var first := Stringify(items[0]);
    ItemsText(items, rest);
    hide ReadValue, ReadItems, Stringify, StringifyItems;
    if |items| == 1 {
      ValueIsBack(items[0], "]" + rest);
      LastItem(first + ("]" + rest), items[0], rest);
      assert items == [items[0]];
    } else {
      var more := StringifyItems(items[1..]) + "]" + rest;
      ValueIsBack(items[0], "," + more);
      ItemsAreBack(items[1..], rest);
      ItemBeforeMore(first + ("," + more), items[0], more, items[1..], rest);
      assert items == [items[0]] + items[1..];
    }
  }

  lemma MemberIsRead(s: string, key: string, value: string, v: Value, rest: string)
    requires ReadText(s) == Some((key, ":" + value)) && ReadValue(value) == Some((v, rest))
    ensures ReadMember("\"" + s) == Some((Member(key, v), rest))
  {
    assert ("\"" + s)[0] == '"' && ("\"" + s)[1..] == s;
    assert (":" + value)[0] == ':' && (":" + value)[1..] == value;
    hide ReadText, ReadValue;
  }

  lemma {:induction false} MemberIsBack(m: Member, rest: string)
    requires Terminated(rest)
    ensures ReadMember(MemberText(m) + rest) == Some((m, rest))
    decreases m, 2
  {
    var key, value := EscapeText(m.key), Stringify(m.value);
    hide ReadText, ReadValue, ReadMember, EscapeText, Stringify;
    TextIsBack(m.key, ":" + (value + rest));
    ValueIsBack(m.value, rest);
    var s := key + "\"" + (":" + (value + rest));
    MemberIsRead(s, m.key, value + rest, m.value, rest);
    assert MemberText(m) + rest == "\"" + s by {
      Regroup("\"" + key, "\":", value, rest);
      assert "\":" + (value + rest) == "\"" + (":" + (value + rest));
      Regroup("\"", key, "\"", ":" + (value + rest));
    }
  }

  lemma LastMember(s: string, m: Member, rest: string)
    requires ReadMember(s) == Some((m, "}" + rest))
    ensures ReadMembers(s) == Some(([m], rest))
  {
    assert ("}" + rest)[0] == '}' && ("}" + rest)[1..] == rest;
    hide ReadMember;
  }

  lemma MemberBeforeMore(s: string, members: seq<Member>, more: string, rest: string)
    requires members != [] && ReadMember(s) == Some((members[0], "," + more)) && ReadMembers(more) == Some((members[1..], rest))
    ensures ReadMembers(s) == Some((members, rest))
  {
    assert ("," + more)[0] == ',' && ("," + more)[1..] == more;
    assert members == [members[0]] + members[1..];
    hide ReadMember;
  }

  lemma {:induction false} MembersAreBack(members: seq<Member>, rest: string)
    requires members != []
    ensures ReadMembers(StringifyMembers(members) + "}" + rest) == Some((members, rest))
    decreases members, 0
  {
    var first := MemberText(members[0]);
    MembersText(members, rest);
    hide ReadMember, ReadMembers, ReadValue, ReadText, Stringify, EscapeText, StringifyMembers, MemberText;
    if |members| == 1 {
      MemberIsBack(members[0], "}" + rest);
      LastMember(first + ("}" + rest), members[0], rest);
      assert members == [members[0]];
    } else {
      var more := StringifyMembers(members[1..]) + "}" + rest;
      MemberIsBack(members[0], "," + more);
      MembersAreBack(members[1..], rest);
      MemberBeforeMore(first + ("," + more), members, more, rest);
    }
  }

  // ------------------------------------------------------------- bytes and escapes

  /** The UTF-8 bytes of a character (RFC 3629, section 3), as many as its width says. */
  function Utf8(c: char): seq<int> {
    var v := c as int;
    match Utf8Width(c)
    case 1 => [v]
    case 2 => [0xC0 + v / 0x40, 0x80 + v % 0x40]
    case 3 => [0xE0 + v / 0x1000, 0x80 + v / 0x40 % 0x40, 0x80 + v % 0x40]
    case _ => [0xF0 + v / 0x40000, 0x80 + v / 0x1000 % 0x40, 0x80 + v / 0x40 % 0x40, 0x80 + v % 0x40]
  }

  /** The first byte tells the length, the others continue, and the form is the shortest one. */
  predicate WellFormedUtf8(b: seq<int>) {
    && b != [] && (forall i :: 1 <= i < |b| ==> 0x80 <= b[i] < 0xC0)
    && match |b|
       case 1 => 0 <= b[0] < 0x80
       case 2 => 0xC2 <= b[0] < 0xE0
       case 3 => 0xE0 <= b[0] < 0xF0 && (b[0] == 0xE0 ==> b[1] >= 0xA0)
       case 4 => 0xF0 <= b[0] < 0xF5 && (b[0] == 0xF0 ==> b[1] >= 0x90) && (b[0] == 0xF4 ==> b[1] < 0x90)
       case _ => false
  }

  /** The width counted for a character is the length of its UTF-8 form. */
  lemma WidthIsUtf8Length(c: char)
    ensures |Utf8(c)| == Utf8Width(c) && WellFormedUtf8(Utf8(c))
  {
  }

  /** Control characters never reach the file: the seven characters with a short escape take it, the
      other control characters six characters, and every other character stands for itself. */
  lemma EscapesAreMinimal(c: char)
    ensures forall i :: 0 <= i < |EscapeChar(c)| ==> EscapeChar(c)[i] as int >= 0x20
    ensures |EscapeChar(c)| == 2 <==> c in {'"', '\\', '\n', '\r', '\t', 8 as char, 12 as char}
    ensures |EscapeChar(c)| == 6 <==> c as int < 0x20 && c !in {'\n', '\r', '\t', 8 as char, 12 as char}
    ensures |EscapeChar(c)| in {1, 2, 6} && (|EscapeChar(c)| == 1 ==> EscapeChar(c) == [c])
  {
    assert forall i :: 0 <= i < |HEX| ==> HEX[i] as int >= 0x20;
  }

  // ------------------------------------------------------------------ the lines

  type Entry = (Timestamp, Value)

  /** The characters before the first blank. */
  function WordLength(s: string): (n: nat)
    ensures n <= |s|
  {
    if s == "" || s[0] == ' ' then 0 else 1 + WordLength(s[1..])
  }

  /** The time in brackets, a blank, and one value. */
  function ReadLine(line: string): Option<(string, Value)> {
    var n := WordLength(line);
    if n < 2 || line[0] != '[' || line[n - 1] != ']' || n == |line| then None
    else
      match ReadValue(line[n + 1..])
      case Some((v, "")) => Some((line[1..n - 1], v))
      case _ => None
  }

  lemma {:induction false} WordEnds(word: string, rest: string)
    requires ' ' !in word
    ensures WordLength(word + " " + rest) == |word|
  {
    if word == "" {
      assert (word + " " + rest)[0] == ' ';
    } else {
      assert (word + " " + rest)[1..] == word[1..] + " " + rest;
      WordEnds(word[1..], rest);
    }
  }

  /** A formatted line reads back as the time and the value of its entry. */
  lemma LineIsBack(ts: Timestamp, v: Value)
    ensures ReadLine(FormatEntry(ts, v)) == Some((ts, v))
  {
    hide ReadValue, Stringify;
    var word, line := "[" + ts + "]", FormatEntry(ts, v);
    assert line == word + " " + Stringify(v);
    WordEnds(word, Stringify(v));
    assert line[|word| + 1..] == Stringify(v) + "" && line[1..|word| - 1] == ts;
    ValueIsBack(v, "");
  }

  // ------------------------------------------------------------------ whole runs

  /** One call of the collector, and whether reading the file back for trimming fails. */
  datatype Call = Call(entries: seq<Entry>, trimFails: bool)

  function Batches(calls: seq<Call>): (batches: seq<Batch>)
    ensures WellFormed(batches)
  {
    seq(|calls|, i requires 0 <= i < |calls| => Batch(FormatAll(calls[i].entries), calls[i].trimFails))
  }

  /** Everything the browser sent, oldest first. */
  function Sent(calls: seq<Call>): seq<Entry> {
    if calls == [] then [] else Sent(calls[..|calls| - 1]) + calls[|calls| - 1].entries
  }

  lemma FormatAllConcat(a: seq<Entry>, b: seq<Entry>)
    ensures FormatAll(a + b) == FormatAll(a) + FormatAll(b)
  {
    hide FormatEntry;
  }

  lemma {:induction false} HistoryIsSent(calls: seq<Call>)
    ensures History(Batches(calls)) == FormatAll(Sent(calls))
  {
    if calls != [] {
      var init, last := calls[..|calls| - 1], calls[|calls| - 1];
      HistoryIsSent(init);
      FormatAllConcat(Sent(init), last.entries);
      assert Batches(calls)[..|calls| - 1] == Batches(init);
    }
  }

  /** MAIN RESULT. After every run of calls, with any failed trims, the lines of the file read back
      as the newest of all entries the browser sent: each time and value, in the order sent, none
      twice, none missing in between. */
  lemma FileReadsBackNewest(calls: seq<Call>) returns (k: nat)
    ensures k <= |Sent(calls)|
    ensures var lines := Split(RunLog(Batches(calls)), '\n');
      && |lines| == |Sent(calls)| - k + 1 && lines[|lines| - 1] == ""
      && forall i :: 0 <= i < |Sent(calls)| - k ==> ReadLine(lines[i]) == Some(Sent(calls)[k + i])
  {
    hide ReadLine, RunLog, Batches, Sent, FormatEntry, Split, Render, FormatAll, History, WellFormed;
    k := FileIsNewestHistory(Batches(calls));
    HistoryIsSent(calls);
    var sent := Sent(calls);
    LinesAreBack(sent, k);
    var kept := FormatAll(sent)[k..];
    assert Split(RunLog(Batches(calls)), '\n') == kept + [""];
  }

  lemma LinesAreBack(sent: seq<Entry>, k: nat)
    requires k <= |sent|
    ensures |FormatAll(sent)| == |sent|
    ensures forall i :: 0 <= i < |sent| - k ==> ReadLine(FormatAll(sent)[k..][i]) == Some(sent[k + i])
  {
    hide ReadLine, FormatEntry;
    forall i | 0 <= i < |sent| - k ensures ReadLine(FormatAll(sent)[k..][i]) == Some(sent[k + i]) {
      LineIsBack(sent[k + i].0, sent[k + i].1);
    }
  }

  /** One call with two entries writes them in the order given. */
  lemma TwoEntriesInOrder(a: Entry, b: Entry)
    ensures FormatAll([a, b]) == [FormatEntry(a.0, a.1), FormatEntry(b.0, b.1)]
  {
    hide FormatEntry;
  }
}
