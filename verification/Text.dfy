/** Strings cut at, and joined by, a separator character. */
module Text {

  function Split(s: string, sep: char): (parts: seq<string>)
    ensures |parts| >= 1
  {
    if s == "" then [""]
    else
      var rest := Split(s[1..], sep);
      if s[0] == sep then [""] + rest else [[s[0]] + rest[0]] + rest[1..]
  }

  function Join(parts: seq<string>, sep: char): string {
    if parts == [] then ""
    else if |parts| == 1 then parts[0]
    else parts[0] + [sep] + Join(parts[1..], sep)
  }

  predicate Free(parts: seq<string>, sep: char) {
    forall i :: 0 <= i < |parts| ==> sep !in parts[i]
  }

  /** Joining undoes splitting, on every string. */
  lemma {:induction false} JoinSplit(s: string, sep: char)
    ensures Join(Split(s, sep), sep) == s
    ensures Free(Split(s, sep), sep)
  {
    if s != "" {
      JoinSplit(s[1..], sep);
      var rest := Split(s[1..], sep);
      if s[0] != sep {
        assert Split(s, sep)[1..] == rest[1..];
        assert [s[0]] + s[1..] == s;
      } else {
        assert Split(s, sep)[1..] == rest;
      }
    }
  }

  /** Splitting undoes joining, on pieces without the separator. */
  lemma {:induction false} SplitJoin(parts: seq<string>, sep: char)
    requires parts != [] && Free(parts, sep)
    ensures Split(Join(parts, sep), sep) == parts
  {
    var p := parts[0];
    if |parts| == 1 {
      SplitFree(p, sep);
    } else {
      var rest := Join(parts[1..], sep);
      SplitJoin(parts[1..], sep);
      SplitPiece(p, rest, sep);
      assert Join(parts, sep) == p + [sep] + rest;
    }
  }

  lemma {:induction false} SplitFree(p: string, sep: char)
    requires sep !in p
    ensures Split(p, sep) == [p]
  {
    if p != "" {
      SplitFree(p[1..], sep);
      assert [p[0]] + p[1..] == p;
    }
  }

  lemma {:induction false} SplitPiece(p: string, rest: string, sep: char)
    requires sep !in p
    ensures Split(p + [sep] + rest, sep) == [p] + Split(rest, sep)
  {
    var s := p + [sep] + rest;
    if p == "" {
      assert s[1..] == rest;
    } else {
      SplitPiece(p[1..], rest, sep);
      assert s[1..] == p[1..] + [sep] + rest;
      assert [p[0]] + p[1..] == p;
      assert Split(s[1..], sep)[1..] == Split(rest, sep);
    }
  }

  /** `part` occurs in `s`. */
  predicate Contains(s: string, part: string) {
    part <= s || (s != "" && Contains(s[1..], part))
  }

  /** The characters `strip()` removes. */
  predicate IsSpace(c: char) {
    var v := c as int;
    9 <= v <= 13 || 28 <= v <= 32 || v in {0x85, 0xA0, 0x1680, 0x2028, 0x2029, 0x202F, 0x205F, 0x3000} || 0x2000 <= v <= 0x200A
  }

  /** Without white space at either end, as `strip()` leaves a text. */
  predicate Stripped(s: string) {
    s == "" || (!IsSpace(s[0]) && !IsSpace(s[|s| - 1]))
  }

  /** `strip()`. */
  function Strip(s: string): (r: string)
    ensures Stripped(r)
  {
    if s == "" then s
    else if IsSpace(s[0]) then Strip(s[1..])
    else if IsSpace(s[|s| - 1]) then Strip(s[..|s| - 1])
    else s
  }

  /** An occurrence splits the text around the part. */
  lemma {:induction false} ContainsSplits(s: string, part: string)
    ensures Contains(s, part) <==> exists before, after :: s == before + part + after
  {
    if part <= s {
      assert s == "" + part + s[|part|..];
    } else if s != "" {
      ContainsSplits(s[1..], part);
      if before, after :| s[1..] == before + part + after {
        assert s == ([s[0]] + before) + part + after;
      }
      if before, after :| s == before + part + after {
        assert before != "";
        assert s[1..] == before[1..] + part + after;
      }
    } else {
      forall before, after ensures s != before + part + after {
        assert |before + part + after| >= |part| >= 1;
      }
    }
  }

  /** Stripping removes white space at the two ends and nothing else. */
  lemma {:induction false} StripKeepsMiddle(s: string) returns (left: string, right: string)
    ensures s == left + Strip(s) + right
    ensures forall i :: 0 <= i < |left| ==> IsSpace(left[i])
    ensures forall i :: 0 <= i < |right| ==> IsSpace(right[i])
  {
    left, right := "", "";
    if s != "" && IsSpace(s[0]) {
      left, right := StripKeepsMiddle(s[1..]);
      left := [s[0]] + left;
    } else if s != "" && IsSpace(s[|s| - 1]) {
      left, right := StripKeepsMiddle(s[..|s| - 1]);
      right := right + [s[|s| - 1]];
    }
  }

  lemma {:induction false} StripOfPadded(left: string, text: string, right: string)
    requires forall i :: 0 <= i < |left| ==> IsSpace(left[i])
    requires forall i :: 0 <= i < |right| ==> IsSpace(right[i])
    requires Stripped(text)
    ensures Strip(left + text + right) == text
    decreases |left| + |right|
  {
    var s := left + text + right;
    hide IsSpace;
    if left != "" {
      assert s[0] == left[0] && s[1..] == left[1..] + text + right;
      StripOfPadded(left[1..], text, right);
    } else if right != "" {
      assert s == text + right;
      if text == "" {
        assert s[0] == right[0] && s[1..] == "" + "" + right[1..];
        StripOfPadded("", "", right[1..]);
      } else {
        assert s[0] == text[0] && s[|s| - 1] == right[|right| - 1] && s[..|s| - 1] == "" + text + right[..|right| - 1];
        StripOfPadded("", text, right[..|right| - 1]);
      }
    } else {
      assert s == text;
    }
  }

  /** White space, character by character. */
  lemma WhiteSpace(c: char)
    ensures IsSpace(c) <==> c as int in {
      9, 10, 11, 12, 13, 28, 29, 30, 31, 32, 0x85, 0xA0, 0x1680, 0x2000, 0x2001, 0x2002, 0x2003, 0x2004, 0x2005, 0x2006, 0x2007, 0x2008,
      0x2009, 0x200A, 0x2028, 0x2029, 0x202F, 0x205F, 0x3000}
  {
  }
}
