/** The control plane's HTML escaper: five whole-string replacements, in this order. */
module HtmlEscape {

  /** The character references the escaper writes (section 5.3 of HTML 4.01). */
  function Reference(c: char): string
    requires Special(c)
  {
    if c == '&' then "&amp;"
    else if c == '<' then "&lt;"
    else if c == '>' then "&gt;"
    else if c == '"' then "&quot;"
    else "&#39;"
  }

  predicate Special(c: char) { c in SPECIALS }

  const SPECIALS: set<char> := {'&', '<', '>', '"', '\''}

  /** Python's `str.replace` with a one-character pattern. */
  function ReplaceChar(s: string, c: char, r: string): string {
    if s == "" then ""
    else (if s[0] == c then r else [s[0]]) + ReplaceChar(s[1..], c, r)
  }

  /** Python's `str.replace`: leftmost, non-overlapping occurrences of a non-empty pattern. */
  function ReplaceAll(s: string, pattern: string, r: string): string
    requires pattern != ""
  {
    if s == "" then ""
    else if pattern <= s then r + ReplaceAll(s[|pattern|..], pattern, r)
    else [s[0]] + ReplaceAll(s[1..], pattern, r)
  }

  function Escape(value: string): string {
    var s1 := ReplaceChar(value, '&', "&amp;");
    var s2 := ReplaceChar(s1, '<', "&lt;");
    var s3 := ReplaceChar(s2, '>', "&gt;");
    var s4 := ReplaceChar(s3, '"', "&quot;");
    ReplaceChar(s4, '\'', "&#39;")
  }

  /** The matching sequential decoder: the five replacements undone in reverse order. */
  function Unescape(value: string): string {
    var s4 := ReplaceAll(value, "&#39;", "'");
    var s3 := ReplaceAll(s4, "&quot;", "\"");
    var s2 := ReplaceAll(s3, "&gt;", ">");
    var s1 := ReplaceAll(s2, "&lt;", "<");
    ReplaceAll(s1, "&amp;", "&")
  }

  /** One pass: each character in `todo` becomes its reference, all others stay. */
  function EscapeMap(s: string, todo: set<char>): string
    requires todo <= SPECIALS
  {
    if s == "" then ""
    else (if s[0] in todo then Reference(s[0]) else [s[0]]) + EscapeMap(s[1..], todo)
  }

  lemma Associate(a: string, b: string, c: string)
    ensures a + (b + c) == a + b + c
  {
  }

  lemma {:induction false} ReplaceCharConcat(a: string, b: string, c: char, r: string)
    ensures ReplaceChar(a + b, c, r) == ReplaceChar(a, c, r) + ReplaceChar(b, c, r)
  {
    if a == "" {
      assert a + b == b;
    } else {
      ReplaceCharConcat(a[1..], b, c, r);
      assert (a + b)[1..] == a[1..] + b;
      var head := if a[0] == c then r else [a[0]];
      Associate(head, ReplaceChar(a[1..], c, r), ReplaceChar(b, c, r));
    }
  }

  lemma {:induction false} ReplaceCharAbsent(s: string, c: char, r: string)
    requires c !in s
    ensures ReplaceChar(s, c, r) == s
  {
    if s != "" {
      ReplaceCharAbsent(s[1..], c, r);
    }
  }

  lemma ReferenceChars(x: char)
    requires Special(x)
    ensures var r := Reference(x);
      && |r| >= 4 && r[0] == '&' && '&' !in r[1..]
      && forall c :: c in SPECIALS && c != '&' ==> c !in r
  {
  }

  /** Replacing one more character widens the map, as long as '&' is already done. */
  lemma {:induction false} ReplaceWidensMap(s: string, c: char, done: set<char>)
    requires done <= SPECIALS && c in SPECIALS && c !in done && c != '&'
    ensures ReplaceChar(EscapeMap(s, done), c, Reference(c)) == EscapeMap(s, done + {c})
  {
    if s != "" {
      var r := Reference(c);
      ReplaceWidensMap(s[1..], c, done);
      var head := if s[0] in done then Reference(s[0]) else [s[0]];
      ReplaceCharConcat(head, EscapeMap(s[1..], done), c, r);
      if s[0] in done {
        ReferenceChars(s[0]);
        ReplaceCharAbsent(head, c, r);
      } else {
        assert head[1..] == "" && ReplaceChar("", c, r) == "";
        assert ReplaceChar(head, c, r) == (if s[0] == c then r else head);
      }
    }
  }

  lemma {:induction false} FirstReplaceIsMap(s: string)
    ensures ReplaceChar(s, '&', "&amp;") == EscapeMap(s, {'&'})
  {
    if s != "" {
      FirstReplaceIsMap(s[1..]);
    }
  }

  /** MAIN RESULT. The five ordered replacements equal one pass over the characters. */
  lemma EscapeIsOnePass(s: string)
    ensures Escape(s) == EscapeMap(s, SPECIALS)
  {
    hide ReplaceChar, EscapeMap;
    FirstReplaceIsMap(s);
    ReplaceWidensMap(s, '<', {'&'});
    ReplaceWidensMap(s, '>', {'&', '<'});
    ReplaceWidensMap(s, '"', {'&', '<', '>'});
    ReplaceWidensMap(s, '\'', {'&', '<', '>', '"'});
    assert {'&'} + {'<'} == {'&', '<'};
    assert {'&', '<'} + {'>'} == {'&', '<', '>'};
    assert {'&', '<', '>'} + {'"'} == {'&', '<', '>', '"'};
    assert {'&', '<', '>', '"'} + {'\''} == SPECIALS;
  }

  /** The order matters: with '&' last, a reference written earlier is escaped again, while
      the escaper's order leaves it alone. */
  lemma AmpersandMustComeFirst(s: string)
    ensures ReplaceChar("&lt;" + s, '&', "&amp;") == "&amp;lt;" + ReplaceChar(s, '&', "&amp;")
    ensures Escape("<" + s) == "&lt;" + Escape(s)
  {
    EscapeIsOnePass("<" + s);
    EscapeIsOnePass(s);
    assert ("<" + s)[1..] == s;
    ReplaceCharConcat("&" + "lt;", s, '&', "&amp;");
    ReplaceCharConcat("&", "lt;", '&', "&amp;");
    ReplaceCharAbsent("lt;", '&', "&amp;");
    assert "&"[1..] == "" && "&" + "lt;" == "&lt;" && "&amp;" + "lt;" == "&amp;lt;";
  }

  // ------------------------------------------------------------ what is written

  /** Position i starts one of the five references. */
  predicate StartsReference(s: string, i: nat)
    requires i <= |s|
  {
    exists c :: c in SPECIALS && Reference(c) <= s[i..]
  }

  /** No markup character, and every '&' starts a reference. */
  predicate Safe(r: string) {
    forall i :: 0 <= i < |r| ==> SafeAt(r, i)
  }

  predicate SafeAt(r: string, i: nat)
    requires i < |r|
  {
    r[i] !in {'<', '>', '"', '\''} && (r[i] == '&' ==> StartsReference(r, i))
  }

  lemma SafeHead(c: char, tail: string)
    requires Special(c)
    ensures forall i :: 0 <= i < |Reference(c)| ==> SafeAt(Reference(c) + tail, i)
  {
    ReferenceChars(c);
    var r := Reference(c) + tail;
    assert Reference(c) <= r[0..];
    forall i | 0 <= i < |Reference(c)| ensures SafeAt(r, i) {
      assert r[i] == Reference(c)[i];
      assert i > 0 ==> r[i] == Reference(c)[1..][i - 1];
    }
  }

  lemma SafeTail(head: string, tail: string, i: nat)
    requires i < |tail| && SafeAt(tail, i)
    ensures SafeAt(head + tail, |head| + i)
  {
    assert (head + tail)[|head| + i..] == tail[i..];
  }

  /** The one-pass map writes safe text. */
  lemma {:induction false} MapOutputIsSafe(s: string)
    ensures Safe(EscapeMap(s, SPECIALS))
  {
    if s != "" {
      var head := if s[0] in SPECIALS then Reference(s[0]) else [s[0]];
      var tail := EscapeMap(s[1..], SPECIALS);
      MapOutputIsSafe(s[1..]);
      forall i | 0 <= i < |head + tail| ensures SafeAt(head + tail, i) {
        if i >= |head| {
          SafeTail(head, tail, i - |head|);
        } else if s[0] in SPECIALS {
          SafeHead(s[0], tail);
        }
      }
    }
  }

  /** MAIN RESULT. Escaped text holds no markup character, and each '&' starts a reference. */
  lemma EscapeOutputIsSafe(s: string)
    ensures Safe(Escape(s))
  {
    EscapeIsOnePass(s);
    MapOutputIsSafe(s);
  }

  // ----------------------------------------------------------------- undoing it

  /** Text without '&' cannot start a reference. */
  lemma {:induction false} ReplaceAllSkips(a: string, b: string, pattern: string, r: string)
    requires pattern != "" && pattern[0] == '&' && '&' !in a
    ensures ReplaceAll(a + b, pattern, r) == a + ReplaceAll(b, pattern, r)
  {
    if a == "" {
      assert a + b == b;
    } else {
      ReplaceAllSkips(a[1..], b, pattern, r);
      assert (a + b)[1..] == a[1..] + b;
      assert (a + b)[0] == a[0] != '&';
    }
  }

  lemma OtherReferenceDiffers(c: char, x: char, rest: string)
    requires Special(c) && Special(x) && c != x
    ensures !(Reference(c) <= Reference(x) + rest)
  {
    assert Reference(c)[1] != Reference(x)[1];
    assert (Reference(x) + rest)[1] == Reference(x)[1];
  }

  lemma ReplaceAllHit(c: char, tail: string)
    requires Special(c)
    ensures ReplaceAll(Reference(c) + tail, Reference(c), [c]) == [c] + ReplaceAll(tail, Reference(c), [c])
  {
    assert (Reference(c) + tail)[|Reference(c)|..] == tail;
  }

  lemma ReplaceAllMiss(c: char, x: char, tail: string)
    requires Special(c) && Special(x) && c != x
    ensures ReplaceAll(Reference(x) + tail, Reference(c), [c])
         == Reference(x) + ReplaceAll(tail, Reference(c), [c])
  {
    hide Reference;
    ReferenceChars(c);
    ReferenceChars(x);
    OtherReferenceDiffers(c, x, tail);
    var head := Reference(x);
    assert (head + tail)[1..] == head[1..] + tail;
    ReplaceAllSkips(head[1..], tail, Reference(c), [c]);
    assert [head[0]] + (head[1..] + ReplaceAll(tail, Reference(c), [c])) == head + ReplaceAll(tail, Reference(c), [c]);
  }

  /** Undoing the replacement of one character narrows the map. */
  lemma {:induction false} ReplaceNarrowsMap(s: string, c: char, todo: set<char>)
    requires todo <= SPECIALS && c in todo && '&' in todo
    ensures ReplaceAll(EscapeMap(s, todo), Reference(c), [c]) == EscapeMap(s, todo - {c})
  {
    hide Reference, ReplaceAll;
    ReferenceChars(c);
    if s == "" {
      ReplaceAllNothing(Reference(c), [c]);
    } else {
      var tail := EscapeMap(s[1..], todo);
      ReplaceNarrowsMap(s[1..], c, todo);
      if s[0] == c {
        ReplaceAllHit(c, tail);
      } else if s[0] in todo {
        ReplaceAllMiss(c, s[0], tail);
      } else {
        ReplaceAllSkips([s[0]], tail, Reference(c), [c]);
      }
    }
  }

  lemma ReplaceAllNothing(pattern: string, r: string)
    requires pattern != ""
    ensures ReplaceAll("", pattern, r) == ""
  {
  }

  lemma {:induction false} EmptyMap(s: string)
    ensures EscapeMap(s, {}) == s
  {
    if s != "" {
      EmptyMap(s[1..]);
    }
  }

  /** MAIN RESULT. The reverse replacements restore every string. */
  lemma UnescapeRestores(s: string)
    ensures Unescape(Escape(s)) == s
  {
    hide ReplaceChar, ReplaceAll, EscapeMap;
    EscapeIsOnePass(s);
    ReplaceNarrowsMap(s, '\'', SPECIALS);
    ReplaceNarrowsMap(s, '"', {'&', '<', '>', '"'});
    ReplaceNarrowsMap(s, '>', {'&', '<', '>'});
    ReplaceNarrowsMap(s, '<', {'&', '<'});
    ReplaceNarrowsMap(s, '&', {'&'});
    assert SPECIALS - {'\''} == {'&', '<', '>', '"'};
    assert {'&', '<', '>', '"'} - {'"'} == {'&', '<', '>'};
    assert {'&', '<', '>'} - {'>'} == {'&', '<'};
    assert {'&', '<'} - {'<'} == {'&'};
    assert {'&'} - {'&'} == {};
    EmptyMap(s);
  }

  /** Two different texts never look the same once escaped. */
  lemma EscapeIsInjective(a: string, b: string)
    requires Escape(a) == Escape(b)
    ensures a == b
  {
    UnescapeRestores(a);
    UnescapeRestores(b);
  }
}
