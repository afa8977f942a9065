// The clean-up every transcript goes through after the service answers
// (VoiceInk-ios/RecordingManager.swift, VoiceInk-ios/NotesListView.swift and
// VoiceInk-ios/TranscriptionRetryService.swift carry the same chain): trim,
// then every run of two or more newlines becomes exactly two, then every run
// of spaces and tabs becomes one space.
module TextCleanup {
  import opened Base

  predicate IsBlankChar(c: char) { c == ' ' || c == '\t' }

  /** The text without its leading newlines. */
  function DropNewlines(s: string): (r: string)
    ensures |r| <= |s|
    ensures s != [] && s[0] == '\n' ==> |r| < |s|
    ensures r != [] ==> r[0] != '\n'
  {
    if s != [] && s[0] == '\n' then DropNewlines(s[1..]) else s
  }

  /** What `DropNewlines` keeps is a suffix, and only newlines go. */
  lemma {:induction false} DropNewlinesSuffix(s: string)
    ensures var r := DropNewlines(s);
      r == s[|s| - |r|..] && forall i :: 0 <= i < |s| - |r| ==> s[i] == '\n'
  {
    if s != [] && s[0] == '\n' {
      DropNewlinesSuffix(s[1..]);
    }
  }

  /** The text without its leading spaces and tabs. */
  function DropBlanks(s: string): (r: string)
    ensures |r| <= |s|
    ensures s != [] && IsBlankChar(s[0]) ==> |r| < |s|
    ensures r != [] ==> !IsBlankChar(r[0])
  {
    if s != [] && IsBlankChar(s[0]) then DropBlanks(s[1..]) else s
  }

  /** What `DropBlanks` keeps is a suffix, and only spaces and tabs go. */
  lemma {:induction false} DropBlanksSuffix(s: string)
    ensures var r := DropBlanks(s);
      r == s[|s| - |r|..] && forall i :: 0 <= i < |s| - |r| ==> IsBlankChar(s[i])
  {
    if s != [] && IsBlankChar(s[0]) {
      DropBlanksSuffix(s[1..]);
    }
  }

  /** No three newlines in a row. */
  predicate NoTripleNewline(s: string) {
    forall i :: 0 <= i < |s| - 2 ==> !(s[i] == '\n' && s[i + 1] == '\n' && s[i + 2] == '\n')
  }

  /** No tab, and no two spaces in a row. */
  predicate SingleSpaced(s: string) {
    && (forall i :: 0 <= i < |s| ==> s[i] != '\t')
    && (forall i :: 0 <= i < |s| - 1 ==> !(s[i] == ' ' && s[i + 1] == ' '))
  }

  /** A piece cut from the end of a text has no run the text lacks. */
  lemma NoTripleInSuffix(s: string, k: nat)
    requires NoTripleNewline(s) && k <= |s|
    ensures NoTripleNewline(s[k..])
  {
    forall i | 0 <= i < |s[k..]| - 2
      ensures !(s[k..][i] == '\n' && s[k..][i + 1] == '\n' && s[k..][i + 2] == '\n')
    {
      assert s[k..][i] == s[k + i] && s[k..][i + 1] == s[k + i + 1] && s[k..][i + 2] == s[k + i + 2];
    }
  }

  /** Putting a character in front of a text without triple newlines keeps
      it so, unless that character is a newline and the text opens with
      two. */
  lemma ConsNoTriple(c: char, t: string)
    requires NoTripleNewline(t)
    requires c == '\n' && |t| >= 2 ==> !(t[0] == '\n' && t[1] == '\n')
    ensures NoTripleNewline([c] + t)
  {
    var u := [c] + t;
    forall i | 0 <= i < |u| - 2 ensures !(u[i] == '\n' && u[i + 1] == '\n' && u[i + 2] == '\n') {
      if i > 0 {
        assert u[i] == t[i - 1] && u[i + 1] == t[i] && u[i + 2] == t[i + 1];
      }
    }
  }

  /** `replacingOccurrences(of: "\n\n+", with: "\n\n")`: a single newline
      stays, a longer run becomes two. Other characters, and the first and
      last character when they are not newlines, are kept. */
  function CollapseNewlines(s: string): (r: string)
    ensures r == [] <==> s == []
    ensures s != [] ==> (r[0] == '\n' <==> s[0] == '\n')
    ensures s != [] && s[0] != '\n' ==> r[0] == s[0]
    ensures s != [] && s[|s| - 1] != '\n' ==> r[|r| - 1] == s[|s| - 1]
    decreases |s|
  {
    if s == [] then []
    else if s[0] == '\n' then
      var rest := DropNewlines(s);
      DropNewlinesSuffix(s);
      (if |s| - |rest| >= 2 then "\n\n" else "\n") + CollapseNewlines(rest)
    else [s[0]] + CollapseNewlines(s[1..])
  }

  /** After collapsing, no three newlines follow each other. */
  lemma {:induction false} CollapseNewlinesBoundsRuns(s: string)
    ensures NoTripleNewline(CollapseNewlines(s))
    decreases |s|
  {
    if s == [] {
    } else if s[0] == '\n' {
      var rest := DropNewlines(s);
      var run := if |s| - |rest| >= 2 then "\n\n" else "\n";
      var tail := CollapseNewlines(rest);
      CollapseNewlinesBoundsRuns(rest);
      assert tail != [] ==> tail[0] != '\n';
      assert CollapseNewlines(s) == run + tail;
    } else {
      var tail := CollapseNewlines(s[1..]);
      CollapseNewlinesBoundsRuns(s[1..]);
      assert CollapseNewlines(s) == [s[0]] + tail;
    }
  }

  /** `replacingOccurrences(of: "[ \t]+", with: " ")`: each run of spaces
      and tabs becomes one space; every other character is kept. */
  function CollapseBlanks(s: string): (r: string)
    ensures r == [] <==> s == []
    ensures SingleSpaced(r)
    ensures s != [] ==> r[0] == if IsBlankChar(s[0]) then ' ' else s[0]
    ensures s != [] && !IsBlankChar(s[|s| - 1]) ==> r[|r| - 1] == s[|s| - 1]
    decreases |s|
  {
    if s == [] then []
    else if IsBlankChar(s[0]) then
      DropBlanksSuffix(s);
      " " + CollapseBlanks(DropBlanks(s))
    else [s[0]] + CollapseBlanks(s[1..])
  }

  /** A newline is never removed or added by collapsing blanks, so no run of
      three newlines appears. */
  lemma {:induction false} CollapseBlanksKeepsNewlineRuns(s: string)
    requires NoTripleNewline(s)
    ensures NoTripleNewline(CollapseBlanks(s))
    decreases |s|
  {
    if s == [] {
    } else if IsBlankChar(s[0]) {
      var d := DropBlanks(s);
      DropBlanksSuffix(s);
      NoTripleInSuffix(s, |s| - |d|);
      CollapseBlanksKeepsNewlineRuns(d);
      ConsNoTriple(' ', CollapseBlanks(d));
    } else {
      var t := CollapseBlanks(s[1..]);
      NoTripleInSuffix(s, 1);
      CollapseBlanksKeepsNewlineRuns(s[1..]);
      ConsNoTriple(s[0], t);
    }
  }

  /** The cleaned transcript. */
  function Clean(raw: string): (r: string)
    ensures SingleSpaced(r) && NoTripleNewline(r)
    ensures r != [] ==> !IsWhitespace(r[0]) && !IsWhitespace(r[|r| - 1])
    ensures r == [] <==> IsBlank(raw)
  {
    CollapseNewlinesBoundsRuns(Trim(raw));
    CollapseBlanksKeepsNewlineRuns(CollapseNewlines(Trim(raw)));
    CollapseBlanks(CollapseNewlines(Trim(raw)))
  }

  /** The characters other than whitespace, in order. */
  function Visible(s: string): string {
    if s == [] then []
    else (if IsWhitespace(s[0]) then [] else [s[0]]) + Visible(s[1..])
  }

  lemma {:induction false} VisibleAppend(a: string, b: string)
    ensures Visible(a + b) == Visible(a) + Visible(b)
  {
    if a != [] {
      assert (a + b)[1..] == a[1..] + b;
      VisibleAppend(a[1..], b);
    } else {
      assert a + b == b;
    }
  }

  /** Whitespace in front of a text adds nothing visible. */
  lemma {:induction false} VisibleBehindWhitespace(w: string, t: string)
    requires AllWhitespace(w)
    ensures Visible(w + t) == Visible(t)
  {
    if w != [] {
      assert (w + t)[1..] == w[1..] + t;
      VisibleBehindWhitespace(w[1..], t);
    } else {
      assert w + t == t;
    }
  }

  lemma VisibleOfWhitespace(w: string)
    requires AllWhitespace(w)
    ensures Visible(w) == []
  {
    VisibleBehindWhitespace(w, []);
    assert w + [] == w;
  }

  /** Whitespace in front changes nothing that is visible. */
  lemma VisibleAfterWhitespace(s: string, k: nat)
    requires k <= |s| && forall i :: 0 <= i < k ==> IsWhitespace(s[i])
    ensures Visible(s) == Visible(s[k..])
  {
    assert s == s[..k] + s[k..];
    VisibleBehindWhitespace(s[..k], s[k..]);
  }

  /** One step of the newline collapse: a run of newlines is replaced by
      one or two, which are equally invisible. */
  lemma NewlineRunVisible(s: string)
    requires s != [] && s[0] == '\n'
    ensures Visible(CollapseNewlines(s)) == Visible(CollapseNewlines(DropNewlines(s)))
    ensures Visible(DropNewlines(s)) == Visible(s)
  {
    var rest := DropNewlines(s);
    var tail := CollapseNewlines(rest);
    var run := if |s| - |rest| >= 2 then "\n\n" else "\n";
    DropNewlinesSuffix(s);
    assert AllWhitespace(run);
    assert CollapseNewlines(s) == run + tail;
    VisibleBehindWhitespace(run, tail);
    VisibleAfterWhitespace(s, |s| - |rest|);
  }

  /** One step of either collapse past a character it keeps. */
  lemma KeptCharVisible(s: string, r: string, tail: string)
    requires s != [] && r == [s[0]] + tail
    requires Visible(tail) == Visible(s[1..])
    ensures Visible(r) == Visible(s)
  {
    assert r[1..] == tail;
  }

  lemma {:induction false} CollapseNewlinesVisible(s: string)
    ensures Visible(CollapseNewlines(s)) == Visible(s)
    decreases |s|
  {
    if s != [] {
      if s[0] == '\n' {
        CollapseNewlinesVisible(DropNewlines(s));
        NewlineRunVisible(s);
      } else {
        CollapseNewlinesVisible(s[1..]);
        KeptCharVisible(s, CollapseNewlines(s), CollapseNewlines(s[1..]));
      }
    }
  }

  /** One step of the blank collapse: a run of spaces and tabs is replaced
      by one space, which is invisible. */
  lemma BlankRunVisible(s: string)
    requires s != [] && IsBlankChar(s[0])
    ensures Visible(CollapseBlanks(s)) == Visible(CollapseBlanks(DropBlanks(s)))
  {
    var tail := CollapseBlanks(DropBlanks(s));
    assert CollapseBlanks(s) == " " + tail;
    VisibleBehindWhitespace(" ", tail);
  }

  /** The spaces and tabs the collapse drops are invisible. */
  lemma DroppedBlanksInvisible(s: string)
    ensures Visible(DropBlanks(s)) == Visible(s)
  {
    var rest := DropBlanks(s);
    DropBlanksSuffix(s);
    var k := |s| - |rest|;
    forall i | 0 <= i < k ensures IsWhitespace(s[i]) {
      assert IsBlankChar(s[i]);
    }
    VisibleAfterWhitespace(s, k);
  }

  lemma {:induction false} CollapseBlanksVisible(s: string)
    ensures Visible(CollapseBlanks(s)) == Visible(s)
    decreases |s|
  {
    if s != [] {
      if IsBlankChar(s[0]) {
        CollapseBlanksVisible(DropBlanks(s));
        BlankRunVisible(s);
        DroppedBlanksInvisible(s);
      } else {
        CollapseBlanksVisible(s[1..]);
        KeptCharVisible(s, CollapseBlanks(s), CollapseBlanks(s[1..]));
      }
    }
  }

  lemma TrimVisible(s: string)
    ensures Visible(Trim(s)) == Visible(s)
  {
    var t := TrimStart(s);
    var u := TrimEnd(t);
    TrimStartDropsWhitespace(s);
    TrimEndDropsWhitespace(t);
    assert Trim(s) == u;
    assert s == s[..|s| - |t|] + t;
    VisibleBehindWhitespace(s[..|s| - |t|], t);
    assert t == u + t[|u|..];
    VisibleAppend(u, t[|u|..]);
    VisibleOfWhitespace(t[|u|..]);
  }

  /** Cleaning only ever removes or replaces whitespace: the visible
      characters come out exactly as they went in. */
  lemma CleanKeepsVisibleText(raw: string)
    ensures Visible(Clean(raw)) == Visible(raw)
  {
    TrimVisible(raw);
    CollapseNewlinesVisible(Trim(raw));
    CollapseBlanksVisible(CollapseNewlines(Trim(raw)));
  }

  // ---------------------------------------------------------------------------
  // Words: cleaning keeps every word and every word boundary

  /** The word being read, if any, as a list of at most one word. */
  function Flush(cur: string): seq<string> {
    if cur == [] then [] else [cur]
  }

  /** The maximal runs of characters other than whitespace in `s`, the first
      of them extended at the front by the partial word `cur`. */
  function WordsFrom(cur: string, s: string): seq<string>
    decreases |s|
  {
    if s == [] then Flush(cur)
    else if IsWhitespace(s[0]) then Flush(cur) + WordsFrom([], s[1..])
    else WordsFrom(cur + [s[0]], s[1..])
  }

  /** The words of a text: its maximal runs of non-whitespace characters. */
  function Words(s: string): seq<string> {
    WordsFrom([], s)
  }

  /** One step of reading a word list. */
  lemma WordsFromCons(cur: string, c: char, x: string)
    ensures WordsFrom(cur, [c] + x) ==
      if IsWhitespace(c) then Flush(cur) + WordsFrom([], x) else WordsFrom(cur + [c], x)
  {
    assert ([c] + x)[1..] == x;
  }

  /** A non-empty whitespace run ends the word being read, whatever its
      length and whichever white-space characters it holds. */
  lemma {:induction false} WhitespaceRunSeparates(cur: string, w: string, x: string)
    requires w != [] && AllWhitespace(w)
    ensures WordsFrom(cur, w + x) == Flush(cur) + WordsFrom([], x)
    decreases |w|
  {
    assert w + x == [w[0]] + (w[1..] + x);
    WordsFromCons(cur, w[0], w[1..] + x);
    if w[1..] != [] {
      WhitespaceRunSeparates([], w[1..], x);
    }
  }

  /** Trailing whitespace adds no word. */
  lemma {:induction false} TrailingWhitespaceNoWord(cur: string, r: string, w: string)
    requires AllWhitespace(w)
    ensures WordsFrom(cur, r + w) == WordsFrom(cur, r)
    decreases |r|
  {
    if r == [] {
      assert r + w == w;
      if w != [] {
        assert w + [] == w;
        WhitespaceRunSeparates(cur, w, []);
        assert Flush(cur) + [] == Flush(cur);
      }
    } else {
      assert r + w == [r[0]] + (r[1..] + w);
      assert r == [r[0]] + r[1..];
      WordsFromCons(cur, r[0], r[1..] + w);
      WordsFromCons(cur, r[0], r[1..]);
      if IsWhitespace(r[0]) {
        TrailingWhitespaceNoWord([], r[1..], w);
      } else {
        TrailingWhitespaceNoWord(cur + [r[0]], r[1..], w);
      }
    }
  }

  /** Trimming drops whitespace only at the ends, so no word changes. */
  lemma TrimKeepsWords(s: string)
    ensures Words(Trim(s)) == Words(s)
  {
    var t := TrimStart(s);
    var u := TrimEnd(t);
    TrimStartDropsWhitespace(s);
    TrimEndDropsWhitespace(t);
    assert Trim(s) == u;
    var lead := s[..|s| - |t|];
    assert s == lead + t;
    if lead != [] {
      WhitespaceRunSeparates([], lead, t);
    }
    assert t == u + t[|u|..];
    TrailingWhitespaceNoWord([], u, t[|u|..]);
  }

  /** Shortening a newline run to one or two newlines keeps every word and
      every boundary between words. */
  lemma {:induction false} CollapseNewlinesKeepsWords(cur: string, s: string)
    ensures WordsFrom(cur, CollapseNewlines(s)) == WordsFrom(cur, s)
    decreases |s|
  {
    if s == [] {
    } else if s[0] == '\n' {
      var rest := DropNewlines(s);
      DropNewlinesSuffix(s);
      var run := if |s| - |rest| >= 2 then "\n\n" else "\n";
      var lead := s[..|s| - |rest|];
      assert s == lead + rest;
      assert CollapseNewlines(s) == run + CollapseNewlines(rest);
      WhitespaceRunSeparates(cur, run, CollapseNewlines(rest));
      WhitespaceRunSeparates(cur, lead, rest);
      CollapseNewlinesKeepsWords([], rest);
    } else {
      assert CollapseNewlines(s) == [s[0]] + CollapseNewlines(s[1..]);
      assert s == [s[0]] + s[1..];
      WordsFromCons(cur, s[0], CollapseNewlines(s[1..]));
      WordsFromCons(cur, s[0], s[1..]);
      if IsWhitespace(s[0]) {
        CollapseNewlinesKeepsWords([], s[1..]);
      } else {
        CollapseNewlinesKeepsWords(cur + [s[0]], s[1..]);
      }
    }
  }

  /** Replacing a run of spaces and tabs by one space keeps every word and
      every boundary between words. */
  lemma {:induction false} CollapseBlanksKeepsWords(cur: string, s: string)
    ensures WordsFrom(cur, CollapseBlanks(s)) == WordsFrom(cur, s)
    decreases |s|
  {
    if s == [] {
    } else if IsBlankChar(s[0]) {
      var rest := DropBlanks(s);
      DropBlanksSuffix(s);
      var lead := s[..|s| - |rest|];
      assert s == lead + rest;
      assert CollapseBlanks(s) == " " + CollapseBlanks(rest);
      WhitespaceRunSeparates(cur, " ", CollapseBlanks(rest));
      WhitespaceRunSeparates(cur, lead, rest);
      CollapseBlanksKeepsWords([], rest);
    } else {
      assert CollapseBlanks(s) == [s[0]] + CollapseBlanks(s[1..]);
      assert s == [s[0]] + s[1..];
      WordsFromCons(cur, s[0], CollapseBlanks(s[1..]));
      WordsFromCons(cur, s[0], s[1..]);
      if IsWhitespace(s[0]) {
        CollapseBlanksKeepsWords([], s[1..]);
      } else {
        CollapseBlanksKeepsWords(cur + [s[0]], s[1..]);
      }
    }
  }

  /** Cleaning collapses whitespace but never deletes a boundary: the cleaned
      transcript has exactly the words of the raw text, in order, so
      "hello   world" cannot become "helloworld". */
  lemma CleanKeepsWords(raw: string)
    ensures Words(Clean(raw)) == Words(raw)
  {
    TrimKeepsWords(raw);
    CollapseNewlinesKeepsWords([], Trim(raw));
    CollapseBlanksKeepsWords([], CollapseNewlines(Trim(raw)));
  }
}
