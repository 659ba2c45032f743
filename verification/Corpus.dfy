/**
 Cutting a book into one memory per chapter (`scripts/perf/build_large_corpus.py`). What the regular
 expressions find is a list of matches: heading positions, in order and apart.
 */
module Corpus {
  import opened Wrappers

  datatype Heading = Heading(start: nat, end: nat, number: nat, name: string)

  datatype Memory = Memory(number: nat, name: string, content: string)

  datatype Error = NoChapters

  predicate Fits(h: Heading, n: nat) {
    h.start < h.end <= n
  }

  predicate Before(g: Heading, h: Heading) {
    g.end <= h.start
  }

  ghost predicate Apart(matches: seq<Heading>, n: nat) {
    && (forall i :: 0 <= i < |matches| ==> Fits(matches[i], n))
    && (forall i, j :: 0 <= i < j < |matches| ==> Before(matches[i], matches[j]))
  }

  // ----- Trimming -----

  /** What `str.strip` removes, within ASCII: tab to carriage return, the four separators, and the space. */
  predicate IsSpace(c: char) {
    c == ' ' || 9 <= c as int <= 13 || 28 <= c as int <= 31
  }

  function TrimLeft(s: string): string {
    if s != "" && IsSpace(s[0]) then TrimLeft(s[1..]) else s
  }

  function TrimRight(s: string): string {
    if s != "" && IsSpace(s[|s| - 1]) then TrimRight(s[..|s| - 1]) else s
  }

  function Strip(s: string): string {
    TrimRight(TrimLeft(s))
  }

  /** The characters that are not white space. */
  function Ink(s: string): string {
    if s == "" then "" else (if IsSpace(s[0]) then "" else [s[0]]) + Ink(s[1..])
  }

  lemma {:induction false} InkJoins(s: string, t: string)
    ensures Ink(s + t) == Ink(s) + Ink(t)
  {
    if s == "" {
      assert s + t == t;
    } else {
      assert (s + t)[1..] == s[1..] + t;
      InkJoins(s[1..], t);
    }
  }

  lemma {:induction false} TrimLeftKeepsInk(s: string)
    ensures Ink(TrimLeft(s)) == Ink(s)
    ensures TrimLeft(s) != "" ==> !IsSpace(TrimLeft(s)[0])
  {
    if s != "" && IsSpace(s[0]) {
      TrimLeftKeepsInk(s[1..]);
    }
  }

  lemma {:induction false} TrimRightKeepsInk(s: string)
    ensures Ink(TrimRight(s)) == Ink(s)
    ensures TrimRight(s) <= s && (TrimRight(s) != "" ==> !IsSpace(TrimRight(s)[|TrimRight(s)| - 1]))
  {
    if s != "" && IsSpace(s[|s| - 1]) {
      var front := s[..|s| - 1];
      TrimRightKeepsInk(front);
      assert s == front + [s[|s| - 1]];
      InkJoins(front, [s[|s| - 1]]);
      assert Ink([s[|s| - 1]]) == "";
    }
  }

  predicate Blank(s: string) {
    forall i :: 0 <= i < |s| ==> IsSpace(s[i])
  }

  lemma {:induction false} TrimLeftCuts(s: string) returns (k: nat)
    ensures k <= |s| && TrimLeft(s) == s[k..] && Blank(s[..k])
  {
    k := 0;
    if s != "" && IsSpace(s[0]) {
      k := TrimLeftCuts(s[1..]);
      assert s[1..][k..] == s[k + 1..];
      assert s[..k + 1] == [s[0]] + s[1..][..k];
      k := k + 1;
    }
  }

  lemma {:induction false} TrimRightCuts(s: string) returns (k: nat)
    ensures k <= |s| && TrimRight(s) == s[..k] && Blank(s[k..])
  {
    k := |s|;
    if s != "" && IsSpace(s[|s| - 1]) {
      k := TrimRightCuts(s[..|s| - 1]);
      assert s[..|s| - 1][..k] == s[..k];
      assert s[k..] == s[..|s| - 1][k..] + [s[|s| - 1]];
    }
  }

  /** Trimming cuts white space off the ends and nothing else; it leaves nothing exactly of blank text. */
  lemma StripMeaning(s: string)
    ensures exists i, j :: 0 <= i <= j <= |s| && Strip(s) == s[i..j] && Blank(s[..i]) && Blank(s[j..])
    ensures Strip(s) != "" ==> !IsSpace(Strip(s)[0]) && !IsSpace(Strip(s)[|Strip(s)| - 1])
    ensures Ink(Strip(s)) == Ink(s) && (Strip(s) == "" <==> Blank(s))
  {
    TrimLeftKeepsInk(s);
    TrimRightKeepsInk(TrimLeft(s));
    var i := TrimLeftCuts(s);
    var k := TrimRightCuts(s[i..]);
    hide TrimLeft, TrimRight, Ink;
    assert s[i..][..k] == s[i..i + k] && s[i..][k..] == s[i + k..];
    if Strip(s) == "" {
      assert s == s[..i] + s[i..];
    } else {
      assert s[i..][0] == s[i] && !IsSpace(s[i]);
    }
  }

  // ----- The banners -----

  /** Where the first banner of each kind stands, if it was found. */
  datatype Span = Span(start: nat, end: nat)

  function StripGutenberg(raw: string, opening: Option<Span>, closing: Option<Span>): string
    requires closing.Some? ==> closing.value.start <= |raw|
  {
    Strip(Slice(raw, if opening.Some? then opening.value.end else 0,
                if closing.Some? then closing.value.start else |raw|))
  }

  /** With the banners where they belong, what is left is the book, short of blank ends. */
  lemma BookIsKept(before: string, opening: string, book: string, closing: string, after: string)
    ensures var raw := before + opening + book + closing + after;
            var (o, c) := (|before| + |opening|, |before| + |opening| + |book|);
            StripGutenberg(raw, Some(Span(|before|, o)), Some(Span(c, c + |closing|))) == Strip(book)
  {
    var raw := before + opening + book + closing + after;
    assert raw[|before| + |opening|..|before| + |opening| + |book|] == book;
  }

  /** A banner that is not found takes nothing away on its side. */
  lemma MissingBanners(raw: string, opening: Option<Span>, closing: Option<Span>)
    requires opening.Some? ==> opening.value.end <= |raw|
    requires closing.Some? ==> closing.value.start <= |raw|
    ensures StripGutenberg(raw, None, None) == Strip(raw)
    ensures opening.Some? ==> StripGutenberg(raw, opening, None) == Strip(raw[opening.value.end..])
    ensures closing.Some? ==> StripGutenberg(raw, None, closing) == Strip(raw[..closing.value.start])
  {
    assert raw[0..|raw|] == raw;
    hide Strip;
  }

  // ----- Chapters -----

  /** Where the numbering starts again, or the beginning if it never does. */
  function Anchor(matches: seq<Heading>): (a: nat)
    requires matches != []
    ensures a < |matches|
    ensures a > 0 ==> matches[a].number == matches[0].number
    ensures forall i :: 0 < i < |matches| && (i < a || a == 0) ==> matches[i].number != matches[0].number
  {
    AnchorFrom(matches, 1)
  }

  function AnchorFrom(matches: seq<Heading>, i: nat): (a: nat)
    requires 0 < i <= |matches|
    ensures a < |matches| && (a == 0 || i <= a)
    ensures a > 0 ==> matches[a].number == matches[0].number
    ensures forall j :: i <= j < |matches| && (j < a || a == 0) ==> matches[j].number != matches[0].number
    decreases |matches| - i
  {
    if i == |matches| then 0
    else if matches[i].number == matches[0].number then i
    else AnchorFrom(matches, i + 1)
  }

  function SectionEnd(body: string, chapters: seq<Heading>, i: nat): nat {
    if i + 1 < |chapters| then chapters[i + 1].start else |body|
  }

  /** The text between one heading and the next. */
  function Section(body: string, chapters: seq<Heading>, i: nat): string
    requires i < |chapters| && Apart(chapters, |body|)
  {
    body[chapters[i].end..SectionEnd(body, chapters, i)]
  }

  function Memories(body: string, chapters: seq<Heading>, n: nat): seq<Memory>
    requires n <= |chapters| && Apart(chapters, |body|)
  {
    if n == 0 then []
    else
      var content := Strip(Section(body, chapters, n - 1));
      Memories(body, chapters, n - 1)
      + if content != "" then [Memory(chapters[n - 1].number, Strip(chapters[n - 1].name), content)] else []
  }

  method SplitChapters(body: string, matches: seq<Heading>) returns (r: Result<seq<Memory>, Error>)
    requires Apart(matches, |body|)
    ensures r.Err? <==> matches == []
    ensures r.Ok? ==>
              var chapters := matches[Anchor(matches)..];
              Apart(chapters, |body|) && r.value == Memories(body, chapters, |chapters|)
  {
    hide Strip, Anchor, AnchorFrom;
    if matches == [] {
      return Err(NoChapters);
    }
    var firstOne := matches[0].number;
    var bodyStart := 0;
    var i := 0;
    while i < |matches|
      invariant 0 <= i <= |matches| && bodyStart == 0
      invariant forall j :: 0 < j < i ==> matches[j].number != firstOne
    {
      if i > 0 && matches[i].number == firstOne {
        bodyStart := i;
        break;
      }
      i := i + 1;
    }
    assert bodyStart == Anchor(matches);
    var chapters := matches[bodyStart..];
    var out: seq<Memory> := [];
    for k := 0 to |chapters|
      invariant out == Memories(body, chapters, k)
    {
      var m := chapters[k];
      var textEnd := if k + 1 < |chapters| then chapters[k + 1].start else |body|;
      var content := Strip(body[m.end..textEnd]);
      if content != "" {
        out := out + [Memory(m.number, Strip(m.name), content)];
      }
    }
    return Ok(out);
  }

  /** A table of contents and then the chapters it lists: exactly the chapters are kept. */
  lemma ContentsAreSkipped(listed: seq<Heading>, chapters: seq<Heading>)
    requires listed != [] && chapters != [] && chapters[0].number == listed[0].number
    requires forall i :: 0 < i < |listed| ==> listed[i].number != listed[0].number
    ensures (listed + chapters)[Anchor(listed + chapters)..] == chapters
  {
    var all := listed + chapters;
    assert all[|listed|] == chapters[0] && all[0] == listed[0];
    assert forall i :: 0 < i < |listed| ==> all[i] == listed[i];
    assert Anchor(all) == |listed|;
  }

  // ----- What is kept -----

  function Contents(memories: seq<Memory>): string {
    if memories == [] then "" else Contents(memories[..|memories| - 1]) + memories[|memories| - 1].content
  }

  /** The body from the first chapter on, without its headings. */
  function Prose(body: string, chapters: seq<Heading>, n: nat): string
    requires n <= |chapters| && Apart(chapters, |body|)
  {
    if n == 0 then "" else Prose(body, chapters, n - 1) + Section(body, chapters, n - 1)
  }

  /** Each character of the prose is in one memory, in order: only white space is lost. */
  lemma {:induction false} ProseIsConserved(body: string, chapters: seq<Heading>, n: nat)
    requires n <= |chapters| && Apart(chapters, |body|)
    ensures Ink(Contents(Memories(body, chapters, n))) == Ink(Prose(body, chapters, n))
  {
    hide Ink, Strip, Section, Apart;
    if n > 0 {
      var (section, prose) := (Section(body, chapters, n - 1), Prose(body, chapters, n - 1));
      assert Prose(body, chapters, n) == prose + section;
      hide Memories, Contents, Prose;
      ProseIsConserved(body, chapters, n - 1);
      NextContents(body, chapters, n);
      StripKeepsInk(section);
      InkExtends(Contents(Memories(body, chapters, n - 1)), prose, Strip(section), section);
    } else {
      hide Prose;
      NothingYet(body, chapters);
    }
  }

  lemma NothingYet(body: string, chapters: seq<Heading>)
    requires Apart(chapters, |body|)
    ensures Contents(Memories(body, chapters, 0)) == Prose(body, chapters, 0)
  {
  }

  lemma StripKeepsInk(s: string)
    ensures Ink(Strip(s)) == Ink(s)
  {
    hide Strip, Ink, Blank;
    StripMeaning(s);
  }

  lemma {:induction false} InkExtends(s: string, t: string, s': string, t': string)
    requires Ink(s) == Ink(t) && Ink(s') == Ink(t')
    ensures Ink(s + s') == Ink(t + t')
  {
    hide Ink;
    InkJoins(s, s');
    InkJoins(t, t');
  }

  lemma NextContents(body: string, chapters: seq<Heading>, n: nat)
    requires 0 < n <= |chapters| && Apart(chapters, |body|)
    ensures Contents(Memories(body, chapters, n)) ==
            Contents(Memories(body, chapters, n - 1)) + Strip(Section(body, chapters, n - 1))
  {
    hide Strip, Section, Apart;
    var content, earlier := Strip(Section(body, chapters, n - 1)), Memories(body, chapters, n - 1);
    if content != "" {
      ContentsGrow(earlier, Memory(chapters[n - 1].number, Strip(chapters[n - 1].name), content));
    } else {
      assert Memories(body, chapters, n) == earlier && Contents(earlier) + content == Contents(earlier);
    }
    hide Contents;
  }

  lemma ContentsGrow(memories: seq<Memory>, m: Memory)
    ensures Contents(memories + [m]) == Contents(memories) + m.content
  {
    assert (memories + [m])[..|memories|] == memories;
  }

  /** Headings and sections tile the body: the lengths account for every character after the first heading begins. */
  lemma {:induction false} SectionsTile(body: string, chapters: seq<Heading>, n: nat)
    requires 0 < n <= |chapters| && Apart(chapters, |body|)
    ensures body[chapters[0].start..SectionEnd(body, chapters, n - 1)] == Tiles(body, chapters, n)
  {
    var m, end := chapters[n - 1], SectionEnd(body, chapters, n - 1);
    if n > 1 {
      SectionsTile(body, chapters, n - 1);
      assert body[chapters[0].start..end] == body[chapters[0].start..m.start] + body[m.start..m.end] + body[m.end..end];
    } else {
      assert Tiles(body, chapters, 0) == "";
      assert body[chapters[0].start..end] == body[m.start..m.end] + body[m.end..end];
    }
  }

  function Tiles(body: string, chapters: seq<Heading>, n: nat): string
    requires n <= |chapters| && Apart(chapters, |body|)
  {
    if n == 0 then ""
    else
      var c := chapters[n - 1];
      Tiles(body, chapters, n - 1) + body[c.start..c.end] + Section(body, chapters, n - 1)
  }

  /** No memory is blank or has blank ends. */
  lemma {:induction false} MemoriesAreTrimmed(body: string, chapters: seq<Heading>, n: nat)
    requires n <= |chapters| && Apart(chapters, |body|)
    ensures forall k :: 0 <= k < |Memories(body, chapters, n)| ==>
              var content := Memories(body, chapters, n)[k].content;
              content != "" && !IsSpace(content[0]) && !IsSpace(content[|content| - 1])
  {
    if n > 0 {
      MemoriesAreTrimmed(body, chapters, n - 1);
      StripMeaning(Section(body, chapters, n - 1));
      hide Strip, Section;
    }
  }

  // ----- Which chapters -----

  /** The chapters with text under their heading, in order. */
  function WithText(body: string, chapters: seq<Heading>, n: nat): (ks: seq<nat>)
    requires n <= |chapters| && Apart(chapters, |body|)
    ensures forall a :: 0 <= a < |ks| ==> ks[a] < n
  {
    if n == 0 then []
    else WithText(body, chapters, n - 1) + if Blank(Section(body, chapters, n - 1)) then [] else [n - 1]
  }

  lemma {:induction false} WithTextMeaning(body: string, chapters: seq<Heading>, n: nat)
    requires n <= |chapters| && Apart(chapters, |body|)
    ensures var ks := WithText(body, chapters, n);
            && (forall a, b :: 0 <= a < b < |ks| ==> ks[a] < ks[b])
            && forall i: nat :: i < n ==> (i in ks <==> !Blank(Section(body, chapters, i)))
  {
    hide Blank, Section, Apart;
    if n > 0 {
      WithTextMeaning(body, chapters, n - 1);
      var front := WithText(body, chapters, n - 1);
      assert n - 1 !in front;
    }
  }

  /**
   There is one memory for each chapter with text, in order, with its own heading's number and name and
   its own text.
   */
  lemma {:induction false} MemoriesAreChapters(body: string, chapters: seq<Heading>, n: nat)
    requires n <= |chapters| && Apart(chapters, |body|)
    ensures var (memories, ks) := (Memories(body, chapters, n), WithText(body, chapters, n));
            && |memories| == |ks|
            && forall k :: 0 <= k < |ks| ==> IsChapter(memories[k], body, chapters, ks[k])
  {
    hide Strip, Section, Blank, Apart, Ink;
    if n > 0 {
      MemoriesAreChapters(body, chapters, n - 1);
      StripMeaning(Section(body, chapters, n - 1));
    }
  }

  predicate IsChapter(memory: Memory, body: string, chapters: seq<Heading>, i: nat)
    requires i < |chapters| && Apart(chapters, |body|)
  {
    && memory.number == chapters[i].number && memory.name == Strip(chapters[i].name)
    && memory.content == Strip(Section(body, chapters, i))
  }
}
