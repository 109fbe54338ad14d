/**
 The splitting of a Markdown draft into audited blocks.

 A draft is read line by line. A block is one table row, one list item, or one maximal run of
 adjacent prose lines; each is filed under the level-two heading above it. Lines inside code fences
 do not exist for any of this, headings inside fences included.
 */
module Blocks {
  // ---------- Characters and lines ----------

  predicate Space(c: char) {
    var n := c as int;
    9 <= n <= 13 || 28 <= n <= 32 || n == 0x85 || n == 0xA0 || n == 0x1680 || 0x2000 <= n <= 0x200A ||
    n == 0x2028 || n == 0x2029 || n == 0x202F || n == 0x205F || n == 0x3000
  }

  predicate LineBreak(c: char) {
    var n := c as int;
    10 <= n <= 13 || 28 <= n <= 30 || n == 0x85 || n == 0x2028 || n == 0x2029
  }

  // The text after its first line break.
  function AfterBreak(text: string): (rest: string)
    requires text != ""
    ensures |rest| < |text|
  {
    if |text| >= 2 && text[0] == '\r' && text[1] == '\n' then text[2..] else text[1..]
  }

  // str.splitlines: a carriage return and line feed make one break, a final break opens no line.
  function SplitLines(text: string, current: string := ""): seq<string>
    decreases |text|
  {
    if text == "" then
      if current == "" then [] else [current]
    else if LineBreak(text[0]) then
      [current] + SplitLines(AfterBreak(text))
    else
      SplitLines(text[1..], current + [text[0]])
  }

  function Lstrip(s: string): string {
    if s != "" && Space(s[0]) then Lstrip(s[1..]) else s
  }

  function Rstrip(s: string): string {
    if s != "" && Space(s[|s| - 1]) then Rstrip(s[..|s| - 1]) else s
  }

  function Strip(s: string): string {
    Rstrip(Lstrip(s))
  }

  predicate Starts(s: string, prefix: string) {
    |prefix| <= |s| && s[..|prefix|] == prefix
  }

  // ---------- What a line is ----------

  datatype Kind =
    | Fence
    | Heading(title: string)
    | Blank
    | Rule
    | Row(text: string)
    | Item(text: string)
    | Prose(text: string)

  function Digits(s: string): (n: nat)
    ensures n <= |s|
  {
    if s != "" && '0' <= s[0] <= '9' then 1 + Digits(s[1..]) else 0
  }

  // The length of a leading bullet or number, 0 without one.
  function MarkerLength(line: string): (n: nat)
    ensures n <= |line|
  {
    if line != "" && (line[0] == '-' || line[0] == '*') then 1
    else
      var n := Digits(line);
      if 0 < n < |line| && line[n] == '.' then n + 1 else 0
  }

  predicate IsItem(line: string) {
    var n := MarkerLength(line);
    0 < n < |line| && Space(line[n])
  }

  predicate IsRule(line: string) {
    var cells := if Starts(line, "|") then line[1..] else line;
    var dashes := Lstrip(cells);
    Starts(if Starts(dashes, ":") then dashes[1..] else dashes, "---")
  }

  function KindOf(line: string): Kind {
    if Starts(line, "```") then Fence
    else if Starts(line, "## ") then Heading(Strip(line[3..]))
    else if Starts(line, "# ") || line == "" then Blank
    else if Starts(line, "|") then (if IsRule(line) then Rule else Row(line))
    else if IsItem(line) then Item(Lstrip(line[MarkerLength(line)..]))
    else Prose(line)
  }

  function Kinds(lines: seq<string>): (kinds: seq<Kind>)
    ensures |kinds| == |lines|
  {
    if lines == [] then [] else [KindOf(Strip(lines[0]))] + Kinds(lines[1..])
  }

  // The lines of a text, each for what it is.
  function Lines(text: string): seq<Kind> {
    Kinds(SplitLines(text))
  }

  // ---------- What a line means where it stands ----------

  // Every fence opens or closes a code block.
  predicate Fenced(lines: seq<Kind>, i: nat)
    requires i <= |lines|
  {
    i > 0 && Fenced(lines, i - 1) != lines[i - 1].Fence?
  }

  predicate HeadingAt(lines: seq<Kind>, i: nat)
    requires i < |lines|
  {
    !Fenced(lines, i) && lines[i].Heading?
  }

  // The title of the last heading above the line.
  function SectionAt(lines: seq<Kind>, i: nat): string
    requires i <= |lines|
  {
    if i == 0 then ""
    else if HeadingAt(lines, i - 1) then lines[i - 1].title
    else SectionAt(lines, i - 1)
  }

  // A line is a block of its own, is part of a paragraph, or is in no block.
  datatype Place = Nowhere | Alone(section: string, text: string) | Flowing(section: string, text: string)

  function PlaceAt(lines: seq<Kind>, i: nat): Place
    requires i < |lines|
  {
    if Fenced(lines, i) then Nowhere
    else
      match lines[i]
      case Row(text) => Alone(SectionAt(lines, i), text)
      case Item(text) => Alone(SectionAt(lines, i), text)
      case Prose(text) => Flowing(SectionAt(lines, i), text)
      case _ => Nowhere
  }

  // The places of the first n lines.
  function PlacesUpTo(lines: seq<Kind>, n: nat): (places: seq<Place>)
    requires n <= |lines|
    ensures |places| == n
  {
    if n == 0 then [] else PlacesUpTo(lines, n - 1) + [PlaceAt(lines, n - 1)]
  }

  function Places(lines: seq<Kind>): (places: seq<Place>)
    ensures |places| == |lines|
  {
    PlacesUpTo(lines, |lines|)
  }

  lemma {:induction false} PlacesUpToAt(lines: seq<Kind>, n: nat, i: nat)
    requires i < n <= |lines|
    ensures PlacesUpTo(lines, n)[i] == PlaceAt(lines, i)
  {
    if i < n - 1 {
      PlacesUpToAt(lines, n - 1, i);
    }
  }

  lemma PlacesAt(lines: seq<Kind>, i: nat)
    requires i < |lines|
    ensures Places(lines)[i] == PlaceAt(lines, i)
  {
    PlacesUpToAt(lines, |lines|, i);
  }

  function FenceCount(lines: seq<Kind>, i: nat): nat
    requires i <= |lines|
  {
    |set j | 0 <= j < i && lines[j].Fence?|
  }

  // A line is fenced exactly when an odd number of fences stands above it.
  lemma {:induction false} FencedIsOddCount(lines: seq<Kind>, i: nat)
    requires i <= |lines|
    ensures Fenced(lines, i) <==> FenceCount(lines, i) % 2 == 1
  {
    if i > 0 {
      FencedIsOddCount(lines, i - 1);
      var above := set j | 0 <= j < i - 1 && lines[j].Fence?;
      var all := set j | 0 <= j < i && lines[j].Fence?;
      assert all == above + if lines[i - 1].Fence? then {i - 1} else {};
    }
  }

  predicate NoHeading(lines: seq<Kind>, from: nat, to: nat)
    requires to <= |lines|
  {
    forall j | from <= j < to :: !HeadingAt(lines, j)
  }

  lemma {:induction false} SectionLasts(lines: seq<Kind>, from: nat, to: nat)
    requires from <= to <= |lines| && NoHeading(lines, from, to)
    ensures SectionAt(lines, to) == SectionAt(lines, from)
  {
    if from < to {
      SectionLasts(lines, from, to - 1);
    }
  }

  // A section is the title of the nearest heading above, or empty when there is none.
  lemma NearestHeading(lines: seq<Kind>, i: nat)
    requires i <= |lines|
    ensures NoHeading(lines, 0, i) ==> SectionAt(lines, i) == ""
    ensures forall h | 0 <= h < i && HeadingAt(lines, h) && NoHeading(lines, h + 1, i) ::
              SectionAt(lines, i) == lines[h].title
  {
    if NoHeading(lines, 0, i) {
      SectionLasts(lines, 0, i);
    }
    forall h | 0 <= h < i && HeadingAt(lines, h) && NoHeading(lines, h + 1, i)
      ensures SectionAt(lines, i) == lines[h].title
    {
      SectionLasts(lines, h + 1, i);
      assert SectionAt(lines, h + 1) == lines[h].title;
    }
  }

  // A fence that is never closed hides every line below it.
  lemma {:induction false} UnclosedFenceHidesRest(lines: seq<Kind>, fence: nat, i: nat)
    requires fence < i < |lines| && lines[fence].Fence? && !Fenced(lines, fence)
    requires forall j | fence < j < i :: !lines[j].Fence?
    ensures Fenced(lines, i) && Places(lines)[i] == Nowhere
  {
    PlacesAt(lines, i);
    if fence + 1 < i {
      UnclosedFenceHidesRest(lines, fence, i - 1);
    }
  }

  // ---------- Blocks ----------

  datatype Block = Block(section: string, text: string)

  // The lines from the first up to the second form one block.
  datatype Span = Span(lo: nat, hi: nat)

  predicate FlowingBetween(places: seq<Place>, lo: nat, hi: nat)
    requires hi <= |places|
  {
    forall i | lo <= i < hi :: places[i].Flowing?
  }

  // A longest run of adjacent prose lines.
  predicate ProseRun(places: seq<Place>, span: Span) {
    && span.lo < span.hi <= |places|
    && FlowingBetween(places, span.lo, span.hi)
    && (span.lo > 0 ==> !places[span.lo - 1].Flowing?)
    && (span.hi < |places| ==> !places[span.hi].Flowing?)
  }

  predicate IsSpan(places: seq<Place>, span: Span) {
    || (span.hi == span.lo + 1 <= |places| && places[span.lo].Alone?)
    || ProseRun(places, span)
  }

  function TextOf(place: Place): string {
    if place.Nowhere? then "" else place.text
  }

  function Texts(places: seq<Place>, lo: nat, hi: nat): seq<string>
    requires lo <= hi <= |places|
  {
    if lo == hi then [] else Texts(places, lo, hi - 1) + [TextOf(places[hi - 1])]
  }

  function JoinWithSpaces(texts: seq<string>): string {
    if texts == [] then "" else if |texts| == 1 then texts[0] else texts[0] + " " + JoinWithSpaces(texts[1..])
  }

  function BlockOf(places: seq<Place>, span: Span): Block
    requires IsSpan(places, span)
  {
    Block(places[span.lo].section, JoinWithSpaces(Texts(places, span.lo, span.hi)))
  }

  predicate Gap(places: seq<Place>, from: nat, to: nat)
    requires to <= |places|
  {
    forall i | from <= i < to :: places[i].Nowhere?
  }

  // The spans follow each other up to `end` with nothing but placeless lines between them.
  predicate Tiled(places: seq<Place>, spans: seq<Span>, end: nat)
    requires end <= |places|
  {
    if spans == [] then Gap(places, 0, end) else
    var last := spans[|spans| - 1];
    IsSpan(places, last) && last.hi <= end && Gap(places, last.hi, end) && Tiled(places, spans[..|spans| - 1], last.lo)
  }

  // The blocks that spans show.
  function Rendered(places: seq<Place>, spans: seq<Span>): seq<Block>
    requires forall span | span in spans :: IsSpan(places, span)
  {
    if spans == [] then [] else Rendered(places, spans[..|spans| - 1]) + [BlockOf(places, spans[|spans| - 1])]
  }

  predicate Shows(places: seq<Place>, spans: seq<Span>, blocks: seq<Block>, end: nat)
    requires end <= |places|
  {
    && Tiled(places, spans, end)
    && (forall span | span in spans :: IsSpan(places, span))
    && blocks == Rendered(places, spans)
  }

  ghost predicate AreBlocks(places: seq<Place>, blocks: seq<Block>) {
    exists spans :: Shows(places, spans, blocks, |places|)
  }

  // ---------- The splitter ----------

  function Flush(blocks: seq<Block>, section: string, paragraph: seq<string>): seq<Block> {
    if paragraph == [] then blocks else blocks + [Block(section, JoinWithSpaces(paragraph))]
  }

  // The paragraph holds the prose lines from `start` up to `i`.
  ghost predicate Pending(places: seq<Place>, section: string, paragraph: seq<string>, start: nat, i: nat) {
    && start <= i <= |places|
    && FlowingBetween(places, start, i)
    && (start > 0 ==> !places[start - 1].Flowing?)
    && paragraph == Texts(places, start, i)
    && (start < i ==> section == places[start].section)
  }

  // One more block is added below all others.
  lemma ShowsMore(places: seq<Place>, spans: seq<Span>, blocks: seq<Block>, span: Span)
    requires IsSpan(places, span) && Shows(places, spans, blocks, span.lo)
    ensures Shows(places, spans + [span], blocks + [BlockOf(places, span)], span.hi)
  {
    var more := spans + [span];
    assert more[..|more| - 1] == spans && more[|more| - 1] == span;
  }

  // The spans, once the paragraph begun at `start` ends before line `i`.
  ghost function Closed(spans: seq<Span>, start: nat, i: nat): seq<Span> {
    if start < i then spans + [Span(start, i)] else spans
  }

  lemma ShowsFlushed(places: seq<Place>, spans: seq<Span>, blocks: seq<Block>,
                     section: string, paragraph: seq<string>, start: nat, i: nat)
    requires Pending(places, section, paragraph, start, i) && Shows(places, spans, blocks, start)
    requires i < |places| ==> !places[i].Flowing?
    ensures Shows(places, Closed(spans, start, i), Flush(blocks, section, paragraph), i)
  {
    if start < i {
      assert ProseRun(places, Span(start, i));
      ShowsMore(places, spans, blocks, Span(start, i));
    }
  }

  lemma PendingMore(places: seq<Place>, section: string, paragraph: seq<string>, start: nat, i: nat)
    requires Pending(places, section, paragraph, start, i) && i < |places| && places[i].Flowing?
    requires section == places[i].section
    ensures Pending(places, section, paragraph + [places[i].text], start, i + 1)
  {
    assert Texts(places, start, i + 1) == Texts(places, start, i) + [places[i].text];
  }

  lemma PendingNone(places: seq<Place>, section: string, i: nat)
    requires 0 < i <= |places| && !places[i - 1].Flowing?
    ensures Pending(places, section, [], i, i)
  {
  }

  // The blocks once a line that is not prose has been read.
  ghost function Next(place: Place, blocks: seq<Block>, section: string, paragraph: seq<string>): seq<Block> {
    Flush(blocks, section, paragraph) + if place.Alone? then [Block(place.section, place.text)] else []
  }

  ghost function NextSpans(place: Place, spans: seq<Span>, start: nat, i: nat): seq<Span> {
    Closed(spans, start, i) + if place.Alone? then [Span(i, i + 1)] else []
  }

  lemma ShowsAlone(places: seq<Place>, spans: seq<Span>, blocks: seq<Block>, i: nat)
    requires i < |places| && places[i].Alone? && Shows(places, spans, blocks, i)
    ensures Shows(places, spans + [Span(i, i + 1)], blocks + [Block(places[i].section, places[i].text)], i + 1)
  {
    assert Texts(places, i, i) == [] && Texts(places, i, i + 1) == [places[i].text];
    assert BlockOf(places, Span(i, i + 1)) == Block(places[i].section, places[i].text);
    ShowsMore(places, spans, blocks, Span(i, i + 1));
  }

  lemma ShowsNothing(places: seq<Place>, spans: seq<Span>, blocks: seq<Block>, i: nat)
    requires i < |places| && places[i].Nowhere? && Shows(places, spans, blocks, i)
    ensures Shows(places, spans, blocks, i + 1)
  {
  }

  lemma StepOver(places: seq<Place>, spans: seq<Span>, blocks: seq<Block>,
                 section: string, paragraph: seq<string>, start: nat, i: nat)
    requires Pending(places, section, paragraph, start, i) && Shows(places, spans, blocks, start)
    requires i < |places| && !places[i].Flowing?
    ensures Shows(places, NextSpans(places[i], spans, start, i), Next(places[i], blocks, section, paragraph), i + 1)
  {
    ShowsFlushed(places, spans, blocks, section, paragraph, start, i);
    var closed, flushed := Closed(spans, start, i), Flush(blocks, section, paragraph);
    if places[i].Alone? {
      ShowsAlone(places, closed, flushed, i);
      assert NextSpans(places[i], spans, start, i) == closed + [Span(i, i + 1)];
    } else {
      ShowsNothing(places, closed, flushed, i);
      assert NextSpans(places[i], spans, start, i) == closed;
      assert Next(places[i], blocks, section, paragraph) == flushed;
    }
  }

  // The blocks and the open paragraph once a line has been read.
  ghost function BlocksAfter(place: Place, blocks: seq<Block>, section: string, paragraph: seq<string>): seq<Block> {
    if place.Flowing? then blocks else Next(place, blocks, section, paragraph)
  }

  ghost function ParagraphAfter(place: Place, paragraph: seq<string>): seq<string> {
    if place.Flowing? then paragraph + [place.text] else []
  }

  lemma Advance(places: seq<Place>, spans: seq<Span>, blocks: seq<Block>,
                section: string, paragraph: seq<string>, start: nat, i: nat, later: string)
    returns (spans': seq<Span>, start': nat)
    requires Pending(places, section, paragraph, start, i) && Shows(places, spans, blocks, start)
    requires i < |places| && (places[i].Flowing? ==> later == section == places[i].section)
    ensures start' <= |places|
    ensures Pending(places, later, ParagraphAfter(places[i], paragraph), start', i + 1)
    ensures Shows(places, spans', BlocksAfter(places[i], blocks, section, paragraph), start')
  {
    if places[i].Flowing? {
      PendingMore(places, section, paragraph, start, i);
      spans', start' := spans, start;
    } else {
      StepOver(places, spans, blocks, section, paragraph, start, i);
      PendingNone(places, later, i + 1);
      spans', start' := NextSpans(places[i], spans, start, i), i + 1;
    }
  }

  lemma ShowsAll(places: seq<Place>, spans: seq<Span>, blocks: seq<Block>,
                 section: string, paragraph: seq<string>, start: nat)
    requires Pending(places, section, paragraph, start, |places|) && Shows(places, spans, blocks, start)
    ensures AreBlocks(places, Flush(blocks, section, paragraph))
  {
    ShowsFlushed(places, spans, blocks, section, paragraph, start, |places|);
    assert Shows(places, Closed(spans, start, |places|), Flush(blocks, section, paragraph), |places|);
  }

  method ReadLine(lines: seq<Kind>, i: nat, blocks: seq<Block>, section: string, paragraph: seq<string>, fenced: bool)
    returns (blocks': seq<Block>, section': string, paragraph': seq<string>, fenced': bool)
    requires i < |lines| && fenced == Fenced(lines, i) && section == SectionAt(lines, i)
    requires fenced ==> paragraph == []
    ensures fenced' == Fenced(lines, i + 1) && section' == SectionAt(lines, i + 1)
    ensures fenced' ==> paragraph' == []
    ensures blocks' == BlocksAfter(PlaceAt(lines, i), blocks, section, paragraph)
    ensures paragraph' == ParagraphAfter(PlaceAt(lines, i), paragraph)
  {
    blocks', section', paragraph', fenced' := blocks, section, paragraph, fenced;
    match lines[i] {
      case Fence =>
        blocks', paragraph' := Flush(blocks, section, paragraph), [];
        fenced' := !fenced;
      case _ =>
        if fenced {
          return;
        }
        match lines[i] {
          case Prose(text) =>
            paragraph' := paragraph + [text];
          case Heading(title) =>
            blocks', paragraph' := Flush(blocks, section, paragraph), [];
            section' := title;
          case Row(text) =>
            blocks', paragraph' := Flush(blocks, section, paragraph) + [Block(section, text)], [];
          case Item(text) =>
            blocks', paragraph' := Flush(blocks, section, paragraph) + [Block(section, text)], [];
          case _ =>
            blocks', paragraph' := Flush(blocks, section, paragraph), [];
        }
    }
  }

  method SplitBlocks(text: string) returns (blocks: seq<Block>)
    ensures AreBlocks(Places(Lines(text)), blocks)
  {
    var lines := Lines(text);
    var paragraph: seq<string> := [];
    var section, fenced := "", false;
    blocks := [];
    ghost var places := Places(lines);
    ghost var spans: seq<Span> := [];
    ghost var start := 0;
    for i := 0 to |lines|
      invariant Pending(places, section, paragraph, start, i)
      invariant Shows(places, spans, blocks, start)
      invariant fenced == Fenced(lines, i) && section == SectionAt(lines, i)
      invariant fenced ==> paragraph == []
    {
      PlacesAt(lines, i);
      spans, start := Advance(places, spans, blocks, section, paragraph, start, i, SectionAt(lines, i + 1));
      blocks, section, paragraph, fenced := ReadLine(lines, i, blocks, section, paragraph, fenced);
    }
    ShowsAll(places, spans, blocks, section, paragraph, start);
    blocks := Flush(blocks, section, paragraph);
  }

  // ---------- Every line with a place lands in exactly one block, in order ----------

  // The texts above line i that belong in blocks, each with its section.
  function Contributions(places: seq<Place>, i: nat): seq<Block>
    requires i <= |places|
  {
    if i == 0 then []
    else Contributions(places, i - 1) +
         if places[i - 1].Nowhere? then [] else [Block(places[i - 1].section, places[i - 1].text)]
  }

  function Filed(section: string, texts: seq<string>): seq<Block> {
    if texts == [] then [] else Filed(section, texts[..|texts| - 1]) + [Block(section, texts[|texts| - 1])]
  }

  // The texts of a block, each with the section of the block.
  function Pieces(places: seq<Place>, span: Span): seq<Block>
    requires IsSpan(places, span)
  {
    Filed(places[span.lo].section, Texts(places, span.lo, span.hi))
  }

  function Flatten(places: seq<Place>, spans: seq<Span>): seq<Block>
    requires forall span | span in spans :: IsSpan(places, span)
  {
    if spans == [] then [] else Flatten(places, spans[..|spans| - 1]) + Pieces(places, spans[|spans| - 1])
  }

  // Two adjacent prose lines stand under one heading.
  predicate Follows(places: seq<Place>, i: nat)
    requires 0 < i < |places|
  {
    places[i - 1].Flowing? && places[i].Flowing? ==> places[i].section == places[i - 1].section
  }

  predicate SectionsFollow(places: seq<Place>) {
    forall i | 0 < i < |places| :: Follows(places, i)
  }

  lemma PlacesFollow(lines: seq<Kind>)
    ensures SectionsFollow(Places(lines))
  {
    forall i | 0 < i < |lines|
      ensures Follows(Places(lines), i)
    {
      PlacesAt(lines, i);
      PlacesAt(lines, i - 1);
    }
  }

  lemma {:induction false} OneSectionPerRun(places: seq<Place>, lo: nat, i: nat)
    requires SectionsFollow(places) && lo <= i < |places| && FlowingBetween(places, lo, i + 1)
    ensures places[i].section == places[lo].section
  {
    if lo < i {
      OneSectionPerRun(places, lo, i - 1);
      assert Follows(places, i);
    }
  }

  lemma {:induction false} NothingBetween(places: seq<Place>, from: nat, to: nat)
    requires from <= to <= |places|
    requires forall i | from <= i < to :: places[i].Nowhere?
    ensures Contributions(places, to) == Contributions(places, from)
  {
    if from < to {
      NothingBetween(places, from, to - 1);
    }
  }

  lemma {:induction false} SpanContributes(places: seq<Place>, span: Span, i: nat)
    requires SectionsFollow(places) && IsSpan(places, span) && span.lo <= i <= span.hi
    ensures Contributions(places, i) ==
            Contributions(places, span.lo) + Filed(places[span.lo].section, Texts(places, span.lo, i))
  {
    if span.lo < i {
      SpanContributes(places, span, i - 1);
      if ProseRun(places, span) {
        OneSectionPerRun(places, span.lo, i - 1);
      }
      var section, last := places[span.lo].section, places[i - 1];
      var above, texts := Texts(places, span.lo, i - 1), Texts(places, span.lo, i);
      assert !last.Nowhere? && last.section == section;
      assert texts == above + [last.text] && texts[..|texts| - 1] == above;
      assert Filed(section, texts) == Filed(section, above) + [Block(section, last.text)];
      assert Contributions(places, i) == Contributions(places, i - 1) + [Block(section, last.text)];
    }
  }

  lemma {:induction false} FlattenIsContributions(places: seq<Place>, spans: seq<Span>, end: nat)
    requires SectionsFollow(places) && end <= |places| && Tiled(places, spans, end)
    requires forall span | span in spans :: IsSpan(places, span)
    ensures Flatten(places, spans) == Contributions(places, end)
  {
    if spans == [] {
      NothingBetween(places, 0, end);
    } else {
      var span := spans[|spans| - 1];
      FlattenIsContributions(places, spans[..|spans| - 1], span.lo);
      SpanContributes(places, span, span.hi);
      NothingBetween(places, span.hi, end);
    }
  }

  // Reading the blocks text by text gives back every line with a place, once, in order, under its
  // own section, and nothing else.
  lemma BlocksAreTheContributions(lines: seq<Kind>, spans: seq<Span>, blocks: seq<Block>)
    requires Shows(Places(lines), spans, blocks, |lines|)
    ensures Flatten(Places(lines), spans) == Contributions(Places(lines), |lines|)
  {
    PlacesFollow(lines);
    FlattenIsContributions(Places(lines), spans, |lines|);
  }

  predicate Covered(spans: seq<Span>, i: nat) {
    exists g | 0 <= g < |spans| :: spans[g].lo <= i < spans[g].hi
  }

  lemma CoveredBy(spans: seq<Span>, i: nat)
    requires spans != []
    ensures var n := |spans| - 1;
            Covered(spans, i) <==> Covered(spans[..n], i) || spans[n].lo <= i < spans[n].hi
  {
    var n := |spans| - 1;
    if Covered(spans, i) {
      var g :| 0 <= g < |spans| && spans[g].lo <= i < spans[g].hi;
      assert g < n ==> spans[..n][g] == spans[g];
    }
    if Covered(spans[..n], i) {
      var g :| 0 <= g < n && spans[..n][g].lo <= i < spans[..n][g].hi;
      assert spans[..n][g] == spans[g];
    }
  }

  lemma ProseRunsMeet(places: seq<Place>, a: Span, b: Span, i: nat)
    requires ProseRun(places, a) && ProseRun(places, b)
    requires a.lo <= i < a.hi && b.lo <= i < b.hi
    ensures a == b
  {
  }

  // Two blocks that share a line are one block.
  lemma OverlapIsEquality(places: seq<Place>, a: Span, b: Span, i: nat)
    requires IsSpan(places, a) && IsSpan(places, b)
    requires a.lo <= i < a.hi && b.lo <= i < b.hi
    ensures a == b
  {
    if places[i].Flowing? {
      ProseRunsMeet(places, a, b, i);
    }
  }

  lemma {:induction false} TilingIsUnique(places: seq<Place>, a: seq<Span>, b: seq<Span>, end: nat)
    requires end <= |places| && Tiled(places, a, end) && Tiled(places, b, end)
    ensures a == b
  {
    if a != [] {
      assert !places[a[|a| - 1].hi - 1].Nowhere?;
    }
    if b != [] {
      assert !places[b[|b| - 1].hi - 1].Nowhere?;
    }
    if a != [] && b != [] {
      var n, m := |a| - 1, |b| - 1;
      assert a[n].hi == b[m].hi;
      OverlapIsEquality(places, a[n], b[m], a[n].hi - 1);
      TilingIsUnique(places, a[..n], b[..m], a[n].lo);
      assert a == a[..n] + [a[n]] && b == b[..m] + [b[m]];
    }
  }

  // A text has only one splitting into blocks.
  lemma BlocksAreUnique(places: seq<Place>, a: seq<Block>, b: seq<Block>)
    requires AreBlocks(places, a) && AreBlocks(places, b)
    ensures a == b
  {
    var left :| Shows(places, left, a, |places|);
    var right :| Shows(places, right, b, |places|);
    TilingIsUnique(places, left, right, |places|);
  }

  lemma {:induction false} TilesAreOrdered(places: seq<Place>, spans: seq<Span>, end: nat)
    requires end <= |places| && Tiled(places, spans, end)
    ensures forall g | 0 <= g < |spans| :: IsSpan(places, spans[g]) && spans[g].hi <= end
    ensures forall g, h | 0 <= g < h < |spans| :: spans[g].hi <= spans[h].lo
  {
    if spans != [] {
      var n := |spans| - 1;
      TilesAreOrdered(places, spans[..n], spans[n].lo);
      assert forall g | 0 <= g < n :: spans[g] == spans[..n][g];
    }
  }

  // Every line with a place lies in a block, every line of a block has a place, and the blocks are
  // disjoint and in order.
  lemma {:induction false} EveryLineInOneBlock(places: seq<Place>, spans: seq<Span>, end: nat)
    requires end <= |places| && Tiled(places, spans, end)
    ensures forall g, h | 0 <= g < h < |spans| :: spans[g].hi <= spans[h].lo
    ensures forall i | 0 <= i < end :: !places[i].Nowhere? <==> Covered(spans, i)
  {
    TilesAreOrdered(places, spans, end);
    if spans != [] {
      var n := |spans| - 1;
      EveryLineInOneBlock(places, spans[..n], spans[n].lo);
      forall i | 0 <= i < end
        ensures !places[i].Nowhere? <==> Covered(spans, i)
      {
        CoveredBy(spans, i);
        if spans[n].lo <= i {
          assert !Covered(spans[..n], i);
        }
      }
    }
  }

  // ---------- What the texts look like ----------

  // Neither end is a space.
  predicate Trimmed(s: string) {
    s == "" || (!Space(s[0]) && !Space(s[|s| - 1]))
  }

  lemma {:induction false} LstripDropsSpaces(s: string)
    ensures |Lstrip(s)| <= |s| && Lstrip(s) == s[|s| - |Lstrip(s)|..]
    ensures forall i | 0 <= i < |s| - |Lstrip(s)| :: Space(s[i])
    ensures Lstrip(s) == "" || !Space(Lstrip(s)[0])
  {
    if s != "" && Space(s[0]) {
      LstripDropsSpaces(s[1..]);
      var n := |s| - |Lstrip(s)|;
      assert Lstrip(s) == s[1..][n - 1..] == s[n..];
      forall i | 0 <= i < n
        ensures Space(s[i])
      {
        assert i > 0 ==> s[i] == s[1..][i - 1];
      }
    }
  }

  lemma {:induction false} RstripDropsSpaces(s: string)
    ensures |Rstrip(s)| <= |s| && Rstrip(s) == s[..|Rstrip(s)|]
    ensures forall i | |Rstrip(s)| <= i < |s| :: Space(s[i])
    ensures Rstrip(s) == "" || !Space(Rstrip(s)[|Rstrip(s)| - 1])
  {
    if s != "" && Space(s[|s| - 1]) {
      RstripDropsSpaces(s[..|s| - 1]);
    }
  }

  lemma StripTrims(s: string)
    ensures Trimmed(Strip(s))
  {
    LstripDropsSpaces(s);
    RstripDropsSpaces(Lstrip(s));
  }

  // A list item is its line without the marker and the spaces after it.
  lemma ItemDropsMarker(line: string) returns (n: nat)
    requires Trimmed(line) && IsItem(line)
    ensures MarkerLength(line) < n < |line| && Lstrip(line[MarkerLength(line)..]) == line[n..]
    ensures !Space(line[n]) && forall i | MarkerLength(line) <= i < n :: Space(line[i])
  {
    var m := MarkerLength(line);
    var tail := line[m..];
    LstripDropsSpaces(tail);
    n := m + |tail| - |Lstrip(tail)|;
    assert !Space(tail[|tail| - 1]);
    assert Lstrip(tail) == tail[n - m..] == line[n..];
    forall i | m <= i < n
      ensures Space(line[i])
    {
      assert line[i] == tail[i - m];
    }
  }

  // The texts that reach a block are never empty and never padded: a row or a prose line as it is
  // without the spaces around it, an item also without its marker.
  lemma KindTextIsTrimmed(line: string)
    requires Trimmed(line)
    ensures KindOf(line).Row? || KindOf(line).Prose? ==> line != "" && KindOf(line).text == line
    ensures KindOf(line).Item? ==>
              IsItem(line) && KindOf(line).text != "" && Trimmed(KindOf(line).text) &&
              exists n :: MarkerLength(line) < n < |line| && KindOf(line).text == line[n..] &&
                          forall i | MarkerLength(line) <= i < n :: Space(line[i])
  {
    if KindOf(line).Item? {
      var n := ItemDropsMarker(line);
    }
  }

  lemma {:induction false} KindsAt(lines: seq<string>, i: nat)
    requires i < |lines|
    ensures Kinds(lines)[i] == KindOf(Strip(lines[i]))
  {
    if i > 0 {
      KindsAt(lines[1..], i - 1);
    }
  }

  // The text a line contributes is never empty or padded. It is the line without the spaces around
  // it, and for an item also without the marker and the spaces after that.
  lemma TextsAreTrimmed(text: string, i: nat)
    requires i < |Lines(text)| == |SplitLines(text)|
    ensures
      var line, place := Strip(SplitLines(text)[i]), Places(Lines(text))[i];
      !place.Nowhere? ==>
        && place.text != "" && Trimmed(place.text)
        && (place.text == line ||
            (IsItem(line) && exists n :: MarkerLength(line) < n < |line| && place.text == line[n..] &&
                                         forall j | MarkerLength(line) <= j < n :: Space(line[j])))
  {
    var line := Strip(SplitLines(text)[i]);
    StripTrims(SplitLines(text)[i]);
    KindTextIsTrimmed(line);
    KindsAt(SplitLines(text), i);
    PlacesUpToAt(Lines(text), |Lines(text)|, i);
  }

  // A heading mark without a title is ordinary text.
  lemma BareMarksAreProse()
    ensures KindOf(Strip("# ")) == Prose("#") && KindOf(Strip("## ")) == Prose("##")
  {
    assert Lstrip("# ") == "# " && Rstrip("#") == "#";
    assert "# "[..1] == "#" && "## "[..2] == "##";
    assert Lstrip("## ") == "## " && Rstrip("##") == "##";
    assert Rstrip("## ") == Rstrip("##");
  }

  function WithoutBreaks(text: string): string {
    if text == "" then "" else (if LineBreak(text[0]) then "" else [text[0]]) + WithoutBreaks(text[1..])
  }

  function Concat(lines: seq<string>): string {
    if lines == [] then "" else lines[0] + Concat(lines[1..])
  }

  lemma BreaksHaveNoText(text: string)
    requires text != "" && LineBreak(text[0])
    ensures WithoutBreaks(text) == WithoutBreaks(AfterBreak(text))
  {
    if |text| >= 2 && text[0] == '\r' && text[1] == '\n' {
      assert text[1..][1..] == text[2..] && LineBreak(text[1]);
      assert WithoutBreaks(text[1..]) == WithoutBreaks(text[2..]);
    }
  }

  lemma ConcatMore(line: string, lines: seq<string>)
    ensures Concat([line] + lines) == line + Concat(lines)
  {
    assert ([line] + lines)[1..] == lines;
  }

  // Splitting into lines loses nothing but the line breaks.
  lemma {:induction false} LinesKeepText(text: string, current: string)
    ensures Concat(SplitLines(text, current)) == current + WithoutBreaks(text)
    decreases |text|
  {
    if text == "" {
      ConcatMore(current, []);
      assert [current] + [] == [current];
    } else if LineBreak(text[0]) {
      var rest := AfterBreak(text);
      var below := SplitLines(rest);
      LinesKeepText(rest, "");
      BreaksHaveNoText(text);
      ConcatMore(current, below);
    } else {
      LinesKeepText(text[1..], current + [text[0]]);
      assert current + [text[0]] + WithoutBreaks(text[1..]) == current + WithoutBreaks(text);
    }
  }
}
