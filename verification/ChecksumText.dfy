/** The text of a checksum list, and when it reads back as what was listed. */
module ChecksumText {
  datatype Entry = Entry(digest: string, path: string)

  predicate NoBreak(s: string) {
    forall i | 0 <= i < |s| :: s[i] != '\n'
  }

  predicate IsDigest(digest: string) {
    |digest| == 64 && NoBreak(digest)
  }

  function LineOf(entry: Entry): string {
    entry.digest + "  " + entry.path
  }

  // Every entry on a line of its own.
  function Render(entries: seq<Entry>): string {
    if entries == [] then "" else LineOf(entries[0]) + ("\n" + Render(entries[1..]))
  }

  function Lines(text: string, current: string): seq<string> {
    if text == "" then (if current == "" then [] else [current])
    else if text[0] == '\n' then [current] + Lines(text[1..], "")
    else Lines(text[1..], current + [text[0]])
  }

  function EntryOf(line: string): Entry {
    if |line| < 66 then Entry(line, "") else Entry(line[..64], line[66..])
  }

  function Read(lines: seq<string>): (entries: seq<Entry>)
    ensures |entries| == |lines|
  {
    if lines == [] then [] else [EntryOf(lines[0])] + Read(lines[1..])
  }

  function Breaks(s: string): nat {
    if s == "" then 0 else (if s[0] == '\n' then 1 else 0) + Breaks(s[1..])
  }

  lemma {:induction false} BreaksAdd(a: string, b: string)
    ensures Breaks(a + b) == Breaks(a) + Breaks(b)
  {
    if a == "" {
      assert a + b == b;
    } else {
      BreaksAdd(a[1..], b);
      assert (a + b)[1..] == a[1..] + b;
    }
  }

  lemma {:induction false} NoBreaks(s: string)
    ensures Breaks(s) == 0 <==> NoBreak(s)
  {
    if s != "" {
      NoBreaks(s[1..]);
      assert s == [s[0]] + s[1..];
    }
  }

  lemma {:induction false} FirstLine(line: string, rest: string, current: string)
    requires NoBreak(line)
    ensures Lines(line + ("\n" + rest), current) == [current + line] + Lines(rest, "")
  {
    var text := line + ("\n" + rest);
    if line == "" {
      assert text[1..] == rest && current + line == current;
    } else {
      FirstLine(line[1..], rest, current + [line[0]]);
      assert text[1..] == line[1..] + ("\n" + rest);
      assert current + [line[0]] + line[1..] == current + line;
    }
  }

  // A text that ends its last line has as many lines as line breaks.
  lemma {:induction false} LinesAreBreaks(text: string, current: string)
    requires text != "" && text[|text| - 1] == '\n'
    ensures |Lines(text, current)| == Breaks(text)
  {
    if |text| > 1 {
      LinesAreBreaks(text[1..], if text[0] == '\n' then "" else current + [text[0]]);
    } else {
      assert text[1..] == "";
    }
  }

  lemma {:induction false} RenderEnds(entries: seq<Entry>)
    requires entries != []
    ensures Render(entries) != "" && Render(entries)[|Render(entries)| - 1] == '\n'
  {
    if |entries| > 1 {
      RenderEnds(entries[1..]);
    }
  }

  lemma {:induction false} RenderBreaks(entries: seq<Entry>)
    requires forall entry | entry in entries :: IsDigest(entry.digest)
    ensures Breaks(Render(entries)) >= |entries|
    ensures Breaks(Render(entries)) == |entries| <==> forall entry | entry in entries :: NoBreak(entry.path)
  {
    if entries != [] {
      var first, rest := entries[0], entries[1..];
      RenderBreaks(rest);
      BreaksAdd(LineOf(first), "\n" + Render(rest));
      BreaksAdd("\n", Render(rest));
      BreaksAdd(first.digest + "  ", first.path);
      BreaksAdd(first.digest, "  ");
      NoBreaks(first.digest);
      NoBreaks("  ");
      NoBreaks(first.path);
      assert Breaks("\n") == 1;
      assert forall entry :: entry in entries <==> entry == first || entry in rest;
    }
  }

  lemma {:induction false} ReadsBack(entries: seq<Entry>)
    requires forall entry | entry in entries :: IsDigest(entry.digest) && NoBreak(entry.path)
    ensures Read(Lines(Render(entries), "")) == entries
  {
    if entries != [] {
      var first, rest := entries[0], entries[1..];
      var line := LineOf(first);
      FirstLine(line, Render(rest), "");
      ReadsBack(rest);
      assert "" + line == line && line[..64] == first.digest && line[66..] == first.path;
      assert ([line] + Lines(Render(rest), ""))[1..] == Lines(Render(rest), "");
      assert entries == [first] + rest;
    }
  }

  // The checksum list reads back as what was listed exactly when no path contains a line break.
  lemma ChecksumsReadBack(entries: seq<Entry>)
    requires forall entry | entry in entries :: IsDigest(entry.digest)
    ensures Read(Lines(Render(entries), "")) == entries <==> forall entry | entry in entries :: NoBreak(entry.path)
  {
    if forall entry | entry in entries :: NoBreak(entry.path) {
      ReadsBack(entries);
    } else {
      RenderBreaks(entries);
      RenderEnds(entries);
      LinesAreBreaks(Render(entries), "");
    }
  }
}
