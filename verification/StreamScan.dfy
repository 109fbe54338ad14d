/**
 The streaming content scan of an exported image: a file is read in pieces, each piece is
 searched together with the end of what came before, and the result is compared with a search
 of the whole file.
 */
module StreamScan {
  import opened Wrappers

  type Bytes = string

  const OVERLAP := 16_384
  const KEY_LENGTH := 20

  datatype Finding = AwsAccessKey | AwsSecretValue | PrivateKeyMaterial

  function Concat(chunks: seq<Bytes>): Bytes {
    if chunks == [] then [] else chunks[0] + Concat(chunks[1..])
  }

  // sample[-16_384:]
  function Tail(sample: Bytes): Bytes {
    if |sample| <= OVERLAP then sample else sample[|sample| - OVERLAP..]
  }

  // What is searched with piece k: the end of what was searched before, and the piece.
  function SampleOf(chunks: seq<Bytes>, k: nat): Bytes
    requires k < |chunks|
  {
    if k == 0 then chunks[0] else Tail(SampleOf(chunks, k - 1)) + chunks[k]
  }

  // ---------- Matches ----------

  predicate KeyAlphabet(c: char) { '0' <= c <= '9' || 'A' <= c <= 'Z' }

  // (?:AKIA|ASIA)[0-9A-Z]{16} at position i
  predicate KeyAt(s: Bytes, i: nat) {
    && i + KEY_LENGTH <= |s|
    && (s[i..i + 4] == "AKIA" || s[i..i + 4] == "ASIA")
    && forall j | i + 4 <= j < i + KEY_LENGTH :: KeyAlphabet(s[j])
  }

  // finditer: leftmost matches that do not overlap
  function KeyMatches(s: Bytes, from: nat): (matches: seq<nat>)
    ensures forall m | m in matches :: from <= m && KeyAt(s, m)
    decreases |s| - from
  {
    if from + KEY_LENGTH > |s| then []
    else if KeyAt(s, from) then [from] + KeyMatches(s, from + KEY_LENGTH)
    else KeyMatches(s, from + 1)
  }

  // A key that is not one of the published examples is reported.
  predicate ReportsKey(s: Bytes, exempt: Bytes -> bool) {
    exists m | m in KeyMatches(s, 0) :: !exempt(s[m..m + KEY_LENGTH])
  }

  // The other two patterns, as tests of one sample.
  datatype Patterns = Patterns(exempt: Bytes -> bool, secretIn: Bytes -> bool, privateKeyIn: Bytes -> bool)

  predicate Binary(chunks: seq<Bytes>) {
    chunks != [] && '\0' in chunks[0]
  }

  // One of the reads up to the n-th fails.
  predicate ReadFails(unreadable: set<nat>, n: nat) {
    n in unreadable || (n > 0 && ReadFails(unreadable, n - 1))
  }

  predicate Shows(sample: Bytes, finding: Finding, patterns: Patterns) {
    match finding
    case AwsAccessKey => ReportsKey(sample, patterns.exempt)
    case AwsSecretValue => patterns.secretIn(sample)
    case PrivateKeyMaterial => patterns.privateKeyIn(sample)
  }

  // Does any of the first n have the property?
  predicate AnyBefore(n: nat, property: nat -> bool) {
    n > 0 && (AnyBefore(n - 1, property) || property(n - 1))
  }

  lemma {:induction false} AnyBeforeIsSome(n: nat, property: nat -> bool)
    ensures AnyBefore(n, property) <==> exists k: nat | k < n :: property(k)
  {
    if n > 0 {
      AnyBeforeIsSome(n - 1, property);
    }
  }

  function ShownWith(chunks: seq<Bytes>, finding: Finding, patterns: Patterns): nat -> bool {
    (k: nat) => k < |chunks| && Shows(SampleOf(chunks, k), finding, patterns)
  }

  lemma {:induction false} ReadFailsIsSome(unreadable: set<nat>, n: nat)
    ensures ReadFails(unreadable, n) <==> exists i: nat | i <= n :: i in unreadable
  {
    if n > 0 {
      ReadFailsIsSome(unreadable, n - 1);
    }
  }

  // What one sample adds.
  method SearchSample(sample: Bytes, patterns: Patterns, findings: set<Finding>) returns (more: set<Finding>)
    ensures forall f :: f in more <==> f in findings || Shows(sample, f, patterns)
  {
    more := findings;
    if ReportsKey(sample, patterns.exempt) {
      more := more + {AwsAccessKey};
    }
    if patterns.secretIn(sample) {
      more := more + {AwsSecretValue};
    }
    if patterns.privateKeyIn(sample) {
      more := more + {PrivateKeyMaterial};
    }
    forall f: Finding
      ensures f in more <==> f in findings || Shows(sample, f, patterns)
    {
      match f
      case AwsAccessKey =>
      case AwsSecretValue =>
      case PrivateKeyMaterial =>
    }
  }

  predicate FoundSoFar(chunks: seq<Bytes>, i: nat, patterns: Patterns, findings: set<Finding>) {
    forall f :: f in findings <==> AnyBefore(i, ShownWith(chunks, f, patterns))
  }

  lemma FoundMore(chunks: seq<Bytes>, i: nat, patterns: Patterns, findings: set<Finding>, more: set<Finding>)
    requires i < |chunks| && FoundSoFar(chunks, i, patterns, findings)
    requires forall f :: f in more <==> f in findings || Shows(SampleOf(chunks, i), f, patterns)
    ensures FoundSoFar(chunks, i + 1, patterns, more)
  {
    forall f
      ensures f in more <==> AnyBefore(i + 1, ShownWith(chunks, f, patterns))
    {
      assert ShownWith(chunks, f, patterns)(i) == Shows(SampleOf(chunks, i), f, patterns);
    }
  }

  // Some sample shows the finding.
  ghost predicate ShownInSome(chunks: seq<Bytes>, finding: Finding, patterns: Patterns) {
    exists k: nat | k < |chunks| :: Shows(SampleOf(chunks, k), finding, patterns)
  }

  lemma FoundInAll(chunks: seq<Bytes>, patterns: Patterns, findings: set<Finding>)
    requires FoundSoFar(chunks, |chunks|, patterns, findings)
    ensures forall f :: f in findings <==> ShownInSome(chunks, f, patterns)
  {
    forall f
      ensures f in findings <==> ShownInSome(chunks, f, patterns)
    {
      var shown := ShownWith(chunks, f, patterns);
      AnyBeforeIsSome(|chunks|, shown);
      assert forall k: nat | k < |chunks| :: shown(k) == Shows(SampleOf(chunks, k), f, patterns);
    }
  }

  // Searching stops at the first read that fails; the last read is the one that finds the end.
  method ContentFindings(chunks: seq<Bytes>, unreadable: set<nat>, patterns: Patterns)
      returns (r: Option<set<Finding>>)
    requires forall chunk | chunk in chunks :: chunk != []
    ensures r.None? <==> ReadFails(unreadable, if Binary(chunks) then 0 else |chunks|)
    ensures r.Some? && Binary(chunks) ==> r.value == {}
    ensures r.Some? && !Binary(chunks) ==>
      forall f :: f in r.value <==> ShownInSome(chunks, f, patterns)
  {
    if 0 in unreadable {
      ReadFailsIsSome(unreadable, if Binary(chunks) then 0 else |chunks|);
      return None;
    }
    if Binary(chunks) {
      return Some({});
    }
    var findings: set<Finding>, overlap := {}, [];
    for i := 0 to |chunks|
      invariant !ReadFails(unreadable, i)
      invariant overlap == if i == 0 then [] else Tail(SampleOf(chunks, i - 1))
      invariant FoundSoFar(chunks, i, patterns, findings)
    {
      var sample := overlap + chunks[i];
      assert sample == SampleOf(chunks, i);
      ghost var before := findings;
      findings := SearchSample(sample, patterns, findings);
      FoundMore(chunks, i, patterns, before, findings);
      overlap := Tail(sample);
      if i + 1 in unreadable {
        ReadFailsIsSome(unreadable, |chunks|);
        return None;
      }
    }
    FoundInAll(chunks, patterns, findings);
    return Some(findings);
  }

  // ---------- Every sample is a slice of the file ----------

  // Where the sample that ends a piece starting at byte p begins.
  function SampleStart(p: nat): nat {
    if p <= OVERLAP then 0 else p - OVERLAP
  }

  // The bytes in front of piece k.
  function PieceStart(chunks: seq<Bytes>, k: nat): nat
    requires k <= |chunks|
  {
    if k == 0 then 0 else |chunks[0]| + PieceStart(chunks[1..], k - 1)
  }

  lemma TailOfSlice(file: Bytes, from: nat, to: nat)
    requires from <= to <= |file|
    ensures Tail(file[from..to]) == file[if to - from <= OVERLAP then from else to - OVERLAP..to]
  {
    if to - from > OVERLAP {
      SliceOfSlice(file, from, to, to - from - OVERLAP, to - from);
    }
  }

  lemma JoinedSlices(file: Bytes, a: nat, b: nat, c: nat)
    requires a <= b <= c <= |file|
    ensures file[a..b] + file[b..c] == file[a..c]
  {
  }

  // What is searched when the pieces so far make up the bytes before p, and the next one ends at q.
  lemma OneSample(file: Bytes, p: nat, q: nat)
    requires p <= q <= |file|
    ensures Tail(file[0..p]) + file[p..q] == file[SampleStart(p)..q]
    ensures Tail(file[SampleStart(p)..q]) == Tail(file[0..q])
  {
    TailOfSlice(file, 0, p);
    TailOfSlice(file, 0, q);
    TailOfSlice(file, SampleStart(p), q);
    JoinedSlices(file, SampleStart(p), p, q);
  }

  lemma {:induction false} PieceIsSlice(chunks: seq<Bytes>, k: nat)
    requires k < |chunks|
    ensures PieceStart(chunks, k) <= PieceStart(chunks, k + 1) <= |Concat(chunks)|
    ensures chunks[k] == Concat(chunks)[PieceStart(chunks, k)..PieceStart(chunks, k + 1)]
  {
    var first, rest := chunks[0], Concat(chunks[1..]);
    if k == 0 {
      assert (first + rest)[0..|first|] == first;
    } else {
      PieceIsSlice(chunks[1..], k - 1);
      LaterSlice(first, rest, PieceStart(chunks[1..], k - 1), PieceStart(chunks[1..], k));
    }
  }

  lemma LaterSlice(first: Bytes, rest: Bytes, a: nat, b: nat)
    requires a <= b <= |rest|
    ensures (first + rest)[|first| + a..|first| + b] == rest[a..b]
  {
  }

  // One piece on: from the sample that ends at q to the one that ends at r.
  lemma NextSlice(file: Bytes, p: nat, q: nat, r: nat, sample: Bytes, piece: Bytes)
    requires p <= q <= r <= |file| && sample == file[SampleStart(p)..q] && piece == file[q..r]
    ensures Tail(sample) + piece == file[SampleStart(q)..r]
  {
    OneSample(file, p, q);
    OneSample(file, q, r);
  }

  lemma {:induction false} SampleIsSlice(chunks: seq<Bytes>, k: nat)
    requires k < |chunks|
    ensures PieceStart(chunks, k) <= PieceStart(chunks, k + 1) <= |Concat(chunks)|
    ensures SampleOf(chunks, k) ==
            Concat(chunks)[SampleStart(PieceStart(chunks, k))..PieceStart(chunks, k + 1)]
  {
    PieceIsSlice(chunks, k);
    if k > 0 {
      SampleIsSlice(chunks, k - 1);
      NextSlice(
        Concat(chunks), PieceStart(chunks, k - 1), PieceStart(chunks, k), PieceStart(chunks, k + 1),
        SampleOf(chunks, k - 1), chunks[k]);
    }
  }

  // The piece that holds the last byte before position b.
  lemma {:induction false} PieceBefore(chunks: seq<Bytes>, b: nat) returns (k: nat)
    requires 0 < b <= |Concat(chunks)|
    ensures k < |chunks| && PieceStart(chunks, k) < b <= PieceStart(chunks, k + 1)
  {
    var first := |chunks[0]|;
    if b <= first {
      k := 0;
    } else {
      var j := PieceBefore(chunks[1..], b - first);
      k := j + 1;
    }
  }

  // Cut from the sample, which begins at the offset, the bytes of the file from a to b come out.
  predicate HoldsText(sample: Bytes, offset: nat, file: Bytes, a: nat, b: nat) {
    offset <= a <= b <= |file| && b - offset <= |sample| && sample[a - offset..b - offset] == file[a..b]
  }

  lemma CutSample(file: Bytes, sample: Bytes, offset: nat, end: nat, a: nat, b: nat)
    requires offset <= a <= b <= end <= |file| && sample == file[offset..end]
    ensures HoldsText(sample, offset, file, a, b)
  {
    SliceOfSlice(file, offset, end, a - offset, b - offset);
  }

  // However the file is split, every piece of text of at most one byte more than the overlap lies
  // wholly in some sample.
  lemma EveryShortTextIsSampled(chunks: seq<Bytes>, a: nat, b: nat) returns (k: nat)
    requires a < b <= |Concat(chunks)| && b - a <= OVERLAP + 1
    ensures k < |chunks|
    ensures SampleStart(PieceStart(chunks, k)) <= a && b <= PieceStart(chunks, k + 1)
    ensures HoldsText(SampleOf(chunks, k), SampleStart(PieceStart(chunks, k)), Concat(chunks), a, b)
  {
    k := PieceBefore(chunks, b);
    SampleIsSlice(chunks, k);
    CutSample(
      Concat(chunks), SampleOf(chunks, k), SampleStart(PieceStart(chunks, k)), PieceStart(chunks, k + 1), a, b);
  }

  lemma SliceOfSlice(s: Bytes, from: nat, to: nat, a: nat, b: nat)
    requires from <= to <= |s| && a <= b <= to - from
    ensures s[from..to][a..b] == s[from + a..from + b]
  {
    assert forall k | 0 <= k < b - a :: s[from..to][a..b][k] == s[from + a..from + b][k];
  }

  // One byte more is too much: split this way, no sample holds the whole text.
  lemma BoundIsTight(text: Bytes)
    requires |text| == OVERLAP + 2
    ensures
      var chunks := [text[..1], text[1..OVERLAP + 1], text[OVERLAP + 1..]];
      && (forall chunk | chunk in chunks :: chunk != [])
      && Concat(chunks) == text
      && forall k | 0 <= k < |chunks| :: |SampleOf(chunks, k)| < |text|
  {
    var chunks := [text[..1], text[1..OVERLAP + 1], text[OVERLAP + 1..]];
    assert chunks[1..] == [text[1..OVERLAP + 1], text[OVERLAP + 1..]];
    assert chunks[1..][1..] == [text[OVERLAP + 1..]];
    assert chunks[1..][1..][1..] == [];
    assert Concat(chunks[1..][1..]) == text[OVERLAP + 1..];
    assert Concat(chunks[1..]) == text[1..];
    assert SampleOf(chunks, 0) == text[..1];
    assert SampleOf(chunks, 1) == Tail(text[..1]) + text[1..OVERLAP + 1];
    assert SampleOf(chunks, 2) == Tail(SampleOf(chunks, 1)) + text[OVERLAP + 1..];
  }

  // ---------- Keys in samples and keys in the file ----------

  lemma KeyOfSlice(file: Bytes, from: nat, to: nat, i: nat)
    requires from <= to <= |file| && i + KEY_LENGTH <= to - from
    ensures KeyAt(file[from..to], i) <==> KeyAt(file, from + i)
    ensures file[from..to][i..i + KEY_LENGTH] == file[from + i..from + i + KEY_LENGTH]
  {
    var slice := file[from..to];
    SliceOfSlice(file, from, to, i, i + 4);
    SliceOfSlice(file, from, to, i, i + KEY_LENGTH);
    assert forall j | i + 4 <= j < i + KEY_LENGTH :: slice[j] == file[from + j];
    if KeyAt(slice, i) {
      forall j | from + i + 4 <= j < from + i + KEY_LENGTH
        ensures KeyAlphabet(file[j])
      {
        assert slice[j - from] == file[j];
      }
    }
  }

  // A match that the left-to-right search passes over is overlapped by one it took.
  lemma {:induction false} MatchTakenOrOverlapped(s: Bytes, from: nat, p: nat)
    requires from <= p && KeyAt(s, p)
    ensures p in KeyMatches(s, from) || exists q | q in KeyMatches(s, from) :: q < p < q + KEY_LENGTH
    decreases |s| - from
  {
    if KeyAt(s, from) {
      assert KeyMatches(s, from) == [from] + KeyMatches(s, from + KEY_LENGTH);
      assert from in KeyMatches(s, from);
      if from + KEY_LENGTH <= p {
        MatchTakenOrOverlapped(s, from + KEY_LENGTH, p);
        if p !in KeyMatches(s, from + KEY_LENGTH) {
          var q :| q in KeyMatches(s, from + KEY_LENGTH) && q < p < q + KEY_LENGTH;
          assert q in KeyMatches(s, from);
        }
      }
    } else {
      MatchTakenOrOverlapped(s, from + 1, p);
    }
  }

  lemma ReportedMatch(s: Bytes, exempt: Bytes -> bool) returns (m: nat)
    requires ReportsKey(s, exempt)
    ensures KeyAt(s, m) && !exempt(s[m..m + KEY_LENGTH])
  {
    m :| m in KeyMatches(s, 0) && !exempt(s[m..m + KEY_LENGTH]);
  }

  lemma KeyReportedInSlice(file: Bytes, from: nat, to: nat, exempt: Bytes -> bool) returns (i: nat)
    requires from <= to <= |file| && ReportsKey(file[from..to], exempt)
    ensures KeyAt(file, i) && !exempt(file[i..i + KEY_LENGTH])
  {
    var m := ReportedMatch(file[from..to], exempt);
    KeyOfSlice(file, from, to, m);
    return from + m;
  }

  // Some sample reports a key.
  ghost predicate Reported(chunks: seq<Bytes>, exempt: Bytes -> bool) {
    exists k: nat | k < |chunks| :: ReportsKey(SampleOf(chunks, k), exempt)
  }

  // Whatever is reported is a key of the whole file that is not exempt.
  lemma ReportedKeyIsInFile(chunks: seq<Bytes>, exempt: Bytes -> bool)
    requires Reported(chunks, exempt)
    ensures exists i: nat ::
              KeyAt(Concat(chunks), i) && !exempt(Concat(chunks)[i..i + KEY_LENGTH])
  {
    var k: nat :| k < |chunks| && ReportsKey(SampleOf(chunks, k), exempt);
    SampleIsSlice(chunks, k);
    var i := KeyReportedInSlice(Concat(chunks), SampleStart(PieceStart(chunks, k)), PieceStart(chunks, k + 1), exempt);
  }

  // No exempt example key runs into the key at i from the left.
  predicate Clear(file: Bytes, i: nat, exempt: Bytes -> bool) {
    forall j: nat | i < j + KEY_LENGTH && j < i :: KeyAt(file, j) ==> !exempt(file[j..j + KEY_LENGTH])
  }

  lemma ClearKeyInSlice(file: Bytes, from: nat, to: nat, i: nat, exempt: Bytes -> bool)
    requires from <= i && i + KEY_LENGTH <= to <= |file|
    requires KeyAt(file, i) && !exempt(file[i..i + KEY_LENGTH]) && Clear(file, i, exempt)
    ensures ReportsKey(file[from..to], exempt)
  {
    var slice, p := file[from..to], i - from;
    KeyOfSlice(file, from, to, p);
    MatchTakenOrOverlapped(slice, 0, p);
    if p !in KeyMatches(slice, 0) {
      var q :| q in KeyMatches(slice, 0) && q < p < q + KEY_LENGTH;
      KeyOfSlice(file, from, to, q);
      assert !exempt(file[from + q..from + q + KEY_LENGTH]);
    }
  }

  // A key of the file that is not exempt is reported, unless an exempt one runs into it.
  lemma ClearKeyIsReported(chunks: seq<Bytes>, exempt: Bytes -> bool, i: nat)
    requires KeyAt(Concat(chunks), i) && !exempt(Concat(chunks)[i..i + KEY_LENGTH])
    requires Clear(Concat(chunks), i, exempt)
    ensures Reported(chunks, exempt)
  {
    var k := EveryShortTextIsSampled(chunks, i, i + KEY_LENGTH);
    SampleIsSlice(chunks, k);
    ClearKeyInSlice(Concat(chunks), SampleStart(PieceStart(chunks, k)), PieceStart(chunks, k + 1), i, exempt);
  }

  predicate RealKeyAt(file: Bytes, i: nat, exempt: Bytes -> bool) {
    KeyAt(file, i) && !exempt(file[i..i + KEY_LENGTH])
  }

  // When no exempt key runs into a real one, the streaming scan reports a key exactly when the file
  // holds a real one, however it was split.
  lemma StreamingScanFindsEveryKey(chunks: seq<Bytes>, exempt: Bytes -> bool)
    requires forall i: nat :: RealKeyAt(Concat(chunks), i, exempt) ==> Clear(Concat(chunks), i, exempt)
    ensures Reported(chunks, exempt) <==>
            exists i: nat :: RealKeyAt(Concat(chunks), i, exempt)
  {
    if Reported(chunks, exempt) {
      ReportedKeyIsInFile(chunks, exempt);
      var i: nat :| KeyAt(Concat(chunks), i) && !exempt(Concat(chunks)[i..i + KEY_LENGTH]);
      assert RealKeyAt(Concat(chunks), i, exempt);
    }
    if i: nat :| RealKeyAt(Concat(chunks), i, exempt) {
      ClearKeyIsReported(chunks, exempt, i);
    }
  }

  // ---------- Files that fit into one sample ----------

  lemma {:induction false} PrefixMatches(s: Bytes, q: nat, from: nat)
    requires q <= |s|
    ensures forall m | m in KeyMatches(s[..q], from) :: m in KeyMatches(s, from)
    decreases |s| - from
  {
    if from + KEY_LENGTH <= q {
      assert s[..q] == s[0..q];
      KeyOfSlice(s, 0, q, from);
      PrefixMatches(s, q, if KeyAt(s, from) then from + KEY_LENGTH else from + 1);
    }
  }

  lemma PrefixReports(file: Bytes, q: nat, exempt: Bytes -> bool)
    requires q <= |file| && ReportsKey(file[..q], exempt)
    ensures ReportsKey(file, exempt)
  {
    var m :| m in KeyMatches(file[..q], 0) && !exempt(file[..q][m..m + KEY_LENGTH]);
    PrefixMatches(file, q, 0);
    assert file[..q] == file[0..q];
    KeyOfSlice(file, 0, q, m);
  }

  // In a short file every sample is all that was read so far.
  lemma ShortFileSample(chunks: seq<Bytes>, k: nat)
    requires k < |chunks| && |Concat(chunks)| <= OVERLAP + 1
    requires forall chunk | chunk in chunks :: chunk != []
    ensures PieceStart(chunks, k + 1) <= |Concat(chunks)|
    ensures SampleOf(chunks, k) == Concat(chunks)[..PieceStart(chunks, k + 1)]
  {
    SampleIsSlice(chunks, k);
    PieceGrows(chunks, k);
  }

  lemma {:induction false} PieceGrows(chunks: seq<Bytes>, k: nat)
    requires k < |chunks| && forall chunk | chunk in chunks :: chunk != []
    ensures PieceStart(chunks, k) < PieceStart(chunks, k + 1)
  {
    assert chunks[0] in chunks && forall chunk | chunk in chunks[1..] :: chunk in chunks;
    if k > 0 {
      PieceGrows(chunks[1..], k - 1);
    }
  }

  // For a file of at most one byte more than the overlap, the streaming scan reports exactly what a
  // search of the whole file reports, exempt keys included.
  lemma ShortFileScanIsWholeFileScan(chunks: seq<Bytes>, exempt: Bytes -> bool)
    requires |Concat(chunks)| <= OVERLAP + 1 && forall chunk | chunk in chunks :: chunk != []
    ensures Reported(chunks, exempt) <==> ReportsKey(Concat(chunks), exempt)
  {
    var file := Concat(chunks);
    if Reported(chunks, exempt) {
      var k: nat :| k < |chunks| && ReportsKey(SampleOf(chunks, k), exempt);
      ShortFileSample(chunks, k);
      PrefixReports(file, PieceStart(chunks, k + 1), exempt);
    }
    if ReportsKey(file, exempt) {
      var k := PieceBefore(chunks, |file|);
      ShortFileSample(chunks, k);
      assert PieceStart(chunks, k + 1) == |file| && file[..|file|] == file;
      assert ReportsKey(SampleOf(chunks, k), exempt);
    }
  }

  // ---------- Keys an exempt one hides ----------

  lemma {:induction false} MatchesLieApart(s: Bytes, from: nat, m: nat, m': nat)
    requires m in KeyMatches(s, from) && m' in KeyMatches(s, from) && m < m'
    ensures m + KEY_LENGTH <= m'
    decreases |s| - from
  {
    if KeyAt(s, from) {
      if m > from {
        MatchesLieApart(s, from + KEY_LENGTH, m, m');
      }
    } else {
      MatchesLieApart(s, from + 1, m, m');
    }
  }

  // No key at all runs into the one at e from the left.
  predicate Untouched(s: Bytes, e: nat) {
    forall j: nat | e < j + KEY_LENGTH && j < e :: !KeyAt(s, j)
  }

  // A key that starts inside another one that nothing runs into is never taken.
  lemma InnerKeyIsNotTaken(s: Bytes, e: nat, p: nat)
    requires KeyAt(s, e) && Untouched(s, e) && e < p < e + KEY_LENGTH
    ensures e in KeyMatches(s, 0) && p !in KeyMatches(s, 0)
  {
    MatchTakenOrOverlapped(s, 0, e);
    if p in KeyMatches(s, 0) {
      MatchesLieApart(s, 0, e, p);
    }
  }

  lemma UntouchedInSlice(file: Bytes, from: nat, to: nat, e: nat)
    requires from <= e <= to <= |file| && Untouched(file, e)
    ensures Untouched(file[from..to], e - from)
  {
    forall j: nat | e - from < j + KEY_LENGTH && j < e - from
      ensures !KeyAt(file[from..to], j)
    {
      if j + KEY_LENGTH <= to - from {
        KeyOfSlice(file, from, to, j);
      }
    }
  }

  lemma InnerKeyOfSliceIsNotTaken(file: Bytes, from: nat, to: nat, e: nat, p: nat)
    requires KeyAt(file, e) && Untouched(file, e) && e < p < e + KEY_LENGTH
    requires from <= e && p + KEY_LENGTH <= to <= |file|
    ensures p - from !in KeyMatches(file[from..to], 0)
  {
    KeyOfSlice(file, from, to, e - from);
    UntouchedInSlice(file, from, to, e);
    InnerKeyIsNotTaken(file[from..to], e - from, p - from);
  }

  // Hence every sample that holds both keys passes over the second one.
  lemma OverrunKeyIsMissed(chunks: seq<Bytes>, k: nat, e: nat, p: nat)
    requires k < |chunks| && KeyAt(Concat(chunks), e) && Untouched(Concat(chunks), e) && e < p < e + KEY_LENGTH
    requires SampleStart(PieceStart(chunks, k)) <= e && p + KEY_LENGTH <= PieceStart(chunks, k + 1)
    ensures p - SampleStart(PieceStart(chunks, k)) !in KeyMatches(SampleOf(chunks, k), 0)
  {
    SampleIsSlice(chunks, k);
    InnerKeyOfSliceIsNotTaken(Concat(chunks), SampleStart(PieceStart(chunks, k)), PieceStart(chunks, k + 1), e, p);
  }

  function OverrunChar(i: nat): char {
    if i == 0 || i == 3 || i == 16 || i == 19 then 'A'
    else if i == 1 || i == 17 then 'K'
    else if i == 2 || i == 18 then 'I'
    else '0'
  }

  // AKIA000000000000AKIA0000000000000000
  const OVERRUN: Bytes := seq(36, i requires 0 <= i < 36 => OverrunChar(i))

  lemma SecondLetterOfOverrun(j: nat)
    requires j < 36 && (OVERRUN[j] == 'K' || OVERRUN[j] == 'S')
    ensures j == 1 || j == 17
  {
  }

  lemma OverrunHoldsTwoKeys()
    ensures KeyAt(OVERRUN, 0) && KeyAt(OVERRUN, 16)
  {
    assert OVERRUN[0..4] == "AKIA" && OVERRUN[16..20] == "AKIA";
  }

  lemma OverrunHoldsNoOtherKey(m: nat)
    requires KeyAt(OVERRUN, m)
    ensures m == 0 || m == 16
  {
    var head := OVERRUN[m..m + 4];
    assert head[1] == OVERRUN[m + 1];
    SecondLetterOfOverrun(m + 1);
  }

  // The file has a real key, and no scan reports it, however the file is split.
  lemma SomeKeyIsMissed(chunks: seq<Bytes>)
    requires Concat(chunks) == OVERRUN && forall chunk | chunk in chunks :: chunk != []
    ensures
      var exempt := (key: Bytes) => key == OVERRUN[..KEY_LENGTH];
      && RealKeyAt(OVERRUN, 16, exempt)
      && !Reported(chunks, exempt)
  {
    var exempt := (key: Bytes) => key == OVERRUN[..KEY_LENGTH];
    OverrunHoldsTwoKeys();
    assert OVERRUN[16..36][16] == OVERRUN[32] == '0' && OVERRUN[..KEY_LENGTH][16] == OVERRUN[16] == 'A';
    InnerKeyIsNotTaken(OVERRUN, 0, 16);
    forall m | m in KeyMatches(OVERRUN, 0)
      ensures exempt(OVERRUN[m..m + KEY_LENGTH])
    {
      OverrunHoldsNoOtherKey(m);
    }
    ShortFileScanIsWholeFileScan(chunks, exempt);
  }
}
