/**
 What a finished public bundle is: exactly the exported files and the generated documents, its
 inventory, its listings, its archive, and that it depends on nothing but the source.
 */
module BundleResults {
  import opened Wrappers
  import opened Sorting
  import opened PublicSource
  import opened BundleDocs
  import opened Bundle

  // The content a generated document is written with.
  ghost function ContentOf(inputs: Inputs, entries: seq<SourceEntry>, doc: Doc): Blob
    requires Ready(inputs, entries) && Writes(inputs, doc)
  {
    match doc
    case ReadMe => Data(inputs.blobs[OVERLAY])
    case ExclusionsDoc => Data(inputs.blobs[EXCLUSIONS])
    case Reference => Data(inputs.project(inputs.blobs[ATTESTATION]).value)
    case Report => Data(inputs.certification.bytes)
    case ManifestDoc => ManifestFile(PublicationOf(inputs, entries))
    case Sums => SumsFile(ListingOf(WithManifest(inputs, entries)))
  }

  // The path is that of a document of the bundle.
  ghost predicate DocPath(inputs: Inputs, path: string) {
    exists doc :: Writes(inputs, doc) && path == NameOf(doc)
  }

  predicate Holds(files: Files, path: string, file: File) {
    Candidate(path) in files && files[Candidate(path)] == file
  }

  // The candidate is the exported files, each with its own bytes and mode, and the documents; no
  // file is both.
  ghost predicate CandidateOf(inputs: Inputs, entries: seq<SourceEntry>, files: Files)
    requires Ready(inputs, entries)
  {
    && (forall path :: Candidate(path) in files <==> Exported(inputs, path) || DocPath(inputs, path))
    && (forall path | Exported(inputs, path) :: !DocPath(inputs, path))
    && (forall entry | entry in entries && Exported(inputs, entry.path) ::
          Holds(files, entry.path, SourceFile(inputs, entry)))
    && (forall doc | Writes(inputs, doc) :: Holds(files, NameOf(doc), File(ContentOf(inputs, entries, doc), false)))
  }

  lemma DocKept(files: Files, doc: Doc, file: File, later: Doc, blob: Blob)
    requires Holds(files, NameOf(doc), file) && doc != later
    ensures Holds(AddDoc(files, later, blob), NameOf(doc), file)
  {
    NamesDiffer(doc, later);
  }

  lemma ReferencedHolds(inputs: Inputs, entries: seq<SourceEntry>, doc: Doc)
    requires Ready(inputs, entries) && (doc.ReadMe? || doc.ExclusionsDoc? || doc.Reference?)
    ensures Holds(Referenced(inputs, entries), NameOf(doc), File(ContentOf(inputs, entries, doc), false))
  {
    var file := File(ContentOf(inputs, entries, doc), false);
    if doc.ReadMe? {
      var overlaid := AddDoc(Copies(inputs, entries), ReadMe, file.content);
      DocKept(overlaid, doc, file, ExclusionsDoc, Data(inputs.blobs[EXCLUSIONS]));
    }
    if !doc.Reference? {
      DocKept(Overlaid(inputs, entries), doc, file, Reference, Data(inputs.project(inputs.blobs[ATTESTATION]).value));
    }
  }

  lemma PayloadHolds(inputs: Inputs, entries: seq<SourceEntry>, doc: Doc)
    requires Ready(inputs, entries) && Writes(inputs, doc) && !doc.ManifestDoc? && !doc.Sums?
    ensures Holds(Payload(inputs, entries), NameOf(doc), File(ContentOf(inputs, entries, doc), false))
  {
    if !doc.Report? {
      ReferencedHolds(inputs, entries, doc);
      if inputs.certification.Certified? {
        DocKept(Referenced(inputs, entries), doc, File(ContentOf(inputs, entries, doc), false), Report,
                Data(inputs.certification.bytes));
      }
    }
  }

  lemma ManifestHolds(inputs: Inputs, entries: seq<SourceEntry>, doc: Doc)
    requires Ready(inputs, entries) && Writes(inputs, doc) && !doc.Sums?
    ensures Holds(WithManifest(inputs, entries), NameOf(doc), File(ContentOf(inputs, entries, doc), false))
  {
    if !doc.ManifestDoc? {
      PayloadHolds(inputs, entries, doc);
      DocKept(Payload(inputs, entries), doc, File(ContentOf(inputs, entries, doc), false), ManifestDoc,
              ManifestFile(PublicationOf(inputs, entries)));
    }
  }

  lemma SumsHold(inputs: Inputs, entries: seq<SourceEntry>, doc: Doc)
    requires Ready(inputs, entries) && Writes(inputs, doc)
    ensures Holds(WithSums(inputs, entries), NameOf(doc), File(ContentOf(inputs, entries, doc), false))
  {
    if !doc.Sums? {
      ManifestHolds(inputs, entries, doc);
      DocKept(WithManifest(inputs, entries), doc, File(ContentOf(inputs, entries, doc), false), Sums,
              SumsFile(ListingOf(WithManifest(inputs, entries))));
    }
  }

  // The files beside the candidate are no part of it.
  lemma BesideIsSame(candidate: Files, manifest: Blob, exclusions: Blob)
    ensures SameCandidate(candidate, Beside(candidate, manifest, exclusions))
  {
  }

  lemma SumsCopy(inputs: Inputs, entries: seq<SourceEntry>, path: string)
    requires Ready(inputs, entries) && !DocPath(inputs, path)
    ensures Candidate(path) in WithSums(inputs, entries) <==> Candidate(path) in Copies(inputs, entries)
    ensures Candidate(path) in Copies(inputs, entries) ==>
              Holds(WithSums(inputs, entries), path, Copies(inputs, entries)[Candidate(path)])
  {
    assert forall doc | Writes(inputs, doc) :: path != NameOf(doc);
    assert Writes(inputs, ReadMe) && Writes(inputs, ExclusionsDoc) && Writes(inputs, Reference);
    assert Writes(inputs, ManifestDoc) && Writes(inputs, Sums);
  }

  lemma NotExported(inputs: Inputs, doc: Doc)
    requires PolicyHolds(inputs.policy) && Buildable(inputs) && Writes(inputs, doc)
    ensures !Exported(inputs, NameOf(doc))
  {
    assert doc.ReadMe? ==> NameOf(doc) == README;
  }

  lemma SumsAreCandidate(inputs: Inputs, entries: seq<SourceEntry>)
    requires PolicyHolds(inputs.policy) && IsTree(inputs, entries) && Ready(inputs, entries) && Buildable(inputs)
    ensures CandidateOf(inputs, entries, WithSums(inputs, entries))
  {
    var files := WithSums(inputs, entries);
    TreeIsCopied(inputs, entries);
    CopiesHold(inputs, entries);
    forall doc | Writes(inputs, doc)
      ensures Holds(files, NameOf(doc), File(ContentOf(inputs, entries, doc), false)) && !Exported(inputs, NameOf(doc))
    {
      SumsHold(inputs, entries, doc);
      NotExported(inputs, doc);
    }
    forall path | !DocPath(inputs, path)
      ensures Candidate(path) in files <==> Candidate(path) in Copies(inputs, entries)
      ensures Candidate(path) in Copies(inputs, entries) ==>
                Holds(files, path, Copies(inputs, entries)[Candidate(path)])
    {
      SumsCopy(inputs, entries, path);
    }
  }

  predicate SameCandidate(a: Files, b: Files) {
    && (forall target | target in a && target.Candidate? :: Holds(b, target.path, a[target]))
    && (forall target | target in b && target.Candidate? :: target in a)
  }

  lemma CandidateOfSame(inputs: Inputs, entries: seq<SourceEntry>, a: Files, b: Files)
    requires Ready(inputs, entries) && CandidateOf(inputs, entries, a) && SameCandidate(a, b)
    ensures CandidateOf(inputs, entries, b)
  {
    forall path
      ensures Candidate(path) in b <==> Candidate(path) in a
    {
      assert Candidate(path) in a ==> Holds(b, path, a[Candidate(path)]);
    }
    forall path, file: File | Holds(a, path, file)
      ensures Holds(b, path, file)
    {
      assert Holds(b, path, a[Candidate(path)]);
    }
  }

  lemma BuiltIsCandidate(inputs: Inputs, entries: seq<SourceEntry>, files: Files)
    requires PolicyHolds(inputs.policy) && Built(inputs, entries, files)
    ensures CandidateOf(inputs, entries, files)
  {
    SumsAreCandidate(inputs, entries);
    BesideIsSame(
      WithSums(inputs, entries), ManifestFile(PublicationOf(inputs, entries)), Data(inputs.blobs[EXCLUSIONS]));
    CandidateOfSame(inputs, entries, WithSums(inputs, entries), files);
  }

  // A path the policy excludes is not in the candidate, but for the root read-me, which holds the
  // overlay.
  lemma ExcludedIsAbsent(inputs: Inputs, entries: seq<SourceEntry>, files: Files, path: string)
    requires PolicyHolds(inputs.policy) && Ready(inputs, entries) && CandidateOf(inputs, entries, files)
    requires path in Tracked(inputs) && !inputs.policy(path).included
    ensures Candidate(path) in files <==> path == README
    ensures Holds(files, README, File(Data(inputs.blobs[OVERLAY]), false))
  {
    assert Writes(inputs, ReadMe) && README == NameOf(ReadMe);
    assert DocPath(inputs, README);
    if DocPath(inputs, path) {
      var doc :| Writes(inputs, doc) && path == NameOf(doc);
      assert doc == ReadMe;
    }
  }

  // Where the bytes of an item are, by the inventory.
  ghost predicate ExportsTo(items: seq<Item>, i: nat, path: string) {
    i < |items| && path in items[i].exportPaths
  }

  // The documents that come from no tracked file of their own.
  predicate Standalone(doc: Doc) {
    doc.Reference? || doc.Report? || doc.ManifestDoc? || doc.Sums?
  }

  lemma ItemExports(inputs: Inputs, entries: seq<SourceEntry>, i: nat, path: string)
    requires PolicyHolds(inputs.policy) && HasBlobs(inputs, entries) && i < |entries|
    ensures ExportsTo(Inventory(inputs, entries), i, path) <==>
            (path == entries[i].path && inputs.policy(path).included) ||
            (path == NameOf(ReadMe) && entries[i].path == OVERLAY) ||
            (path == NameOf(ExclusionsDoc) && entries[i].path == EXCLUSIONS)
  {
    var item := Inventory(inputs, entries)[i];
    assert item == Marked(ItemOf(inputs, entries[i]));
    OverlayNamesDiffer();
  }

  lemma OverlayNamesDiffer()
    ensures OVERLAY != EXCLUSIONS
  {
    assert OVERLAY[16] != EXCLUSIONS[16];
  }

  // An export path is in the candidate and holds the bytes of its item.
  lemma ExportHoldsItem(inputs: Inputs, entries: seq<SourceEntry>, files: Files, i: nat, path: string)
    requires PolicyHolds(inputs.policy) && IsTree(inputs, entries) && Ready(inputs, entries)
    requires CandidateOf(inputs, entries, files) && ExportsTo(Inventory(inputs, entries), i, path)
    ensures Candidate(path) in files
    ensures Sha(files[Candidate(path)].content) == Inventory(inputs, entries)[i].source
  {
    ItemExports(inputs, entries, i, path);
    var entry := entries[i];
    assert entry in entries;
    if path == entry.path && inputs.policy(path).included {
      assert Holds(files, path, SourceFile(inputs, entry));
    } else if path == NameOf(ReadMe) {
      assert Holds(files, path, File(ContentOf(inputs, entries, ReadMe), false));
    } else {
      assert Holds(files, path, File(ContentOf(inputs, entries, ExclusionsDoc), false));
    }
  }

  // No path is exported by two items.
  lemma OneItemPerExport(inputs: Inputs, entries: seq<SourceEntry>, files: Files, i: nat, j: nat, path: string)
    requires PolicyHolds(inputs.policy) && IsTree(inputs, entries) && Ready(inputs, entries)
    requires CandidateOf(inputs, entries, files)
    requires ExportsTo(Inventory(inputs, entries), i, path) && ExportsTo(Inventory(inputs, entries), j, path)
    ensures i == j
  {
    ItemExports(inputs, entries, i, path);
    ItemExports(inputs, entries, j, path);
    NamesDiffer(ReadMe, ExclusionsDoc);
    assert entries[i] in entries && entries[j] in entries;
    assert Writes(inputs, ReadMe) && Writes(inputs, ExclusionsDoc);
    if Exported(inputs, path) {
      assert !DocPath(inputs, path);
      assert path != NameOf(ReadMe) && path != NameOf(ExclusionsDoc);
    }
    assert entries[i].path == entries[j].path;
  }

  ghost predicate IsExport(items: seq<Item>, path: string) {
    exists i :: ExportsTo(items, i, path)
  }

  // The path is that of a document no tracked file is the source of.
  ghost predicate StandalonePath(inputs: Inputs, path: string) {
    exists doc :: Standalone(doc) && Writes(inputs, doc) && path == NameOf(doc)
  }

  lemma StandaloneIsNoExport(inputs: Inputs, entries: seq<SourceEntry>, files: Files, doc: Doc, i: nat)
    requires PolicyHolds(inputs.policy) && IsTree(inputs, entries) && Ready(inputs, entries)
    requires CandidateOf(inputs, entries, files) && Standalone(doc) && Writes(inputs, doc) && i < |entries|
    ensures !ExportsTo(Inventory(inputs, entries), i, NameOf(doc))
  {
    ItemExports(inputs, entries, i, NameOf(doc));
    NamesDiffer(doc, ReadMe);
    NamesDiffer(doc, ExclusionsDoc);
    assert entries[i] in entries && DocPath(inputs, NameOf(doc));
  }

  lemma OtherIsExport(inputs: Inputs, entries: seq<SourceEntry>, files: Files, path: string)
    requires PolicyHolds(inputs.policy) && IsTree(inputs, entries) && Ready(inputs, entries)
    requires CandidateOf(inputs, entries, files) && Candidate(path) in files && !StandalonePath(inputs, path)
    ensures IsExport(Inventory(inputs, entries), path)
  {
    var source := path;
    if DocPath(inputs, path) {
      var doc :| Writes(inputs, doc) && path == NameOf(doc);
      source := if doc == ReadMe then OVERLAY else EXCLUSIONS;
    }
    assert IsEntry(entries, source);
    var entry :| entry in entries && entry.path == source;
    var i :| 0 <= i < |entries| && entries[i] == entry;
    ItemExports(inputs, entries, i, path);
  }

  // The candidate is the disjoint union of the export paths of the inventory and of the standalone
  // documents.
  lemma InventoryIsExact(inputs: Inputs, entries: seq<SourceEntry>, files: Files)
    requires PolicyHolds(inputs.policy) && IsTree(inputs, entries) && Ready(inputs, entries)
    requires CandidateOf(inputs, entries, files)
    ensures forall path :: Candidate(path) in files <==>
                           IsExport(Inventory(inputs, entries), path) || StandalonePath(inputs, path)
    ensures forall path | StandalonePath(inputs, path) :: !IsExport(Inventory(inputs, entries), path)
  {
    var items := Inventory(inputs, entries);
    forall path
      ensures Candidate(path) in files <==> IsExport(items, path) || StandalonePath(inputs, path)
      ensures StandalonePath(inputs, path) ==> !IsExport(items, path)
    {
      if IsExport(items, path) {
        var i :| ExportsTo(items, i, path);
        ExportHoldsItem(inputs, entries, files, i, path);
      }
      if StandalonePath(inputs, path) {
        var doc :| Standalone(doc) && Writes(inputs, doc) && path == NameOf(doc);
        assert DocPath(inputs, path);
        forall i: nat | i < |items|
          ensures !ExportsTo(items, i, path)
        {
          StandaloneIsNoExport(inputs, entries, files, doc, i);
        }
      } else if Candidate(path) in files {
        OtherIsExport(inputs, entries, files, path);
      }
    }
  }

  // ---------- Counts, listings and the archive ----------

  lemma {:induction false} CountsAddUp(items: seq<Item>)
    ensures CountOf(items, Generated) + CountOf(items, LegalReview) + CountOf(items, PrivateInternal) +
            CountOf(items, PublicAllowed) + CountOf(items, PublicRequired) + CountOf(items, SecretRisk) == |items|
  {
    if items != [] {
      CountsAddUp(items[..|items| - 1]);
    }
  }

  // What the manifest shows for a class; a class without items is not listed.
  function Shown(counts: map<Class, nat>, name: Class): nat {
    if name in counts then counts[name] else 0
  }

  // The classification counts of a manifest sum to its inventory.
  lemma CountsSumToInventory(items: seq<Item>)
    ensures var counts := Counts(items);
            Shown(counts, Generated) + Shown(counts, LegalReview) + Shown(counts, PrivateInternal) +
            Shown(counts, PublicAllowed) + Shown(counts, PublicRequired) + Shown(counts, SecretRisk) == |items|
  {
    CountsAddUp(items);
  }

  // A sequence of lines gives the digest of each named file once, in path order.
  predicate LinesUp(files: Files, paths: set<string>, lines: seq<Line>) {
    && (forall i, j | 0 <= i < j < |lines| :: TextLeq(lines[i].path, lines[j].path) && lines[i].path != lines[j].path)
    && (forall i | 0 <= i < |lines| ::
          lines[i].path in paths && Candidate(lines[i].path) in files &&
          lines[i].digest == Sha(files[Candidate(lines[i].path)].content))
    && (forall path | path in paths :: exists i | 0 <= i < |lines| :: lines[i].path == path)
  }

  lemma SortedNamesDiffer(names: set<string>, i: nat, j: nat)
    requires i < j < |SortedNames(names)|
    ensures SortedNames(names)[i] != SortedNames(names)[j]
  {
    SortedNamesHold(names);
    if SortedNames(names)[i] == SortedNames(names)[j] {
      RepeatsCountTwice(SortedNames(names), i, j);
      assert false;
    }
  }

  lemma ListingLinesUp(files: Files)
    ensures LinesUp(files, Names(files), ListingOf(files))
  {
    var names := SortedNames(Names(files));
    SortedNamesHold(Names(files));
    var lines := ListingOf(files);
    forall i, j | 0 <= i < j < |lines|
      ensures TextLeq(lines[i].path, lines[j].path) && lines[i].path != lines[j].path
    {
      SortedNamesDiffer(Names(files), i, j);
    }
    forall i | 0 <= i < |lines|
      ensures lines[i].path in Names(files)
    {
      assert names[i] in names;
    }
    forall path | path in Names(files)
      ensures exists i | 0 <= i < |lines| :: lines[i].path == path
    {
      assert path in names;
      var i :| 0 <= i < |names| && names[i] == path;
      assert lines[i].path == path;
    }
  }

  lemma LinesKept(files: Files, paths: set<string>, lines: seq<Line>, doc: Doc, blob: Blob)
    requires LinesUp(files, paths, lines) && NameOf(doc) !in paths
    ensures LinesUp(AddDoc(files, doc, blob), paths, lines)
  {
  }

  lemma LinesSame(a: Files, b: Files, paths: set<string>, lines: seq<Line>)
    requires LinesUp(a, paths, lines) && SameCandidate(a, b)
    ensures LinesUp(b, paths, lines)
  {
    forall i | 0 <= i < |lines|
      ensures Candidate(lines[i].path) in b && lines[i].digest == Sha(b[Candidate(lines[i].path)].content)
    {
      assert Holds(b, lines[i].path, a[Candidate(lines[i].path)]);
    }
  }

  lemma NamesMore(files: Files, doc: Doc, blob: Blob)
    ensures Names(AddDoc(files, doc, blob)) == Names(files) + {NameOf(doc)}
  {
  }

  lemma StillNew(files: Files, doc: Doc, later: Doc, blob: Blob)
    requires NameOf(doc) !in Names(files) && doc != later
    ensures NameOf(doc) !in Names(AddDoc(files, later, blob))
  {
    NamesDiffer(doc, later);
    NamesMore(files, later, blob);
  }

  lemma NewToCopies(inputs: Inputs, entries: seq<SourceEntry>, doc: Doc)
    requires PolicyHolds(inputs.policy) && IsTree(inputs, entries) && Ready(inputs, entries) && Buildable(inputs)
    requires Writes(inputs, doc)
    ensures NameOf(doc) !in Names(Copies(inputs, entries))
  {
    CopiesHold(inputs, entries);
    NotExported(inputs, doc);
  }

  // The later documents are not among the earlier files.
  lemma NewToPayload(inputs: Inputs, entries: seq<SourceEntry>, doc: Doc)
    requires PolicyHolds(inputs.policy) && IsTree(inputs, entries) && Ready(inputs, entries) && Buildable(inputs)
    requires doc.ManifestDoc? || doc.Sums?
    ensures NameOf(doc) !in Names(Payload(inputs, entries))
  {
    NewToCopies(inputs, entries, doc);
    StillNew(Copies(inputs, entries), doc, ReadMe, Data(inputs.blobs[OVERLAY]));
    StillNew(AddDoc(Copies(inputs, entries), ReadMe, Data(inputs.blobs[OVERLAY])), doc, ExclusionsDoc,
             Data(inputs.blobs[EXCLUSIONS]));
    StillNew(Overlaid(inputs, entries), doc, Reference, Data(inputs.project(inputs.blobs[ATTESTATION]).value));
    if inputs.certification.Certified? {
      StillNew(Referenced(inputs, entries), doc, Report, Data(inputs.certification.bytes));
    }
  }

  lemma ListedThenAdded(listed: Files, doc: Doc, blob: Blob)
    requires NameOf(doc) !in Names(listed)
    ensures LinesUp(AddDoc(listed, doc, blob), Names(AddDoc(listed, doc, blob)) - {NameOf(doc)}, ListingOf(listed))
  {
    ListingLinesUp(listed);
    LinesKept(listed, Names(listed), ListingOf(listed), doc, blob);
    NamesMore(listed, doc, blob);
    assert Names(AddDoc(listed, doc, blob)) - {NameOf(doc)} == Names(listed);
  }

  lemma ListedThenAddedTwice(listed: Files, doc: Doc, blob: Blob, later: Doc, other: Blob)
    requires NameOf(doc) !in Names(listed) && NameOf(later) !in Names(listed)
    ensures var files := AddDoc(AddDoc(listed, doc, blob), later, other);
            LinesUp(files, Names(files) - {NameOf(later), NameOf(doc)}, ListingOf(listed))
  {
    var once := AddDoc(listed, doc, blob);
    ListingLinesUp(listed);
    LinesKept(listed, Names(listed), ListingOf(listed), doc, blob);
    LinesKept(once, Names(listed), ListingOf(listed), later, other);
    NamesMore(listed, doc, blob);
    NamesMore(once, later, other);
    assert Names(AddDoc(once, later, other)) - {NameOf(later), NameOf(doc)} == Names(listed);
  }

  lemma BuiltSame(inputs: Inputs, entries: seq<SourceEntry>, files: Files)
    requires Built(inputs, entries, files)
    ensures SameCandidate(WithSums(inputs, entries), files) && Names(WithSums(inputs, entries)) == Names(files)
  {
    BesideIsSame(
      WithSums(inputs, entries), ManifestFile(PublicationOf(inputs, entries)), Data(inputs.blobs[EXCLUSIONS]));
    SameCandidateNames(WithSums(inputs, entries), files);
  }

  // The checksum list has one line, in path order, for every file of the candidate but itself.
  lemma SumsAreExact(inputs: Inputs, entries: seq<SourceEntry>, files: Files)
    requires PolicyHolds(inputs.policy) && Built(inputs, entries, files)
    ensures Holds(files, NameOf(Sums), File(SumsFile(ListingOf(WithManifest(inputs, entries))), false))
    ensures LinesUp(files, Names(files) - {NameOf(Sums)}, ListingOf(WithManifest(inputs, entries)))
  {
    var listed := WithManifest(inputs, entries);
    NewToPayload(inputs, entries, Sums);
    StillNew(Payload(inputs, entries), Sums, ManifestDoc, ManifestFile(PublicationOf(inputs, entries)));
    ListedThenAdded(listed, Sums, SumsFile(ListingOf(listed)));
    BuiltSame(inputs, entries, files);
    LinesSame(WithSums(inputs, entries), files, Names(files) - {NameOf(Sums)}, ListingOf(listed));
    SumsHold(inputs, entries, Sums);
  }

  lemma PayloadLinesUp(inputs: Inputs, entries: seq<SourceEntry>, files: Files)
    requires PolicyHolds(inputs.policy) && Built(inputs, entries, files)
    ensures LinesUp(files, Names(files) - {NameOf(Sums), NameOf(ManifestDoc)}, ListingOf(Payload(inputs, entries)))
  {
    var payload := Payload(inputs, entries);
    NewToPayload(inputs, entries, Sums);
    NewToPayload(inputs, entries, ManifestDoc);
    ListedThenAddedTwice(payload, ManifestDoc, ManifestFile(PublicationOf(inputs, entries)), Sums,
                         SumsFile(ListingOf(WithManifest(inputs, entries))));
    BuiltSame(inputs, entries, files);
    LinesSame(WithSums(inputs, entries), files, Names(files) - {NameOf(Sums), NameOf(ManifestDoc)}, ListingOf(payload));
  }

  // The payload of the manifest lists every file of the candidate but itself and the checksums.
  lemma PayloadIsExact(inputs: Inputs, entries: seq<SourceEntry>, files: Files)
    requires PolicyHolds(inputs.policy) && Built(inputs, entries, files)
    ensures LinesUp(files, Names(files) - {NameOf(Sums), NameOf(ManifestDoc)}, PublicationOf(inputs, entries).payload)
  {
    PayloadLinesUp(inputs, entries, files);
  }

  lemma BesideHolds(candidate: Files, path: string, manifest: Blob, exclusions: Blob)
    requires Holds(candidate, path, File(manifest, false))
    ensures
      var files := Beside(candidate, manifest, exclusions);
      && Holds(files, path, File(manifest, false))
      && OuterManifest in files && files[OuterManifest] == files[Candidate(path)]
  {
  }

  // The manifest is in the candidate and, with the same bytes, beside it.
  lemma ManifestIsInPlace(inputs: Inputs, entries: seq<SourceEntry>, files: Files)
    requires PolicyHolds(inputs.policy) && Built(inputs, entries, files)
    ensures Holds(files, NameOf(ManifestDoc), File(ManifestFile(PublicationOf(inputs, entries)), false))
    ensures OuterManifest in files && files[OuterManifest] == files[Candidate(NameOf(ManifestDoc))]
  {
    SumsHold(inputs, entries, ManifestDoc);
    BesideHolds(
      WithSums(inputs, entries), NameOf(ManifestDoc), ManifestFile(PublicationOf(inputs, entries)),
      Data(inputs.blobs[EXCLUSIONS]));
  }

  lemma SameCandidateNames(a: Files, b: Files)
    requires SameCandidate(a, b)
    ensures Names(a) == Names(b)
  {
    forall path
      ensures path in Names(a) <==> path in Names(b)
    {
      if path in Names(a) {
        assert Holds(b, path, a[Candidate(path)]);
      }
      if path in Names(b) {
        assert Candidate(path) in b;
      }
    }
  }

  // The archive holds every file of the candidate once, in path order, with its bytes and mode.
  lemma ArchiveIsExact(inputs: Inputs, entries: seq<SourceEntry>, files: Files)
    requires PolicyHolds(inputs.policy) && Built(inputs, entries, files)
    ensures Archive in files && files[Archive].content.ArchiveFile?
    ensures var members := files[Archive].content.members;
            && (forall i, j | 0 <= i < j < |members| ::
                  TextLeq(members[i].path, members[j].path) && members[i].path != members[j].path)
            && (forall i | 0 <= i < |members| :: Holds(files, members[i].path, members[i].file))
            && (forall path | path in Names(files) :: exists i | 0 <= i < |members| :: members[i].path == path)
  {
    var candidate := WithSums(inputs, entries);
    BesideIsSame(candidate, ManifestFile(PublicationOf(inputs, entries)), Data(inputs.blobs[EXCLUSIONS]));
    SameCandidateNames(candidate, files);
    ArchiveLinesUp(candidate);
    var members := ArchiveOf(candidate);
    assert files[Archive].content == ArchiveFile(members);
    forall i | 0 <= i < |members|
      ensures Holds(files, members[i].path, members[i].file)
    {
      assert Holds(candidate, members[i].path, members[i].file);
    }
  }

  lemma ArchiveLinesUp(files: Files)
    ensures var members := ArchiveOf(files);
            && (forall i, j | 0 <= i < j < |members| ::
                  TextLeq(members[i].path, members[j].path) && members[i].path != members[j].path)
            && (forall i | 0 <= i < |members| :: Holds(files, members[i].path, members[i].file))
            && (forall path | path in Names(files) :: exists i | 0 <= i < |members| :: members[i].path == path)
  {
    var names, members := SortedNames(Names(files)), ArchiveOf(files);
    SortedNamesHold(Names(files));
    forall i, j | 0 <= i < j < |members|
      ensures TextLeq(members[i].path, members[j].path) && members[i].path != members[j].path
    {
      SortedNamesDiffer(Names(files), i, j);
    }
    forall i | 0 <= i < |members|
      ensures Holds(files, members[i].path, members[i].file)
    {
      assert names[i] in names;
    }
    forall path | path in Names(files)
      ensures exists i | 0 <= i < |members| :: members[i].path == path
    {
      assert path in names;
      var i :| 0 <= i < |names| && names[i] == path;
      assert members[i].path == path;
    }
  }

  // The same source gives the same bundle, file by file and byte by byte.
  lemma BuildIsDeterministic(
    inputs: Inputs, a: seq<SourceEntry>, b: seq<SourceEntry>, files: Files, others: Files)
    requires Built(inputs, a, files) && Built(inputs, b, others)
    ensures files == others && SummaryOf(inputs, a) == SummaryOf(inputs, b)
  {
    ListingOrderIsIrrelevant(inputs.listing.value, inputs.listing.value, a, b);
  }
}
