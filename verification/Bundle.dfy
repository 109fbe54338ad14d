/**
 The public bundle: the exported source files, the generated documents beside them, the checksum
 list and the archive, each file created exclusively.

 A SHA-256 digest is an injective tag. JSON parsing and case folding are parameters. Any read or
 write may fail; a failed write may leave its own file behind, torn.
 */
module Bundle {
  import opened Wrappers
  import opened Sorting
  import opened PublicSource
  import opened BundleDocs

  // ---------- Files ----------

  datatype Blob =
    | Data(bytes: string)
    | ManifestFile(publication: Publication)
    | SumsFile(lines: seq<Line>)
    | OuterSumsFile(archive: Digest, exclusions: Digest, manifest: Digest)
    | ArchiveFile(members: seq<Member>)
    | Torn(whole: Blob)

  datatype Digest = Sha(blob: Blob)

  // One line of a checksum list or payload listing.
  datatype Line = Line(digest: Digest, path: string)

  datatype Member = Member(path: string, file: File)

  datatype Item = Item(entry: SourceEntry, classification: Classification, exportPaths: seq<string>, source: Digest)

  datatype Publication = Publication(
    inventory: seq<Item>,
    counts: map<Class, nat>,
    payload: seq<Line>,
    report: Option<Digest>)

  datatype File = File(content: Blob, executable: bool)

  // A file of the candidate directory, or one beside it.
  datatype Target = Candidate(path: string) | Archive | OuterManifest | OuterExclusions | OuterSums

  type Files = map<Target, File>

  // What was, or was to be, written.
  function Intended(blob: Blob): Blob {
    if blob.Torn? then blob.whole else blob
  }

  // ---------- What a bundle is built from ----------

  // The report handed in: none, one that cannot be read or does not say PASS, or a good one.
  datatype Certification = NoReport | BadReport | Certified(bytes: string)

  // The Git listing or the reason it failed, the content of every blob, and what the attestation
  // projects to when it says BUILD_COMPLETE.
  datatype Inputs = Inputs(
    listing: Result<seq<Record>, Reason>,
    blobs: map<string, string>,
    policy: string -> Classification,
    project: string -> Option<string>,
    certification: Certification)

  // What the bundle relies on in an export policy.
  ghost predicate PolicyHolds(policy: string -> Classification) {
    && !policy(README).included
    && policy(OVERLAY).included && policy(EXCLUSIONS).included
    && forall doc: Doc | doc != ReadMe :: policy(NameOf(doc)).included
  }

  // The reviewed policy is such a policy, however characters outside ASCII are folded.
  lemma ReviewedPolicyHolds(other: char -> string)
    ensures PolicyHolds((path: string) => ClassifyPath(path, other))
  {
    OverlayIsIncluded(other);
    ExclusionsAreIncluded(other);
    forall doc: Doc | doc != ReadMe
      ensures Included(NameOf(doc), other)
    {
      DocNamesAreIncluded(doc, other);
    }
  }

  function Tracked(inputs: Inputs): set<string> {
    if inputs.listing.Success? then PathsOf(inputs.listing.value) else {}
  }

  predicate Exported(inputs: Inputs, path: string) {
    path in Tracked(inputs) && inputs.policy(path).included
  }

  // The document is part of this bundle.
  predicate Writes(inputs: Inputs, doc: Doc) {
    doc.Report? ==> inputs.certification.Certified?
  }

  // Everything that must hold of the inputs for a bundle to come out when nothing breaks.
  ghost predicate Buildable(inputs: Inputs) {
    && inputs.listing.Success? && Sound(inputs.listing.value)
    && Tracked(inputs) <= inputs.blobs.Keys
    && OVERLAY in Tracked(inputs) && EXCLUSIONS in Tracked(inputs) && ATTESTATION in Tracked(inputs)
    && inputs.project(inputs.blobs[ATTESTATION]).Some?
    && !inputs.certification.BadReport?
    && (forall doc | Writes(inputs, doc) :: NameOf(doc) !in Tracked(inputs) || doc.ReadMe?)
    && (forall path | Exported(inputs, path) :: Ascii(path))
  }

  // ---------- What the bundle holds ----------

  function SourceFile(inputs: Inputs, entry: SourceEntry): File
    requires entry.path in inputs.blobs
  {
    File(Data(inputs.blobs[entry.path]), entry.mode == EXECUTABLE)
  }

  predicate HasBlobs(inputs: Inputs, entries: seq<SourceEntry>) {
    forall entry | entry in entries :: entry.path in inputs.blobs
  }

  function Copies(inputs: Inputs, entries: seq<SourceEntry>): Files
    requires HasBlobs(inputs, entries)
  {
    if entries == [] then map[]
    else
      var above, last := Copies(inputs, entries[..|entries| - 1]), entries[|entries| - 1];
      if inputs.policy(last.path).included then above[Candidate(last.path) := SourceFile(inputs, last)] else above
  }

  function ItemOf(inputs: Inputs, entry: SourceEntry): Item
    requires entry.path in inputs.blobs
  {
    var classification := inputs.policy(entry.path);
    Item(entry, classification, if classification.included then [entry.path] else [],
         Sha(Data(inputs.blobs[entry.path])))
  }

  // An item whose content is also shown at the root.
  function Marked(item: Item): Item {
    if item.entry.path == OVERLAY then item.(exportPaths := [OVERLAY, NameOf(ReadMe)])
    else if item.entry.path == EXCLUSIONS then item.(exportPaths := [EXCLUSIONS, NameOf(ExclusionsDoc)])
    else item
  }

  function Inventory(inputs: Inputs, entries: seq<SourceEntry>): (items: seq<Item>)
    requires HasBlobs(inputs, entries)
    ensures |items| == |entries|
    ensures forall i | 0 <= i < |items| :: items[i] == Marked(ItemOf(inputs, entries[i]))
  {
    seq(|entries|, i requires 0 <= i < |entries| => Marked(ItemOf(inputs, entries[i])))
  }

  function CountOf(items: seq<Item>, name: Class): nat {
    if items == [] then 0
    else CountOf(items[..|items| - 1], name) + if items[|items| - 1].classification.name == name then 1 else 0
  }

  function Counts(items: seq<Item>): map<Class, nat> {
    map name: Class | CountOf(items, name) > 0 :: CountOf(items, name)
  }

  ghost function AnyOrder(names: set<string>): seq<string> {
    if names == {} then [] else var name :| name in names; [name] + AnyOrder(names - {name})
  }

  ghost function SortedNames(names: set<string>): seq<string> {
    Sort(AnyOrder(names), TextLeq)
  }

  function Names(files: Files): set<string> {
    set target | target in files && target.Candidate? :: target.path
  }

  // A line for each of the names.
  function LinesOf(files: Files, names: seq<string>): (lines: seq<Line>)
    requires forall name | name in names :: Candidate(name) in files
    ensures |lines| == |names|
    ensures forall i | 0 <= i < |names| :: lines[i] == Line(Sha(files[Candidate(names[i])].content), names[i])
  {
    seq(|names|, i requires 0 <= i < |names| => Line(Sha(files[Candidate(names[i])].content), names[i]))
  }

  function MembersOf(files: Files, names: seq<string>): (members: seq<Member>)
    requires forall name | name in names :: Candidate(name) in files
    ensures |members| == |names|
    ensures forall i | 0 <= i < |names| :: members[i] == Member(names[i], files[Candidate(names[i])])
  {
    seq(|names|, i requires 0 <= i < |names| => Member(names[i], files[Candidate(names[i])]))
  }

  lemma {:induction false} AnyOrderHolds(names: set<string>)
    ensures forall name :: name in AnyOrder(names) <==> name in names
    ensures multiset(AnyOrder(names)) == multiset(names)
  {
    if names != {} {
      var order := AnyOrder(names);
      var name := order[0];
      assert order == [name] + AnyOrder(names - {name});
      AnyOrderHolds(names - {name});
      assert names == names - {name} + {name};
    }
  }

  lemma SortedNamesHold(names: set<string>)
    ensures forall name :: name in SortedNames(names) <==> name in names
    ensures multiset(SortedNames(names)) == multiset(names)
    ensures Sorted(SortedNames(names), TextLeq)
  {
    AnyOrderHolds(names);
    TextLeqIsPreorder();
    SortSorts(AnyOrder(names), TextLeq);
    SortPermutes(AnyOrder(names), TextLeq);
    SameMultisetSameMembers(SortedNames(names), AnyOrder(names));
  }

  lemma SortedNamesIgnoreOrder(found: seq<string>, names: set<string>)
    requires multiset(found) == multiset(names)
    ensures Sort(found, TextLeq) == SortedNames(names)
  {
    AnyOrderHolds(names);
    TextLeqIsPreorder();
    assert Distinguishes(TextLeq, found) by {
      forall x, y | x in found && y in found && TextLeq(x, y) && TextLeq(y, x)
        ensures x == y
      {
        TextLeqTotal(x, y);
      }
    }
    SortIgnoresOrder(found, AnyOrder(names), TextLeq);
  }

  // The candidate listed in path order, with digests.
  ghost function ListingOf(files: Files): seq<Line> {
    SortedNamesHold(Names(files));
    LinesOf(files, SortedNames(Names(files)))
  }

  ghost function ArchiveOf(files: Files): seq<Member> {
    SortedNamesHold(Names(files));
    MembersOf(files, SortedNames(Names(files)))
  }

  // Everything the bundle needs of its inputs but free names.
  predicate Ready(inputs: Inputs, entries: seq<SourceEntry>) {
    && HasBlobs(inputs, entries)
    && OVERLAY in Tracked(inputs) && EXCLUSIONS in Tracked(inputs) && ATTESTATION in Tracked(inputs)
    && OVERLAY in inputs.blobs && EXCLUSIONS in inputs.blobs && ATTESTATION in inputs.blobs
    && inputs.project(inputs.blobs[ATTESTATION]).Some?
  }

  function Add(files: Files, target: Target, blob: Blob): Files {
    files[target := File(blob, false)]
  }

  function AddDoc(files: Files, doc: Doc, blob: Blob): Files {
    Add(files, Candidate(NameOf(doc)), blob)
  }

  // The copied files and the overlays at the root.
  function Overlaid(inputs: Inputs, entries: seq<SourceEntry>): Files
    requires HasBlobs(inputs, entries) && OVERLAY in inputs.blobs && EXCLUSIONS in inputs.blobs
  {
    var overlaid := AddDoc(Copies(inputs, entries), ReadMe, Data(inputs.blobs[OVERLAY]));
    AddDoc(overlaid, ExclusionsDoc, Data(inputs.blobs[EXCLUSIONS]))
  }

  function Referenced(inputs: Inputs, entries: seq<SourceEntry>): Files
    requires Ready(inputs, entries)
  {
    AddDoc(Overlaid(inputs, entries), Reference, Data(inputs.project(inputs.blobs[ATTESTATION]).value))
  }

  // All files but the manifest and the checksums.
  function Payload(inputs: Inputs, entries: seq<SourceEntry>): Files
    requires Ready(inputs, entries)
  {
    var referenced := Referenced(inputs, entries);
    if inputs.certification.Certified? then AddDoc(referenced, Report, Data(inputs.certification.bytes)) else referenced
  }

  function ReportDigest(certification: Certification): Option<Digest> {
    if certification.Certified? then Some(Sha(Data(certification.bytes))) else None
  }

  ghost function PublicationOf(inputs: Inputs, entries: seq<SourceEntry>): Publication
    requires Ready(inputs, entries)
  {
    var items := Inventory(inputs, entries);
    Publication(items, Counts(items), ListingOf(Payload(inputs, entries)), ReportDigest(inputs.certification))
  }

  ghost function WithManifest(inputs: Inputs, entries: seq<SourceEntry>): Files
    requires Ready(inputs, entries)
  {
    AddDoc(Payload(inputs, entries), ManifestDoc, ManifestFile(PublicationOf(inputs, entries)))
  }

  // The finished candidate directory.
  ghost function WithSums(inputs: Inputs, entries: seq<SourceEntry>): Files
    requires Ready(inputs, entries)
  {
    var files := WithManifest(inputs, entries);
    AddDoc(files, Sums, SumsFile(ListingOf(files)))
  }

  // A finished candidate and the files beside it.
  ghost function Beside(candidate: Files, manifest: Blob, exclusions: Blob): Files {
    var archive := ArchiveFile(ArchiveOf(candidate));
    var documents := Add(Add(candidate, OuterManifest, manifest), OuterExclusions, exclusions);
    Add(Add(documents, Archive, archive), OuterSums, OuterSumsFile(Sha(archive), Sha(exclusions), Sha(manifest)))
  }

  ghost function Bundled(inputs: Inputs, entries: seq<SourceEntry>): Files
    requires Ready(inputs, entries)
  {
    Beside(WithSums(inputs, entries), ManifestFile(PublicationOf(inputs, entries)), Data(inputs.blobs[EXCLUSIONS]))
  }

  // ---------- What may be in the candidate at any time ----------

  // The blob belongs at the path: an exported file holds its own blob, the root read-me holds the
  // overlay, and nothing else is there but generated documents.
  ghost predicate Rightful(inputs: Inputs, path: string, blob: Blob) {
    if Exported(inputs, path) then path in inputs.blobs && blob == Data(inputs.blobs[path])
    else exists doc ::
      path == NameOf(doc) && (doc.ReadMe? ==> OVERLAY in inputs.blobs && blob == Data(inputs.blobs[OVERLAY]))
  }

  ghost predicate Safe(inputs: Inputs, files: Files) {
    forall path | Candidate(path) in files :: Rightful(inputs, path, Intended(files[Candidate(path)].content))
  }

  ghost predicate AllCopied(inputs: Inputs, files: Files) {
    forall path | Exported(inputs, path) :: Candidate(path) in files
  }

  // A write that failed: nothing changed but perhaps its own new file.
  predicate Attempted(before: Files, after: Files, target: Target, blob: Blob) {
    after == before ||
    (target !in before && target in after && after - {target} == before && Intended(after[target].content) == blob)
  }

  // ---------- Copied files ----------

  lemma {:induction false} CopiesAreIncluded(inputs: Inputs, entries: seq<SourceEntry>, target: Target)
    requires HasBlobs(inputs, entries) && target in Copies(inputs, entries)
    ensures target.Candidate? && inputs.policy(target.path).included
    ensures exists entry :: entry in entries && entry.path == target.path
  {
    var n := |entries| - 1;
    assert entries == entries[..n] + [entries[n]];
    if target in Copies(inputs, entries[..n]) {
      CopiesAreIncluded(inputs, entries[..n], target);
    }
  }

  lemma {:induction false} IncludedIsCopied(inputs: Inputs, entries: seq<SourceEntry>, i: nat)
    requires HasBlobs(inputs, entries) && DistinctPaths(entries)
    requires i < |entries| && inputs.policy(entries[i].path).included
    ensures Candidate(entries[i].path) in Copies(inputs, entries)
    ensures Copies(inputs, entries)[Candidate(entries[i].path)] == SourceFile(inputs, entries[i])
  {
    var n := |entries| - 1;
    if i < n {
      IncludedIsCopied(inputs, entries[..n], i);
      assert entries[i].path != entries[n].path;
    }
  }

  // The copies are the included files, each with its own bytes and mode.
  lemma CopiesHold(inputs: Inputs, entries: seq<SourceEntry>)
    requires HasBlobs(inputs, entries) && DistinctPaths(entries)
    ensures forall target | target in Copies(inputs, entries) ::
              target.Candidate? && inputs.policy(target.path).included &&
              exists entry :: entry in entries && entry.path == target.path
    ensures forall entry | entry in entries && inputs.policy(entry.path).included ::
              Candidate(entry.path) in Copies(inputs, entries) &&
              Copies(inputs, entries)[Candidate(entry.path)] == SourceFile(inputs, entry)
  {
    forall target | target in Copies(inputs, entries)
      ensures target.Candidate? && inputs.policy(target.path).included &&
              exists entry :: entry in entries && entry.path == target.path
    {
      CopiesAreIncluded(inputs, entries, target);
    }
    forall entry | entry in entries && inputs.policy(entry.path).included
      ensures Candidate(entry.path) in Copies(inputs, entries)
      ensures Copies(inputs, entries)[Candidate(entry.path)] == SourceFile(inputs, entry)
    {
      var i :| 0 <= i < |entries| && entries[i] == entry;
      IncludedIsCopied(inputs, entries, i);
    }
  }

  // One of the first n outcomes is a failure.
  predicate AnyFailed(works: nat -> bool, n: nat) {
    n > 0 && (AnyFailed(works, n - 1) || !works(n - 1))
  }

  lemma NothingFails(works: nat -> bool)
    ensures (forall i: nat :: works(i)) ==> forall n: nat :: !AnyFailed(works, n)
  {
    if forall i: nat :: works(i) {
      forall n: nat
        ensures !AnyFailed(works, n)
      {
        NoneFailed(works, n);
      }
    }
  }

  lemma {:induction false} NoneFailed(works: nat -> bool, n: nat)
    requires forall i: nat :: works(i)
    ensures !AnyFailed(works, n)
  {
    if n > 0 {
      NoneFailed(works, n - 1);
    }
  }

  class Output {
    var files: Files
    // The outcome of every read, write and Git command, in the order in which they happen.
    const works: nat -> bool
    // How many of them have happened.
    var step: nat

    constructor (works: nat -> bool)
      ensures files == map[] && step == 0 && this.works == works
    {
      files, step, this.works := map[], 0, works;
    }

    // Something that has happened has failed.
    predicate Broken()
      reads this
    {
      AnyFailed(works, step)
    }

    // The next read, write or command.
    method Works() returns (ok: bool)
      modifies this`step
      ensures Broken() == (old(Broken()) || !ok)
      ensures step == old(step) + 1 && ok == works(old(step))
    {
      ok := works(step);
      step := step + 1;
    }

    // Exclusive creation: an existing file is never touched.
    method WriteNew(target: Target, blob: Blob, executable: bool) returns (written: bool)
      requires !blob.Torn?
      modifies this
      ensures written ==> target !in old(files) && files == old(files)[target := File(blob, executable)]
      ensures !written ==> Attempted(old(files), files, target, blob)
      ensures Broken() == (old(Broken()) || (!written && target !in old(files)))
    {
      if target in files {
        return false;
      }
      var created := Works();
      if !created {
        return false;
      }
      written := Works();
      files := files[target := File(if written then blob else Torn(blob), executable)];
      assert files - {target} == old(files);
    }

    // The blob is read, and copied when the policy includes it.
    method CopyEntry(inputs: Inputs, entries: seq<SourceEntry>, i: nat) returns (r: Result<Item, Reason>)
      requires i < |entries| && DistinctPaths(entries) && entries[i].path in Tracked(inputs)
      requires HasBlobs(inputs, entries[..i]) && files == Copies(inputs, entries[..i])
      requires !Broken() && Safe(inputs, files)
      modifies this
      ensures Safe(inputs, files)
      ensures r.Success? ==> entries[i].path in inputs.blobs && !Broken() && r.value == ItemOf(inputs, entries[i])
      ensures r.Success? ==> HasBlobs(inputs, entries[..i + 1]) && files == Copies(inputs, entries[..i + 1])
      ensures r.Failure? ==> Broken() || entries[i].path !in inputs.blobs
    {
      var entry := entries[i];
      var read := Works();
      if !read || entry.path !in inputs.blobs {
        return Failure(BlobUnavailable);
      }
      CopiesMore(inputs, entries, i);
      NotYetCopied(inputs, entries, i);
      if inputs.policy(entry.path).included {
        ghost var before := files;
        var blob := Data(inputs.blobs[entry.path]);
        var written := WriteNew(Candidate(entry.path), blob, entry.mode == EXECUTABLE);
        SafeAfter(inputs, before, files, entry.path, blob);
        if !written {
          return Failure(WriteFailed);
        }
      }
      r := Success(ItemOf(inputs, entry));
    }

    // Every blob is read, and copied when the policy includes it.
    method CopySource(inputs: Inputs, entries: seq<SourceEntry>) returns (r: Result<seq<Item>, Reason>)
      requires files == map[] && !Broken() && DistinctPaths(entries)
      requires forall entry | entry in entries :: entry.path in Tracked(inputs)
      modifies this
      ensures Safe(inputs, files)
      ensures r.Success? ==> HasBlobs(inputs, entries) && files == Copies(inputs, entries) && !Broken()
      ensures r.Success? ==> |r.value| == |entries| &&
                             forall i | 0 <= i < |entries| :: r.value[i] == ItemOf(inputs, entries[i])
      ensures r.Failure? ==> Broken() || !HasBlobs(inputs, entries)
    {
      var items: seq<Item> := [];
      assert entries[..0] == [];
      for i := 0 to |entries|
        invariant HasBlobs(inputs, entries[..i]) && files == Copies(inputs, entries[..i]) && !Broken()
        invariant Safe(inputs, files)
        invariant |items| == i && forall j | 0 <= j < i :: items[j] == ItemOf(inputs, entries[j])
      {
        assert entries[i] in entries;
        var item := CopyEntry(inputs, entries, i);
        if item.Failure? {
          return Failure(item.error);
        }
        items := items + [item.value];
      }
      assert entries[..|entries|] == entries;
      return Success(items);
    }

    // A generated document; `todo` are the documents not yet written.
    method WriteDocument(inputs: Inputs, doc: Doc, blob: Blob, ghost todo: set<Doc>) returns (written: bool)
      requires Underway(inputs, files, todo) && doc in todo && Writes(inputs, doc) && !blob.Torn? && !Broken()
      requires doc.ReadMe? ==> OVERLAY in inputs.blobs && blob == Data(inputs.blobs[OVERLAY])
      modifies this
      ensures Safe(inputs, files)
      ensures written ==> files == AddDoc(old(files), doc, blob) && Underway(inputs, files, todo - {doc}) && !Broken()
      ensures !written ==> Broken() || !Buildable(inputs)
    {
      ghost var before := files;
      written := WriteNew(Candidate(NameOf(doc)), blob, false);
      DocumentIsSafe(inputs, before, files, doc, blob);
      if written {
        StillFree(inputs, before, doc, blob, todo);
      }
    }

    method AddOverlays(inputs: Inputs, entries: seq<SourceEntry>, ghost todo: set<Doc>) returns (r: Option<Reason>)
      requires HasBlobs(inputs, entries) && Tracked(inputs) <= inputs.blobs.Keys
      requires files == Copies(inputs, entries) && !Broken()
      requires Underway(inputs, files, todo) && ReadMe in todo && ExclusionsDoc in todo
      modifies this
      ensures Safe(inputs, files)
      ensures r.None? ==> OVERLAY in Tracked(inputs) && EXCLUSIONS in Tracked(inputs)
      ensures r.None? ==> OVERLAY in inputs.blobs && EXCLUSIONS in inputs.blobs && files == Overlaid(inputs, entries)
      ensures r.None? ==> !Broken() && Underway(inputs, files, todo - {ReadMe} - {ExclusionsDoc})
      ensures r.Some? ==> Broken() || !Buildable(inputs)
    {
      if OVERLAY !in Tracked(inputs) || EXCLUSIONS !in Tracked(inputs) {
        return Some(OverlayUnavailable);
      }
      var written := WriteDocument(inputs, ReadMe, Data(inputs.blobs[OVERLAY]), todo);
      if !written {
        return Some(WriteFailed);
      }
      written := WriteDocument(inputs, ExclusionsDoc, Data(inputs.blobs[EXCLUSIONS]), todo - {ReadMe});
      r := if written then None else Some(WriteFailed);
    }

    method AddReference(inputs: Inputs, entries: seq<SourceEntry>, ghost todo: set<Doc>) returns (r: Option<Reason>)
      requires HasBlobs(inputs, entries) && Tracked(inputs) <= inputs.blobs.Keys
      requires OVERLAY in Tracked(inputs) && EXCLUSIONS in Tracked(inputs)
      requires OVERLAY in inputs.blobs && EXCLUSIONS in inputs.blobs && files == Overlaid(inputs, entries) && !Broken()
      requires Underway(inputs, files, todo) && Reference in todo
      modifies this
      ensures Safe(inputs, files)
      ensures r.None? ==> Ready(inputs, entries) && files == Referenced(inputs, entries)
      ensures r.None? ==> !Broken() && Underway(inputs, files, todo - {Reference})
      ensures r.Some? ==> Broken() || !Buildable(inputs)
    {
      if ATTESTATION !in Tracked(inputs) {
        return Some(ReferenceInvalid);
      }
      var reference := inputs.project(inputs.blobs[ATTESTATION]);
      if reference.None? {
        return Some(ReferenceInvalid);
      }
      var written := WriteDocument(inputs, Reference, Data(reference.value), todo);
      r := if written then None else Some(WriteFailed);
    }

    method AddReport(inputs: Inputs, entries: seq<SourceEntry>, ghost todo: set<Doc>)
      returns (r: Result<Option<Digest>, Reason>)
      requires Ready(inputs, entries) && files == Referenced(inputs, entries) && !Broken()
      requires Underway(inputs, files, todo) && Report in todo
      modifies this
      ensures Safe(inputs, files)
      ensures r.Success? ==> files == Payload(inputs, entries) && r.value == ReportDigest(inputs.certification)
      ensures r.Success? ==> !Broken() && Underway(inputs, files, todo - {Report}) && !inputs.certification.BadReport?
      ensures r.Failure? ==> Broken() || !Buildable(inputs)
    {
      match inputs.certification {
        case NoReport =>
          r := Success(None);
        case BadReport =>
          r := Failure(CertificationInvalid);
        case Certified(bytes) =>
          var written := WriteDocument(inputs, Report, Data(bytes), todo);
          r := if written then Success(Some(Sha(Data(bytes)))) else Failure(WriteFailed);
      }
    }

    // All files of the candidate, found in any order, in path order.
    method TreeFiles() returns (names: seq<string>)
      ensures names == SortedNames(Names(files))
    {
      var rest, found: seq<string> := Names(files), [];
      while rest != {}
        invariant multiset(found) + multiset(rest) == multiset(Names(files))
        decreases rest
      {
        var name :| name in rest;
        rest, found := rest - {name}, found + [name];
      }
      SortedNamesIgnoreOrder(found, Names(files));
      names := Sort(found, TextLeq);
    }

    // Every file of the candidate with its digest.
    method DigestTree() returns (r: Option<seq<Line>>)
      modifies this`step
      ensures r.Some? ==> r.value == ListingOf(files) && Broken() == old(Broken())
      ensures r.None? ==> Broken()
    {
      var names := TreeFiles();
      SortedNamesHold(Names(files));
      var lines: seq<Line> := [];
      for i := 0 to |names|
        invariant Broken() == old(Broken()) && |lines| == i
        invariant forall j | 0 <= j < i :: lines[j] == LinesOf(files, names)[j]
      {
        var read := Works();
        if !read {
          return None;
        }
        assert names[i] in names;
        lines := lines + [Line(Sha(files[Candidate(names[i])].content), names[i])];
      }
      assert lines == LinesOf(files, names);
      return Some(lines);
    }

    method WriteManifest(
        inputs: Inputs, entries: seq<SourceEntry>, items: seq<Item>, report: Option<Digest>, ghost todo: set<Doc>)
      returns (r: Result<Blob, Reason>)
      requires Ready(inputs, entries) && files == Payload(inputs, entries) && !Broken()
      requires items == Inventory(inputs, entries) && report == ReportDigest(inputs.certification)
      requires Underway(inputs, files, todo) && ManifestDoc in todo
      modifies this
      ensures Safe(inputs, files)
      ensures r.Success? ==> r.value == ManifestFile(PublicationOf(inputs, entries))
      ensures r.Success? ==> files == WithManifest(inputs, entries)
      ensures r.Success? ==> !Broken() && Underway(inputs, files, todo - {ManifestDoc})
      ensures r.Failure? ==> Broken() || !Buildable(inputs)
    {
      var payload := DigestTree();
      if payload.None? {
        return Failure(FileUnreadable);
      }
      var counts := CountClasses(items);
      var manifest := ManifestFile(Publication(items, counts, payload.value, report));
      var written := WriteDocument(inputs, ManifestDoc, manifest, todo);
      r := if written then Success(manifest) else Failure(WriteFailed);
    }

    method WriteSums(inputs: Inputs, entries: seq<SourceEntry>, ghost todo: set<Doc>) returns (r: Option<Reason>)
      requires Ready(inputs, entries) && files == WithManifest(inputs, entries) && !Broken()
      requires Underway(inputs, files, todo) && Sums in todo
      modifies this
      ensures Safe(inputs, files)
      ensures r.None? ==> files == WithSums(inputs, entries) && !Broken()
      ensures r.None? ==> Underway(inputs, files, todo - {Sums})
      ensures r.None? ==> forall path | Exported(inputs, path) :: Ascii(path)
      ensures r.Some? ==> Broken() || !Buildable(inputs)
    {
      var lines := DigestTree();
      if lines.None? {
        return Some(FileUnreadable);
      }
      if exists i | 0 <= i < |lines.value| :: !Ascii(lines.value[i].path) {
        AllAscii(inputs, files);
        return Some(Unencodable);
      }
      ListedAscii(inputs, files);
      var written := WriteDocument(inputs, Sums, SumsFile(lines.value), todo);
      r := if written then None else Some(WriteFailed);
    }

    // A file beside the candidate.
    method WriteOuter(inputs: Inputs, target: Target, blob: Blob) returns (written: bool)
      requires !target.Candidate? && target !in files && !blob.Torn? && !Broken() && Safe(inputs, files)
      modifies this
      ensures Safe(inputs, files)
      ensures written ==> files == Add(old(files), target, blob) && !Broken()
      ensures !written ==> Broken()
    {
      written := WriteNew(target, blob, false);
    }

    // Every file of the candidate as it goes into the archive.
    method ReadTree() returns (r: Option<seq<Member>>)
      modifies this`step
      ensures r.Some? ==> r.value == ArchiveOf(files) && Broken() == old(Broken())
      ensures r.None? ==> Broken()
    {
      var names := TreeFiles();
      SortedNamesHold(Names(files));
      var members: seq<Member> := [];
      for i := 0 to |names|
        invariant Broken() == old(Broken()) && |members| == i
        invariant forall j | 0 <= j < i :: members[j] == MembersOf(files, names)[j]
      {
        var read := Works();
        if !read {
          return None;
        }
        assert names[i] in names;
        members := members + [Member(names[i], files[Candidate(names[i])])];
      }
      assert members == MembersOf(files, names);
      return Some(members);
    }

    // Every file of the candidate, in path order, into a new archive.
    method MakeArchive(inputs: Inputs) returns (r: Result<Blob, Reason>)
      requires Archive !in files && !Broken() && Safe(inputs, files)
      modifies this
      ensures Safe(inputs, files)
      ensures r.Success? ==> r.value == ArchiveFile(ArchiveOf(old(files))) && files == Add(old(files), Archive, r.value)
      ensures r.Success? ==> !Broken()
      ensures r.Failure? ==> Broken()
    {
      if Archive in files {
        return Failure(ArchiveExists);
      }
      var members := ReadTree();
      if members.None? {
        return Failure(ArchiveFailed);
      }
      var archive := ArchiveFile(members.value);
      var written := WriteOuter(inputs, Archive, archive);
      r := if written then Success(archive) else Failure(ArchiveFailed);
    }

    method WriteBeside(inputs: Inputs, manifest: Blob, exclusions: Blob) returns (written: bool)
      requires OuterManifest !in files && OuterExclusions !in files && !Broken() && Safe(inputs, files)
      requires !manifest.Torn? && !exclusions.Torn?
      modifies this
      ensures Safe(inputs, files)
      ensures written ==>
        files == Add(Add(old(files), OuterManifest, manifest), OuterExclusions, exclusions) && !Broken()
      ensures written ==> ArchiveOf(files) == ArchiveOf(old(files))
      ensures !written ==> Broken()
    {
      written := WriteOuter(inputs, OuterManifest, manifest);
      if written {
        SameNames(old(files), OuterManifest, manifest);
        SameNames(files, OuterExclusions, exclusions);
        written := WriteOuter(inputs, OuterExclusions, exclusions);
      }
    }

    // The files beside the candidate, the checksum list last.
    method Publish(inputs: Inputs, manifest: Blob, exclusions: Blob) returns (r: Result<Digest, Reason>)
      requires (forall target | target in files :: target.Candidate?) && !Broken() && Safe(inputs, files)
      requires !manifest.Torn? && !exclusions.Torn?
      modifies this
      ensures Safe(inputs, files)
      ensures r.Success? ==> files == Beside(old(files), manifest, exclusions) && !Broken()
      ensures r.Success? ==> r.value == Sha(ArchiveFile(ArchiveOf(old(files))))
      ensures r.Failure? ==> Broken()
    {
      var written := WriteBeside(inputs, manifest, exclusions);
      if !written {
        return Failure(WriteFailed);
      }
      var archive := MakeArchive(inputs);
      if archive.Failure? {
        return Failure(archive.error);
      }
      var read := Works();
      if !read {
        return Failure(FileUnreadable);
      }
      written := WriteOuter(inputs, OuterSums, OuterSumsFile(Sha(archive.value), Sha(exclusions), Sha(manifest)));
      r := if written then Success(Sha(archive.value)) else Failure(WriteFailed);
    }

    // The whole build, into an output directory that must be empty.
    method BuildBundle(inputs: Inputs, outputEmpty: bool) returns (r: Result<Summary, Reason>)
      requires PolicyHolds(inputs.policy) && files == map[] && !Broken()
      modifies this
      ensures Safe(inputs, files)
      ensures r.Success? ==> exists entries ::
                Built(inputs, entries, files) && r.value == SummaryOf(inputs, entries) && outputEmpty
      ensures r.Success? <==> outputEmpty && Buildable(inputs) && !Broken()
      ensures (forall i: nat :: works(i)) ==> (r.Success? <==> outputEmpty && Buildable(inputs))
    {
      NothingFails(works);
      if !outputEmpty {
        return Failure(DirectoryNotEmpty);
      }
      var made := Works();
      if !made {
        return Failure(DirectoryUnavailable);
      }
      if inputs.listing.Failure? {
        return Failure(inputs.listing.error);
      }
      var listed := SourceEntries(inputs.listing.value);
      if listed.Failure? {
        FaultIsUnsound(inputs.listing.value, listed.error);
        return Failure(listed.error);
      }
      var entries := listed.value;
      ListedIsTree(inputs, entries);
      var copied := CopySource(inputs, entries);
      if copied.Failure? {
        return Failure(copied.error);
      }
      r := Assemble(inputs, entries, copied.value);
    }

    // The documents that come before the manifest.
    method AddDocuments(inputs: Inputs, entries: seq<SourceEntry>, ghost todo: set<Doc>)
      returns (r: Result<Option<Digest>, Reason>, ghost rest: set<Doc>)
      requires PolicyHolds(inputs.policy) && IsTree(inputs, entries) && HasBlobs(inputs, entries)
      requires files == Copies(inputs, entries) && Safe(inputs, files) && !Broken() && From(todo, 0)
      modifies this
      ensures Safe(inputs, files)
      ensures r.Success? ==> Ready(inputs, entries) && files == Payload(inputs, entries) && !Broken()
      ensures r.Success? ==> Underway(inputs, files, rest) && From(rest, 4) && !inputs.certification.BadReport?
      ensures r.Success? ==> r.value == ReportDigest(inputs.certification)
      ensures r.Failure? ==> Broken() || !Buildable(inputs)
    {
      CopiesAreUnderway(inputs, entries, todo);
      Stages(todo);
      TreeIsCopied(inputs, entries);
      var failed := AddOverlays(inputs, entries, todo);
      if failed.Some? {
        return Failure(failed.value), todo;
      }
      rest := todo - {ReadMe} - {ExclusionsDoc};
      failed := AddReference(inputs, entries, rest);
      if failed.Some? {
        return Failure(failed.value), todo;
      }
      rest := rest - {Reference};
      r := AddReport(inputs, entries, rest);
      rest := rest - {Report};
    }

    // The manifest and the checksums over it.
    method AddManifest(
        inputs: Inputs, entries: seq<SourceEntry>, items: seq<Item>, report: Option<Digest>, ghost todo: set<Doc>)
      returns (r: Result<Blob, Reason>)
      requires Ready(inputs, entries) && files == Payload(inputs, entries) && !Broken()
      requires items == Inventory(inputs, entries) && report == ReportDigest(inputs.certification)
      requires Underway(inputs, files, todo) && ManifestDoc in todo && Sums in todo
      modifies this
      ensures Safe(inputs, files)
      ensures r.Success? ==> r.value == ManifestFile(PublicationOf(inputs, entries))
      ensures r.Success? ==>
        && files == WithSums(inputs, entries) && !Broken()
        && Underway(inputs, files, todo - {ManifestDoc} - {Sums})
      ensures r.Success? ==> forall path | Exported(inputs, path) :: Ascii(path)
      ensures r.Failure? ==> Broken() || !Buildable(inputs)
    {
      r := WriteManifest(inputs, entries, items, report, todo);
      if r.Success? {
        var failed := WriteSums(inputs, entries, todo - {ManifestDoc});
        if failed.Some? {
          r := Failure(failed.value);
        }
      }
    }

    // From the copied files to the finished bundle.
    method Assemble(inputs: Inputs, entries: seq<SourceEntry>, items: seq<Item>) returns (r: Result<Summary, Reason>)
      requires PolicyHolds(inputs.policy) && IsTree(inputs, entries) && HasBlobs(inputs, entries)
      requires inputs.listing.Success? && Sound(inputs.listing.value)
      requires Lists(inputs.listing.value, entries)
      requires files == Copies(inputs, entries) && Safe(inputs, files) && !Broken()
      requires |items| == |entries| && forall i | 0 <= i < |entries| :: items[i] == ItemOf(inputs, entries[i])
      modifies this
      ensures Safe(inputs, files)
      ensures r.Success? ==> Built(inputs, entries, files) && r.value == SummaryOf(inputs, entries) && !Broken()
      ensures r.Failure? ==> Broken() || !Buildable(inputs)
    {
      ghost var todo := {ReadMe, ExclusionsDoc, Reference, Report, ManifestDoc, Sums};
      assert From(todo, 0);
      var report, rest := AddDocuments(inputs, entries, todo);
      if report.Failure? {
        return Failure(report.error);
      }
      LastStages(rest);
      var inventory := MarkOverlays(inputs, entries, items);
      var manifest := AddManifest(inputs, entries, inventory, report.value, rest);
      if manifest.Failure? {
        return Failure(manifest.error);
      }
      OnlyCandidates(inputs, entries);
      IsBuildable(inputs, entries, files);
      var archive := Publish(inputs, manifest.value, Data(inputs.blobs[EXCLUSIONS]));
      if archive.Failure? {
        return Failure(archive.error);
      }
      r := Success(Summary(archive.value, Sha(manifest.value), |inventory|));
    }
  }

  datatype Summary = Summary(archive: Digest, manifest: Digest, inventoryCount: nat)

  ghost function SummaryOf(inputs: Inputs, entries: seq<SourceEntry>): Summary
    requires Ready(inputs, entries)
  {
    Summary(Sha(ArchiveFile(ArchiveOf(WithSums(inputs, entries)))), Sha(ManifestFile(PublicationOf(inputs, entries))),
            |entries|)
  }

  // The files are the bundle of the tracked files.
  ghost predicate Built(inputs: Inputs, entries: seq<SourceEntry>, files: Files) {
    && inputs.listing.Success? && Lists(inputs.listing.value, entries) && IsTree(inputs, entries)
    && Ready(inputs, entries) && Buildable(inputs)
    && files == Bundled(inputs, entries)
  }

  method MarkOverlays(inputs: Inputs, entries: seq<SourceEntry>, items: seq<Item>) returns (marked: seq<Item>)
    requires HasBlobs(inputs, entries) && |items| == |entries|
    requires forall i | 0 <= i < |items| :: items[i] == ItemOf(inputs, entries[i])
    ensures marked == Inventory(inputs, entries)
  {
    marked := items;
    for i := 0 to |items|
      invariant |marked| == |items|
      invariant forall j | 0 <= j < i :: marked[j] == Marked(items[j])
      invariant forall j | i <= j < |items| :: marked[j] == items[j]
    {
      marked := marked[i := Marked(marked[i])];
    }
  }

  method CountClasses(items: seq<Item>) returns (counts: map<Class, nat>)
    ensures counts == Counts(items)
  {
    counts := map[];
    assert items[..0] == [];
    for i := 0 to |items|
      invariant counts == Counts(items[..i])
    {
      var name := items[i].classification.name;
      assert items[..i + 1][..i] == items[..i] && items[..i + 1][i] == items[i];
      counts := counts[name := (if name in counts then counts[name] else 0) + 1];
    }
    assert items[..|items|] == items;
  }

  // Nothing in the candidate has a name outside ASCII when no exported path has one.
  lemma AllAscii(inputs: Inputs, files: Files)
    requires Safe(inputs, files)
    ensures Buildable(inputs) ==> forall i | 0 <= i < |ListingOf(files)| :: Ascii(ListingOf(files)[i].path)
  {
    SortedNamesHold(Names(files));
    if Buildable(inputs) {
      forall path | path in Names(files)
        ensures Ascii(path)
      {
        if !Exported(inputs, path) {
          var doc :| path == NameOf(doc);
          DocsAreShaped(doc);
        }
      }
    }
  }

  lemma ListedAscii(inputs: Inputs, files: Files)
    requires AllCopied(inputs, files)
    requires forall i | 0 <= i < |ListingOf(files)| :: Ascii(ListingOf(files)[i].path)
    ensures forall path | Exported(inputs, path) :: Ascii(path)
  {
    SortedNamesHold(Names(files));
    forall path | Exported(inputs, path)
      ensures Ascii(path)
    {
      var names := SortedNames(Names(files));
      assert Candidate(path) in files && path in names;
      var i :| 0 <= i < |names| && names[i] == path;
      assert ListingOf(files)[i].path == path;
    }
  }

  lemma FaultIsUnsound(records: seq<Record>, reason: Reason)
    ensures FirstFault(records, reason) ==> !Sound(records)
  {
  }

  lemma ListedIsTree(inputs: Inputs, entries: seq<SourceEntry>)
    requires inputs.listing.Success? && Sound(inputs.listing.value) && Lists(inputs.listing.value, entries)
    ensures IsTree(inputs, entries)
    ensures !HasBlobs(inputs, entries) ==> !Buildable(inputs)
  {
    var records := inputs.listing.value;
    forall entry | entry in entries
      ensures entry.path in Tracked(inputs)
    {
      assert IsListed(records, entry);
    }
    forall path | path in Tracked(inputs)
      ensures IsEntry(entries, path)
    {
      var record :| record in records && record.Listed? && record.path == path;
      var i :| 0 <= i < |records| && records[i] == record;
      assert Fault(records[i], PathsOf(records[..i])) == None;
      assert SourceEntry(path, record.mode.value) in entries;
    }
  }

  // Whatever got through all checks was buildable.
  lemma IsBuildable(inputs: Inputs, entries: seq<SourceEntry>, files: Files)
    requires PolicyHolds(inputs.policy) && IsTree(inputs, entries) && Ready(inputs, entries)
    requires inputs.listing.Success? && Sound(inputs.listing.value)
    requires OVERLAY in Tracked(inputs) && EXCLUSIONS in Tracked(inputs) && ATTESTATION in Tracked(inputs)
    requires !inputs.certification.BadReport?
    requires Underway(inputs, files, {}) && forall path | Exported(inputs, path) :: Ascii(path)
    ensures Buildable(inputs)
  {
    TreeIsCopied(inputs, entries);
  }

  lemma OnlyCandidates(inputs: Inputs, entries: seq<SourceEntry>)
    requires Ready(inputs, entries) && DistinctPaths(entries)
    ensures forall target | target in WithSums(inputs, entries) :: target.Candidate?
  {
    CopiesHold(inputs, entries);
  }

  lemma SameNames(files: Files, target: Target, blob: Blob)
    requires !target.Candidate? && target !in files
    ensures Names(Add(files, target, blob)) == Names(files)
    ensures ArchiveOf(Add(files, target, blob)) == ArchiveOf(files)
  {
    assert Names(Add(files, target, blob)) == Names(files);
    SortedNamesHold(Names(files));
    assert ArchiveOf(Add(files, target, blob)) == ArchiveOf(files);
  }

  // The entries are the tracked files, each once.
  ghost predicate IsTree(inputs: Inputs, entries: seq<SourceEntry>) {
    && DistinctPaths(entries)
    && (forall entry | entry in entries :: entry.path in Tracked(inputs))
    && (forall path | path in Tracked(inputs) :: IsEntry(entries, path))
  }

  predicate IsEntry(entries: seq<SourceEntry>, path: string) {
    exists entry | entry in entries :: entry.path == path
  }

  lemma TreeIsCopied(inputs: Inputs, entries: seq<SourceEntry>)
    requires IsTree(inputs, entries) && HasBlobs(inputs, entries)
    ensures AllCopied(inputs, Copies(inputs, entries))
    ensures Tracked(inputs) <= inputs.blobs.Keys
  {
    CopiesHold(inputs, entries);
    forall path | path in Tracked(inputs)
      ensures path in inputs.blobs && (Exported(inputs, path) ==> Candidate(path) in Copies(inputs, entries))
    {
      assert IsEntry(entries, path);
    }
  }

  // The documents in the order in which they are written.
  function Rank(doc: Doc): nat {
    match doc
    case ReadMe => 0
    case ExclusionsDoc => 1
    case Reference => 2
    case Report => 3
    case ManifestDoc => 4
    case Sums => 5
  }

  // The documents from the given one on.
  ghost predicate From(todo: set<Doc>, rank: nat) {
    forall doc: Doc :: doc in todo <==> rank <= Rank(doc)
  }

  // Writing the documents in order.
  lemma Stages(todo: set<Doc>)
    requires From(todo, 0)
    ensures ReadMe in todo && ExclusionsDoc in todo
    ensures Reference in todo - {ReadMe} - {ExclusionsDoc}
    ensures Report in todo - {ReadMe} - {ExclusionsDoc} - {Reference}
    ensures From(todo - {ReadMe} - {ExclusionsDoc} - {Reference} - {Report}, 4)
  {
  }

  lemma LastStages(todo: set<Doc>)
    requires From(todo, 4)
    ensures ManifestDoc in todo && Sums in todo && todo - {ManifestDoc} - {Sums} == {}
  {
  }

  // All exported files are there, nothing else is that should not be, the names of the documents
  // yet to be written are not taken, and no exported file has the name of one already written.
  ghost predicate Underway(inputs: Inputs, files: Files, todo: set<Doc>) {
    && Safe(inputs, files) && AllCopied(inputs, files)
    && (Buildable(inputs) ==> forall doc | doc in todo && Writes(inputs, doc) :: Candidate(NameOf(doc)) !in files)
    && (forall doc: Doc | doc !in todo && Writes(inputs, doc) :: !Exported(inputs, NameOf(doc)))
  }

  lemma CopiesAreUnderway(inputs: Inputs, entries: seq<SourceEntry>, todo: set<Doc>)
    requires PolicyHolds(inputs.policy) && IsTree(inputs, entries) && HasBlobs(inputs, entries)
    requires From(todo, 0) && Safe(inputs, Copies(inputs, entries))
    ensures Underway(inputs, Copies(inputs, entries), todo)
  {
    TreeIsCopied(inputs, entries);
    CopiesHold(inputs, entries);
  }

  lemma StillFree(inputs: Inputs, before: Files, doc: Doc, blob: Blob, todo: set<Doc>)
    requires Underway(inputs, before, todo) && Candidate(NameOf(doc)) !in before
    requires Safe(inputs, AddDoc(before, doc, blob)) && AllCopied(inputs, AddDoc(before, doc, blob))
    ensures Underway(inputs, AddDoc(before, doc, blob), todo - {doc})
  {
    forall other | other in todo - {doc}
      ensures NameOf(other) != NameOf(doc)
    {
      NamesDiffer(other, doc);
    }
  }

  lemma DocumentIsSafe(inputs: Inputs, before: Files, after: Files, doc: Doc, blob: Blob)
    requires Safe(inputs, before) && AllCopied(inputs, before) && !blob.Torn?
    requires doc.ReadMe? ==> OVERLAY in inputs.blobs && blob == Data(inputs.blobs[OVERLAY])
    requires var target := Candidate(NameOf(doc));
             Attempted(before, after, target, blob) || (target !in before && after == AddDoc(before, doc, blob))
    ensures Safe(inputs, after) && AllCopied(inputs, after)
  {
    SafeAfter(inputs, before, after, NameOf(doc), blob);
  }

  lemma CopiesMore(inputs: Inputs, entries: seq<SourceEntry>, i: nat)
    requires i < |entries| && HasBlobs(inputs, entries[..i]) && entries[i].path in inputs.blobs
    ensures HasBlobs(inputs, entries[..i + 1])
    ensures var above, entry := Copies(inputs, entries[..i]), entries[i];
            Copies(inputs, entries[..i + 1]) ==
            if inputs.policy(entry.path).included
            then above[Candidate(entry.path) := SourceFile(inputs, entry)]
            else above
  {
    var more := entries[..i + 1];
    assert more == entries[..i] + [entries[i]];
    assert more[..i] == entries[..i];
  }

  lemma NotYetCopied(inputs: Inputs, entries: seq<SourceEntry>, i: nat)
    requires i < |entries| && HasBlobs(inputs, entries[..i]) && DistinctPaths(entries)
    ensures Candidate(entries[i].path) !in Copies(inputs, entries[..i])
  {
    CopiesHold(inputs, entries[..i]);
    forall entry | entry in entries[..i]
      ensures entry.path != entries[i].path
    {
      var j :| 0 <= j < i && entries[j] == entry;
    }
  }

  lemma SafeAfter(inputs: Inputs, before: Files, after: Files, path: string, blob: Blob)
    requires Safe(inputs, before) && !blob.Torn? && (Candidate(path) in before || Rightful(inputs, path, blob))
    requires Attempted(before, after, Candidate(path), blob) ||
             (Candidate(path) !in before &&
              exists executable :: after == before[Candidate(path) := File(blob, executable)])
    ensures Safe(inputs, after)
  {
    forall p | Candidate(p) in after
      ensures Rightful(inputs, p, Intended(after[Candidate(p)].content))
    {
      if p != path {
        if after != before && Attempted(before, after, Candidate(path), blob) {
          assert Candidate(p) in after - {Candidate(path)};
        }
        assert Candidate(p) in before && after[Candidate(p)] == before[Candidate(p)];
      }
    }
  }
}
