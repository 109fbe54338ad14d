/**
 The tracked files a public bundle is built from: reading the Git listing, and the ordered policy
 that says which paths may be exported.

 A listing record is given by what its bytes parse to. Case folding of a character outside ASCII is
 a parameter.
 */
module PublicSource {
  import opened Wrappers
  import opened Sorting
  import TreeHash

  datatype Reason =
    | InventoryFailed
    | CommitUnavailable
    | CommitMismatch
    | RefInvalid
    | InventoryInvalid
    | PathInvalid
    | SpecialFile
    | DuplicatePath
    | InventoryEmpty
    | BlobUnavailable
    | OverlayUnavailable
    | ReferenceInvalid
    | CertificationInvalid
    | DirectoryNotEmpty
    | DirectoryUnavailable
    | WriteFailed
    | FileUnreadable
    | ArchiveExists
    | ArchiveFailed
    | Unencodable

  // ---------- The listing ----------

  const REGULAR := 0x81A4
  const EXECUTABLE := 0x81ED

  // The mode of a blob, or nothing when the record describes anything else.
  datatype Record = Nothing | Unreadable | Listed(path: string, mode: Option<nat>)

  datatype SourceEntry = SourceEntry(path: string, mode: nat)

  // The path as PurePosixPath writes it.
  function NormalPath(path: string): string {
    var parts := TreeHash.Parts(path, "");
    if parts == [] then "." else TreeHash.Join(parts)
  }

  predicate SafePath(path: string) {
    path != "" && path[0] != '/' && ".." !in TreeHash.Parts(path, "") && NormalPath(path) == path
  }

  // What is wrong with the record, given the paths listed before it.
  function Fault(record: Record, seen: set<string>): Option<Reason> {
    match record
    case Nothing => None
    case Unreadable => Some(InventoryInvalid)
    case Listed(path, mode) =>
      if !SafePath(path) then Some(PathInvalid)
      else if mode == None then Some(InventoryInvalid)
      else if mode.value != REGULAR && mode.value != EXECUTABLE then Some(SpecialFile)
      else if path in seen then Some(DuplicatePath)
      else None
  }

  function PathsOf(records: seq<Record>): set<string> {
    set record | record in records && record.Listed? :: record.path
  }

  // No record of the listing is at fault.
  predicate Sound(records: seq<Record>) {
    forall i | 0 <= i < |records| :: Fault(records[i], PathsOf(records[..i])) == None
  }

  // The reason of the first record at fault.
  predicate FirstFault(records: seq<Record>, reason: Reason) {
    exists i :: 0 <= i < |records| && Sound(records[..i]) && Fault(records[i], PathsOf(records[..i])) == Some(reason)
  }

  predicate PathLeq(a: SourceEntry, b: SourceEntry) {
    TextLeq(a.path, b.path)
  }

  predicate DistinctPaths(entries: seq<SourceEntry>) {
    forall i, j | 0 <= i < j < |entries| :: entries[i].path != entries[j].path
  }

  // The entry is one of the listed blobs.
  predicate IsListed(records: seq<Record>, entry: SourceEntry) {
    Listed(entry.path, Some(entry.mode)) in records
  }

  // The blobs of the listing, each once, in path order.
  predicate Lists(records: seq<Record>, entries: seq<SourceEntry>) {
    && DistinctPaths(entries)
    && Sorted(entries, PathLeq)
    && (forall entry | entry in entries :: IsListed(records, entry))
    && (forall record | record in records && record.Listed? && record.mode.Some? ::
          SourceEntry(record.path, record.mode.value) in entries)
  }

  lemma PathLeqIsPreorder()
    ensures TotalPreorder(PathLeq)
  {
    TextLeqIsPreorder();
  }

  lemma PathsOfMore(records: seq<Record>, i: nat)
    requires i < |records|
    ensures PathsOf(records[..i + 1]) ==
            PathsOf(records[..i]) + if records[i].Listed? then {records[i].path} else {}
  {
    assert records[..i + 1] == records[..i] + [records[i]];
  }

  lemma SoundMore(records: seq<Record>, i: nat)
    requires i < |records| && Sound(records[..i])
    ensures Sound(records[..i + 1]) <==> Fault(records[i], PathsOf(records[..i])) == None
  {
    var more := records[..i + 1];
    assert more[..i] == records[..i];
    forall j | 0 <= j < i
      ensures Fault(more[j], PathsOf(more[..j])) == None
    {
      assert more[..j] == records[..i][..j] && more[j] == records[..i][j];
      assert Fault(records[..i][j], PathsOf(records[..i][..j])) == None;
    }
    assert Sound(more) ==> Fault(more[i], PathsOf(more[..i])) == None;
  }

  lemma SortKeepsDistinct(entries: seq<SourceEntry>)
    requires DistinctPaths(entries)
    ensures var sorted := Sort(entries, PathLeq);
            DistinctPaths(sorted) && Sorted(sorted, PathLeq) && forall entry :: entry in sorted <==> entry in entries
  {
    var sorted := Sort(entries, PathLeq);
    PathLeqIsPreorder();
    SortSorts(entries, PathLeq);
    SortPermutes(entries, PathLeq);
    SameMultisetSameMembers(sorted, entries);
    forall i, j | 0 <= i < j < |sorted|
      ensures sorted[i].path != sorted[j].path
    {
      if sorted[i].path == sorted[j].path {
        assert sorted[i] in entries && sorted[j] in entries;
        assert sorted[i] == sorted[j];
        DistinctOccurOnce(entries, sorted[i]);
        RepeatsCountTwice(sorted, i, j);
        assert false;
      }
    }
  }

  lemma {:induction false} DistinctOccurOnce(entries: seq<SourceEntry>, entry: SourceEntry)
    requires DistinctPaths(entries)
    ensures multiset(entries)[entry] <= 1
  {
    if entries != [] {
      DistinctOccurOnce(entries[1..], entry);
      assert entries == [entries[0]] + entries[1..];
      if entries[0] == entry {
        assert entry !in entries[1..];
      }
    }
  }

  // The listing is accepted exactly when no record is at fault and there is a blob; then the result
  // is every blob once in path order, else the reason is that of the first record at fault.
  method SourceEntries(records: seq<Record>) returns (r: Result<seq<SourceEntry>, Reason>)
    ensures r.Success? ==> Sound(records) && r.value != [] && Lists(records, r.value)
    ensures r.Failure? ==> FirstFault(records, r.error) ||
                           (Sound(records) && PathsOf(records) == {} && r.error == InventoryEmpty)
  {
    var entries: seq<SourceEntry> := [];
    var seen: set<string> := {};
    for i := 0 to |records|
      invariant Sound(records[..i]) && seen == PathsOf(records[..i])
      invariant DistinctPaths(entries) && (forall entry | entry in entries :: entry.path in seen)
      invariant seen != {} ==> entries != []
      invariant forall entry | entry in entries :: IsListed(records, entry)
      invariant forall j | 0 <= j < i && records[j].Listed? ::
                  records[j].mode.Some? && SourceEntry(records[j].path, records[j].mode.value) in entries
    {
      SoundMore(records, i);
      PathsOfMore(records, i);
      var record := records[i];
      var fault := Fault(record, seen);
      if fault.Some? {
        return Failure(fault.value);
      }
      if record.Listed? {
        seen := seen + {record.path};
        entries := entries + [SourceEntry(record.path, record.mode.value)];
      }
    }
    assert records[..|records|] == records;
    if entries == [] {
      return Failure(InventoryEmpty);
    }
    SortKeepsDistinct(entries);
    r := Success(Sort(entries, PathLeq));
    assert r.value != [] by {
      assert entries[0] in r.value;
    }
  }

  // The order in which Git lists the blobs does not matter.
  lemma ListingOrderIsIrrelevant(records: seq<Record>, others: seq<Record>, a: seq<SourceEntry>, b: seq<SourceEntry>)
    requires multiset(records) == multiset(others)
    requires Lists(records, a) && Lists(others, b)
    ensures a == b
  {
    SameMultisetSameMembers(records, others);
    forall entry
      ensures entry in a <==> entry in b
    {
      assert entry in a ==> IsListed(others, entry);
      assert entry in b ==> IsListed(records, entry);
    }
    SameSortedEntries(a, b);
  }

  lemma HeadIsLeast(entries: seq<SourceEntry>, entry: SourceEntry)
    requires Sorted(entries, PathLeq) && entry in entries
    ensures TextLeq(entries[0].path, entry.path)
  {
    TextLeqTotal(entry.path, entry.path);
    var i :| 0 <= i < |entries| && entries[i] == entry;
    assert i > 0 ==> PathLeq(entries[0], entries[i]);
  }

  lemma {:induction false} SameSortedEntries(a: seq<SourceEntry>, b: seq<SourceEntry>)
    requires DistinctPaths(a) && DistinctPaths(b) && Sorted(a, PathLeq) && Sorted(b, PathLeq)
    requires forall entry :: entry in a <==> entry in b
    ensures a == b
  {
    assert b != [] ==> b[0] in b;
    if a != [] {
      assert a[0] in a && b != [];
      HeadIsLeast(a, b[0]);
      HeadIsLeast(b, a[0]);
      TextLeqTotal(a[0].path, b[0].path);
      var j :| 0 <= j < |b| && b[j] == a[0];
      assert j == 0;
      forall entry
        ensures entry in a[1..] <==> entry in b[1..]
      {
        assert entry in a <==> entry == a[0] || entry in a[1..];
        assert entry in b <==> entry == b[0] || entry in b[1..];
      }
      SameSortedEntries(a[1..], b[1..]);
      assert a == [a[0]] + a[1..] && b == [b[0]] + b[1..];
    }
  }

  // ---------- The export policy ----------

  datatype Class = Generated | LegalReview | PrivateInternal | PublicAllowed | PublicRequired | SecretRisk

  datatype Classification = Classification(name: Class, included: bool)

  const README := "README.md"
  const SUBMISSION := "docs/submission/"
  const OVERLAY := "docs/submission/public/" + README
  const EXCLUSIONS := SUBMISSION + "PUBLICATION_EXCLUSIONS.md"
  const ATTESTATION := "docs/evidence/release/portable-b5-build-complete-attestation.json"

  function SecretSuffix(i: nat): string
    requires i < 6
  {
    match i
    case 0 => ".credential"
    case 1 => ".credentials"
    case 2 => ".key"
    case 3 => ".p12"
    case 4 => ".pem"
    case _ => ".pfx"
  }

  predicate Legal(path: string) {
    path == "LICENSE" || path == "PRIOR-ART.md"
  }

  predicate Starts(s: string, prefix: string) {
    |prefix| <= |s| && forall i | 0 <= i < |prefix| :: s[i] == prefix[i]
  }

  // Internal documents.
  function PrivatePath(i: nat): string
    requires i < 4
  {
    match i
    case 0 => "docs/BOOTSTRAP_REPORT_2026-08-22.md"
    case 1 => "docs/DECISIONS.md"
    case 2 => "docs/PROJECT_CHARTER.md"
    case _ => "docs/ROADMAP_STATUS.md"
  }

  // Internal audits, operations and deployment recovery.
  function PrivatePrefix(i: nat): string
    requires i < 10
  {
    match i
    case 0 => "docs/audit/"
    case 1 => "docs/audits/"
    case 2 => "docs/evidence/deployment/"
    case 3 => "docs/evidence/submission/"
    case 4 => "docs/reports/"
    case 5 => "scripts/day15/"
    case 6 => "docs/architecture/day-"
    case 7 => "docs/operations/day15-"
    case 8 => "requirements/day15-"
    case _ => "tests/unit/test_day15_"
  }

  // The documents, manifests and scripts a judge needs.
  function RequiredPath(i: nat): string
    requires i < 25
  {
    match i
    case 0 => ".dockerignore"
    case 1 => ".env.example"
    case 2 => "Dockerfile"
    case 3 => "MANIFEST.in"
    case 4 => "docs/JUDGE_EXPERIENCE.md"
    case 5 => "docs/JUDGE_SANDBOX.md"
    case 6 => "docs/PORTABLE_RUNTIME.md"
    case 7 => "docs/RELIABILITY_SECURITY.md"
    case 8 => "docs/operations/container-judge-certification.md"
    case 9 => "docs/submission/ARCHITECTURE.md"
    case 10 => "docs/submission/DEMO_SCRIPT_DRAFT.md"
    case 11 => "docs/submission/DEVPOST_CLAIMS_MATRIX.md"
    case 12 => "docs/submission/PRIOR_ART_DISCLOSURE.md"
    case 13 => EXCLUSIONS
    case 14 => "docs/submission/REPRODUCIBILITY.md"
    case 15 => "docs/submission/demo-runbook.md"
    case 16 => "docs/submission/devpost-draft.md"
    case 17 => OVERLAY
    case 18 => "pyproject.toml"
    case 19 => "requirements/build.lock"
    case 20 => "requirements/portable.lock"
    case 21 => "scripts/build_public_submission.py"
    case 22 => "scripts/run_b5_container_gate.py"
    case 23 => "scripts/run_portable_demo.py"
    case _ => "scripts/scan_public_submission.py"
  }

  // The runtime, its assets and its proofs.
  function RequiredPrefix(i: nat): string
    requires i < 3
  {
    match i
    case 0 => "docs/assets/"
    case 1 => "docs/evidence/release/portable-b5-"
    case _ => "src/"
  }

  predicate Private(path: string) {
    || (exists i | 0 <= i < 4 :: path == PrivatePath(i))
    || (exists i | 0 <= i < 10 :: Starts(path, PrivatePrefix(i)))
  }

  predicate Required(path: string) {
    || (exists i | 0 <= i < 25 :: path == RequiredPath(i))
    || (exists i | 0 <= i < 3 :: Starts(path, RequiredPrefix(i)))
  }

  // Full case folding; a character outside ASCII may fold to several.
  function FoldChar(c: char, other: char -> string): string {
    if 'A' <= c <= 'Z' then [c + 32 as char] else if c < 128 as char then [c] else other(c)
  }

  function Fold(s: string, other: char -> string): string {
    if s == "" then "" else FoldChar(s[0], other) + Fold(s[1..], other)
  }

  // The place after the last occurrence, 0 without one.
  function AfterLast(s: string, c: char): (n: nat)
    ensures n <= |s| && (n > 0 ==> s[n - 1] == c)
    ensures forall i | n <= i < |s| :: s[i] != c
  {
    if s == "" then 0 else if s[|s| - 1] == c then |s| else AfterLast(s[..|s| - 1], c)
  }

  function BaseName(path: string): string {
    path[AfterLast(path, '/')..]
  }

  // From the last dot of a name, unless the name begins or ends there.
  function Suffix(name: string): string {
    var n := AfterLast(name, '.');
    if 1 < n < |name| then name[n - 1..] else ""
  }

  predicate Environment(name: string) {
    name == ".env" || (Starts(name, ".env.") && name != ".env.example")
  }

  predicate CredentialShaped(path: string, other: char -> string) {
    || Environment(Fold(BaseName(path), other))
    || exists i | 0 <= i < 6 :: Fold(Suffix(BaseName(path)), other) == SecretSuffix(i)
  }

  function ClassifyPath(path: string, other: char -> string): Classification {
    if CredentialShaped(path, other) then Classification(SecretRisk, false)
    else if path == README then Classification(Generated, false)
    else if Legal(path) then Classification(LegalReview, true)
    else if Private(path) then Classification(PrivateInternal, false)
    else if Required(path) then Classification(PublicRequired, true)
    else Classification(PublicAllowed, true)
  }

  predicate Included(path: string, other: char -> string) {
    ClassifyPath(path, other).included
  }

  predicate Lacks(s: string, c: char) {
    forall i | 0 <= i < |s| :: s[i] != c
  }

  lemma BaseNameIs(dir: string, name: string)
    requires dir == "" || dir[|dir| - 1] == '/'
    requires Lacks(name, '/')
    ensures BaseName(dir + name) == name
  {
    var path := dir + name;
    assert forall i | |dir| <= i < |path| :: path[i] == name[i - |dir|];
    assert dir != "" ==> path[|dir| - 1] == '/';
    assert AfterLast(path, '/') == |dir|;
  }

  lemma SuffixIs(stem: string, extension: string)
    requires stem != "" && 2 <= |extension| && extension[0] == '.'
    requires Lacks(extension[1..], '.')
    ensures Suffix(stem + extension) == extension
  {
    var name := stem + extension;
    assert forall i | |stem| < i < |name| :: name[i] == extension[1..][i - |stem| - 1];
    assert name[|stem|] == '.';
    assert AfterLast(name, '.') == |stem| + 1;
  }

  lemma FoldedStart(s: string, other: char -> string)
    requires s != "" && s[0] < 128 as char
    ensures Fold(s, other) == FoldChar(s[0], other) + Fold(s[1..], other)
    ensures |FoldChar(s[0], other)| == 1
  {
  }

  lemma EnvironmentStarts(name: string)
    requires Environment(name)
    ensures name != "" && name[0] == '.'
  {
    assert name == ".env" || name[0] == ".env."[0];
  }

  lemma SecretSuffixStarts(i: nat)
    requires i < 6
    ensures |SecretSuffix(i)| > 1 && SecretSuffix(i)[1] != 'm' && SecretSuffix(i)[1] != 'j'
  {
    assert i == 0 || i == 1 || i == 2 || i == 3 || i == 4 || i == 5;
  }

  predicate HarmlessSuffix(suffix: string) {
    suffix == "" || (2 <= |suffix| && suffix[0] == '.' && (suffix[1] == 'm' || suffix[1] == 'j'))
  }

  lemma HarmlessIsNotSecret(suffix: string, other: char -> string, i: nat)
    requires HarmlessSuffix(suffix) && i < 6
    ensures Fold(suffix, other) != SecretSuffix(i)
  {
    SecretSuffixStarts(i);
    if suffix != "" {
      FoldedStart(suffix, other);
      FoldedStart(suffix[1..], other);
      assert Fold(suffix, other)[1] == suffix[1];
    }
  }

  // A name that starts with a plain character, and whose extension does not start like that of a
  // credential file.
  lemma PlainNameIsNotSecret(dir: string, name: string, other: char -> string)
    requires dir == "" || dir[|dir| - 1] == '/'
    requires name != "" && Lacks(name, '/') && name[0] < 128 as char && name[0] != '.'
    requires HarmlessSuffix(Suffix(name))
    ensures !CredentialShaped(dir + name, other)
  {
    BaseNameIs(dir, name);
    FoldedStart(name, other);
    assert Fold(name, other)[0] != '.';
    if Environment(Fold(name, other)) {
      EnvironmentStarts(Fold(name, other));
    }
    forall i: nat | i < 6
      ensures Fold(Suffix(name), other) != SecretSuffix(i)
    {
      HarmlessIsNotSecret(Suffix(name), other, i);
    }
  }

  // Where private paths start.
  predicate PrivateStart(path: string) {
    |path| > 5 && (path[0] == 's' || path[0] == 'r' || path[0] == 't' || (path[0] == 'd' && path[5] != 's'))
  }

  lemma PrivatePathStarts(i: nat)
    requires i < 4
    ensures PrivateStart(PrivatePath(i))
  {
    assert i == 0 || i == 1 || i == 2 || i == 3;
  }

  lemma PrivatePrefixStarts(i: nat)
    requires i < 10
    ensures PrivateStart(PrivatePrefix(i))
  {
    assert i == 0 || i == 1 || i == 2 || i == 3 || i == 4 || i == 5 || i == 6 || i == 7 || i == 8 || i == 9;
  }

  lemma PrivateStarts(path: string)
    requires Private(path)
    ensures PrivateStart(path)
  {
    if i: nat :| i < 4 && path == PrivatePath(i) {
      PrivatePathStarts(i);
    } else {
      var i: nat :| i < 10 && Starts(path, PrivatePrefix(i));
      PrivatePrefixStarts(i);
    }
  }

  lemma SubmissionStarts(path: string)
    requires Starts(path, SUBMISSION)
    ensures path[0] == 'd' && path[5] == 's'
  {
    assert path[0] == SUBMISSION[0] && path[5] == SUBMISSION[5];
  }

  // Submission documents and root files with an upper-case name are exported, the root read-me and
  // credential-shaped names apart.
  lemma PublicStartIsIncluded(path: string, other: char -> string)
    requires !CredentialShaped(path, other) && path != README
    requires path != "" && ('A' <= path[0] <= 'Z' || Starts(path, SUBMISSION))
    ensures Included(path, other)
  {
    if Private(path) {
      PrivateStarts(path);
    }
    if Starts(path, SUBMISSION) {
      SubmissionStarts(path);
    }
  }
}
