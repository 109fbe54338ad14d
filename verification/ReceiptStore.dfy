/**
 The files of the operator bootstrap: the private receipt, its append-only backups, and what
 every sequence of runs does to them, each run possibly interrupted after any atomic write.
 */
module ReceiptStore {
  import opened Wrappers
  import opened AuthorityReceipt

  // Bytes on disk. Canonical(r) is the canonical encoding of r; other bytes may still decode.
  datatype Content =
    | Canonical(receipt: PrivateReceipt)
    | OtherBytes(id: int, decoded: Option<PrivateReceipt>)

  function Decode(content: Content): Option<PrivateReceipt> {
    match content
    case Canonical(receipt) => Some(receipt)
    case OtherBytes(_, decoded) => decoded
  }

  // A backup is named after the first digits of the hash of what it holds; names may collide.
  datatype Path = ReceiptPath | BackupPath(tag: string)

  type Files = map<Path, Content>

  type Tagging = Content -> string

  predicate ValidContent(content: Content) {
    content.Canonical? && ValidatePrivate(content.receipt).None?
  }

  // raw is in place or in its backup.
  predicate Kept(tag: Tagging, raw: Content, files: Files) {
    || (ReceiptPath in files && files[ReceiptPath] == raw)
    || (BackupPath(tag(raw)) in files && files[BackupPath(tag(raw))] == raw)
  }

  predicate BackedUp(tag: Tagging, start: Files, files: Files) {
    ReceiptPath in start ==>
      BackupPath(tag(start[ReceiptPath])) in files && files[BackupPath(tag(start[ReceiptPath]))] == start[ReceiptPath]
  }

  // ---------- One run ----------

  // The receipt found at the start is copied to a backup that did not exist.
  predicate BackupStep(tag: Tagging, start: Files, a: Files, b: Files) {
    && ReceiptPath in start && ReceiptPath in a && a[ReceiptPath] == start[ReceiptPath]
    && ValidContent(start[ReceiptPath])
    && BackupPath(tag(start[ReceiptPath])) !in a
    && b == a[BackupPath(tag(start[ReceiptPath])) := start[ReceiptPath]]
  }

  // The receipt is replaced by a valid one, the one found at the start being backed up.
  predicate ReceiptStep(tag: Tagging, start: Files, a: Files, b: Files) {
    && BackedUp(tag, start, a)
    && ReceiptPath in b && ValidContent(b[ReceiptPath])
    && b == a[ReceiptPath := b[ReceiptPath]]
  }

  predicate StepOk(tag: Tagging, start: Files, a: Files, b: Files) {
    b == a || BackupStep(tag, start, a, b) || ReceiptStep(tag, start, a, b)
  }

  // The files after each atomic write of one run; an interrupted run is a shorter trace.
  predicate RunTrace(tag: Tagging, trace: seq<Files>) {
    && trace != []
    && forall i | 0 <= i < |trace| - 1 :: StepOk(tag, trace[0], trace[i], trace[i + 1])
  }

  // Backups are append-only.
  ghost predicate BackupsGrow(a: Files, b: Files) {
    forall t | BackupPath(t) in a :: BackupPath(t) in b && b[BackupPath(t)] == a[BackupPath(t)]
  }

  // At every moment of a run the start receipt is kept, no backup is lost, and the receipt path
  // holds the start receipt or a canonical valid one.
  lemma {:induction false} RunKeeps(tag: Tagging, trace: seq<Files>, n: nat)
    requires RunTrace(tag, trace) && n < |trace|
    ensures ReceiptPath in trace[0] ==> Kept(tag, trace[0][ReceiptPath], trace[n])
    ensures BackupsGrow(trace[0], trace[n])
    ensures ReceiptPath in trace[n] ==>
      ValidContent(trace[n][ReceiptPath]) || (ReceiptPath in trace[0] && trace[n][ReceiptPath] == trace[0][ReceiptPath])
    ensures ReceiptPath in trace[0] ==> ReceiptPath in trace[n]
  {
    if n > 0 {
      RunKeeps(tag, trace, n - 1);
      assert StepOk(tag, trace[0], trace[n - 1], trace[n - 1 + 1]);
    }
  }

  // What one earlier copy survives: in place at the start, or in a backup.
  lemma RunKeepsCopies(tag: Tagging, trace: seq<Files>, raw: Content)
    requires RunTrace(tag, trace) && Kept(tag, raw, trace[0])
    ensures Kept(tag, raw, trace[|trace| - 1])
  {
    RunKeeps(tag, trace, |trace| - 1);
  }

  // ---------- Many runs ----------

  // Each run, whole or interrupted, starts from what the previous one left.
  predicate History(tag: Tagging, runs: seq<seq<Files>>) {
    && (forall i | 0 <= i < |runs| :: RunTrace(tag, runs[i]))
    && (forall i | 0 <= i < |runs| - 1 :: Last(runs[i]) == runs[i + 1][0])
  }

  function Last(trace: seq<Files>): Files {
    if trace == [] then map[] else trace[|trace| - 1]
  }

  lemma {:induction false} CopySurvivesRuns(tag: Tagging, runs: seq<seq<Files>>, first: nat, last: nat, raw: Content)
    requires History(tag, runs) && first <= last < |runs|
    requires Kept(tag, raw, runs[first][0])
    ensures Kept(tag, raw, Last(runs[last]))
    decreases last - first
  {
    RunKeepsCopies(tag, runs[first], raw);
    if first < last {
      CopySurvivesRuns(tag, runs, first + 1, last, raw);
    }
  }

  // The receipt present at the start of any run is still there after any number of further runs.
  lemma NoReceiptIsEverLost(tag: Tagging, runs: seq<seq<Files>>, first: nat, last: nat)
    requires History(tag, runs) && first <= last < |runs|
    requires ReceiptPath in runs[first][0]
    ensures Kept(tag, runs[first][0][ReceiptPath], Last(runs[last]))
  {
    CopySurvivesRuns(tag, runs, first, last, runs[first][0][ReceiptPath]);
  }

  // Once a run has written the receipt, it is canonical and valid at every later moment.
  lemma {:induction false} ReceiptStaysValid(
    tag: Tagging, runs: seq<seq<Files>>, first: nat, moment: nat, last: nat, later: nat)
    requires History(tag, runs) && first <= last < |runs|
    requires moment < |runs[first]| && later < |runs[last]| && (first == last ==> moment <= later)
    requires ReceiptPath in runs[first][moment] && ValidContent(runs[first][moment][ReceiptPath])
    ensures ReceiptPath in runs[last][later] && ValidContent(runs[last][later][ReceiptPath])
    decreases last - first
  {
    if first == last {
      ValidWithinRun(tag, runs[first], moment, later);
    } else {
      ValidWithinRun(tag, runs[first], moment, |runs[first]| - 1);
      assert Last(runs[first]) == runs[first + 1][0];
      ReceiptStaysValid(tag, runs, first + 1, 0, last, later);
    }
  }

  lemma {:induction false} ValidWithinRun(tag: Tagging, trace: seq<Files>, moment: nat, later: nat)
    requires RunTrace(tag, trace) && moment <= later < |trace|
    requires ReceiptPath in trace[moment] && ValidContent(trace[moment][ReceiptPath])
    ensures ReceiptPath in trace[later] && ValidContent(trace[later][ReceiptPath])
    decreases later - moment
  {
    if moment < later {
      assert StepOk(tag, trace[0], trace[moment], trace[moment + 1]);
      ValidWithinRun(tag, trace, moment + 1, later);
    }
  }

  // ---------- The store ----------

  datatype WriteOutcome = NotReplaced | ReplacedThenFailed | Replaced

  datatype StoreResult = Stored | StoreFailed(failure: BootstrapFailure) | StoreRaised

  class Store {
    var files: Files
    ghost var trace: seq<Files>
    const tag: Tagging

    constructor (files: Files, tag: Tagging)
      ensures this.files == files && this.tag == tag && Recording() && Start() == files
    {
      this.files, this.trace, this.tag := files, [files], tag;
    }

    // The trace of the current run, up to now.
    ghost predicate Recording()
      reads this
    {
      RunTrace(tag, trace) && Last(trace) == files
    }

    ghost function Start(): Files
      reads this
    {
      if trace == [] then map[] else trace[0]
    }

    // A new run begins with the files as they are.
    ghost method Begin()
      modifies this`trace
      ensures Recording() && Start() == files
    {
      trace := [files];
    }

    // Write a temporary file and move it over the path; it may be in place before an error shows.
    method AtomicWrite(path: Path, content: Content) returns (result: StoreResult)
      requires Recording() && StepOk(tag, Start(), files, files[path := content])
      modifies this`files, this`trace
      ensures Recording() && Start() == old(Start())
      ensures result.Stored? ==> files == old(files)[path := content]
      ensures files == old(files) || files == old(files)[path := content]
      ensures result.StoreFailed? ==> result.failure in {Fail(LocalPathInvalid), Fail(LocalPathSymlinkForbidden)}
    {
      var outcome: WriteOutcome := *;
      if outcome != NotReplaced {
        files := files[path := content];
        trace := trace + [files];
      }
      if outcome == Replaced {
        return Stored;
      }
      var raised: bool, symlink: bool := *, *;
      return if raised then StoreRaised
        else StoreFailed(Fail(if symlink then LocalPathSymlinkForbidden else LocalPathInvalid));
    }

    // Copy the receipt in place to its backup before anything is replaced.
    method PreserveExisting() returns (result: StoreResult)
      requires Recording() && files == Start()
      modifies this`files, this`trace
      ensures Recording() && Start() == old(Start())
      ensures ReceiptPath in old(files) ==> ReceiptPath in files && files[ReceiptPath] == old(files)[ReceiptPath]
      ensures ReceiptPath !in old(files) ==> files == old(files) && result == Stored
      ensures result.Stored? ==> BackedUp(tag, Start(), files)
      ensures result.Stored? && ReceiptPath in old(files) ==> ValidContent(old(files)[ReceiptPath])
      ensures result.StoreFailed? ==> Reportable(result.failure)
    {
      if ReceiptPath !in files {
        return Stored;
      }
      var raw := files[ReceiptPath];
      var readable: bool := *;
      var value := Decode(raw);
      if !readable || value.None? || ValidatePrivate(value.value).Some? || raw != Canonical(value.value) {
        return StoreFailed(Fail(PrivateReceiptAlreadyExistsInvalid));
      }
      var backup := BackupPath(tag(raw));
      if backup in files {
        var backupReadable: bool, modeKept: bool := *, *;
        if !backupReadable || !modeKept || files[backup] != raw {
          return StoreFailed(Fail(PrivateReceiptBackupConflict));
        }
        return Stored;
      }
      result := AtomicWrite(backup, raw);
    }

    // Validate, bound, replace, and check the mode of the private receipt.
    method WritePrivateReceipt(s: State) returns (result: StoreResult)
      requires Recording() && BackedUp(tag, Start(), files)
      modifies this`files, this`trace
      ensures Recording() && Start() == old(Start()) && BackedUp(tag, Start(), files)
      ensures files == old(files) || files == old(files)[ReceiptPath := Canonical(PrivateReceiptOf(s))]
      ensures result.Stored? ==>
        files == old(files)[ReceiptPath := Canonical(PrivateReceiptOf(s))] && ValidatePrivate(PrivateReceiptOf(s)).None?
      ensures result.StoreFailed? ==> Reportable(result.failure) && result.failure.status == FAIL
      ensures ValidatePrivate(PrivateReceiptOf(s)).Some? ==>
        files == old(files) && result == StoreFailed(Fail(ValidatePrivate(PrivateReceiptOf(s)).value))
    {
      var payload := PrivateReceiptOf(s);
      var rejection := ValidatePrivate(payload);
      if rejection.Some? {
        return StoreFailed(Fail(rejection.value));
      }
      var withinLimit: bool := *;
      if !withinLimit {
        return StoreFailed(Fail(PrivateReceiptTooLarge));
      }
      result := AtomicWrite(ReceiptPath, Canonical(payload));
      var modeKept: bool := *;
      if result.Stored? && !modeKept {
        return StoreFailed(Fail(PrivateReceiptModeInvalid));
      }
    }
  }

  // A failure whose reason may appear in a receipt of a run with one profile or none.
  predicate Reportable(failure: BootstrapFailure) {
    !failure.reason.OtherReason? && failure.reason != ProfileAmbiguous && failure.status in {FAIL, BLOCKED}
  }
}
