# Release and evidence protocols, modelled and proved

This project models the release and evidence tooling of the repository in Dafny and proves what its
protocols and algorithms are for. Each module is one component; `dafny verify dfyconfig.toml` checks
all of them.

**Observer and closure** (`SdkValues`, `PreflightReceipt`, `Observer`, `Answers`, `ObserverRun`,
`PassingRun`, `Closure`, `ClosureRun`). The read-only AWS observer is a class whose methods add to a
call ledger and to a list of reasons. It runs in a given world: a table, by planned call, of what every
client creation, AWS call and encoding comes to. One invariant is carried through all six stages; from
it follow the receipt's own consistency, the exact condition under which the independent validator
accepts it, and that a run passes exactly when every call is answered and every answer shows what the
contract asks for. Such a world exists for every contract that allows the synthetic call. The closure
turns the private receipt into a public one, and says ready for a change set exactly in the worlds, and
with the writes, that allow it.

**Operator bootstrap** (`AuthorityReceipt`, `ReceiptStore`, `ConfigAppend`, `Bootstrap`). The two closed
validators' verdict on a state is stated exactly. The run is a class over a given list of STS answers,
a receipt store that may stop between any two atomic writes, and a configuration file with short
writes, failing syncs and failing truncation; unexpected exceptions are among what it meets.

**Rollback** (`Rollback`). Plan, confirmation by hash, ordered alias updates whose acknowledgement may
be lost, and verification by a fresh plan.

**Algorithms** (`Lineage`, `StreamScan`, `Sorting`, `TreeHash`, `PublicSource`, `BundleDocs`, `Bundle`,
`BundleResults`, `ChecksumText`, `Blocks`, `Manifest`). The anchor check over an arbitrary acyclic commit
graph, replaced or not, the chunked content scan, the length-framed tree hash, the public bundle over a
file system with exclusive creation, the Markdown block splitter and the manifest normaliser.

Conventions: SHA-256 over canonical JSON is an injective tag of the value it was taken of; an answer
of the outside world is a parameter, a constant of the object, or, where no result speaks of it, an
arbitrary value (`:= *`); texts are sequences of characters, and bytes are characters below 256.

## Where the code does less than it seems to

Each of these is stated with its exact condition.

- The observer's receipt is re-validated at its own truncated time. That keeps every fresh time fresh
  iff the selection time is a whole second (`Observer.TruncationKeepsFreshness`); the contract loader's
  format (scripts/day15/g10_candidate.py:52) gives whole seconds.
- An STS answer with keys beyond Account, Arn and UserId passes the observer and is refused by the
  validator (`Observer.ReceiptIsAccepted`, `Observer.ExtraIdentityKeyIsRejected`).
- The prefix `AWS_CALL_FAILED:BEDROCK_` does not match the reason of a failed Converse call, and no
  prefix matches `AWS_RESPONSE_INVALID` reasons. Both still turn a check false, through the observation
  they leave missing (`Observer.ExplainedReasonFailsCheck`).
- A custom repository guard that raises a reason outside the public list, or claims an ambiguous
  profile, makes the sanitized validator raise; no other run does (`Bootstrap.Operator.Conclude`).
- The private authority validator asks only whether the listed writes are exactly one iff an alias was
  created, so a write listed twice without an alias is accepted (`AuthorityReceipt.AcceptedExactly`,
  `AuthorityReceipt.DoubledWriteIsAccepted`); no run lists one.
- An exempt example key that runs into a real key hides it from the scan
  (`StreamScan.OverrunKeyIsMissed`, `StreamScan.SomeKeyIsMissed`; without one nothing is missed,
  `StreamScan.StreamingScanFindsEveryKey`). Texts longer than 16,385 bytes can fall between samples
  (`StreamScan.BoundIsTight`).
- Claims that share an id keep their order in the normal form, so the manifest hash then depends on it
  (`Manifest.NormalFormExact`, `Manifest.ClaimOrderIsIrrelevant`, `Manifest.SharedIdKeepsOrder`).
- A tracked root file with the name of a generated document makes the bundle build fail, and so does an
  exported path outside ASCII, the latter with an encoding error the program does not catch
  (`Bundle.Output.BuildBundle`, whose success condition includes both). A path with a line break makes
  the checksum list unreadable (`ChecksumText.ChecksumsReadBack`).
- An unclosed code fence hides the rest of a draft (`Blocks.UnclosedFenceHidesRest`).

## Model

| member | source | states |
|---|---|---|
| PreflightReceipt.GreedyScanIsSubsequence | scripts/day15/g10_aws_preflight.py:1334-1356 | the greedy scan with a moving position accepts exactly the subsequences of its pattern |
| PreflightReceipt.CheckLedger | scripts/day15/g10_aws_preflight.py:1334-1356 | a ledger is accepted iff it is numbered from 1, read-only and allowlisted, and its operations are the whole 19-call plan (complete) or a subsequence of it |
| PreflightReceipt.FollowsPattern | scripts/day15/g10_aws_preflight.py:1345-1355 | the loop over operations decides the same as the greedy scan |
| SdkValues.NormalizeIdempotent | scripts/day15/g10_aws_preflight.py:278-300 | the canonical JSON form of a value is its own canonical form |
| SdkValues.StoredCopyIsCanonical | scripts/day15/g10_aws_preflight.py:303-318 | a stored answer carries no response metadata and encodes to itself when it is checked again |
| Observer.ExplainedReasonFailsCheck | scripts/day15/g10_aws_preflight.py:1216-1303 | every reason a stage can record turns at least one of the seven checks false, by prefix or by the gap it leaves in the observations |
| Observer.NoReasonIffAllChecks | scripts/day15/g10_aws_preflight.py:1216-1303 | at the end of any run the reason list is empty iff all seven checks hold, and then the ledger is the whole 19-call sequence |
| Observer.ProgressByCall | scripts/day15/g10_aws_preflight.py:650-677 | recording the next planned call keeps numbering, subsequence, completeness on a clean record, and that Converse comes only after thirteen clean calls |
| Observer.ProgressBySkip | scripts/day15/g10_aws_preflight.py:1065-1098 | leaving a planned call out keeps the same invariant, provided a reason was recorded |
| Observer.ConverseStaysClean | scripts/day15/g10_aws_preflight.py:1087-1106 | once Converse is on the ledger, all thirteen calls planned before it came first and no reason had been recorded |
| Observer.TruncationKeepsFreshness | scripts/day15/g10_aws_preflight.py:486-495 | truncating the clock to seconds keeps every fresh time fresh iff the selection time is a whole second; otherwise the earliest fresh instant is lost |
| Observer.ContractAtAnotherTime | scripts/day15/g10_aws_preflight.py:358-565 | a contract accepted at one time is accepted at another iff it is fresh there, with the same identifiers and the same verdict on observations |
| Observer.ReceiptIsAccepted | scripts/day15/g10_aws_preflight.py:1518-1608 | the receipt of any finished run is accepted iff its truncated time is still fresh and, when it passed, the STS answer had exactly Account, Arn and UserId |
| Observer.ExtraIdentityKeyIsRejected | scripts/day15/g10_aws_preflight.py:1457-1466 | from any passing run: one more key in the STS answer still gives a PASS receipt, which the validator refuses |
| ObserverRun.PartSurvives | scripts/day15/g10_aws_preflight.py:770-855 | what is tested on a raw bucket answer still holds of the canonical copy the validator reads, for each of the seven parts |
| ObserverRun.BucketIsClean | scripts/day15/g10_aws_preflight.py:1359-1423 | bucket answers that were complete and each as the contract wants give a stored observation the validator accepts |
| ObserverRun.Context.Call | scripts/day15/g10_aws_preflight.py:635-677 | a call is recorded, and its client kept, iff that is there or can be created; the answer is that of its planned place, and exactly the reason of what went wrong is noted |
| ObserverRun.Context.ObserveBucket | scripts/day15/g10_aws_preflight.py:770-855 | seven bucket reads in a given world: if all answers can be stored, no reason is recorded iff there was none before, the client is there, and all seven answers come and fit the contract |
| ObserverRun.Context.Simulate | scripts/day15/g10_aws_preflight.py:877-922 | on the answer of its place: allowed iff every listed action was decided once, allowed, for exactly the resource, untruncated; otherwise exactly the given reason is added |
| ObserverRun.Context.ObserveIam | scripts/day15/g10_aws_preflight.py:858-922 | no reason iff none before, the client is there and the answers to both simulations pass |
| ObserverRun.Context.Instances | scripts/day15/g10_aws_preflight.py:935-941 | the flattened instances are all mappings of all reservations, in order |
| ObserverRun.Context.FindSandbox | scripts/day15/g10_aws_preflight.py:935-988 | the one contracted instance is described by what it is, and each deviation adds its own reason and no other |
| ObserverRun.Context.ObserveEc2 | scripts/day15/g10_aws_preflight.py:925-988 | no reason iff none before and what EC2 answers holds exactly the one contracted instance, running, in region, on EBS, with exactly one right tag |
| ObserverRun.Context.ObserveCloudwatch | scripts/day15/g10_aws_preflight.py:991-1035 | no reason iff none before and what CloudWatch answers has a numeric datapoint in enough distinct periods of the window |
| ObserverRun.Context.ObserveNova | scripts/day15/g10_aws_preflight.py:1038-1105 | no reason iff none before, the profile answered is the exact active one over the exact model ARNs, the probe is enabled, and Converse answers |
| ObserverRun.Context.ReadThresholds | scripts/day15/g10_aws_preflight.py:1162-1170 | the thresholds are exact iff there are three notifications and the recognised thresholds are the three expected ones |
| ObserverRun.Context.ObserveOwners | scripts/day15/g10_aws_preflight.py:1177-1201 | each threshold asks once; a failed call leaves no entry, and no reason is added iff all three answers name the owner |
| ObserverRun.Context.ObserveBudgets | scripts/day15/g10_aws_preflight.py:1133-1203 | no reason iff none before and the answers on budget, notifications and all three owners are as contracted |
| ObserverRun.Context.ObserveIdentity | scripts/day15/g10_aws_preflight.py:1649-1666 | if the answer can be stored: no reason iff STS answers with the contracted account and role, and then its stored copy is kept |
| ObserverRun.EndedRunIsFaithful | scripts/day15/g10_aws_preflight.py:1206-1331 | the receipt of an ended run: PASS iff no reason iff all checks, ledger a numbered subsequence of the plan (whole when all checks hold), no writes, and the exact condition of its acceptance |
| ObserverRun.WholeSecondReceiptAccepted | scripts/day15/g10_aws_preflight.py:1518-1608 | with a whole-second selection time, as the loader's format gives, the receipt is accepted unless it passed on an STS answer with unexpected keys |
| ObserverRun.RunStages | scripts/day15/g10_aws_preflight.py:1646-1684 | in a given world where everything can be stored the stages end, without a reason iff the world passes |
| ObserverRun.ObserveAwsPreflight | scripts/day15/g10_aws_preflight.py:1611-1684 | a valid request in a world where everything can be stored gets a faithful receipt, no invalid request gets one, and the receipt says PASS iff every client can be created, every call is answered and every answer shows what the contract asks for |
| PassingRun.PassingWorldExists | scripts/day15/g10_aws_preflight.py:1611-1684 | an accepted contract has a world in which the observer passes with a receipt its validator accepts iff it allows the synthetic call |
| PassingRun.PassingRunExists | scripts/day15/g10_aws_preflight.py:1206-1331 | for every contract there is a run that ends without a reason, on an exact identity answer |
| Closure.NothingMissing | scripts/day15/run_g10_closure.py:361-362 | no prerequisite is reported missing iff all checks and the three bindings hold |
| Closure.SanitizedReceiptAccepted | scripts/day15/run_g10_closure.py:425-484 | the public receipt derived from a valid private one is accepted against it iff it was derived for the contract inside and no reason looks sensitive |
| Closure.BlockedReceiptAccepted | scripts/day15/run_g10_closure.py:408-422 | a blocked receipt is accepted without any private receipt iff its one reason is 1 to 160 characters long and does not look sensitive |
| Closure.ReadyMeansPassed | scripts/day15/run_g10_closure.py:509-618 | an accepted receipt that says a change set may be created is bound to a PASS private receipt with the full ledger, all checks true, no reasons and no writes |
| ClosureRun.ReadyExactlyOnPass | scripts/day15/run_g10_closure.py:466-484 | derived from an accepted receipt of the observer, the public receipt is ready for a change set iff that passed |
| ClosureRun.DerivePublicReceipt | scripts/day15/run_g10_closure.py:740-762 | deriving and validating succeeds iff the private receipt is accepted and nothing looks sensitive |
| ClosureRun.Outputs.CloseWithoutContract | scripts/day15/run_g10_closure.py:690-712 | without a contract it succeeds iff the candidate is valid, the reason is not sensitive and the write comes through; then the receipt is accepted, never ready and shows no AWS call, and no failure reports one |
| ClosureRun.Outputs.CloseObserved | scripts/day15/run_g10_closure.py:735-770 | it succeeds iff every write comes through, the observed receipt is accepted and no reason is sensitive; then the observed receipt is on file, and the derived one is ready iff it passed |
| ClosureRun.Outputs.RunClosure | scripts/day15/run_g10_closure.py:675-770 | the command says ready for a change set iff the contract is selected, the request valid, every AWS answer storable and as the contract asks, the identity answer of three keys, and every write comes through; every returned receipt is accepted against what is on file, and the public file holds an accepted receipt or its old content |
| AuthorityReceipt.ApiOperationNames | scripts/day15/g10_operator_bootstrap.py:747-767 | the names of the recorded calls, or nothing unless they are numbered from 1 and read-only |
| AuthorityReceipt.PrivateReceiptAccepted | scripts/day15/g10_operator_bootstrap.py:780-949 | every coherent concluded state gives a private receipt its closed validator accepts |
| AuthorityReceipt.PublicReceiptAccepted | scripts/day15/g10_operator_bootstrap.py:952-1028 | its public receipt is accepted iff a PASS is only reported with the private receipt written |
| AuthorityReceipt.AcceptedExactly | scripts/day15/g10_operator_bootstrap.py:780-1028 | the two validators together accept a state iff its evidence fits together, its listed writes are all profile writes, exactly one iff an alias was created, and it is concluded |
| AuthorityReceipt.OneWriteIsCoherent | scripts/day15/g10_operator_bootstrap.py:780-949 | an accepted state is coherent iff it lists at most one write |
| AuthorityReceipt.DoubledWriteIsAccepted | scripts/day15/g10_operator_bootstrap.py:905-949 | any coherent concluded state without an alias is still accepted when a profile write is listed twice |
| Bootstrap.SelectionIgnoresOrder | scripts/day15/g10_operator_bootstrap.py:358-388 | the selected source profile does not depend on the order or repetition of what is configured |
| Bootstrap.FailureConcludes | scripts/day15/g10_operator_bootstrap.py:286-292 | a failure concludes a run iff its reason is public and claims ambiguity exactly where that was recorded |
| Bootstrap.ReportIsValid | scripts/day15/g10_operator_bootstrap.py:1264-1275 | after the last write attempt the public validator accepts the report iff the reasons fit the evidence |
| Bootstrap.RunState.AddReason | scripts/day15/g10_operator_bootstrap.py:286-292 | a reason is added once, replacing the in-progress marker; a FAIL is never taken back |
| Bootstrap.Operator.GetIdentity | scripts/day15/g10_operator_bootstrap.py:454-462 | the identity call is on record before it is made, and its result is what STS answers to that call |
| Bootstrap.Operator.ProveSource | scripts/day15/g10_operator_bootstrap.py:1160-1184 | the source is verified by exactly one call, in the account STS answers with, and counted as the exact role iff the answer is that role |
| Bootstrap.Operator.VerifyTemporary | scripts/day15/g10_operator_bootstrap.py:1207-1219 | the role counts as proven only when what STS answers to the second call is the exact role in the account |
| Bootstrap.Operator.CreateAlias | scripts/day15/g10_operator_bootstrap.py:1236-1255 | success leaves the original plus one alias block that reads back as expected; otherwise the file is the original or a prefix of that on top of it |
| Bootstrap.Operator.EnsureAlias | scripts/day15/g10_operator_bootstrap.py:1221-1256 | the file changes only when it still equals the bytes first read, by exactly the rendered alias block or a piece of it; on success the deployment profile reads as the alias |
| Bootstrap.Operator.ProveSelected | scripts/day15/g10_operator_bootstrap.py:1158-1256 | the configuration changes only after STS answered with the exact role, and then by the one alias block or a piece of it |
| Bootstrap.Operator.Conclude | scripts/day15/g10_operator_bootstrap.py:1132-1275 | whatever is raised, unexpected exceptions included: a validator raises iff a custom repository guard reported a reason that cannot be reported; every other exit returns an accepted payload |
| Bootstrap.Operator.Run | scripts/day15/g10_operator_bootstrap.py:1110-1275 | for every list of STS answers and every file failure: accepted payloads at every exit, PASS only with the valid PASS receipt on disk, the role shown by the last STS answer asked for and the alias in place, and the file unchanged, or extended by the one alias block or a piece of it |
| Bootstrap.Operator.RunCommand | scripts/day15/g10_operator_bootstrap.py:1282-1330 | with the default guard no validator raises and the command always has an accepted payload |
| ConfigAppend.ConfigFile.WriteAll | scripts/day15/g10_operator_bootstrap.py:618-626 | whatever the pattern of short writes, the file is the original plus a prefix of the suffix, all of it on success |
| ConfigAppend.ConfigFile.ReadBounded | scripts/day15/g10_operator_bootstrap.py:608-615 | the bounded read returns the whole file or one byte more than allowed, never a longer file as an equal one |
| ConfigAppend.ConfigFile.ReadPastLimit | scripts/day15/g10_operator_bootstrap.py:650-656 | the re-read equals the expected bytes only when the file does |
| ConfigAppend.ConfigFile.RollBack | scripts/day15/g10_operator_bootstrap.py:627-648 | after a failure the file counts as unchanged only when it is byte for byte the original |
| ConfigAppend.ConfigFile.AppendAlias | scripts/day15/g10_operator_bootstrap.py:579-672 | success iff the file became the update; a failure without a reported change left it byte-identical; at every moment it is the original or a piece of the update on top of it |
| ReceiptStore.RunKeeps | scripts/day15/g10_operator_bootstrap.py:1043-1065 | at every atomic moment of a run the start receipt is kept, no backup is lost, and the receipt path holds the start receipt or a canonical valid one |
| ReceiptStore.NoReceiptIsEverLost | scripts/day15/g10_operator_bootstrap.py:1043-1065 | over any number of runs, each cut off anywhere, the receipt present at the start of any run is still in place or in a backup |
| ReceiptStore.ReceiptStaysValid | scripts/day15/g10_operator_bootstrap.py:1031-1040 | once a run has written the receipt, the file at that path is canonical and valid at every later moment of every later run |
| ReceiptStore.Store.PreserveExisting | scripts/day15/g10_operator_bootstrap.py:1043-1065 | the old receipt is in a backup before anything overwrites it, under its own digest |
| ReceiptStore.Store.WritePrivateReceipt | scripts/day15/g10_operator_bootstrap.py:1031-1040 | only receipts the validator accepts are written |
| Rollback.Lambda.BuildPlan | scripts/day15/alias_rollback.py:182-227 | a plan is the one for the current aliases, both requested versions are retained, and its hash is that of the plan |
| Rollback.Lambda.ExecutePlan | scripts/day15/alias_rollback.py:247-280 | every exit leaves the start state plus a prefix of the pending updates; without the confirmed hash nothing changes; success means both aliases are at the requested retained versions |
| Rollback.Lambda.Rollback | scripts/day15/alias_rollback.py:309-320 | the command is one such round from a fresh plan, refused under any other confirmation |
| Rollback.RoundSettles | scripts/day15/alias_rollback.py:256-280 | every applied update settles one alias for good, executor first, and touches nothing else |
| Rollback.RoundsConverge | scripts/day15/alias_rollback.py:256-280 | however often planning and execution are repeated and wherever each stops, at most two updates are ever applied, and nothing is pending iff all that were pending are |
| Rollback.PlanHashPinsAliases | scripts/day15/alias_rollback.py:205-227 | two fresh plans have one hash iff both aliases stand where they stood |
| Rollback.ConfirmationExpires | scripts/day15/alias_rollback.py:253-254 | a fresh plan has another hash than the confirmed one iff an update took effect since |
| Lineage.ReachesIffPath | scripts/validate_reviewer_evidence_manifest.py:1656-1666 | the ancestor relation is the existence of a parent path |
| Lineage.MissingCommits | scripts/validate_reviewer_evidence_manifest.py:1652-1655 | as many reasons as there are places in the list with a commit that does not exist |
| Lineage.CheckAnchors | scripts/validate_reviewer_evidence_manifest.py:1630-1754 | the reasons, in order and number, are those of the answers given; with none of them the stored graph, not a replaced or grafted one, has the chain |
| Lineage.AnchorsAreOrdered | scripts/validate_reviewer_evidence_manifest.py:1656-1754 | without drift all anchors, up to HEAD, are totally ordered by ancestry |
| Lineage.LineageIsExact | scripts/validate_reviewer_evidence_manifest.py:1723-1754 | without drift the commits reachable from the last lineage commit and not from the first are exactly the other lineage commits, all different |
| Lineage.PhaseTwoQuestionIsImplied | scripts/validate_reviewer_evidence_manifest.py:1663-1669 | the separate question about the second phase anchor and HEAD is implied by the others |
| StreamScan.ContentFindings | scripts/scan_b5_image_export.py:106-136 | each finding is reported iff some sample shows it, nothing when the first piece has a NUL byte, and there is no result iff a read it comes to fails |
| StreamScan.SampleIsSlice | scripts/scan_b5_image_export.py:114-133 | every scanned sample is a contiguous piece of the file |
| StreamScan.EveryShortTextIsSampled | scripts/scan_b5_image_export.py:114-133 | for any split into non-empty reads, every text of at most 16,385 bytes lies wholly in some sample |
| StreamScan.BoundIsTight | scripts/scan_b5_image_export.py:132-132 | a text of 16,386 bytes can be split so that no sample holds it |
| StreamScan.ReportedKeyIsInFile | scripts/scan_b5_image_export.py:117-122 | a reported access key is a non-exempt key of the whole file |
| StreamScan.ClearKeyIsReported | scripts/scan_b5_image_export.py:117-122 | a non-exempt key is reported unless an exempt one runs into it from the left |
| StreamScan.StreamingScanFindsEveryKey | scripts/scan_b5_image_export.py:106-136 | when no exempt key runs into a real one, a key is reported iff the file holds a real one, however it was split |
| StreamScan.ShortFileScanIsWholeFileScan | scripts/scan_b5_image_export.py:106-136 | for a file of at most 16,385 bytes the streaming scan reports exactly what a search of the whole file reports, exempt keys included, however it was split |
| StreamScan.OverrunKeyIsMissed | scripts/scan_b5_image_export.py:117-122 | a key that starts inside another one that nothing runs into is passed over in every sample that holds both |
| StreamScan.SomeKeyIsMissed | scripts/scan_b5_image_export.py:117-122 | a concrete file holds a real key, behind an exempt one, that no split of it reports |
| TreeHash.DecodeEncode | scripts/day15/build_lambda_artifact.py:539-545 | the length-framed byte stream decodes to exactly the entries that were fed |
| TreeHash.EncodeIsInjective | scripts/day15/build_lambda_artifact.py:539-545 | equal streams come from equal lists of names and contents |
| TreeHash.HashTree | scripts/day15/build_lambda_artifact.py:529-546 | the running digest is fed the encoding of the sorted entries, or fails where a path is unsafe or missing |
| TreeHash.SuppliedOrderIsIrrelevant | scripts/day15/build_lambda_artifact.py:529-538 | supplying the paths in another order gives the same entries |
| TreeHash.EqualStreamsEqualTrees | scripts/day15/build_lambda_artifact.py:529-546 | two whole trees feed the same stream iff they are the same tree |
| PublicSource.SourceEntries | scripts/build_public_submission.py:188-243 | the listing is accepted iff no record is at fault and there is a blob: then every blob once, in path order; else the reason of the first record at fault |
| PublicSource.ListingOrderIsIrrelevant | scripts/build_public_submission.py:243-243 | the order in which Git lists the blobs does not matter |
| PublicSource.PublicStartIsIncluded | scripts/build_public_submission.py:264-305 | submission documents and upper-case root files are exported, the root read-me and credential-shaped names apart |
| Bundle.ReviewedPolicyHolds | scripts/build_public_submission.py:264-305 | the classification includes the overlays and would include a tracked file with the name of any generated document, however non-ASCII characters fold |
| Bundle.Output.WriteNew | scripts/build_public_submission.py:308-319 | exclusive creation: an existing file is never touched, and a failure leaves at most its own torn file |
| Bundle.Output.CopySource | scripts/build_public_submission.py:437-462 | exactly the included blobs are copied, with their bytes and mode, and every blob has an inventory item |
| Bundle.Output.BuildBundle | scripts/build_public_submission.py:400-524 | at every exit, failures included, the candidate holds only exported blobs and generated documents, never an excluded blob; success gives the specified bundle, and it succeeds iff the output is empty, the inputs are buildable and no operation it comes to fails |
| BundleResults.BuiltIsCandidate | scripts/build_public_submission.py:437-501 | the candidate is the exported files, each with its own bytes and mode, and the generated documents; no path is both |
| BundleResults.ExcludedIsAbsent | scripts/build_public_submission.py:437-466 | an excluded path is not in the candidate, but for the root read-me, which holds the overlay |
| BundleResults.InventoryIsExact | scripts/build_public_submission.py:447-493 | the candidate is the disjoint union of the inventory's export paths and the standalone documents |
| BundleResults.ExportHoldsItem | scripts/build_public_submission.py:447-493 | every export path holds the bytes its inventory item was hashed from |
| BundleResults.OneItemPerExport | scripts/build_public_submission.py:447-493 | no path is exported by two inventory items |
| BundleResults.CountsSumToInventory | scripts/build_public_submission.py:467-480 | the classification counts of the manifest sum to its inventory |
| BundleResults.PayloadIsExact | scripts/build_public_submission.py:361-369 | the payload lists, once and in path order, every file but the manifest and the checksums, with its digest |
| BundleResults.SumsAreExact | scripts/build_public_submission.py:495-499 | SHA256SUMS lists, once and in path order, every file of the candidate but itself |
| BundleResults.ArchiveIsExact | scripts/build_public_submission.py:372-387 | the archive holds every file of the candidate once, in sorted order, with its bytes and executable bit |
| BundleResults.ManifestIsInPlace | scripts/build_public_submission.py:490-501 | the manifest is in the candidate and, with the same bytes, beside it |
| BundleResults.BuildIsDeterministic | scripts/build_public_submission.py:400-524 | the same source gives the same bundle, file by file |
| ChecksumText.ChecksumsReadBack | scripts/build_public_submission.py:495-499 | the text of SHA256SUMS reads back as what was listed iff no path contains a line break |
| Blocks.SplitBlocks | scripts/phase3/audit_submission_claims.py:96-133 | the state machine returns the blocks: maximal runs of adjacent prose lines, and single rows and items, under the nearest heading |
| Blocks.BlocksAreTheContributions | scripts/phase3/audit_submission_claims.py:96-133 | reading the blocks text by text gives back every contributing line once, in order, under its own section, and nothing else |
| Blocks.EveryLineInOneBlock | scripts/phase3/audit_submission_claims.py:96-133 | blocks are disjoint and in order, and a line lies in one iff it contributes |
| Blocks.BlocksAreUnique | scripts/phase3/audit_submission_claims.py:96-133 | a text has only one such splitting |
| Blocks.FencedIsOddCount | scripts/phase3/audit_submission_claims.py:108-113 | a line is inside a code block iff an odd number of fence lines stands above it |
| Blocks.NearestHeading | scripts/phase3/audit_submission_claims.py:114-117 | a section is the title of the nearest unfenced level-two heading above, or empty |
| Blocks.UnclosedFenceHidesRest | scripts/phase3/audit_submission_claims.py:108-113 | a fence that is never closed hides every line below it |
| Blocks.TextsAreTrimmed | scripts/phase3/audit_submission_claims.py:107-130 | the text a line of a document contributes is never empty or padded: it is the stripped line, and for an item what follows the marker and its spaces |
| Blocks.LinesKeepText | scripts/phase3/audit_submission_claims.py:107-107 | splitting into lines loses nothing but the line breaks |
| Blocks.BareMarksAreProse | scripts/phase3/audit_submission_claims.py:114-119 | a heading mark without a title is ordinary text |
| Manifest.NormalizeManifest | scripts/build_reviewer_evidence_manifest.py:779-808 | the copy changed in place is the normal form |
| Manifest.CanonicalClaimMaterial | scripts/build_reviewer_evidence_manifest.py:126-139 | every field but the stored hash, with sources and proof nodes sorted |
| Manifest.NormalizeIdempotent | scripts/build_reviewer_evidence_manifest.py:779-808 | normalising twice is normalising once |
| Manifest.NormalizeConserves | scripts/build_reviewer_evidence_manifest.py:779-808 | every list keeps its elements and every other entry its value |
| Manifest.ClaimOrderIsIrrelevant | scripts/build_reviewer_evidence_manifest.py:794-797 | all arrangements of the claims have one normal form iff no two different normal claims share an id |
| Manifest.NormalFormExact | scripts/build_reviewer_evidence_manifest.py:779-808 | two manifests have one normal form iff they say the same and, under every claim id and every receipt key, in the same order |
| Manifest.DistinctNormalFormExact | scripts/build_reviewer_evidence_manifest.py:779-808 | when no two different claims share an id and no two different receipts a key, they have one normal form iff they differ only in the order of claims, receipts, sources and proof nodes |
| Manifest.ManifestHashExact | scripts/build_reviewer_evidence_manifest.py:825-836 | two manifests have one hash iff they say the same in the same order under every claim id and receipt key, whatever hash they already carry; normalising does not change it |
| Manifest.ClaimHashExact | scripts/build_reviewer_evidence_manifest.py:142-143 | two claims have one hash iff they differ only in the stored hash and the order of sources and proof nodes |
| Manifest.DistinctIdsAreDistinguished | scripts/build_reviewer_evidence_manifest.py:794-797 | claims with distinct ids meet the condition |
| Manifest.ThreeFieldReceiptsAreDistinguished | scripts/build_reviewer_evidence_manifest.py:798-807 | receipts of exactly claim_id, path and sha256 meet the condition |
| Manifest.SharedIdKeepsOrder | scripts/build_reviewer_evidence_manifest.py:794-797 | two different claims that share an id keep their order, so the normal form depends on it |
| Sorting.OrderIndependence | scripts/build_reviewer_evidence_manifest.py:794-797 | a stable sort has one result for all arrangements iff the order tells the elements apart |
| Sorting.SortExact | scripts/build_reviewer_evidence_manifest.py:794-797 | two sequences sort to the same one iff, for every key, they hold the same elements in the same order |

## Left out

- Bootstrap.Operator.Run: states that a returned PASS has the PASS receipt on disk; the reverse does not hold when the last write fails, so it is not claimed.
- Rollback.Lambda.ExecutePlan: does not say that every failed exit after an update reports PARTIAL, because the verification read can exit BLOCKED.
- StreamScan.StreamingScanFindsEveryKey: speaks of access keys; secret values and private key blocks are tests of one sample given as parameters, and matches longer than 16,385 bytes are not guaranteed to be seen.
- Manifest.NormalizeManifest: a claim whose claim_id is not a text sorts as the empty text; Python compares or refuses such keys by their own types.
- Lineage.CheckAnchors: Git answers truthfully from the graph it shows, of a complete clone; the claim evidence and tag questions of the same function are single comparisons.
- PublicSource.SourceEntries: starts from parsed listing records; splitting the NUL-separated bytes and resolving the commit are one outcome of the listing.
- Bundle.Output.BuildBundle: the sizes in the payload, the fixed texts of the manifest and the projection of the attestation are not modelled; directory conflicts are failing writes.
- Blocks.SplitBlocks: the later split of blocks into sentences and the claim audit over them.
- Regular expressions of ARNs, buckets, e-mails and account numbers: datatypes or flags on the values (`fieldsValid`, `patternsMatch`); the policy and lifecycle tests of the bucket are modelled on parsed values.
- The spelling of the named reason codes in the characters `[A-Z0-9_:.-]`: only a reason of another text is tested character by character.
- The search for sensitive values: a predicate on reason texts, the only free texts of a public receipt.
- JSON text, SHA-256, configparser and ZIP byte layout: canonical values, injective tags, a parsing parameter and a list of members. The rendering of a configuration section is a parameter.
- Outside writers to the configuration, the receipts and the aliases while a run is in progress; locks, file modes and symbolic links are outcomes of the calls that check them.
- Temporary files that an interrupted atomic write may leave behind.
- Distinctness of the configuration, receipt and backup paths, which the program checks and the model has by construction.
- The loading of the private contract and of the candidate, the full gate refresh, template and artifact gates, exit codes, printing and argument parsing.
- Everything imported from the application packages, which are not part of this model.
- In scripts/day15/build_lambda_artifact.py, an explicitly empty path tuple hashes the whole tree, as the code does; the rest of the artifact build is library work.
