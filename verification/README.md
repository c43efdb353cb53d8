# A verified model of the VATE conformance and external-SUT checkers

The repository defines a conformance corpus for verifiable agent trust envelopes and two large Python checkers around it.
`scripts/vate_conformance.py` compares a submitted result set with the corpus, writes a conformance report and an
implementation report, and later verifies such a bundle again with separately written code.
`scripts/check_pulse_external_sut_starter.py` checks worksheets, JSON documents and generated records of an external starter
kit and executes a candidate under limits. `reference/musubi-set2-receiving-sample/retention.py` nests transactions in one
SQLite batch. This project models the parts of them that carry unbounded promises and proves those promises for all inputs.

## Components

- **Report pipeline** (`Corpora`, `Normalize`, `Compare`, `ReportContracts`, `Bundle`, `BundleSoundness`, `BundleClosure`,
  `BundleVerdicts`, `BundleWitness`).
  Producer and verifier are modelled independently, as in the source, and two theorems join them. *Soundness*: in a bundle
  that passes with a submission, every case marked as passed has exactly one submitted result, which is completed and equals
  the expectation of the corpus; `summary.passed` counts exactly those cases; a `pass` status means every case of the corpus.
  *Closure*: whatever was submitted and however many cases failed, the bundle of a comparison without fatal errors passes if
  and only if the corpus directory exists, the corpus root has a name, the clock printed a valid time, and no result has an
  artifact-mode failure, a stray `generated_artifacts` or a generated-receipt failure. The last conditions are real: the
  comparison records them as failed cases, the bundle verification as failed checks. *Verdicts*: for a given submission, a
  passing bundle can mark exactly those sets of cases as passed whose cases were answered as expected. `BundleWitness` shows
  that the hypotheses of these theorems can be met, on a corpus of one case and a submission that answers it.
- **JSON trees** (`Segments`, `Documents`, `DocumentPaths`, `PointerWriter`, `WriterLaws`, `StructuralDiff`). Path
  enumeration, pointer resolution, the in-place pointer writer, the two segment decoders and the bounded diff, after RFC 6901
  (sections 3 and 4).
- **Graph and relation validators** (`LeafGraph`, `Pairing`, `Artifacts`). The three-colour visit, the pairing relation and
  the exact-match artifact check, each proved to accept exactly a declarative relation.
- **Linkage, money, encoding and processes** (`Decimals`, `Rounding`, `SideEffects`, `Linkage`, `UsdMapping`, `Base64Url`,
  `ProcessLoop`). Python's decimal sums and products are shown to be rounding of plain numbers in any common unit, and what
  rounding can and cannot do to a verdict follows from its laws.
- **Nested transactions** (`Savepoints`). The savepoint discipline with one reused name refines ideal nested transactions over
  arbitrary step trees.

Supporting modules: `Json` (parsed JSON and Python's `==`, which identifies `1`, `1.0` and `True`), `Text` (code-point order,
sorted keys, decimal numerals), `Numerals` (`str.isdigit` and `int` over any table of Unicode digits), `DecimalText` (a
canonical text for every decimal) and `Oracles` (SHA-256 of canonical JSON, time-stamp parsing and number formatting as
uninterpreted functions; no theorem needs injectivity of the hash).

JSON occurs in two forms. `Json.Json` keeps objects as maps, because every comparison and digest in
`scripts/vate_conformance.py` ignores key order. `Documents.Doc` keeps the order of keys, because path enumeration and the
pointer writer depend on it.

## Where the code differs from what one would expect

- Set-then-get fails for the empty pointer: the writer creates the key `""`, while the reader returns the root. It holds
  exactly for pointers that start with `/` (`WriterLaws.SetThenGetIff`).
- Writing all leaves of an object into `{}` rebuilds it exactly when every nested container is non-empty and no nested
  object starts with a key that `str.isdigit` accepts (`WriterLaws.RebuildIff`). Such keys at the root, and those that are not
  first, do no harm. Digits beyond ASCII count: an object under `a` whose first key is the Arabic-Indic three comes back as an
  array of four items (`WriterLaws.WiderDigitsAreLost`).
- A write that is refused can leave new containers behind: `str.isdigit` accepts characters, such as a superscript two, that
  `int` does not. A refused write changes nothing exactly when every part after the first that passes `str.isdigit` also passes
  `int` (`WriterLaws.RefusalIsUndoneIff`).
- The running `Decimal` total rounds at 28 significant digits. In any unit, the verdict on every list of side effects is
  exact, and independent of their order, exactly when the admitted maximum has at most 28 digits in that unit
  (`SideEffects.ExactIffLimitFits`); how much is reported does not matter. Under every longer maximum four side effects overrun
  it that are accepted in one order and refused in another (`SideEffects.RoundingHidesOverrun`).
- The conversion to atomic units is exact exactly when the digits of amount and rate multiply to at most 28 digits, up to
  trailing zeros (`UsdMapping.ConversionExactIff`). Beyond that a request a cent over its limit, of class overrun, can have
  the same requested and permitted atomic amount (`UsdMapping.RoundingHidesShortfall`); a shortfall without an overrun
  cannot happen (`UsdMapping.ShortfallExactly`).
- `validBefore` lies before the evaluation time for a closed request or mandate window too, not only for class `stale`
  (`UsdMapping.ExpiredIff`).
- The base64url decoder ignores unused trailing bits: encoding undoes decoding exactly when they are zero
  (`Base64Url.EncodeDecodeIff`), so distinct texts can decode alike.
- The replacing segment decoder accepts segments that the one-pass decoder refuses (`Segments.DecodersDiffer`).
- The deadline bounds the loop of `run_bounded_process`, not the child: whenever the final poll or the final wait looks
  after the deadline, a child that ended late is returned as a success (`ProcessLoop.LateExitIsReturned`); if neither does, no
  such child is (`ProcessLoop.NoneReturnedLateIff`).
- Bundle verification does not repeat the comparison of checks and input artifacts: a case whose decision is right but whose
  artifacts the comparison refused can be marked as passed in a bundle that passes (`BundleVerdicts.RefusedArtifactsCanBeMarked`).
- A body that catches the loss of its batch and goes on writing leaves those writes committed although the batch raises.
  A batch that raises is undone exactly unless this happens (`Savepoints.BatchIsAtomicIff`, `Savepoints.LateWriteEscapes`).
- The summary status `partial` cannot occur: `skipped` is at most `failed`, and a failed case already means `fail`
  (`BundleSoundness.PartialIsUnreachable`).

## Model

| member | source | states |
|---|---|---|
| BundleSoundness.Soundness | scripts/vate_conformance.py:5481-6169 | in every passing bundle with a submission, each entry marked passed belongs to a canonical case with exactly one submitted result, completed and equal to the expected outcome, should_execute and reason codes; summary.passed is the number of those entries |
| BundleSoundness.ImplementationSoundness | scripts/vate_conformance.py:5434-5445 | the same of the case results and the summary of the implementation report |
| BundleSoundness.PassMeansEveryCase | scripts/vate_conformance.py:5923-5928 | an accepted implementation report with status pass means that every case of the corpus was met by its only result |
| BundleSoundness.AgreementIsVindication | scripts/vate_conformance.py:4336-4430 | the normalized reading of a case is completed and canonical if and only if exactly one result was submitted for it and that result meets the case |
| BundleSoundness.PassedEntryAgrees | scripts/vate_conformance.py:4956-5017 | consistency, projection and expectation checks together force a passed entry to carry the canonical decision |
| BundleSoundness.EntryIsEarned | scripts/vate_conformance.py:4750-4824 | the same for one entry of a report that agrees with a submission |
| BundleSoundness.ResultOrigin | scripts/vate_conformance.py:5417-5445 | a matching implementation entry has the id and the verdict of its conformance entry, although Python equality is looser |
| BundleSoundness.CountIsSize | scripts/vate_conformance.py:5329-5334 | the counted verdicts are the size of the set of passed entries |
| BundleSoundness.PartialIsUnreachable | scripts/vate_conformance.py:5390-5408 | a summary status is pass or fail, never partial |
| BundleClosure.Closure | scripts/vate_conformance.py:5481-6169 | the bundle of any comparison without fatal errors, with a fresh index and the implementation report made from it, passes if and only if directory, name, time, artifact modes and generated receipts are in order |
| BundleClosure.ConformanceSide | scripts/vate_conformance.py:5122-5184 | every contract, coverage, consistency and arithmetic check holds of a report as the comparison writes it, up to the corpus name and the time |
| BundleClosure.ImplementationSide | scripts/vate_conformance.py:5187-5278 | the implementation report as it is made passes contract, link, coverage and projection checks, up to the corpus name |
| BundleClosure.ReportAgrees | scripts/vate_conformance.py:5964-6110 | a written report agrees with its submission if and only if artifact modes and generated receipts are in order |
| BundleClosure.FreshIndexOk | scripts/vate_conformance.py:1088-1145 | a freshly made corpus index passes every index check |
| BundleClosure.MadeReport | scripts/vate_conformance.py:6232-6275 | field by field what the implementation report holds; publication and proofs never overwrite a field |
| BundleClosure.MetadataFits | scripts/vate_conformance.py:6172-6204 | the identity copied from any submission satisfies the identity contract |
| BundleClosure.SkippedBelowFailed | scripts/vate_conformance.py:5349-5350 | skipped cases are never more than failed ones |
| BundleClosure.ModesCounted | scripts/vate_conformance.py:5936-5963 | the mode counts of the normalization are the counts recomputed from the entries |
| BundleClosure.KnownProjection | scripts/vate_conformance.py:4750-4824 | the projection check accepts the entries the comparison writes, state messages included |
| BundleClosure.FieldsConsistent | scripts/vate_conformance.py:4956-5017 | an entry of the comparison is internally consistent |
| BundleClosure.StatusIsVerdict | scripts/vate_conformance.py:5411-5414 | without fatal errors the status is pass if and only if every case passes |
| BundleClosure.WrittenPasses | scripts/vate_conformance.py:5481-6169 | the same of any report with the fields and entries of a comparison, whatever its failed cases give as reasons |
| BundleVerdicts.AcceptableIffVindicated | scripts/vate_conformance.py:4750-5017 | for a submission fit for comparison, a set of cases can be marked as passed in a passing bundle if and only if every one of them has exactly one result and that result meets the case |
| BundleVerdicts.RefusedArtifactsCanBeMarked | scripts/vate_conformance.py:5964-6130 | a case answered as expected whose artifacts the comparison refuses fails there and can still be marked as passed |
| BundleWitness.BundleOf | scripts/vate_conformance.py:5481-6169 | every presentable comparison without fatal errors has a bundle that passes |
| BundleWitness.WasCompared | scripts/vate_conformance.py:4445-4647 | a concrete corpus and submission with no fatal error, their normalization and their messages |
| BundleWitness.IsPresentable | scripts/vate_conformance.py:4672-4741 | whose bundle is in order, whatever the artifact checks of the comparison say |
| BundleWitness.TheCaseIsVindicated | scripts/vate_conformance.py:4281-4442 | and whose only case is answered by exactly one result |
| Bundle.VerifyReportBundle | scripts/vate_conformance.py:5481-6169 | the status is pass if and only if corpus, index, both reports and the submission stand in the relation BundleOk; the counts add up |
| Bundle.Failing | scripts/vate_conformance.py:6127-6140 | no failing check means that all checks pass |
| Bundle.Checklist.Add | scripts/vate_conformance.py:4650-4669 | appends one check and keeps the others |
| Bundle.Checklist.AddObject | scripts/vate_conformance.py:5448-5478 | unreadable or non-object files fail a check |
| Bundle.Checklist.AddCoverage | scripts/vate_conformance.py:5281-5307 | passes exactly on well-shaped, duplicate-free lists whose ids are a permutation of the canonical ids |
| Bundle.Checklist.CorpusChecks | scripts/vate_conformance.py:5509-5553 | the corpus checks pass exactly on a usable corpus |
| Bundle.Checklist.IndexChecks | scripts/vate_conformance.py:5617-5750 | the index checks pass exactly when the committed index is the index of this corpus |
| Bundle.Checklist.ConformanceGroup | scripts/vate_conformance.py:5567-5831 | the conformance checks pass exactly on a report that fits the corpus |
| Bundle.Checklist.ImplementationGroup | scripts/vate_conformance.py:5577-5963 | the implementation checks pass exactly on a report that fits corpus and conformance report |
| Bundle.Checklist.SubmissionGroup | scripts/vate_conformance.py:5964-6130 | the submission checks pass exactly on agreement, and without a file exactly on a reference run |
| Bundle.Checklist.GeneratedChecks | scripts/vate_conformance.py:4694-4741 | one result passes the artifact-mode and generated-receipt checks, branch by branch |
| Bundle.Checklist.AllGeneratedChecks | scripts/vate_conformance.py:4672-4741 | all of them, and the default mode |
| ReportContracts.CaseCollection | scripts/vate_conformance.py:5281-5307 | accepts exactly the lists of objects with distinct non-empty ids, and returns the usable ids in order |
| ReportContracts.CollectedMembers | scripts/vate_conformance.py:5289-5307 | an id is collected if and only if some entry carries it |
| ReportContracts.SummaryFailures | scripts/vate_conformance.py:5310-5351 | accepts exactly the summaries whose counts are those of the cases |
| ReportContracts.ProjectionFailures | scripts/vate_conformance.py:4750-4824 | accepts exactly when the first entry of every canonical case repeats the normalized submission and its state |
| ReportContracts.EntryFor | scripts/vate_conformance.py:4757-4763 | a found entry is in the list and carries the id |
| Compare.CompareSutResults | scripts/vate_conformance.py:4445-4647 | every submission yields a report whose entries, counts and fatal errors are exactly those of the comparison |
| Compare.CompareCase | scripts/vate_conformance.py:4510-4612 | a case has no message if and only if it passes, and its state message is the only one that reads like one |
| Compare.CheckFailures | scripts/vate_conformance.py:4562-4587 | no failure if and only if every expected check is reported under a unique name as passed |
| Compare.OrderFailures | scripts/vate_conformance.py:1201-1222 | accepts exactly the duplicate-free lists whose terminal codes fit the outcome and come last |
| Compare.DecisionFailures | scripts/vate_conformance.py:4526-4546 | with a boolean should_execute, no failure if and only if the decision is the canonical one |
| Compare.FatalErrors | scripts/vate_conformance.py:4453-4507 | no fatal error if and only if corpus and submission are fit for comparison |
| Compare.EnvelopeFailures | scripts/vate_conformance.py:4260-4278 | accepts exactly the envelopes with a valid time, a result array and a named implementation |
| Compare.FieldFailuresState | scripts/vate_conformance.py:4797-4824 | the state messages found among the field failures of a case are exactly its own state message |
| Normalize.Normalize | scripts/vate_conformance.py:4281-4442 | default mode, structural failures, one reading per canonical case from the last result for it, mode counts and skipped count, for every submission |
| Normalize.IndexResults | scripts/vate_conformance.py:4301-4323 | the index holds the last usable result per case; no failure means all usable; no duplicate means no case twice |
| Normalize.LastFor | scripts/vate_conformance.py:4316-4337 | the position of the last result for a case, or none at all |
| Normalize.SkippedState | scripts/vate_conformance.py:4399-4410 | a case is recorded as skipped exactly when its result says so, whatever other status text is submitted |
| Corpora.PairingGivesUniqueIds | scripts/vate_conformance.py:668-769 | an accepted pairing implies unique case ids |
| Corpora.ExpectedOutcome | scripts/vate_conformance.py:1771-1775 | the expected outcome is one of the seven decision and execution outcomes |
| Json.PyEqReflexive | scripts/vate_conformance.py:3777-3819 | recursive Python equality is reflexive |
| Json.PyEqTransitive | scripts/vate_conformance.py:3777-3819 | and transitive, across booleans, integers and floats |
| Json.PyEqStrings | scripts/vate_conformance.py:4774-4790 | against a list of strings it is exact equality |
| StructuralDiff.SemanticProjectionFailures | scripts/vate_conformance.py:3777-3819 | for every limit, exactly the first entries of the unbounded diff |
| StructuralDiff.Visitor.Visit | scripts/vate_conformance.py:3785-3816 | each visit appends the diff of its two values, cut at the limit |
| StructuralDiff.DiffEmptyIffEqual | scripts/vate_conformance.py:3785-3816 | the unbounded diff is empty if and only if the values are equal under Python equality |
| StructuralDiff.BoundedEmptyIffEqual | scripts/vate_conformance.py:3777-3819 | the bounded diff is empty if and only if the values are equal or the limit leaves no room |
| Segments.DecodeSegment | scripts/vate_conformance.py:1225-1244 | the index loop computes the one-pass decoding, refusals included |
| Segments.DecodeEscape | scripts/vate_conformance.py:1225-1244 | decoding undoes escaping for every key |
| Segments.EscapeDecodeIff | scripts/vate_conformance.py:1225-1244 | escaping undoes decoding exactly for the slash-free accepted segments |
| Segments.DecodersAgree | scripts/check_pulse_external_sut_starter.py:820-837 | the two-replace decoder agrees with the one-pass decoder on every segment the latter accepts |
| Segments.UnescapeEscape | scripts/check_pulse_external_sut_starter.py:792-837 | the two-replace decoder undoes the escaping of the enumeration |
| Segments.DecodersDiffer | scripts/check_pulse_external_sut_starter.py:826-826 | a segment on which the two decoders differ |
| Documents.JsonPointerValue | scripts/check_pulse_external_sut_starter.py:820-837 | the loop over the segments computes recursive resolution, failures included, for every table of Unicode digits |
| Documents.PrimitiveLeafPaths | scripts/check_pulse_external_sut_starter.py:792-803 | the recursive method lists the leaf paths in document order |
| Documents.ContainerPathList | scripts/check_pulse_external_sut_starter.py:806-817 | the same for containers |
| Documents.ResolveRender | scripts/check_pulse_external_sut_starter.py:820-837 | the path text of an address resolves to the node at that address, empty keys, tildes and slashes included |
| Documents.RenderInjective | scripts/check_pulse_external_sut_starter.py:792-817 | distinct addresses have distinct path texts |
| Documents.NodeIffAt | scripts/check_pulse_external_sut_starter.py:820-837 | walking by canonical steps is walking by pointer parts |
| DocumentPaths.PathsAreExact | scripts/check_pulse_external_sut_starter.py:792-837 | a path is listed if and only if it is the text of a leaf (or container) address, and it resolves to one |
| DocumentPaths.EveryNodeOnce | scripts/check_pulse_external_sut_starter.py:792-817 | over both lists together no path repeats |
| DocumentPaths.PathsDetermineDocument | scripts/check_pulse_external_sut_starter.py:2126-2133 | two documents have the same leaf paths, container paths and leaf values if and only if they are the same up to reading arrays as objects keyed by index |
| DocumentPaths.ChangedPaths | scripts/check_pulse_external_sut_starter.py:3086-3096 | the frozen leaf paths at exactly the positions whose values differ, in order |
| DocumentPaths.EmptyDiffIffSameDocument | scripts/check_pulse_external_sut_starter.py:3078-3113 | inputs that passed both path checks are the same document if and only if the sensitivity diff is empty |
| PointerWriter.Builder.Set | scripts/check_pulse_external_sut_starter.py:4957-4981 | the loop of in-place updates computes the recursive write, and a refused write leaves behind exactly the containers it created on the way |
| WriterLaws.WriteThenRead | scripts/check_pulse_external_sut_starter.py:4957-4981 | a written value is found under the parts it was written to |
| WriterLaws.SetThenGetIff | scripts/check_pulse_external_sut_starter.py:4957-4981 | set-then-get through one pointer holds if and only if the pointer starts with a slash |
| WriterLaws.WriteLeavesOthers | scripts/check_pulse_external_sut_starter.py:4957-4981 | a write leaves every node at an address that parts ways with the pointer unchanged |
| WriterLaws.ApartIff | scripts/check_pulse_external_sut_starter.py:4957-4981 | for an existing node and a pointer without leading zeros, parting ways means that neither address is a prefix of the other |
| WriterLaws.WriteLeavesOtherPaths | scripts/check_pulse_external_sut_starter.py:820-837 | in pointer text: a write changes no existing node whose path is neither a prefix nor an extension of its pointer |
| WriterLaws.RefusalIsUndoneIff | scripts/check_pulse_external_sut_starter.py:4957-4981 | refused writes through a pointer leave every document as it was if and only if its parts after the first convert with `int` whenever they are digits |
| WriterLaws.FreshTakesIff | scripts/check_pulse_external_sut_starter.py:4962-4978 | a chain of new containers takes a write if and only if its parts convert |
| WriterLaws.WriteKeepsRebuildable | scripts/check_pulse_external_sut_starter.py:4957-4981 | no write of a leaf creates an empty nested container or a nested object with a leading key of digits |
| WriterLaws.RebuildIff | scripts/check_pulse_external_sut_starter.py:4957-4981 | writing all leaves into an empty object in enumeration order rebuilds the document if and only if nested containers are non-empty and nested objects do not start with a key that `str.isdigit` accepts |
| WriterLaws.WiderDigitsAreLost | scripts/check_pulse_external_sut_starter.py:4964-4968 | an object with the key Arabic-Indic three comes back as an array |
| WriterLaws.PathsAreTexts | scripts/check_pulse_external_sut_starter.py:792-803 | the listed leaf paths are the texts of the leaf addresses, in order |
| WriterLaws.RebuildFromLeaves | scripts/check_pulse_external_sut_starter.py:5083-5085 | listing, resolving and setting every leaf path returns the document if and only if it is rebuildable |
| LeafGraph.LeafVisitor.Visit | scripts/check_pulse_external_sut_starter.py:1819-1827 | a successful visit finishes its leaf and keeps the colour invariant and the topological order; a refused one exhibits a cycle; unvisited leaves decrease |
| LeafGraph.ValidateDependencies | scripts/check_pulse_external_sut_starter.py:1799-1830 | accepted if and only if all targets exist and the graph is acyclic; then the finishing order is a topological order of all leaves |
| LeafGraph.TopologicalIsAcyclic | scripts/check_pulse_external_sut_starter.py:1819-1830 | a graph with a topological order has no cycle |
| LeafGraph.ClosedWalkIsCycle | scripts/check_pulse_external_sut_starter.py:1821-1821 | meeting an entered leaf closes a cycle |
| Pairing.CorpusPairingFailures | scripts/vate_conformance.py:668-769 | empty if and only if loading succeeded, case ids are distinct, every paired case is well shaped and reciprocated, and pair_id classes are exactly the two partners |
| Pairing.PairingIsInvolution | scripts/vate_conformance.py:731-763 | pairing is an involution without fixed points between opposite roles that match the categories, with equal axis and field lists |
| Pairing.RolesBalance | scripts/vate_conformance.py:668-769 | positive and negative paired cases are equal in number |
| Pairing.MembersOfPair | scripts/vate_conformance.py:765-767 | an id set of size two is exactly the class of the two partners |
| Pairing.FieldFailures | scripts/vate_conformance.py:652-665 | accepts exactly duplicate-free disjoint field lists without identity fields among the stable ones |
| Artifacts.ContractFailures | scripts/vate_conformance.py:2651-2711 | accepts exactly the declared input contracts |
| Artifacts.ResultArtifactFailures | scripts/vate_conformance.py:3433-3546 | accepts exactly the results whose only artifact entry is a list of well-formed references that match the requirements one to one |
| Artifacts.AcceptedIffPermutation | scripts/vate_conformance.py:3433-3546 | a list is accepted if and only if it is a permutation of the required references |
| Artifacts.ContractIsWanted | scripts/vate_conformance.py:2959-2994 | a valid contract over readable artifacts yields distinct, complete requirements |
| Artifacts.CheckSubmission | scripts/vate_conformance.py:3433-3546 | contract, requirements and check together: accepted if and only if input_artifacts is the only entry and a permutation of the required references |
| Artifacts.ReferenceFailures | scripts/vate_conformance.py:3173-3186 | accepts exactly the well-formed references |
| Linkage.LinkageFailures | scripts/vate_conformance.py:1549-1616 | empty if and only if both receipts and blocks are present and every separately coded predicate holds |
| Linkage.TimeFailures | scripts/vate_conformance.py:1680-1703 | the inlined time checks fail exactly when the separately coded window predicate does |
| Linkage.RelationFailures | scripts/vate_conformance.py:4053-4068 | the inlined relation checks fail exactly when one of the three link relations does |
| Linkage.DecisionFailures | scripts/vate_conformance.py:1670-1677 | the inlined decision checks fail exactly when the admission is not executable |
| Linkage.LinkedExecutionInsideAdmission | scripts/vate_conformance.py:1549-1703 | a linked execution lies inside the admission interval, under an allowing decision, for the admitted request hash |
| Linkage.LinkedExecutionWithinMaximum | scripts/vate_conformance.py:1619-1667 | under a maximum of at most 28 digits a linked execution spent no more than it, whatever it reports |
| SideEffects.SideEffectFailures | scripts/vate_conformance.py:1624-1667 | the check yields nothing exactly when every amount is valid and no running total overruns the limit |
| SideEffects.TotalFailures | scripts/vate_conformance.py:1647-1666 | the early exit changes no verdict |
| SideEffects.OverrunsByUnit | scripts/vate_conformance.py:1647-1666 | in a common unit the loop over decimals is the same loop over numbers, rounded after every addition |
| SideEffects.OverrunsExactly | scripts/vate_conformance.py:1647-1666 | under a limit of at most 28 digits the rounded running total overruns if and only if the exact sum does, however large it is |
| SideEffects.AcceptsIffWithinLimit | scripts/vate_conformance.py:1624-1667 | under a maximum of at most 28 digits it accepts if and only if all amounts are valid and their exact total is at most the maximum |
| SideEffects.VerdictIgnoresOrder | scripts/vate_conformance.py:1624-1667 | and the verdict is the same for every order of the side effects |
| SideEffects.ExactIffLimitFits | scripts/vate_conformance.py:1624-1667 | verdicts in a unit are exact for every list, and free of the order, if and only if the maximum has at most 28 digits in that unit |
| SideEffects.RoundingHidesOverrun | scripts/vate_conformance.py:1663-1666 | under every longer maximum four side effects over it are accepted in one order and refused in another |
| Rounding.AddAt | scripts/vate_conformance.py:1663-1663 | a decimal sum in any common unit is the rounded sum of numbers, and exact up to 28 digits |
| Rounding.RoundedShift | scripts/vate_conformance.py:1663-1663 | rounding does not depend on the unit |
| Rounding.RoundedMonotone | scripts/check_pulse_external_sut_starter.py:2684-2688 | rounding never swaps two numbers |
| Rounding.FewDigitsIff | scripts/check_pulse_external_sut_starter.py:2684-2688 | the digit condition holds exactly of the multiples of a power of ten by a number of at most 28 digits |
| DecimalText.MoneyTextOf | scripts/vate_conformance.py:1624-1646 | the canonical text of a decimal is accepted and read back as that decimal |
| Decimals.CompareAt | scripts/vate_conformance.py:1664-1664 | decimal comparison does not depend on the units |
| UsdMapping.MinorNeverFractional | scripts/check_pulse_external_sut_starter.py:2541-2556 | the conversion to minor units fails only at the uint256 bound and is exact below 28 digits |
| UsdMapping.MinorAmounts | scripts/check_pulse_external_sut_starter.py:2671-2676 | the permitted minor amount is the minimum of request and limit to the cent |
| UsdMapping.ConversionExactIff | scripts/check_pulse_external_sut_starter.py:2684-2688 | the conversion to atomic units loses nothing if and only if the digits of amount and rate multiply to at most 28 digits, up to trailing zeros |
| UsdMapping.AtomicOrder | scripts/check_pulse_external_sut_starter.py:2684-2688 | atomic amounts are ordered as the once rounded products are, for every pair of accepted amounts |
| UsdMapping.ExactAtomicOrder | scripts/check_pulse_external_sut_starter.py:2684-2688 | within that digit condition they are ordered as the amounts |
| UsdMapping.ShortfallExactly | scripts/check_pulse_external_sut_starter.py:2651-2739 | for every accepted source: permitted atomic is never above requested atomic, is below it only for an overrun, and is below it exactly for an overrun whose rounded products differ |
| UsdMapping.ShortfallIffOverrun | scripts/check_pulse_external_sut_starter.py:2651-2739 | when request and limit meet the digit condition, permitted atomic is below requested atomic if and only if the class is overrun |
| UsdMapping.RoundingHidesShortfall | scripts/check_pulse_external_sut_starter.py:2651-2739 | an accepted source of class overrun, beyond the digit condition, with equal atomic amounts |
| UsdMapping.ExpiredIff | scripts/check_pulse_external_sut_starter.py:2696-2706 | validBefore is before the evaluation time if and only if one of the three source windows had closed; class stale is exactly a closed authority window |
| Base64Url.DecodeEncodeIff | scripts/vate_conformance.py:811-826 | decoding undoes encoding if and only if the byte string is non-empty |
| Base64Url.EncodeDecodeIff | scripts/vate_conformance.py:811-826 | encoding undoes decoding if and only if the unused trailing bits are zero |
| Base64Url.DecodeNotInjective | scripts/vate_conformance.py:815-826 | two texts with one decoding |
| Base64Url.DecodedLength | scripts/check_pulse_external_sut_starter.py:2757-2770 | which texts are accepted, how long they decode, and that 43 characters give 32 bytes |
| ProcessLoop.RunBoundedProcess | scripts/check_pulse_external_sut_starter.py:4641-4740 | over every environment: bounded outputs, a prefix of the request sent, complete outputs and request on a normal return, a reason for every failure, no unfinished run past the deadline, and termination once the streams were ready often enough |
| ProcessLoop.Runner.Turn | scripts/check_pulse_external_sut_starter.py:4679-4720 | one turn of the loop keeps the invariant and stays before the deadline |
| ProcessLoop.Runner.ReadOutput | scripts/check_pulse_external_sut_starter.py:4705-4718 | what is collected stays a prefix of the child's output within the limit |
| ProcessLoop.Runner.WriteStdin | scripts/check_pulse_external_sut_starter.py:4694-4704 | what is sent stays a prefix of the request |
| ProcessLoop.ServeWellBehaved | scripts/check_pulse_external_sut_starter.py:4641-4740 | a child within its limits whose streams are ready in time is served to the end |
| ProcessLoop.NoneReturnedLateIff | scripts/check_pulse_external_sut_starter.py:4721-4740 | the status found after the loop is of a child that ended before the deadline, whatever the child, if and only if both final looks come before it |
| ProcessLoop.LateExitIsReturned | scripts/check_pulse_external_sut_starter.py:4641-4740 | whenever one of the final looks comes later, some child that outlives the deadline is returned as a success |
| Savepoints.Connection.RollbackTo | reference/musubi-set2-receiving-sample/retention.py:21-21 | returns to the newest savepoint of that name and keeps it on the stack |
| Savepoints.Connection.Release | reference/musubi-set2-receiving-sample/retention.py:18-22 | removes the newest savepoint of that name and keeps the content |
| Savepoints.BatchInbox.Run | reference/musubi-set2-receiving-sample/retention.py:8-23 | every step tree behaves as in the ideal semantics, and an open batch has the savepoint stack it had before |
| Savepoints.BatchInbox.StepTransaction | reference/musubi-set2-receiving-sample/retention.py:13-23 | a nested step is an ideal nested transaction, and the stack is restored despite the reused name |
| Savepoints.BatchInbox.InboxTransaction | reference/recipient-inbox/recipient_inbox.py:196-205 | the outer transaction commits or rolls back as in the ideal semantics |
| Savepoints.NestedStep | reference/musubi-set2-receiving-sample/retention.py:13-23 | a raising nested step restores its entry state, a normal one keeps its writes, and neither commits the batch |
| Savepoints.BatchIsAtomicIff | reference/musubi-set2-receiving-sample/retention.py:8-12 | a raising batch is undone if and only if its body did not write on after catching the loss of the batch |
| Savepoints.LateWriteEscapes | reference/musubi-set2-receiving-sample/retention.py:19-23 | such a write survives the batch that raises |
| Savepoints.StepIsAllOrNothing | reference/musubi-set2-receiving-sample/retention.py:8-23 | unless SQLite abandons the batch, a block is all or nothing at every depth, and when it raises |
| Savepoints.BodyAppends | reference/musubi-set2-receiving-sample/retention.py:8-23 | the ideal semantics of a body is the append of its kept writes |

## Left out

- Files, paths, Git and process groups: loaded cases, manifests, parsed documents and stream events are inputs. A file that
  cannot be read as strict JSON is the value None.
- SHA-256 of canonical JSON, RFC 3339 parsing and the printing of values are uninterpreted functions.
- JOSE, trust bundles, vocabularies, status contexts, receipt shapes and generated-receipt files: branch-by-branch field
  checks, taken as functions that return messages (`Compare.Checkers`).
- The reference run of the corpus itself (`run_corpus`, `evaluate_case`): it only evaluates those field checks.
- The descriptive fields of an index entry are an arbitrary function of the case; `make_corpus_index` writes further fixed
  descriptive fields that no check reads.
- Of case loading, only the fields that the pipeline reads are in the case type; the remaining envelope checks would add only
  field-by-field conditions.
- Message texts are kept only where the code reads them again (state messages and their prefix); other messages are
  shortened, and the order of sorted messages is not modelled.
- The contracts of whole reports (`ConformanceContract`, `ImplementationContract`) are predicates, because the source functions
  only collect one message per violated field.
- Entries of the structural diff carry structured paths instead of their printed form.
- Artifacts.ResultArtifactFailures: covers the input artifacts of a result; verification-context, receipt and proof sections
  of the same function are part of the opaque artifact messages, because their checks repeat the same matching.
- PointerWriter.Builder.Set: models the document as a value and the walk as a stack of frames, so aliasing between parts of one
  document is not captured; documents parsed from JSON have none.
- Savepoints.BatchInbox.StepTransaction: `ROLLBACK TO` and `RELEASE` of an existing savepoint do not fail on their own;
  SQLite losing the whole transaction is modelled instead.
- ProcessLoop.RunBoundedProcess: polls, clock and readiness are choices of the environment; process-group termination and
  signal delivery are not modelled.
- Normalize.Normalize: `artifact_mode_failures` and field failures are modelled with fixed texts.
- UsdMapping: covers the amounts, class and validity window; merchant, nonce and identifier fields are string functions of
  the same inputs and would only add equalities.
- Decimal exponents are unbounded, so `Emin` and `Emax` and the limit on digits of integer conversion are not modelled; negative
  zero is not distinguished.
- Which Unicode characters are digits is a parameter (`Numerals.Table`) that agrees with ASCII; signs, spaces and underscores
  in `int` cannot occur after `str.isdigit`.
- The worksheet's provenance, coverage and inventory sections, credential scans, dependency policies and fixed pins: finite
  constants or heuristics.
