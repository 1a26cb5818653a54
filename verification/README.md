# Verification model of Workflo's scripts and protocols

This project models the small algorithms and protocols that Workflo's claims rest on, and proves
what they keep. It covers

- the tiled log-probability kernel of the QLoRA trainer (`LogProbKernel`) and the logits it works on
  (`LogitHead`),
- the browser-log files of the development server, appended to and trimmed (`DebugLog`) and read back
  (`LogReader`),
- the release-evidence chain from benchmark to release decision (`Benchmark`, `ReleaseReports`,
  `ReleaseChain`, `Producers`, `ArtifactManifest`, `EvidenceGate`, `GateDemands`, `EvidenceIndex`,
  `ReceiptBundle`, `IdentityTampers`, `ReleaseBundle`, `VerifierReport`, `FinalGate`, and `ProducedRun`, which joins them from
  the measurements to the decision; `HonestRun` and `HonestTree` hold a directory on which all of it is met),
- four concurrent protocols: the plan/observation handshake (`PlanHandshake`), the request tokens of the
  dashboard (`LatestRequest`), device authorization (`DeviceApproval` with atomic submissions, `DeviceRaces`
  with overlapping ones) and the JWKS cache (`JwksCache`),
- the HTML escaper of the control plane (`HtmlEscape`),
- the evaluation checks of the adapters (`FunctionalChecks`, `EvalFunnel`).

`Wrappers`, `Text`, `Json`, `FileTree` and `Rounding` hold what these share: optional values, split and
join, JSON values with Python's equality and truth values, a directory tree with symbolic links,
half-to-even rounding.

What an operation computes is stated twice over: by the function that the method is proved against, and by
lemmas that fix that function from outside, by what it does to its inputs, by an independent table of names
and values, or by reading its output back.

How the source's forms appear: objects that update their fields are classes (`DebugLog.LogFile`,
`LatestRequest.Home`, `DeviceApproval.ControlPlane`, `JwksCache.Cache`, `Benchmark.LevelResult`), loops are
methods with invariants, the kernel writes its outputs into arrays, and each of these is tied to a
function about which the lemmas speak. A protocol is a transition function `Next` with an `Enabled`
condition (`After` and `Possible` in `DeviceRaces`); its theorems quantify over every run. Exceptions and
refusals are `Option` or result values.

Assumptions are hypotheses of the lemmas that use them, never axioms: `Elementary.Lawful` (exp is
positive, strictly increasing and turns sums into products; log is its right inverse) and
`Codec.Lawful` (a JSON document whose numbers have finitely many decimal digits survives being written and
parsed; a text without white space at its ends survives being written and read; neither leaves an empty
file; a digest is 64 hexadecimal digits). SHA-256 is *not* assumed injective: tamper evidence reads "the
same bytes, or a collision". The table of device codes is assumed to hold a user code at most once; on two
such rows the source's query raises an error.

Where the code does not do what its comments say, the model follows the code, and a lemma gives the
exact condition:

- The kernel is announced with the same contract as the fused original. Across several tiles it
  re-weights the running sum by the new tile's maximum, so the partition value can be too large
  (`LogZRefinesLogSumExp`, `AscendingTilesOverstate`) and `is_top1` can miss (`TopIndexCorrectIff`,
  `TopIndexMisses`). The other two accumulators are not rescaled at all. The entropy's error is stated as an
  equation for every row and tile width (`EntropyError`); where the partition value is exact, the entropy is
  right if and only if the tiles' shortfall is zero (`EntropyCorrectIff`, failing input
  `EntropyOffAcrossTiles`). The squared mass is right if and only if its gap is zero (`SquaresCorrectIff`);
  where the partition value is exact it is never too small, and right if and only if all tiles have the same
  log-sum-exp (`SquaresWhenExact`, failing input `SquaresOffAcrossTiles`).
- `percentile_ms` is documented as nearest rank; it is one rank higher at odd integers
  (`RankIsNearestRankUnlessOdd`, `MedianOfTwo`).
- The request tokens are said to keep stale replies off the screen; a mock selection takes no token, so an
  open live load can replace it, and a settled one whose graph is still out can put its error over it
  (`MockSelectionStaysIff`, `StaleReplyOverMock`, `LateGraphErrorOverMock`).
- A device can be stamped as authorised after its code's expiry time, because the clock is read twice
  (`StampAfterExpiryIff`, `StampAfterExpiryHappens`).
- "This code has already been used" is decided on the row as it was read. When requests overlap, a decision
  read earlier can still rebind or delete an authorised code (`AuthorisedRowCanChangeIff`, failing run
  `CodeIsRebound`); without such overlap it cannot (`AuthorisedRowsStayWithoutOverlap`).
- The failed benchmark probe is accepted only if its first five errors have a well-formed HTTP status or
  exception name (`FailedRunAcceptedIff`, `UnknownStatusRefused`).
- The tamper matrix cannot detect a tamper that writes the value already there (`TamperChecks`,
  `ZeroDigestTamperPasses`).

`dafny verify dfyconfig.toml` checks the project.

## Model

| member | source | states |
|---|---|---|
| LogProbKernel.LogZRefinesLogSumExp | workflo-ai-integration/train/train_qlora.py:192-248 | for every row and tile width, log_z is at least the untiled log-sum-exp, exceeds it by at most the log of the tile count, and equals it exactly when no later tile has an entry above the log-sum-exp of every tile before it |
| LogProbKernel.SingleTileExact | workflo-ai-integration/train/train_qlora.py:206-248 | one tile that covers the vocabulary gives exactly the untiled value |
| LogProbKernel.AscendingTilesOverstate | workflo-ai-integration/train/train_qlora.py:224-248 | two one-column tiles with logits 0 and 1 already give a partition value above the true one |
| LogProbKernel.MergeMass | workflo-ai-integration/train/train_qlora.py:224-245 | one merge adds the tile's exact weight, but re-weights the old sum by the larger of the running maximum and the tile's maximum; the stored sum stays positive and grows by at most one |
| LogProbKernel.RunMass | workflo-ai-integration/train/train_qlora.py:206-245 | from any proper state the remaining tiles are never under-counted, and are counted exactly if and only if none of them overtakes |
| LogProbKernel.FinalMass | workflo-ai-integration/train/train_qlora.py:206-247 | after all tiles the running maximum is at most the true log-sum-exp, the running sum at most the tile count, and the total weight at least the true one, with equality under the same condition |
| LogProbKernel.TileCount | workflo-ai-integration/train/train_qlora.py:206-207 | the number of tiles is the rounded-up quotient of columns by tile width |
| LogProbKernel.ZSumIsRowSum | workflo-ai-integration/train/train_qlora.py:244-254 | the accumulated row sum is the full row sum whatever the tiling |
| LogProbKernel.TopIndexCorrectIff | workflo-ai-integration/train/train_qlora.py:225-231 | the stored index is the row's first maximum exactly when that maximum lies in the first tile or above every earlier tile's log-sum-exp |
| LogProbKernel.TopIndexMisses | workflo-ai-integration/train/train_qlora.py:225-231 | logits 0, 0 and log 2 with tiles of two: the maximum is the third entry, the stored index is not |
| LogProbKernel.SingleTileMoments | workflo-ai-integration/train/train_qlora.py:241-252 | with one covering tile, entropy and log_sum_sq equal the softmax entropy and the log of its squared mass, each from its own definition |
| LogProbKernel.EntropyError | workflo-ai-integration/train/train_qlora.py:241-250 | for every row and tile width, the entropy output is the true entropy plus the error of log_z minus the weighted shortfall of the tile means, an equation over the input alone |
| LogProbKernel.EntropyCorrectIff | workflo-ai-integration/train/train_qlora.py:241-250 | where log_z is exact, the entropy output is the true entropy exactly when the sum over tiles of (exp(peak) - tile mass) * tile mean is zero, the peak being the largest tile log-sum-exp |
| LogProbKernel.SquaresCorrectIff | workflo-ai-integration/train/train_qlora.py:242-252 | for every row and tile width, log_sum_sq is too large, right or too small exactly as the squared-mass gap is positive, zero or negative |
| LogProbKernel.SquaresWhenExact | workflo-ai-integration/train/train_qlora.py:242-252 | where log_z is exact, log_sum_sq is never below the true value, and equal to it exactly when every tile has the same log-sum-exp |
| LogProbKernel.SquaresOffAcrossTiles | workflo-ai-integration/train/train_qlora.py:242-252 | logits 0 and -1 in two tiles: log_sum_sq is too large |
| LogProbKernel.EntropyOffAcrossTiles | workflo-ai-integration/train/train_qlora.py:241-250 | logits 0 and -1 in two tiles: log_z is exact and the entropy is still too large |
| LogProbKernel.OneTile | workflo-ai-integration/train/train_qlora.py:206-207 | every index lies in exactly one tile of a range with a step |
| LogProbKernel.EveryCellVisitedOnce | workflo-ai-integration/train/train_qlora.py:192-207 | every (row, column) cell is visited by exactly one pair of token tile and vocabulary tile |
| LogProbKernel.ArgMax | workflo-ai-integration/train/train_qlora.py:225 | the index of the first maximal entry |
| LogProbKernel.MergeTile | workflo-ai-integration/train/train_qlora.py:225-245 | the vector operations merge the tile into every row's state at once |
| LogProbKernel.Gather | workflo-ai-integration/train/train_qlora.py:220-223 | after a tile, each target logit is the row's entry at the target if the target column has been passed, else 0 |
| LogProbKernel.TokenTile | workflo-ai-integration/train/train_qlora.py:197-245 | the inner loop brings every row of the token tile to its final state, gathers its target logit, and visits the tiles in order |
| LogProbKernel.WriteRows | workflo-ai-integration/train/train_qlora.py:247-256 | the slice assignments store the five outputs of this token tile and change no earlier row |
| LogProbKernel.RowDoneIsCorrect | workflo-ai-integration/train/train_qlora.py:247-256 | a stored row is correct against the untiled row: the log-prob is never overstated, is low by at most log(tiles), and is exact exactly when no later tile overtakes; mean times vocabulary is the row sum; top-1 agrees with the true argmax exactly when the winner surfaces or the target is neither the argmax nor the stored index; entropy and squared mass have the exact conditions of the rows above, for every tile width |
| LogProbKernel.Apply | workflo-ai-integration/train/train_qlora.py:148-258 | the whole kernel: every row of all five outputs is written and correct, in the sense of the row above, against the untiled logits computed from hidden, weight, bias, scale, soft cap and temperature, and the visited tiles are the full grid |
| LogitHead.LogitIsLocal | workflo-ai-integration/train/train_qlora.py:209-218 | a logit reads its own hidden row, its own weight row and its own bias entry, and nothing else of the matrices |
| LogitHead.LogitOfUnit | workflo-ai-integration/train/train_qlora.py:209-218 | without bias and cap, the k-th unit vector as weight row reads off entry k of the hidden row, times the scale over the temperature |
| LogitHead.LogitIsLinear | workflo-ai-integration/train/train_qlora.py:209-218 | without bias and cap, the logit is additive and homogeneous in its weight row; with the unit vectors this fixes it |
| LogitHead.BiasShifts | workflo-ai-integration/train/train_qlora.py:211-213 | a bias shifts the uncapped logit by its own entry times the scale over the temperature |
| LogitHead.CapThenTemperature | workflo-ai-integration/train/train_qlora.py:213-218 | a capped logit is the cap times the tanh of the uncapped one in units of the cap, and the temperature divides after the cap |
| LogitHead.CapBounds | workflo-ai-integration/train/train_qlora.py:214-218 | with tanh within 1, a cap bounds every logit by cap over temperature |
| LogitHead.TemperatureDivides | workflo-ai-integration/train/train_qlora.py:218 | temperature divides every logit, capped or not |
| LogitHead.RowOfTwo | workflo-ai-integration/train/train_qlora.py:209-218 | one hidden entry 1 and weights 0 and 1 give the row 0, 1 |
| LogitHead.LogProbsAreSoftmax | workflo-ai-integration/train/train_qlora.py:247-248 | the untiled log-probabilities sum to 1 as probabilities and differ by the logit differences; a target outside the vocabulary selects a logit of 0 |
| LogitHead.SumAdds | workflo-ai-integration/train/train_qlora.py:244-254 | the row sum behind the mean is additive and counts a single entry as itself |
| LogitHead.TokenTilesOf128 | workflo-ai-integration/train/train_qlora.py:145-193 | the token tiles start at the multiples of 128 |
| DebugLog.FileIsNewestHistory | vite.config.ts:28-70 | after every sequence of writes from an empty file, with any failed trims, the file is a suffix of all lines ever written, each newline-terminated, none torn, reordered or duplicated |
| DebugLog.WriteKeepsNewest | vite.config.ts:53-70 | one write keeps a suffix of the history; if it trims, it is the longest suffix of the whole history that fits the target |
| DebugLog.FileStaysBounded | vite.config.ts:28-70 | after every write whose trim succeeds, whatever failed before, the file is within MAX_LOG_SIZE_BYTES; and nothing is lost before the full history would exceed it |
| DebugLog.KeepIsLongest | vite.config.ts:35-45 | the kept lines are a suffix that fits, and every longer suffix does not |
| DebugLog.TrimBoundedAndStable | vite.config.ts:28-51 | on any content a trim ends within the limit, strictly below the target if it fired, and trimming again changes nothing |
| DebugLog.TrimRendered | vite.config.ts:34-47 | on a file of whole lines trimming leaves whole lines: the empty last piece is kept and costs one byte |
| DebugLog.FormatEntry | vite.config.ts:60-63 | a formatted entry contains no newline, whatever the entry holds |
| DebugLog.NewestLines | vite.config.ts:35-45 | the upward scan collects exactly the longest suffix that fits |
| DebugLog.LogFile.TrimLogFile | vite.config.ts:28-51 | the file becomes its trimmed content, or stays as it is if missing or unreadable |
| DebugLog.LogFile.WriteToLogFile | vite.config.ts:53-70 | the file becomes the old content with the batch appended and trimmed; an empty batch touches nothing |
| DebugLog.TrimLimits | vite.config.ts:28-48 | up to 1048576 bytes a trim leaves the file alone, above it fewer than 629145 bytes remain |
| LogReader.FileReadsBackNewest | vite.config.ts:28-70 | after every sequence of calls with any failed trims, the lines of the file read back as the newest of all entries sent: each time and value, in order, none twice and none missing in between |
| LogReader.ValueIsBack | vite.config.ts:60-63 | reading the JSON text of any value gives the value back, whatever follows |
| LogReader.LineIsBack | vite.config.ts:60-63 | a line reads back as the time and the value of its entry |
| LogReader.HistoryIsSent | vite.config.ts:53-66 | the lines of all calls are the formatted entries of all calls, in order |
| LogReader.TwoEntriesInOrder | vite.config.ts:60-63 | one call with two entries formats them in the order given |
| LogReader.WidthIsUtf8Length | vite.config.ts:40 | the bytes counted for a character are the length of its shortest UTF-8 form |
| LogReader.EscapesAreMinimal | vite.config.ts:62 | no control character reaches a line; seven characters take a two-character escape, other control characters six, all others stand for themselves |
| Text.JoinSplit | vite.config.ts:34-47 | joining the pieces of a split restores every string, and no piece holds the separator |
| Text.ContainsSplits | bench/model-serving/bench_inference.py:248-250 | a text contains a part exactly when it splits around it |
| Text.StripKeepsMiddle | bench/model-serving/bench_inference.py:360-361 | stripping removes white space at the two ends and nothing else |
| Text.SplitJoin | vite.config.ts:34-66 | splitting a join restores the pieces when they are free of the separator |
| HtmlEscape.EscapeIsOnePass | apps/control-plane/app/main.py:210-217 | the five ordered whole-string replacements equal one character-by-character map |
| HtmlEscape.AmpersandMustComeFirst | apps/control-plane/app/main.py:212-213 | replacing the ampersand last would escape the references written before it |
| HtmlEscape.EscapeOutputIsSafe | apps/control-plane/app/main.py:210-217 | the output has no angle bracket or quote, and every ampersand starts one of the five references |
| HtmlEscape.UnescapeRestores | apps/control-plane/app/main.py:210-217 | the reverse replacements, ampersand last, restore every string |
| HtmlEscape.EscapeIsInjective | apps/control-plane/app/main.py:210-217 | two different texts have different escaped forms |
| PlanHandshake.AgentAlwaysSound | scripts/e2e_run.py:401-426 | whatever plan.json holds at each poll: executed seqs strictly increase, at most twelve steps per plan, observations.json answers the last executed plan, and no more plans run than polls |
| PlanHandshake.PollRunsNewPlans | scripts/e2e_run.py:405-426 | a poll runs a whole, newer plan in step order up to the twelfth and answers it, and does nothing on a missing, torn or seen one |
| PlanHandshake.ReturnedStaysPut | scripts/e2e_run.py:425-426 | once a done plan has been answered, nothing later changes |
| PlanHandshake.AgentSide | scripts/e2e_run.py:401-426 | the polling loop with its early return computes the state after 600 polls |
| PlanHandshake.StepKeepsInvariant | scripts/e2e_run.py:401-426 | every step of agent and planner, in any order, keeps the protocol invariant |
| PlanHandshake.RunKeepsInvariant | scripts/e2e_run.py:401-426 | the invariant holds in every state of every run |
| PlanHandshake.StartedPlansFollowWrittenPlans | packages/sandbox-runtime/src/sandbox_runtime/planner.py:408-477 | in every interleaving the started plans are a prefix of the written ones missing at most the newest; if the final plan overwrites one unread, only that one is lost, and it is empty and marked done unless the planner timed out |
| PlanHandshake.AgentReturnedIff | packages/sandbox-runtime/src/sandbox_runtime/planner.py:448-477 | in every run the agent has returned exactly when the plan it executed last was the final one, or was written after the model's done or in the last batch |
| PlanHandshake.FinalPlanEndsAgent | packages/sandbox-runtime/src/sandbox_runtime/planner.py:475-477 | the planner ends by writing an empty plan marked done, and the agent has returned once it answered that plan |
| PlanHandshake.TimeoutOnlyCloses | packages/sandbox-runtime/src/sandbox_runtime/planner.py:467-477 | after a wait was given up the planner writes nothing but the final plan |
| PlanHandshake.EmptyDonePlanIsSkipped | packages/sandbox-runtime/src/sandbox_runtime/planner.py:462-477 | a run without time-out in which the empty done plan is overwritten unread |
| PlanHandshake.RunWithinLimits | scripts/e2e_run.py:404-419 | in every run at most one plan starts per poll, polls are at most 600, and plans are cut at twelve steps |
| PlanHandshake.PickAndAnswerArePoll | scripts/e2e_run.py:405-426 | the two steps of the agent in the interleaved model are one poll of its loop |
| PlanHandshake.PlannerReadsItsOwnPlan | packages/sandbox-runtime/src/sandbox_runtime/planner.py:454-498 | observations the planner accepts are the outcome of exactly the plan it wrote last, and all plans before it were executed |
| LatestRequest.CommitsOnlyIncrease | frontend/app/page.tsx:70-89 | over every interleaving, mock loads included, the tokens whose results reach the screen strictly increase |
| LatestRequest.NewestRequestWins | frontend/app/page.tsx:58-92 | from any live load on, over all live calls and replies: once the newest request settles, asset, graph, selection and error are that request's |
| LatestRequest.LoadingIffNewestRunOpen | frontend/app/page.tsx:94-208 | loading is on exactly while the newest scenario run is unsettled |
| LatestRequest.ScreenChangesByCommit | frontend/app/page.tsx:70-89 | without a new selection, asset and graph change only when the newest live load settles, and then to that load's result |
| LatestRequest.ErrorLineIsNewest | frontend/app/page.tsx:74-88 | without a new selection, the error line stays or becomes a message of the newest live load |
| LatestRequest.SettledPageStays | frontend/app/page.tsx:79-89 | after the newest load has settled, late replies change neither asset, graph nor selection |
| LatestRequest.MockSelectionReplaceableIff | frontend/app/page.tsx:60-89 | asset or graph of a mock selection can be written by a live reply if and only if a live load is open when it is made |
| LatestRequest.MockSelectionStaysIff | frontend/app/page.tsx:60-89 | the whole screen of a mock selection, error line included, can change without a new selection unless the newest live load has settled with its graph reply in, or what remains would write what is shown; an if and only if |
| LatestRequest.LateGraphErrorOverMock | frontend/app/page.tsx:74-77 | a concrete run: the settled load's late graph failure writes the error line over another selection |
| LatestRequest.StaleReplyOverMock | frontend/app/page.tsx:60-82 | a concrete run in which the asset shown is not the selected one |
| LatestRequest.NextKeepsInvariant | frontend/app/page.tsx:58-208 | every call, reply and continuation keeps the state invariant |
| LatestRequest.NewestRunWins | frontend/app/page.tsx:94-206 | from a scenario run on, over every interleaving: once the newest run has returned a result, the panels show it and loading is off |
| LatestRequest.ScenarioCommitsOnlyIncrease | frontend/app/page.tsx:94-206 | over every interleaving the runs whose results reach the panels only get newer |
| LatestRequest.PanelsShowLastCommit | frontend/app/page.tsx:181-200 | the panels show the result of the last run that reached them, or what they showed before |
| LatestRequest.StaleRunIsDiscarded | frontend/app/page.tsx:181-206 | the end of an older run changes nothing that is shown, loading included |
| LatestRequest.LateRunIsDiscarded | frontend/app/page.tsx:94-206 | two overlapping runs of which the older ends last: the newer result stays |
| LatestRequest.RepliesAreRecorded | frontend/app/page.tsx:70-92 | over every run, what the page holds of a load or of a scenario run is what arrived for its token |
| LatestRequest.EmptyMessageFallsBack | frontend/app/page.tsx:74-77 | a graph error without a message shows the fallback text, any other its own |
| LatestRequest.Home.LoadAsset | frontend/app/page.tsx:58-78 | the whole new state of a call up to its await, or to its end with mock data |
| LatestRequest.Home.OnAssetReply | frontend/app/page.tsx:72-73 | an asset reply is recorded for its own call only |
| LatestRequest.Home.OnGraphReply | frontend/app/page.tsx:74-77 | a failed graph of the newest call sets the error line, that of an older one does not |
| LatestRequest.Home.OnSettle | frontend/app/page.tsx:79-89 | the continuation writes the screen only for the newest token; the catch block falls back to sample data |
| LatestRequest.Home.RunScenario | frontend/app/page.tsx:94-98 | a run turns loading on and takes the next token |
| LatestRequest.Home.OnScenarioEnd | frontend/app/page.tsx:181-206 | the newest run writes its result, if it has one, and turns loading off, also after an error; an older one leaves result and loading as they are |
| DeviceApproval.CodesBoundOnceToVerifiedUser | apps/control-plane/app/main.py:149-205 | in every run each device code is approved at most once, and every authorised row carries the user and stamp of an approval whose expiry check read a time no later than expires_at |
| DeviceApproval.AuthorisedRowsStay | apps/control-plane/app/main.py:179-185 | with atomic submissions an authorised row is never changed or deleted afterwards |
| DeviceApproval.ApprovalsComeFromBearers | apps/control-plane/app/main.py:149-190 | every approval on record was given by an allow submission of the user its access token named |
| DeviceApproval.DecisionRule | apps/control-plane/app/main.py:149-205 | a submission changes the table exactly when the user is verified and the code is known, unexpired and unused; allow binds that user, anything else deletes that row alone |
| DeviceApproval.PageRule | apps/control-plane/app/main.py:149-205 | which page is shown: the first of the four refusals that applies, in the handler's order, else the page of the decision |
| DeviceApproval.SecondSubmission | apps/control-plane/app/main.py:157-205 | a decision sent again in time is answered with already used after an approval and with invalid code after a denial, and changes nothing |
| DeviceApproval.StampAfterExpiryIff | apps/control-plane/app/main.py:171-189 | in every state of every run, an authorised row's stamp exceeds expires_at exactly when the submission that approved it checked no later than expires_at and stamped after it |
| DeviceApproval.ApprovalsComeFromPosts | apps/control-plane/app/main.py:171-190 | every approval on record comes from an earlier submission that was authorised for that code |
| DeviceApproval.StampAfterExpiryHappens | apps/control-plane/app/main.py:171-189 | a run in which it does |
| DeviceApproval.RunKeepsInvariant | apps/control-plane/app/main.py:135-205 | the invariant behind these holds in every state of every run |
| DeviceApproval.ControlPlane.DeviceAuthorizationSubmit | apps/control-plane/app/main.py:135-205 | the handler's new table and its result page, and that no other row changes |
| DeviceRaces.AuthorisedRowCanChangeIff | apps/control-plane/app/main.py:157-205 | in any state of overlapping submissions, some continuation rebinds or deletes an authorised row exactly when an open decision about it denies, or writes another user or stamp |
| DeviceRaces.AuthorisedRowsStayWithoutOverlap | apps/control-plane/app/main.py:157-205 | in every run in which no two sessions hold a decision about the same row, an authorised row stays as it is |
| DeviceRaces.RowsCarryLastApproval | apps/control-plane/app/main.py:171-190 | in every run, whatever overlaps, an authorised row carries the user and stamp of the approval committed last for its id, which was checked no later than expires_at |
| DeviceRaces.OpenMeansUnauthorised | apps/control-plane/app/main.py:179-190 | without overlap, a row with an open decision is not yet authorised |
| DeviceRaces.ReadThenCommitIsSubmit | apps/control-plane/app/main.py:157-205 | a commit right after its read is the atomic submission |
| DeviceRaces.CodeIsRebound | apps/control-plane/app/main.py:157-190 | a run in which two users approve one code and the second replaces the first |
| JwksCache.KeysUsedAreRecentlyServed | backend/app/core/auth.py:44-56 | with an advancing clock and downloads interleaved at the await, every key list used was served by that issuer in a download finished less than 300 seconds earlier |
| JwksCache.OtherIssuersDoNotInterfere | backend/app/core/auth.py:44-56 | an issuer's entry is changed by its own completed downloads only |
| JwksCache.DownloadUnlessRecent | backend/app/core/auth.py:44-50 | in every run a check goes on without a download exactly when the issuer's last completed download finished less than 300 seconds before, and then with that download's keys |
| JwksCache.CallsAreConserved | backend/app/core/auth.py:44-56 | in every run each check has used keys, waits for its download, or failed with it |
| JwksCache.CompletedIsUsed | backend/app/core/auth.py:50-56 | a completed download is recorded and used for its own issuer at its own time |
| JwksCache.NextKeepsInvariant | backend/app/core/auth.py:44-56 | every step keeps the cache invariant |
| JwksCache.FindSigningKey | backend/app/core/auth.py:92-99 | the chosen key is the first with the token's kid, and none is chosen exactly when there is no match |
| JwksCache.Cache.BeforeAwait | backend/app/core/auth.py:44-48 | cached keys are returned exactly while they are fresh |
| JwksCache.Cache.AfterAwait | backend/app/core/auth.py:50-56 | the served keys replace this issuer's entry and no other |
| Benchmark.SuccessIsIsolated | bench/model-serving/bench_inference.py:175-288 | a request succeeds exactly with text content, its own marker, no foreign marker and non-negative usage; leakage is never a success; a failure always has an error text |
| Benchmark.TallyConserves | bench/model-serving/bench_inference.py:340-353 | succeeded + failed = requested; latencies and verified canaries match the successes; leakage failures are at most the failures; every failure keeps its error |
| Benchmark.OutcomesClassified | bench/model-serving/bench_inference.py:321-337 | every outcome of a level with non-empty markers satisfies what the tally relies on |
| Benchmark.ErrorByReply | bench/model-serving/bench_inference.py:196-288 | the error text of a failed request, by what the endpoint did; a leak is reported before a missing marker and both before the token counts |
| Benchmark.LeakIffForeignMarker | bench/model-serving/bench_inference.py:321-337 | request i leaks exactly when its reply holds another request's marker, and succeeds exactly with its own, no other and usable counts |
| Benchmark.TallyAdds | bench/model-serving/bench_inference.py:340-353 | the figures of two lists of outcomes add up and their latencies and errors follow each other |
| Benchmark.TallyOfOne | bench/model-serving/bench_inference.py:340-353 | what one outcome adds to a level; with the row above this fixes every figure |
| Benchmark.LevelResult.Add | bench/model-serving/bench_inference.py:340-351 | one outcome extends the record from the tally of a list to the tally of the list with it appended |
| Benchmark.RunLevel | bench/model-serving/bench_inference.py:291-353 | the level's record is the tally of its classified replies, with the conservation laws; no requests give an empty record |
| Benchmark.ParseLevels | bench/model-serving/bench_inference.py:356-370 | on the raw text: succeeds exactly when every non-blank chunk is a number of at least 1 and one exists; the result holds each of them once, increasing |
| Benchmark.LevelFaults | bench/model-serving/bench_inference.py:356-370 | a chunk that is no number, a number below 1, or no number at all refuses the levels, and nothing else does |
| Benchmark.ChunkReads | bench/model-serving/bench_inference.py:359-366 | white space around a chunk does not matter and a chunk of white space is skipped |
| Benchmark.IntTextReadsBack | bench/model-serving/bench_inference.py:188-198 | a status code is written in decimal and reads back, with a sign exactly when negative |
| Benchmark.RankIsNearestRankUnlessOdd | bench/model-serving/bench_inference.py:102 | the rank lies in 1..n and is the clamped ceiling of pct*n/100 except exactly when that is an odd integer from 1 to below n; then it is one higher |
| Benchmark.MedianOfTwo | bench/model-serving/bench_inference.py:102 | the 50th percentile of two samples has rank 2 where nearest rank is 1 |
| Benchmark.RankMonotone | bench/model-serving/bench_inference.py:102 | a higher percentage never gives a lower rank |
| Benchmark.RankCoversShare | bench/model-serving/bench_inference.py:102 | the rank covers at least the asked-for share of the samples |
| Benchmark.PercentilesAreOrderedSamples | bench/model-serving/bench_inference.py:97-103 | each percentile is one of the samples and p <= q gives ordered percentiles |
| Benchmark.PercentileCounts | bench/model-serving/bench_inference.py:97-103 | the percentile is the order statistic of its rank: counting samples, at least rank of them are within it and fewer than rank under it, so at least the asked-for share lies within it |
| Benchmark.LateOfTwo | bench/model-serving/bench_inference.py:97-103 | of samples of 100 and 900 ms the 95th percentile is 900 ms |
| Benchmark.PercentileWithin | bench/model-serving/bench_inference.py:97-140 | every percentile lies between the smallest and the largest sample |
| Rounding.OrderStatistic | bench/model-serving/bench_inference.py:101-103 | the k-th value of the sorted copy, by counting the samples in any order |
| Benchmark.LevelDocSays | bench/model-serving/bench_inference.py:127-147 | a reported level's price times its requests is the rate for its wall time, up to the rounding of the price; tokens and wall time are the level's |
| Benchmark.NothingMeasured | bench/model-serving/bench_inference.py:97-125 | no sample gives a percentile of 0, no wall time or success a price of 0 |
| Benchmark.ReportDocSays | bench/model-serving/bench_inference.py:442-504 | the head of a report: mode, endpoint digest, model, hourly rate and as many levels as were run |
| Benchmark.ExitCodeIff | bench/model-serving/bench_inference.py:518-527 | a run exits with 0 exactly when no request failed and some request succeeded |
| Rounding.SortIsSorted | bench/model-serving/bench_inference.py:101 | the sorted copy holds the same values in order |
| Rounding.RoundAtClose | bench/model-serving/bench_inference.py:133-146 | half-to-even rounding at a decimal scale moves a value by at most half a unit |
| ReleaseReports.Summarize | scripts/release/summarize_benchmark_cost.py:26-69 | a cost report is made exactly when the rate and request count are valid and every report supports it; it then states the totals over all reports and levels |
| ReleaseReports.AddLevels | scripts/release/summarize_benchmark_cost.py:43-48 | the inner loop adds the levels' seconds, completed and requested counts, and fails on a malformed level or a failed request |
| ReleaseReports.TotalIff | scripts/release/summarize_benchmark_cost.py:35-48 | the reports can be added up exactly when every one was made at the given rate and has levels, all of them objects with their four numbers and no failed request |
| ReleaseReports.TotalsAdd | scripts/release/summarize_benchmark_cost.py:32-48 | the sums over reports are additive and start from nothing |
| ReleaseReports.NumbersAreRead | scripts/release/summarize_benchmark_cost.py:37-47 | numbers are read as themselves or truncated towards zero, booleans as 0 and 1, text by the language, anything else not at all |
| ReleaseReports.SupportFaults | scripts/release/summarize_benchmark_cost.py:49-50 | the sums support a report unless nothing completed, not everything completed, or no time passed |
| ReleaseReports.CostIsConserved | bench/model-serving/bench_inference.py:116-125 | over measured levels the sum of cost per request times successes is rate times total seconds over 3600 |
| ReleaseReports.EstimateBetweenLevels | scripts/release/summarize_benchmark_cost.py:43-53 | the estimate per request, made from the rounded wall times, lies between the cheapest and the dearest level, give or take rate * levels * 0.00005 / 3600 per request |
| ReleaseReports.CostReportSays | scripts/release/summarize_benchmark_cost.py:52-67 | of measured levels, the reported total is what the levels spent, up to the rounding of the wall times and of the figure; counts, repeats and rate are as given |
| ReleaseReports.CostReportPrices | scripts/release/summarize_benchmark_cost.py:52-67 | completed requests at the reported price cost the total, and a representative run costs its requests, each within half a unit of the eighth decimal |
| ReleaseReports.RoundingMovesTotalLittle | scripts/release/summarize_benchmark_cost.py:43-52 | four-decimal wall times move the estimated total by at most rate * levels * 0.00005 / 3600 |
| ReleaseChain.ErrorClassIff | scripts/release/assert_safe_failure.py:11-14 | a failed request's error text is classified exactly when its HTTP code is 100..599 or its exception name is an ASCII identifier starting with a letter |
| ReleaseChain.HttpErrorClass | scripts/release/assert_safe_failure.py:11-14 | an http_status error is classified exactly for codes 100..599 |
| ReleaseChain.TransportErrorClass | scripts/release/assert_safe_failure.py:11-14 | a transport error is classified exactly for an identifier starting with a letter |
| ReleaseChain.SafeFailurePassesGate | scripts/release/assert_p4_evidence.py:177-186 | whatever the safe-failure reducer accepts, the gate's failure section accepts |
| ReleaseChain.FailedRunAcceptedIff | scripts/release/assert_safe_failure.py:26-60 | an all-failed single-level run is accepted exactly when its first five replies are well coded, and its evidence then passes the gate |
| ReleaseChain.UnknownStatusRefused | scripts/release/assert_safe_failure.py:11-43 | a run whose one request was answered with status 600 failed safely and is refused |
| ReleaseChain.ProbeFaults | scripts/release/assert_safe_failure.py:28-43 | each fault alone refuses the probe: exit code 0, an endpoint that is no digest, not exactly one level, no error or an unclassified one, a success, or no failure |
| ReleaseChain.EvidenceSays | scripts/release/assert_safe_failure.py:44-60 | the evidence repeats the probe's endpoint, model and counts and lists its error classes, and holds nothing else of the report |
| ReleaseChain.SortedSetAscending | scripts/release/assert_safe_failure.py:54 | the error classes are listed in dictionary order, each once |
| ReleaseChain.TextOrder | scripts/release/assert_safe_failure.py:54 | dictionary order: a prefix, or smaller at the first difference |
| ReleaseChain.StatusSpells | scripts/release/assert_safe_failure.py:11-14 | three digits are a status exactly when they spell a number from 100 to 599 |
| ReleaseChain.InvalidErrorClass | scripts/release/assert_safe_failure.py:11-14 | an invalid_ error is classified exactly for a word of lower-case letters, digits and underscores |
| ReleaseChain.TallyWithoutFailuresIsClean | bench/model-serving/bench_inference.py:340-353 | a tally without failures has every request succeeded and verified, and no leakage |
| ReleaseChain.CleanRepeatPasses | scripts/release/assert_p4_evidence.py:225-239 | a clean report at concurrency 1, 2 and 4 passes every benchmark check of the gate |
| ReleaseChain.CostDocPassesGate | scripts/release/assert_p4_evidence.py:163-176 | the cost report of three repeats passes the gate's cost section |
| ReleaseChain.CleanRunPassesGate | scripts/release/assert_p4_evidence.py:163-245 | three clean repeats pass the level checks; they support a cost report exactly if their rounded wall times do not sum to nothing and some request was made, and that report passes too |
| Producers.CleanIffGood | bench/model-serving/bench_inference.py:291-353 | the levels of a repeat are clean exactly when it ran at concurrency 1, 2 and 4 and every request succeeded |
| Producers.BenchmarkPassesIff | scripts/release/assert_p4_evidence.py:225-239 | the gate accepts a benchmark report exactly when its levels are clean at 1, 2 and 4 |
| Producers.CostPassesIff | scripts/release/assert_p4_evidence.py:163-176 | for three clean repeats and any rate and count, the cost file passes exactly when the rate is not negative, the count is at least 1, some request was made and the rounded times do not sum to nothing |
| Producers.ProbePassesIff | scripts/release/assert_safe_failure.py:17-66 | for every probe, whatever it was answered, the failure file passes the gate exactly when at least one request was made, all failed and the first five replies are well coded |
| ProducedRun.GatePassesIff | scripts/release/assert_p4_evidence.py:109-353 | on any evidence directory whose three reports, cost file and failure file are those of some measurements, the producer's gate passes exactly when the other parties' files pass and the measurements are good |
| ProducedRun.RepeatsPassIff | scripts/release/assert_p4_evidence.py:225-244 | on such a directory the benchmark section passes exactly for good repeats with their renderings |
| ProducedRun.CostAndProbePassIff | scripts/release/assert_p4_evidence.py:163-186 | given good repeats, cost and failure section pass exactly for good measurements |
| ProducedRun.DecideProducedRun | scripts/release/assert_p4_evidence.py:356-411 | on such a directory the release decision is positive exactly for good measurements, passing other files, a valid bundle unlike the tampers' constants, and credentials, signatures and rescan in order |
| GateDemands.GateIffTable | scripts/release/assert_p4_evidence.py:48-353 | the gate passes exactly when every member in a table of literal file names, places and demanded values is as demanded, and the documents are tied to each other and to the other files |
| GateDemands.TamperRefused | scripts/release/assert_p4_evidence.py:48-353 | replace the member at any place of the table, in any document of a directory, by any value that does not meet the demand: the gate does not pass |
| GateDemands.GateOnTampered | scripts/release/assert_p4_evidence.py:48-353 | the same on disk: the tampered document written over the old one, the gate on the tree that then lies there returns no file list |
| GateDemands.RedactionIff | scripts/release/assert_p4_evidence.py:187-193 | the redaction section demands exactly the five members of its sheet |
| GateDemands.FailureIff | scripts/release/assert_p4_evidence.py:177-186 | the failure section demands exactly the nine members of its sheet |
| GateDemands.TeardownIff | scripts/release/assert_p4_evidence.py:194-202 | the teardown section demands passed and the ten members of its sheet |
| GateDemands.GatewayIff | scripts/release/assert_p4_evidence.py:204-222 | the gateway section demands exactly the members of its sheet, nested ones included |
| GateDemands.ReceiptIff | scripts/release/assert_p4_evidence.py:246-268 | the receipt section demands exactly the members of the signed payload in its sheet |
| GateDemands.RepeatIff | scripts/release/assert_p4_evidence.py:225-244 | a repeat passes exactly with three levels at 1, 2 and 4, no failure or leak, every request succeeded and verified, an endpoint digest and a rendering |
| GateDemands.CostIff | scripts/release/assert_p4_evidence.py:163-176 | the cost section demands the four members of its sheet, three readable figures that are not negative, and as many requests completed as requested |
| GateDemands.MetadataIff | scripts/release/assert_p4_evidence.py:133-162 | the metadata section demands the seven files, the run id, and that commit, image and manifest digest agree across texts and documents |
| GateDemands.RollbackIff | scripts/release/assert_p4_evidence.py:330-345 | the rollback section demands its flags and an earlier pinned image and commit that the rollback binding names too |
| GateDemands.CrashIffReached | scripts/release/assert_p4_evidence.py:109-260 | the gate ends in an uncaught error exactly when all it reads before holds and then the cost figures, a repeat or the receipt crash; a crashing document behind a failed demand is never reached |
| GateDemands.CrashingDocuments | scripts/release/assert_p4_evidence.py:163-170 | which benchmark and cost documents end the gate in an uncaught error once reached |
| GateDemands.CrashingReceipts | scripts/release/assert_p4_evidence.py:246-259 | which receipts do: a wrapper, or a part that is reached, that is not an object |
| GateDemands.VerificationIff | scripts/release/assert_p4_evidence.py:311-322 | the final phase demands exactly the six members of the verifier's report |
| EvidenceGate.Common | scripts/release/assert_p4_evidence.py:48-88 | succeeds exactly when all common documents load and pass, and lists the six files |
| EvidenceGate.RequireFiles | scripts/release/assert_p4_evidence.py:133-145 | succeeds exactly when all names are non-empty files, and appends them in order |
| EvidenceGate.CheckOutcomes | scripts/release/assert_p4_evidence.py:117-208 | succeeds exactly when identity, environment, cost, failure, redaction and teardown documents pass; crashes exactly when the cost section is reached with an integer too large for a float before any other fault of a figure |
| EvidenceGate.RequireBenchmarks | scripts/release/assert_p4_evidence.py:225-244 | succeeds exactly when all three repeats pass with their renderings, crashes exactly on a malformed level of a repeat before which all pass, and lists the pairs |
| EvidenceGate.AddEvidenceFiles | scripts/release/assert_p4_evidence.py:278-283 | every file below the evidence directory is listed, and only such files are added |
| EvidenceGate.CheckRollback | scripts/release/assert_p4_evidence.py:284-353 | succeeds exactly when the rollback and, in the final phase, the independent documents pass |
| EvidenceGate.Gate5 | scripts/release/assert_p4_evidence.py:109-353 | succeeds exactly when every section passes, ends in an uncaught error exactly on a too large cost figure, a malformed benchmark or a malformed receipt that is reached; its file list exists on disk, never leaves the root and covers all files the verifier requires |
| EvidenceGate.FileListCovers | scripts/release/verify_receipt_bundle.py:142-151 | the producer's file list always contains the verifier's required set |
| EvidenceIndex.IndexRoundTrip | scripts/release/assert_p4_evidence.py:381-395 | on every link-free tree, the index built over the gate's files and all others is accepted by the verifier on that tree |
| EvidenceIndex.AcceptedTreeIsUnchanged | scripts/release/verify_receipt_bundle.py:135-161 | a tree accepted with that index has, for every indexed file, a regular file inside the root with the same bytes, or a digest collision |
| EvidenceIndex.VerifyProducerIndex | scripts/release/verify_receipt_bundle.py:135-161 | the loop accepts exactly the trees on which index, count, required set and every entry hold |
| EvidenceIndex.RefusedIffFaulty | scripts/release/verify_receipt_bundle.py:135-161 | a tree is refused exactly when its index is missing, did not pass, belongs to another commit, miscounts its files, leaves out one of thirteen required names, or names a file that is a link, lies outside, is missing or has another digest |
| EvidenceIndex.IndexSays | scripts/release/assert_p4_evidence.py:381-406 | the head of the two index documents: verdict, gate, commit and, of a passed one, the count |
| EvidenceIndex.EntriesCount | scripts/release/assert_p4_evidence.py:391-394 | the index has as many entries as indexed files, so the count the verifier compares is right |
| EvidenceIndex.AssertEvidence | scripts/release/assert_p4_evidence.py:366-410 | passes exactly when commit and gate pass, leaving an index of all files that the verifier accepts; fails leaving one it rejects; crashes leaving everything as it was |
| FileTree.PartsOfPosix | scripts/release/verify_receipt_bundle.py:156-157 | writing a clean relative path as text and joining it to the root again leads to the same location |
| FileTree.ResolveStep | workflo-ai-integration/scripts/verify_artifact_manifest.py:36-40 | one more component of a path: .. steps up from the resolved location, a link leads to its target, any other name is appended |
| FileTree.KeptAdds | workflo-ai-integration/scripts/verify_artifact_manifest.py:36-40 | path texts: the components of two texts follow each other |
| FileTree.KeptOfOne | workflo-ai-integration/scripts/verify_artifact_manifest.py:36-40 | an empty or . component vanishes, any other is kept |
| FileTree.BelowIs | workflo-ai-integration/scripts/verify_artifact_manifest.py:36-39 | an absolute text replaces the root, a relative one goes below it |
| Json.PinnedIff | scripts/release/assert_p4_evidence.py:329-330 | a pinned image is a name without line breaks, the separator and 64 hexadecimal digits |
| Json.TruthValues | scripts/release/assert_p4_evidence.py:185-191 | null, false, zero and everything empty are false, all else is true |
| Json.EqualityOfNumbers | scripts/release/assert_p4_evidence.py:169-175 | equality goes by value among numbers and booleans and by form otherwise |
| Json.MembersAreRead | scripts/release/assert_p4_evidence.py:169-175 | a member that is there is read, an absent one is the default |
| Text.WhiteSpace | bench/model-serving/bench_inference.py:360-361 | what stripping removes, character by character |
| Json.TooLargeIff | scripts/release/assert_p4_evidence.py:163-168 | an integer is too large for a float from 2^1024 less half a unit of its last place on, either sign |
| FileTree.PlainResolvesToItself | scripts/release/verify_receipt_bundle.py:157 | without links and "..", a path resolves to itself |
| ReceiptBundle.ValidBindingsAgree | scripts/release/verify_receipt_bundle.py:52-85 | two non-empty bindings that validate against the same bundle and commit agree on image, commit, base image, model and all four artifact digests |
| IdentityTampers.EveryIdentityIsCompared | scripts/release/verify_receipt_bundle.py:67-125 | replace the identity at any place of an accepted bundle (manifest, binding, both runs, gateway, receipt; 21 places) by any value: accepted if the value equals the recorded one, rejected otherwise, never a crash |
| IdentityTampers.StoredIdentityIsCompared | scripts/release/verify_receipt_bundle.py:45-132 | the same for bundles on disk, through the loading of all documents |
| ReleaseBundle.AcceptedIffOneRelease | scripts/release/verify_receipt_bundle.py:67-132 | a bundle is accepted exactly when there is one release that manifest, digest file, binding, both runs, gateway and receipt all state; documents may hold further members |
| ReleaseBundle.StatedReleaseIsUnique | scripts/release/verify_receipt_bundle.py:67-85 | that release is fixed by the bundle, up to the way a number is written |
| ReleaseBundle.ReleaseBundleAccepted | scripts/release/verify_receipt_bundle.py:45-132 | stored evidence whose documents state one release and say that they passed is valid, whatever further members they hold |
| ReceiptBundle.ImageTamperRejectedIff | scripts/release/verify_receipt_bundle.py:177-184 | the image tamper is rejected exactly when the release's image is not the tamper's constant |
| ReceiptBundle.DigestTamperRejectedIff | scripts/release/verify_receipt_bundle.py:186-202 | a digest tamper of any artifact is rejected exactly when that digest is not already all zeros |
| ReceiptBundle.TeardownTamperRejected | scripts/release/verify_receipt_bundle.py:204-208 | the teardown tamper of an accepted bundle is always rejected |
| ReceiptBundle.TamperChecks | scripts/release/verify_receipt_bundle.py:172-222 | on a valid bundle each check of the matrix passes exactly when the release differs from that tamper's constant, the last one exactly when the signature verifier rejects |
| VerifierReport.VerifyBundle | scripts/release/verify_receipt_bundle.py:225-303 | the verifier's run: its report says passed exactly when every stage asked for succeeds, and satisfies the final gate exactly when acceptance and tamper checks were asked for too |
| VerifierReport.SucceedsIffFaultless | scripts/release/verify_receipt_bundle.py:225-303 | the run succeeds exactly without inherited credentials, with a valid receipt and its four files, and of an acceptance run with a commit, a faultless index, a valid bundle and a tamper matrix that can reject |
| VerifierReport.ReportSays | scripts/release/verify_receipt_bundle.py:262-282 | the success report holds the receipt's counts, the digests of the four signed files and the verdict of each tamper |
| VerifierReport.ReportVerdict | scripts/release/verify_receipt_bundle.py:262-290 | of a success report the final gate accepts exactly those with the acceptance half verified and all four tampers rejected, and no failure report |
| FinalGate.SameGate | scripts/release/assert_p4_evidence.py:109-353 | the producer's gate depends on nothing but its own files |
| FinalGate.FinalGateIff | scripts/release/assert_p4_evidence.py:285-329 | on the same files with report and repeated scan beside them, the final gate passes exactly when the producer's does and the two documents pass |
| FinalGate.ReleaseRun | scripts/release/assert_p4_evidence.py:356-411 | producer, verifier and final gate in sequence accept exactly when the evidence passes for both expected models, the acceptance documents are valid, no identity equals a tamper's constant, and credentials, signatures and rescan are in order |
| HonestRun.GeneratedManifestStates | workflo-ai-integration/train/make_manifest.py:75-97 | the manifest the generator makes states the release of its serving directory to the bundle verifier |
| HonestRun.GeneratedRunIsWellFormed | workflo-ai-integration/train/make_manifest.py:75-97 | so every generated manifest can start a run |
| HonestRun.DocumentsFitBoth | scripts/release/assert_p4_evidence.py:48-268 | the two checks are compatible: for every run the smallest documents that state its release to the bundle verifier also pass the producer gate's checks of them |
| HonestTree.MeasurementsHold | scripts/release/assert_p4_evidence.py:163-245 | on the directory of a run the gate loads the reports, cost file and failure file made from the run's measurements |
| HonestTree.OthersHold | scripts/release/assert_p4_evidence.py:48-353 | the stand-ins beside them pass everything the gate demands of the other parties |
| HonestTree.AcceptanceHolds | scripts/release/verify_receipt_bundle.py:45-132 | whatever was measured, that directory is valid for the independent verifier |
| HonestTree.DecideRun | scripts/release/assert_p4_evidence.py:356-411 | on it the release decision is positive exactly when the measurements are good, no identity is a tamper's constant, and the facts from outside the files are in order |
| HonestTree.ZeroDigestTamperPasses | scripts/release/verify_receipt_bundle.py:186-193 | a valid bundle whose base digest is all zeros: the base tamper changes nothing and is accepted |
| ArtifactManifest.GeneratedManifestAccepted | workflo-ai-integration/train/make_manifest.py:58-101 | for every link-free serving directory with four artifacts and accepted arguments, the generated manifest, written to its default place and read back, passes the verifier on the directory that now holds it |
| ArtifactManifest.SameManifestSameArtifacts | workflo-ai-integration/scripts/verify_artifact_manifest.py:27-45 | one manifest accepted on two serving trees: each entry has the same bytes in both, or a digest collision |
| ArtifactManifest.AcceptedServingIsUnchanged | workflo-ai-integration/scripts/verify_artifact_manifest.py:27-45 | any tree accepted with a generated manifest has, below its root, the artifact bytes the generator digested, or a collision |
| ArtifactManifest.RelativePathStaysBelow | workflo-ai-integration/scripts/verify_artifact_manifest.py:36-40 | a relative path without ".." resolves to a location below the root when no link is followed |
| ArtifactManifest.UncheckedPathsCanEscape | workflo-ai-integration/scripts/verify_artifact_manifest.py:36-40 | ".." or a link alone can leave the root, so both checks are needed |
| ArtifactManifest.VerifyAdapters | workflo-ai-integration/scripts/verify_artifact_manifest.py:97-102 | the loop accepts exactly when all three entries do, and collects their locations |
| ArtifactManifest.Verify | workflo-ai-integration/scripts/verify_artifact_manifest.py:87-104 | accepts exactly a well-shaped manifest whose four entries hold and lead to four different files |
| ArtifactManifest.RefusedIffFaulty | workflo-ai-integration/scripts/verify_artifact_manifest.py:87-104 | a manifest is refused exactly for a wrong version, an unpinned image, no model or a placeholder id, other adapters than the three, a faulty entry, or two entries for one file |
| ArtifactManifest.EntryRefusedIff | workflo-ai-integration/scripts/verify_artifact_manifest.py:27-45 | an entry is refused exactly when its source is missing or a placeholder, its digest malformed or wrong, or its path absolute, stepping up, leading outside or to no file |
| ArtifactManifest.VerifyStored | workflo-ai-integration/scripts/verify_artifact_manifest.py:86-104 | the verifier on a directory accepts exactly when its manifest file reads as an object that is accepted |
| ArtifactManifest.MakeAdapters | workflo-ai-integration/train/make_manifest.py:75-85 | succeeds exactly when all three adapters are files, with one entry each |
| ArtifactManifest.MakeManifest | workflo-ai-integration/train/make_manifest.py:58-97 | refuses exactly on bad arguments or a missing artifact, and else records the real digests |
| ArtifactManifest.ArgumentsRefusedIff | workflo-ai-integration/train/make_manifest.py:58-67 | the arguments are refused exactly for an unpinned image, or a model id or source that is blank or holds a placeholder |
| ArtifactManifest.ManifestSays | workflo-ai-integration/train/make_manifest.py:75-97 | the generated manifest, member by member: version, image, id, sources, the paths of the four artifacts and their digests |
| ArtifactManifest.MakeAndVerify | workflo-ai-integration/train/make_manifest.py:58-108 | generator then verifier, through the file: accepted exactly when the generator did not refuse; a refusal writes nothing |
| FunctionalChecks.CheckReporting | workflo-ai-integration/train/functional_checks.py:378-449 | ok exactly when the input is a run and the narrative is truthful about it; the reasons are exactly those that apply; ok exactly when there are none |
| FunctionalChecks.TruthfulNamesFailingTests | workflo-ai-integration/train/functional_checks.py:386-434 | a truthful narrative affects exactly the FAILED, ERROR and TIMEOUT tests, and ranks only root causes of its findings |
| FunctionalChecks.NoReasonIffTruthful | workflo-ai-integration/train/functional_checks.py:393-447 | no reason applies exactly when the declarative specification holds |
| FunctionalChecks.FindingOnGreenRun | workflo-ai-integration/train/functional_checks.py:409-426 | on a green run a finding that names a test, is no info note, or shares no word with the notes makes the narrative untruthful and is reported |
| FunctionalChecks.SummaryOfRedRun | workflo-ai-integration/train/functional_checks.py:436-447 | on a red run the summary is reported exactly when it holds neither a failing test's name, nor the number of failures, nor the word fail |
| FunctionalChecks.FailingByName | workflo-ai-integration/train/functional_checks.py:386-392 | a test counts as failing exactly with the outcome FAILED, ERROR or TIMEOUT |
| FunctionalChecks.CoverFindings | workflo-ai-integration/train/functional_checks.py:394-399 | the nested loop covers the union of affected tests and reports exactly the non-failing ones |
| FunctionalChecks.GroundFindings | workflo-ai-integration/train/functional_checks.py:409-426 | on a green run exactly the ungrounded findings are reported |
| FunctionalChecks.CheckPriorities | workflo-ai-integration/train/functional_checks.py:431-434 | exactly the entries that are no finding's root cause are reported |
| FunctionalChecks.OtherChecksConsistent | workflo-ai-integration/train/functional_checks.py:183-190 | the other two checks also end ok exactly with no reasons |
| EvalFunnel.Evaluate | workflo-ai-integration/train/eval_adapter.py:142-210 | the counters are the numbers of generations that reach each gate, nested; the verdict is that all pass everything; failures lists, generation by generation, the gate that stopped it or its check's reasons, and is empty exactly then |
| EvalFunnel.SafetyGateReads | workflo-ai-integration/train/eval_adapter.py:161-190 | test generation needs its compile check, reasoning both expression checks, reporting none; a verdict of another task changes nothing |
| EvalFunnel.OneFailureDecides | workflo-ai-integration/train/eval_adapter.py:142-210 | one generation that stops before the last gate keeps the last counter below the number of generations |
| EvalFunnel.MatchSplits | workflo-ai-integration/train/eval_adapter.py:113-119 | an occurrence of the template splits the sequence around it |
| EvalFunnel.NextCounts | workflo-ai-integration/train/eval_adapter.py:161-190 | one generation moves the counters from what the earlier ones reach to what all reach |
| EvalFunnel.SilentFailureWouldHide | workflo-ai-integration/train/eval_adapter.py:186-190 | if a check could fail without a reason, failures could be empty although a gate is not passed |
| EvalFunnel.CompletionBoundary | workflo-ai-integration/train/eval_adapter.py:113-119 | the boundary is the end of the last occurrence of the template, and an error exactly when there is none |

## Left out

- Floating point, tensors, autograd and devices: numbers are exact reals, vectors are sequences.
- LogProbKernel.Apply: an empty vocabulary, a tile width of 0 and a temperature or soft cap of 0 are excluded, where the source raises an error or returns NaN; the optional outputs are always requested.
- LogReader.ReadValue: the source only writes these files; the reader states what a line preserves. The text of a JSON number is any run of digits, signs, points and exponent letters.
- Appends that fail halfway, and lone surrogates in log entries: a failing trim is modelled as one that leaves the file alone; each log file is on its own, so the three files do not interact.
- PlanHandshake: the model behind the planner, its batch and call budgets and its time-outs are free choices of the run; each step's outcome is a function of the step and its position; plan files that are valid JSON but not objects, or unreadable, end the agent thread in the source and are left out, as is the tool_calls counter in the answer.
- LatestRequest.Home.RunScenario: the contents of the five result panels are one value; React's rendering and batching, and `runFutureSearch`, which has no tokens.
- DeviceApproval.ControlPlane.DeviceAuthorizationSubmit: one submission is atomic; `DeviceRaces` splits it into its read and its commit, and leaves out the page shown when an update finds no row. Other handlers only issue codes, so the deletion of an authorised code at token exchange is outside the model.
- JWT decoding, signature and audience checks, and the single configured issuer, which is generalised to any.
- Benchmark.RunLevel: sockets, headers, timing and the warm-up; replies arrive as one of the cases the classification tells apart, and marker texts are given.
- Benchmark.ParseLevels: what `int()` accepts in a stripped chunk is a function the language supplies.
- Report members that no later stage reads: mean latency, throughput, economics and the Markdown rendering.
- ReleaseReports.Summarize: an uncaught overflow on a number too large for a float counts as a refusal; in both cases no cost report is made.
- ProducedRun.DecideProducedRun: the class name that a refused cost or failure file records is any string; the measured reports list latencies and errors as the benchmark does, and not the members no later stage reads.
- HonestTree.DecideRun: gateway, receipt, binding, worker, rollback and the remaining documents come from parties outside the model; the directory holds the smallest documents of theirs that the checks accept, so it shows that all demands can be met at once and not what those parties write.
- Gate 4: a smaller list of the same kind of checks as gate 5.
- EvidenceGate.Gate5: speaks of trees without symbolic links, as the evidence directory of a run is; Unicode digits count as no digits, and an integer of 64 digits as no digest.
- EvidenceIndex.AssertEvidence: the index lies at producer-evidence-index.json in the evidence root, a failed index lacks its failure class, and the phase is the producer's; the final phase is `FinalGate.ReleaseRun`, which does not write the final index.
- Receipt signatures, the transparency log and canonical payloads: the signature verifier's verdicts on the receipt and on the tampered one are inputs. An error while reading a text file counts as a rejection.
- VerifierReport.VerifyBundle: the receipt, key and evidence arguments are the files of the evidence root, as in the workflow; a failure report lacks its failure class.
- ArtifactManifest.Verify: the check of the runtime environment and the written report are left out; the text form of a path that is no string is a function the language supplies.
- ArtifactManifest.MakeAndVerify: `--out` elsewhere changes the root and is left out.
- FunctionalChecks.OtherChecksConsistent: speaks of how the test-generation and reasoning checks conclude; their syntax-tree walks and the pytest subprocess are not modelled.
- FunctionalChecks.CheckReporting: lower-casing, word extraction and decimal texts are functions of the language; the run and the narrative have the types their schemas give them; reasons are compared by content, before they are shortened for display.
- EvalFunnel.Evaluate: generation, schema validation and the safety gates are inputs; the teacher-forced token accuracy needs the model's logits.
