# Verified model of the game agent's evaluation, control and bridge protocols

A Dafny 4.11 project that models the parts of the agent where correctness is not visible from
one function body, and proves what they promise for every input, every run and every adversarial
environment. Foreign answers (focus, clocks, capture, senders, language model, skills, verifiers)
are arbitrary functions of everything that happened before they are asked.

| file | what it models |
|---|---|
| `AugmentingPaths`, `PointMatching`, `SpatialDataset`, `SpatialMetrics` | point matching by augmenting paths and the metrics built on it |
| `ScreenFrames`, `MarkerComponents` | the flood fill of marker pixels and the predictions made from it |
| `Corpus`, `AnnotationReview`, `AnnotationSession`, `DisplayTransform` | the canonical corpus payload, the review and freeze workflow, the editing session and its pixel transform |
| `IntegerTokens`, `PpmFormat`, `PpmLanguage` | integer tokens, the PPM printer and its two readers, and the payloads each reader accepts |
| `SmokeRunner` | the controlled live smoke run and the report model that judges its counters |
| `Verdicts`, `Tasks`, `Scheduler` | task life cycles |
| `Observations`, `InputExecutor`, `SkillRunner` | guarded input and one skill run |
| `Planning`, `ReplanLoop` | planning context, grounding, task contracts, the hierarchical step and the replan loop |
| `JsonText`, `JsonReader`, `JsonlFeed`, `BridgeCycle` | relayed records and how a line is read, the incremental feed reader, the observation cycle |
| `SceneWalk` | the scene-graph search of the JavaScript bridge |
| `Prelude`, `Ordering` | shared results, arithmetic and sorting facts |

What the proofs showed about the code:

- The capture reader strips one separator after the header, two bytes when it is a carriage return
  followed by a line feed. A raster whose first byte is a line feed is therefore misread after a
  lone carriage return, and only then (`PpmFormat.SeparatorExactly`; the smallest such payload is in
  `PpmFormat.ReturnThenLineFeedMisread`).
- The fixture reader and the capture reader disagree on payloads the first accepts: a tab between
  the maximum value and its line feed is stripped by one and taken for the separator by the other
  (`PpmFormat.TabTellsReadersApart`). They agree exactly when nothing follows the digits of that
  header part, or one carriage return does and a line feed ends the part
  (`PpmFormat.FixtureWithinCapture`).
- An annotated point is drawn at its pixel divided by the display factor, without the display
  offset that reading a click subtracts. A click is drawn back where it was made exactly when that
  offset is zero (`DisplayTransform.ClickRoundTrip`), and with any other offset some pixel is drawn
  where no click is read (`DisplayTransform.OffsetDrawsOutside`).
- A dry run whose action frequency exceeds its effective frame limit always ends in a report its own
  model refuses, whatever the adapters answer; with any other frequency it is accepted when no
  adapter objects (`SmokeRunner.Run`). Configurations of the first kind pass every check before the
  loop (`SmokeRunner.RareDryRunStarts`).
- A grounding attempt raises instead of reporting a failure exactly when the observation carries an
  empty evidence id, or when the one visible object it would choose has an empty visual hash
  (`Planning.GroundingRefusedExactly`; `Planning.EmptyIdRefused` and `Planning.EmptyHashRefused` are
  two such observations).
- Through the submitter a grounding request is never stale for its observation (`Planning.NeverStale`).
- The unstarted-task and missing-authority checks of the replan loop are purely defensive: no run
  reaches their error branches (`ReplanLoop.RunBounded`).

## Model

| member | source | states |
|---|---|---|
| AugmentingPaths.Matcher.AssignPrediction | src/fh_agent/evals/spatial_perception_metrics.py:190-198 | a successful search covers exactly one more prediction, keeps every other one covered and moves no target that was seen before it or is held by a stuck prediction; a failed one changes nothing and leaves its seen targets closed under the candidates of their holders |
| AugmentingPaths.Matcher.AssignInOrder | src/fh_agent/evals/spatial_perception_metrics.py:188-201 | after all predictions in any order the assignment is one-to-one along candidates and no other such set of pairs is larger |
| AugmentingPaths.StuckMeansMaximum | src/fh_agent/evals/spatial_perception_metrics.py:161-212 | the certificate argument: a closed stuck set covering the unmatched predictions bounds every rival matching |
| AugmentingPaths.CertifiedAfterFailure | src/fh_agent/evals/spatial_perception_metrics.py:190-201 | a failed search extends the certificate by its prediction |
| AugmentingPaths.CertifiedAfterSuccess | src/fh_agent/evals/spatial_perception_metrics.py:190-201 | a later augmentation never disturbs the certificate |
| PointMatching.MatchPoints | src/fh_agent/evals/spatial_perception_metrics.py:161-212 | for every list of predictions, targets and tolerance: pairs in strictly increasing target order are a one-to-one matching within tolerance, none is larger, the k-th error is the squared distance of the k-th pair and within the tolerance, and the unmatched counts are the lengths less the number of pairs |
| PointMatching.WithinIsDistance | src/fh_agent/evals/spatial_perception_metrics.py:173-216 | whatever number the distance of two points is, the comparison of squares says that it is at most the tolerance |
| PointMatching.CandidatesNearestFirst | src/fh_agent/evals/spatial_perception_metrics.py:173-187 | candidates are tried nearest first, equally near ones by column, row and index |
| PointMatching.PredictionsInOrder | src/fh_agent/evals/spatial_perception_metrics.py:169-172 | predictions are placed by column, then row, then index |
| SpatialMetrics.MaxMatchingGrows | src/fh_agent/evals/spatial_perception_metrics.py:161-212 | the maximum never falls when predictions or targets are added or the tolerance grows |
| SpatialMetrics.Evaluate | src/fh_agent/evals/spatial_perception_metrics.py:48-128 | the counting loop computes the totals of the frames in id order or the first error; for every usable frame its errors are the squared distances of a largest matching, within tolerance, of exactly the sprites with enough confidence to the targets, and true and false positives add up to those sprites |
| SpatialMetrics.EvaluationCounts | src/fh_agent/evals/spatial_perception_metrics.py:48-158 | unknown frames are the error before all else, then the first mismatched frame in id order; otherwise every frame counter is the number of frames it is named after, a detected player being one confident enough and within tolerance of the annotated one |
| SpatialMetrics.EvaluationReordered | src/fh_agent/evals/spatial_perception_metrics.py:48-134 | reordering sprites, targets, frames or sequences changes no total and no error |
| SpatialMetrics.TotalsConserve | src/fh_agent/evals/spatial_perception_metrics.py:48-128 | true plus false positives are the kept predictions, true positives plus false negatives the targets, over all usable frames; every frame is evaluated or skipped |
| SpatialMetrics.TotalsMonotone | src/fh_agent/evals/spatial_perception_metrics.py:48-147 | true positives never fall as the tolerance grows and never rise as the minimum confidence grows; errors do not depend on either |
| MarkerComponents.FloodFill | src/fh_agent/evals/reference_spatial_producer.py:89-113 | the worklist returns the maximal 4-connected component of its start, each pixel once, and removes exactly it from the remaining pixels |
| MarkerComponents.FindComponents | src/fh_agent/evals/reference_spatial_producer.py:89-138 | exactly the partition of the marker pixels into maximal components, in strictly increasing key order, every centroid inside the frame |
| MarkerComponents.PartitionSorted | src/fh_agent/evals/reference_spatial_producer.py:110-138 | the sort key is strict on distinct components |
| MarkerComponents.CentroidInBox | src/fh_agent/evals/reference_spatial_producer.py:125-132 | the floor centroid lies in every box that holds the component |
| MarkerComponents.Predict | src/fh_agent/evals/reference_spatial_producer.py:51-83 | fails exactly when two player pixels are not connected; otherwise there is a player exactly if there are player pixels, player and sprites are the floor means of the maximal components, in the order of their boxes' top, left, bottom and right edges, and all are pixels of the frame |
| MarkerComponents.NeighborsAreAdjacent | src/fh_agent/evals/reference_spatial_producer.py:121-122 | the neighbours of a pixel are the cells one step left, right, up or down and no others |
| MarkerComponents.RasterIsPixels | src/fh_agent/evals/reference_spatial_producer.py:116-118 | reading all pixels row by row gives the raster back, so each byte belongs to one pixel |
| Corpus.BuildCanonicalPayload | src/fh_agent/evals/spatial_perception_corpus.py:134-165 | the loops build the canonical payload |
| Corpus.SequencesById | src/fh_agent/evals/spatial_perception_corpus.py:128-165 | sequences are listed by their ids |
| Corpus.FramesByIndex | src/fh_agent/evals/spatial_perception_corpus.py:74-90 | a valid sequence's frames are listed by strictly increasing index |
| Corpus.PayloadComplete | src/fh_agent/evals/spatial_perception_corpus.py:104-165 | for valid manifests equal payloads mean exactly equal content up to the order of sequences, frames, annotations and sprite points |
| Corpus.PayloadReadsBack | src/fh_agent/evals/spatial_perception_corpus.py:134-165 | the content of a valid manifest can be read back from its payload |
| AnnotationReview.FreezeExactly | src/fh_agent/evals/spatial_annotation_review.py:197-298 | a freeze is accepted exactly when there is none yet, the corpus was found valid under its own id and fingerprint, no review is stale and every usable annotation, at least one in each split, has a passed review of its current content; it changes nothing else and its record matches the manifest |
| AnnotationReview.ReasonsExactly | src/fh_agent/evals/spatial_annotation_review.py:197-275 | a refused freeze gives every reason that applies and no other |
| AnnotationReview.RecordExactly | src/fh_agent/evals/spatial_annotation_review.py:118-159 | a revision is recorded exactly for an annotated frame, on its own evidence, on request and before a freeze; which error a refusal gives |
| AnnotationReview.ReviewRecorded | src/fh_agent/evals/spatial_annotation_review.py:162-182 | a review is one more record, of the annotation as it is, with the status given; an unknown frame is refused |
| AnnotationReview.ReviewPasses | src/fh_agent/evals/spatial_annotation_review.py:162-194 | a new review passes an annotation only with the passed status, and only the content it was written for |
| AnnotationReview.RevisionValid | src/fh_agent/evals/spatial_annotation_review.py:118-159 | replacing an annotation by an unchecked copy keeps every manifest check |
| AnnotationReview.RevisionChangesOne | src/fh_agent/evals/spatial_annotation_review.py:136-159 | a revision changes the annotation of its frame, no other, and nothing else of the manifest |
| AnnotationReview.StepConsistent | src/fh_agent/evals/spatial_annotation_review.py:118-298 | every record, review or freeze step keeps the manifest valid and a freeze record matching it |
| AnnotationReview.RunConsistent | src/fh_agent/evals/spatial_annotation_review.py:118-322 | over every run the manifest stays valid and a matching freeze record matching; a freeze is accepted exactly when the run ends frozen having started unfrozen |
| AnnotationReview.ReviewsStay | src/fh_agent/evals/spatial_annotation_review.py:118-298 | no run forgets or reorders a review |
| AnnotationReview.FrozenForever | src/fh_agent/evals/spatial_annotation_review.py:118-298 | once there is a freeze record, matching or not, no run changes the manifest or the record |
| AnnotationReview.AtMostOneFreeze | src/fh_agent/evals/spatial_annotation_review.py:197-298 | from any workflow at most one freeze of a run is accepted |
| AnnotationReview.SplitFingerprintTells | src/fh_agent/evals/spatial_annotation_review.py:301-316 | equal split fingerprints mean the same sequences in the same splits with the same frames |
| AnnotationSession.Session.EditCurrent | src/fh_agent/evals/spatial_annotation_ui.py:185-235 | an edit moves the session to the state the specification gives, or reports its error and changes nothing |
| AnnotationSession.EditShows | src/fh_agent/evals/spatial_annotation_ui.py:185-281 | an edit is accepted exactly before a freeze and where it is possible, then shows what it asks for in the annotation of the current frame, nothing else of it and no other frame changing, and adds one entry to its history |
| AnnotationSession.EditedExactly | src/fh_agent/evals/spatial_annotation_ui.py:185-235 | which edits are possible, what each sets and leaves, and when there is nothing to remove |
| AnnotationSession.UndoShows | src/fh_agent/evals/spatial_annotation_ui.py:237-246 | an undo shows the entry before the latest open edit, and without one does nothing |
| AnnotationSession.CursorMoves | src/fh_agent/evals/spatial_annotation_ui.py:169-183 | the cursor moves one frame on or back, stops at either end and changes nothing else; each move undoes the other |
| AnnotationSession.Session.SaveCurrent | src/fh_agent/evals/spatial_annotation_ui.py:248-275 | a save does the same, cursor included |
| AnnotationSession.SaveExactly | src/fh_agent/evals/spatial_annotation_ui.py:248-275 | a save fails exactly on a frozen corpus or on its persist step, and does nothing without a draft |
| AnnotationSession.StepValid | src/fh_agent/evals/spatial_annotation_ui.py:169-288 | every operation keeps drafts and histories fitting their frames and the manifest valid |
| AnnotationSession.SaveChangesOne | src/fh_agent/evals/spatial_annotation_ui.py:248-275 | a save persists the current frame's draft only, keeps all other drafts and histories, and leaves the cursor on the same frame |
| AnnotationSession.BalancedReturns | src/fh_agent/evals/spatial_annotation_ui.py:237-281 | a run that undoes its own edits and `depth` more returns the frame to what it showed that many edits ago |
| AnnotationSession.UndoRestores | src/fh_agent/evals/spatial_annotation_ui.py:149-281 | a balanced run of edits and undos on a frame restores it, whatever is edited, undone or saved on other frames in between |
| DisplayTransform.FittedFits | src/fh_agent/evals/spatial_annotation_ui.py:43-82 | a transform is made exactly for positive dimensions and bounds; its factor is the least whose display size fits the bounds |
| DisplayTransform.ClickRoundTrip | src/fh_agent/evals/spatial_annotation_ui.py:84-100 | a click is read exactly inside the display, as the original pixel it covers, the clamp never acting; that pixel is drawn at the click less the display offset, so where it was clicked exactly when the offset is zero |
| DisplayTransform.PixelDrawnInside | src/fh_agent/evals/spatial_annotation_ui.py:420-432 | every original pixel is drawn within the display size of the canvas origin, and with a zero offset where a click is read |
| DisplayTransform.OffsetDrawsOutside | src/fh_agent/evals/spatial_annotation_ui.py:420-432 | with any other offset some original pixel is drawn where no click is read |
| PpmFormat.ParseBinaryPpm | src/fh_agent/perception/subprocess_capture.py:76-131 | the cursor loops compute the parse of the header tokens and the raster |
| PpmLanguage.CaptureExactly | src/fh_agent/perception/subprocess_capture.py:76-131 | the capture reader reads a payload as a frame exactly if the payload is four tokens with spacing around them, one separator and the raster of that frame |
| PpmFormat.CaptureRoundTrip | src/fh_agent/perception/subprocess_capture.py:76-131 | the capture reader recovers every printed frame, whatever its raster starts with |
| PpmFormat.SpacingIrrelevant | src/fh_agent/perception/subprocess_capture.py:109-131 | any run of whitespace and comments before the header and non-empty ones between its tokens leave the result unchanged |
| PpmFormat.SeparatorExactly | src/fh_agent/perception/subprocess_capture.py:76-106 | with any whitespace byte between header and raster the capture reader recovers the frame exactly unless that byte is a carriage return and the raster starts with a line feed |
| PpmFormat.ReturnThenLineFeedMisread | src/fh_agent/perception/subprocess_capture.py:94-106 | a 1 by 1 frame whose raster starts with a line feed is misread after a carriage return |
| PpmFormat.LoadPpmFrame | src/fh_agent/perception/visual_hash.py:22-50 | the part-collecting loop computes the fixture reader's result |
| PpmLanguage.FixtureExactly | src/fh_agent/perception/visual_hash.py:22-50 | the fixture reader reads a payload as a frame exactly if the payload is four header parts and the raster of that frame |
| PpmFormat.FixtureRoundTrip | src/fh_agent/perception/visual_hash.py:22-50 | the fixture reader recovers every printed frame |
| PpmFormat.FixtureWithinCapture | src/fh_agent/perception/visual_hash.py:22-50 | a payload the fixture reader accepts is read as the same frame by the capture reader exactly when no whitespace follows the maximum value in its header part, or one carriage return does and a line feed ends the part |
| PpmFormat.TabTellsReadersApart | src/fh_agent/perception/visual_hash.py:22-50 | with a tab after the maximum value the fixture reader returns the frame and the capture reader does not |
| IntegerTokens.ParsePrinted | src/fh_agent/perception/subprocess_capture.py:82-87 | the digits of a number are read as that number |
| IntegerTokens.ParseExactly | src/fh_agent/perception/subprocess_capture.py:82-87 | a token is read exactly if it is whitespace, at most one sign, digits with single underscores between them and whitespace, as the value of its digits, negated by a minus sign |
| IntegerTokens.UnderscoresSeparate | src/fh_agent/perception/subprocess_capture.py:82-87 | an underscore changes no value |
| IntegerTokens.LeadingZero | src/fh_agent/perception/subprocess_capture.py:82-87 | nor does a leading zero |
| SmokeRunner.Run | src/fh_agent/evals/controlled_live_smoke_runner.py:453-969 | for any adapters: nothing is captured or sent unless the run starts, and a refusal names a condition that fails; a finished run captures at most the plan's frames and the caller's limit, or 30 without one, is safe, stops for a reason true of its trace (for the frame limit, with one of those bounds met exactly), reports the trace's counts and, for a blocked attempt, the first check that stood against it, and its report is accepted exactly when the trace says so; attempts are made exactly when due; a dry run whose frequency exceeds its frame limit is always refused, any other is accepted when no adapter objects |
| SmokeRunner.StartableExactly | src/fh_agent/evals/controlled_live_smoke_runner.py:488-591 | the configurations and plans a run may start with |
| SmokeRunner.FramesAllowedExactly | src/fh_agent/evals/controlled_live_smoke_runner.py:592-605 | the frame limits a run may start with |
| SmokeRunner.CaptureLoop | src/fh_agent/evals/controlled_live_smoke_runner.py:618-867 | the loop ends, with every counter tied to the trace |
| SmokeRunner.Attempt | src/fh_agent/evals/controlled_live_smoke_runner.py:710-860 | one turn makes its due attempt; blocked, it is the last thing but the report |
| SmokeRunner.PreCaptureClears | src/fh_agent/evals/controlled_live_smoke_runner.py:1040-1061 | a turn that may capture has passed focus, stop, time, frame and action checks |
| SmokeRunner.AcceptedExactly | src/fh_agent/evals/controlled_live_smoke_runner.py:264-437 | the validator accepts a real-input run exactly when something was sent, nothing was blocked and, in tap mode, a frame follows the tap; a run without input exactly when a dry run reached its first intent |
| SmokeRunner.AcceptedMeans | src/fh_agent/evals/controlled_live_smoke_runner.py:264-437 | any report the validator takes accounts for all of its mode's input and claims and forbids nothing else |
| SmokeRunner.DryRunDecided | src/fh_agent/evals/controlled_live_smoke_runner.py:264-437 | a dry run's frequency and effective frame limit decide its report: refused for all adapters beyond the limit, accepted within it when no adapter objects |
| SmokeRunner.RareDryRunStarts | src/fh_agent/evals/controlled_live_smoke_runner.py:453-520 | a configuration beyond the limit passes every check before the loop |
| Scheduler.RunKeepsOrder | src/fh_agent/manager/scheduler.py:127-324 | over any operations completed, running and queued specs read in order are what was submitted; running tasks are before and completed ones at most at their timeout, with status, authority and evidence agreeing with their completion |
| Scheduler.CompletedStay | src/fh_agent/manager/scheduler.py:290-324 | completed tasks never change |
| Scheduler.FreshRun | src/fh_agent/manager/scheduler.py:103-147 | from an empty scheduler the submitted specs are all there is, in order |
| Scheduler.TaskScheduler.Advance | src/fh_agent/manager/scheduler.py:140-157 | a tick counts one step of the running task and closes it as timed out exactly when that step reaches its timeout; the queue stays |
| Scheduler.TickCounts | src/fh_agent/manager/scheduler.py:140-157 | the same of the whole state, with the completion it writes |
| Scheduler.TaskScheduler.CompleteFromVerifier | src/fh_agent/manager/scheduler.py:214-246 | a terminal verdict closes the running task with its evidence, any other leaves it running |
| Scheduler.TaskScheduler.CompleteFromManagerStop | src/fh_agent/manager/scheduler.py:248-268 | a Manager stop closes the running task, as timed out exactly for a timeout |
| Scheduler.StartTakesFirst | src/fh_agent/manager/scheduler.py:132-138 | the task that has waited longest is started, and only when none is running |
| Scheduler.MarkSuccessCloses | src/fh_agent/manager/scheduler.py:159-175 | a success mark closes the task as succeeded, exactly under one of its success conditions |
| Scheduler.MarkFailureCloses | src/fh_agent/manager/scheduler.py:177-194 | a failure mark closes the task as failed, exactly under one of its failure conditions |
| Scheduler.CancelCloses | src/fh_agent/manager/scheduler.py:196-212 | a cancellation closes the task exactly if there is one and a reason |
| Scheduler.VerdictCloses | src/fh_agent/manager/scheduler.py:214-324 | a success verdict closes the task as succeeded, a failure as failed under its kind, with its evidence; others change nothing |
| Scheduler.StopCloses | src/fh_agent/manager/scheduler.py:248-324 | a stop closes the task, as timed out for a timeout and failed otherwise, under the stop's kind, reason and evidence |
| InputExecutor.RunSpaced | src/fh_agent/game/input_executor.py:62-111 | any two sends of one executor are at least the minimum interval apart, for any clock and any latch operations |
| InputExecutor.NothingSentWhileStopped | src/fh_agent/game/input_executor.py:62-111 | nothing is sent between an emergency stop and the next clearing of it |
| InputExecutor.Executor.Execute | src/fh_agent/game/input_executor.py:68-122 | a call sends exactly when no stop is latched, signalled or failing to answer, focus holds and the last send is at least the interval before; else the result names the first of these that fails; the latch stays |
| SkillRunner.Run | src/fh_agent/manager/skill_runner.py:76-317 | the trace follows what source, skill, verifier and guard answer, step after step, until the run is over, and the result is what its end says; at most max_steps attempts, each a send or not; the backend received exactly the trace's sends, and nothing from a latched guard |
| SkillRunner.ResultReads | src/fh_agent/manager/skill_runner.py:76-338 | how each way a run can end reads in its result: success, reason, evidence, verdict and stop |
| SkillRunner.ResultHasOneAuthority | src/fh_agent/manager/skill_runner.py:319-338 | no result carries both a Manager stop and a terminal verdict; success means a success verdict |
| SkillRunner.OutcomeSeen | src/fh_agent/manager/skill_runner.py:380-448 | an observed and verified send either ends the run or allows exactly one more turn |
| Planning.CoerceReflectionNotes | src/fh_agent/planner/context.py:154-176 | the loop coerces every note, or fails at the first invalid one, whose index it reports |
| Planning.CoercedOne | src/fh_agent/planner/context.py:154-176 | what one entry stands for, and exactly when it is refused |
| Planning.PlanWithin | src/fh_agent/planner/cortex.py:30-60 | an accepted plan cites only ids of the memory's notes and the observation, and selects an available runtime skill |
| Planning.PlanExactly | src/fh_agent/planner/cortex.py:30-60 | an answer is the plan exactly if it selects an available skill of a duplicate-free runtime list, its facts and updates have evidence, and it cites only what a valid context carries |
| Planning.GroundedExactly | src/fh_agent/manager/grounding.py:64-106 | a grounding attempt returns a target exactly when the skill needs one, there is evidence without an empty id, exactly one sprite is on screen and confident enough, and no empty visual hash goes into an object target |
| Planning.TargetIsVisible | src/fh_agent/manager/grounding.py:108-140 | the target is the one visible sprite: its position, its confidence, the id that follows from it and, for an object, its visual hash |
| Planning.NotGroundedFor | src/fh_agent/manager/grounding.py:64-106 | why nothing was grounded, by what is on screen and how sure it is |
| Planning.GroundingWithin | src/fh_agent/manager/grounding.py:64-175 | a grounding cites exactly the non-empty ids of the observation and its sprites, and its target cites the same |
| Planning.GroundingRefusedExactly | src/fh_agent/manager/target_ref.py:19-81 | a grounding attempt raises exactly when the observation carries an empty evidence id or the one visible object it would choose has an empty visual hash |
| Planning.EmptyIdRefused | src/fh_agent/manager/target_ref.py:54-62 | an observation with one good sprite and an empty id beside another id is refused |
| Planning.EmptyHashRefused | src/fh_agent/manager/target_ref.py:40-45 | so is one whose only sprite has an empty visual hash |
| Planning.NeverStale | src/fh_agent/manager/grounding_request_builder.py:9-25 | a request built from an observation is never stale for it |
| Planning.CollectSourceEvidence | src/fh_agent/manager/task_manager.py:218-242 | the nested loops list claims, updates, target and grounding ids once each, in order of first appearance |
| Planning.TaskWithin | src/fh_agent/manager/task_manager.py:86-186 | a task is valid, has its plan's skill, goal and success conditions, the fixed failure conditions and step limit of its skill, the target its skill requires, and exactly the ids of its plan and its grounding, once each |
| Planning.TaskExactly | src/fh_agent/manager/task_manager.py:86-186 | a task is made exactly for an available skill whose target is at hand, with non-empty conditions |
| ReplanLoop.Orchestrator.PlanGroundAndSubmit | src/fh_agent/manager/grounded_cortex_submission.py:43-79 | nothing is enqueued unless planning, grounding and contract checks all pass, and then exactly the task they give; a refusal is that of the first check that fails |
| ReplanLoop.Orchestrator.CompleteFromSkillRun | src/fh_agent/manager/orchestrator.py:136-191 | the Manager's stop wins over a verdict; without a terminal authority the task keeps running |
| ReplanLoop.ExecuteCurrentTask | src/fh_agent/manager/task_executor.py:42-83 | one bounded attempt settles the running task by its skill run, whose trace is the one that skill, source, guard and verifier give; each error is raised only in its own case and a wrong skill sends nothing |
| ReplanLoop.RunOnce | src/fh_agent/manager/hierarchical_step.py:46-98 | a step changes nothing, or enqueues the one task its observation and memory give and leaves it running or closed, whether it then returns or raises; a returned record holds that task, its skill run and the completion the run gives, from an idle scheduler; each error is raised only in its own case, the one for a busy scheduler exactly then, and the not-started branch is unreachable |
| ReplanLoop.RunBounded | src/fh_agent/manager/replan_loop.py:48-111 | a run that returns stops as nonterminal exactly when its last task is still running, completes one task per other step, and its final memory is the initial notes plus, per verifier-closed step in order, a fact with the verdict's evidence that names the skill and exactly its outcome, every such verdict having evidence; returning or raising, the tasks it adds to the scheduler are those of its steps in order, each as its step's observation and memory give it; each error is raised only in its own case, and the missing-authority branch is unreachable |
| ReplanLoop.DoneTasksCount | src/fh_agent/manager/replan_loop.py:65-111 | one more completed task per step, save for a last one still running |
| ReplanLoop.MemoryNext | src/fh_agent/manager/replan_context.py:14-63 | replanning appends exactly the note of the step just verified |
| ReplanLoop.ReportsTellApart | src/fh_agent/manager/replan_context.py:14-63 | two reports on one skill have the same text only for the same outcome |
| ReplanLoop.MemoryReports | src/fh_agent/manager/replan_loop.py:65-111 | the memory of any run of verified steps reports their outcomes |
| ReplanLoop.EvidenceOrigins | src/fh_agent/manager/replan_loop.py:65-111 | every non-empty evidence id on every task a run adds to the scheduler, whether the run returns or raises, comes from the initial notes, that step's observation or sprites, or an earlier step's verdict |
| JsonText.StringRoundTrip | src/fh_agent/bridge/snapshot_relay.py:90-102 | the reader's string scanner gives a printed string back and stops after it, per section 7 of RFC 8259 |
| JsonText.RecordIsOneLine | src/fh_agent/bridge/snapshot_relay.py:90-109 | a record's only line feed is its last byte, whatever the payload |
| JsonText.RecordExactly | src/fh_agent/bridge/snapshot_relay.py:90-102 | a record is written exactly for a payload without a number too large to print |
| JsonReader.ValueRoundTrip | src/fh_agent/bridge/snapshot_relay.py:90-102 | every printable value is read back from its compact text, whatever follows it, as the value with its keys sorted |
| JsonReader.KeysAscend | src/fh_agent/bridge/snapshot_relay.py:90-102 | sorted fields are the same fields, each value sorted inside, in ascending key order |
| JsonReader.RecordRoundTrip | src/fh_agent/bridge/jsonl_payload_source.py:52-68 | decoding and reading a relayed record gives its payload with sorted keys |
| JsonReader.LineIsOneObject | src/fh_agent/bridge/jsonl_payload_source.py:52-68 | a line that is read is the encoding of one object with nothing but whitespace after it |
| JsonReader.Utf8RoundTrip | src/fh_agent/bridge/jsonl_payload_source.py:52-56 | decoding the UTF-8 of any text gives it back |
| JsonReader.DecodedEncodes | src/fh_agent/bridge/jsonl_payload_source.py:52-56 | nothing but an encoding is decoded: what was decoded encodes back to the same bytes |
| JsonlFeed.Source.NextPayload | src/fh_agent/bridge/jsonl_payload_source.py:31-72 | a read answers and moves the offset as the specification says |
| JsonlFeed.NextExactly | src/fh_agent/bridge/jsonl_payload_source.py:31-72 | when a read answers what, and that only a delivered payload, the complete line at the offset, moves the reader |
| JsonlFeed.DeliversFirstLines | src/fh_agent/bridge/jsonl_payload_source.py:31-72 | under any interleaving of partial appends and reads the payloads delivered are exactly the first complete lines, once and in order, and the offset is where they end |
| JsonlFeed.ReadInStep | src/fh_agent/bridge/jsonl_payload_source.py:31-72 | a read reports exhaustion exactly when no complete line is unread, and never inconsistency |
| JsonlFeed.NothingAfterInvalid | src/fh_agent/bridge/jsonl_payload_source.py:52-68 | nothing after an invalid line is ever delivered |
| JsonlFeed.RecordIsNextLine | src/fh_agent/bridge/snapshot_relay.py:104-109 | a relayed record is exactly one more line of the feed |
| BridgeCycle.LatestIsLast | src/fh_agent/bridge/evidence_sync.py:26-40 | the latest id is that of the last screenshot record of the run with one id, and none only if there is no such record |
| BridgeCycle.LatestScreenshotEvidenceId | src/fh_agent/bridge/evidence_sync.py:26-40 | the overwriting loop computes it |
| BridgeCycle.RequestExactly | src/fh_agent/bridge/snapshot_request.py:18-61 | a request is made exactly for ids that are not blank, about the last logged screenshot of its run |
| BridgeCycle.HostKeeps | src/fh_agent/bridge_snapshot_host.py:31-68 | a published request names the screenshot just logged, which is the latest of its run |
| BridgeCycle.RelayedExactly | src/fh_agent/bridge/snapshot_relay.py:38-112 | a response is relayed exactly if it is one line decoding to an object with the three keys and no other, whose last request and run ids are the request's, with a printable payload of the bridge's run mode that cites the request's screenshot; what is relayed is that payload's record |
| BridgeCycle.EnvelopeExactly | src/fh_agent/bridge/snapshot_response.py:15-52 | the four-way correlation on the decoded value |
| BridgeCycle.ReadsOwnRecord | src/fh_agent/bridge/snapshot_relay.py:75-112 | a relayed record is read back whole and leaves the reader at the end of the feed |
| BridgeCycle.ReaderReadsRecords | src/fh_agent/bridge/jsonl_payload_source.py:52-68 | a cycle whose lines are read by the modelled reader meets the assumption of the cycle theorems |
| BridgeCycle.PayloadArrivesUnchanged | src/fh_agent/bridge_snapshot_observation.py:116-170 | with that reader, what the observation is made from is the payload of the cycle's own response with sorted keys |
| BridgeCycle.CycleKeeps | src/fh_agent/bridge_snapshot_observation.py:116-170 | however a cycle ends the reader is at the end of the feed; a returned observation is what its own correlated response was accepted as and cites its own capture; without such a response the feed stays as it was |
| BridgeCycle.CycleSucceedsExactly | src/fh_agent/bridge_snapshot_observation.py:116-170 | a cycle succeeds exactly if it may start, captures, publishes, and gets and appends an acceptable answer of its own |
| BridgeCycle.SafeTokensName | src/fh_agent/bridge_snapshot_observation.py:138-170 | a request id that passes the preflight holds no separator, dot, blank or control character |
| BridgeCycle.EveryObservationIsCurrent | src/fh_agent/bridge_snapshot_observation.py:116-136 | over any sequence of cycles, failed ones included, every returned observation cites the screenshot captured in its own cycle |
| BridgeCycle.SnapshotSource.Observe | src/fh_agent/bridge_snapshot_observation.py:116-136 | the composed cycle on the object's fields does what the specification says: a returned observation cites its own capture from its own response, and without such a response the feed is unchanged |
| SceneWalk.AncestorsAreVisible | bridge/rmmv_visible_bridge.js:107-123 | true exactly when the parent chain ends and is wholly shown |
| SceneWalk.ChainIsAcyclic | bridge/rmmv_visible_bridge.js:107-123 | a parent chain that ends passes no node twice |
| SceneWalk.CollectVisibleSurface | bridge/rmmv_visible_bridge.js:136-163 | on every finite graph, cyclic ones included, the walk ends and answers dialogue exactly when some reachable node is an open, wholly shown message window |

## Left out

- Distances are compared as squared integers against a squared tolerance; rounding in `hypot`, the mean errors, ratios and F1 scores are not modelled.
- Per-sequence summary fields of the metrics result beyond the totals.
- SHA-256 digests are taken as their canonical inputs, that is, as injective.
- Format checks of paths, timestamps and regular expressions.
- IntegerTokens.ParsePrinted: the interpreter's limit of 4300 digits in an integer token is not modelled.
- JsonReader.LineIsOneObject: that what it accepts inside the object keeps to the whole JSON grammar is not proved; the original leaves this to its standard library.
- The plain-text P3 reader, subprocess execution and the Tk widgets.
- AnnotationSession.Session.EditCurrent: the four edit methods are one method over a datatype of edits, because they differ only in the field they set.
- SpatialMetrics.Evaluate: a frame without a matching prediction is an absent output, because the missing-key error of the source is raised by the dictionary itself.
- SmokeRunner.Run: adapters that raise, other than capture, end the original run with that exception and are not modelled; report writing and file names are not modelled.
- SkillRunner.Run: event logging and reward breakdowns are left out, so completions carry no logger event ids.
- InputExecutor.Executor.constructor: a negative interval, which the original refuses with an exception, is a precondition.
- Planning.PlanWithin: prompt text, risk limits, open questions and the hidden-state and control-field scans only add refusals; they belong to the arbitrary planner answer.
- ReplanLoop.RunOnce: an observation source that fails for other reasons than exhaustion is not modelled.
- JsonReader.ValueRoundTrip: number literals are kept as written, so their rounding, overflow to infinity and the constants NaN and Infinity are not modelled; lone surrogates, which the original reads but refuses to print, are refused, because a Dafny character is a Unicode scalar value.
- The bridge theorems hold for every line reader that accepts what the relay writes, the modelled one among them; decoding of response files stays an arbitrary function.
- The payload sanitiser is an arbitrary accept-or-reject function; `find_forbidden_field_paths` and allowlists are not modelled.
- BridgeCycle.SnapshotSource.Observe: no other process writes to the feed or the log during a cycle, files are published atomically, and the polling wait is an arbitrary answer; blank ids are recognised for ASCII whitespace.
- SQLite stores, the HTTP client, command-line assembly, preflight and validation reports: wiring and independent field checks.
