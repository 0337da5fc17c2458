# Sambodhan retraining loop and its companions, in Dafny

Sambodhan routes citizen grievances with two text classifiers: one picks the
responsible department, the other the urgency. Administrators flag complaints
the classifiers got wrong. This project models the loop that turns those
reports into new models, and proves properties of the model:

- **Orchestrator** (`orchestrator.dfy`). It counts the reviewed
  misclassifications per label and flags every label whose dataset size
  reaches its threshold. It restarts the dataset-preparation space once, then
  handles each flagged label in turn. For each label it reads the current
  version tag, polls the dataset metadata until a large-enough snapshot with a
  new tag appears or the deadline passes, and restarts that label's retraining
  space. The network is a function from the index of a GET to its outcome. The
  clock is a number that the GETs and the sleeps advance.
- **Retraining job** (`model_pipeline.dfy`, `retrain_config.dfy`):
  - The champion is queried and the usable pairs are kept.
  - The challenger/champion gate is applied.
  - The push of weights, metadata and tag follows, then the space restart.
  - The training arguments are sanitised.
  - The configuration is selected from the environment, validated and
    stripped.
- **Dataset preparation**:
  - `dataset_prep.dfy`: the job's environment check, its database retry and
    its per-label skip-or-abort rules.
  - `prep_frame.dfy`: the sizing of the frame of misclassified and
    correctly classified rows.
  - `preprocess.dfy`: the encoding of labels, the three-way split and the
    publishing steps.
  - `label_maps.dfy`: the label literals and their inverses.
  - `text_cleaning.dfy`: the regular-expression cleaners `clean_text` and
    `clean_nepali_text`.
- **Smaller cores**:
  - `misclassification.dfy`: the misclassification-report endpoints over
    the reports table.
  - `label_converter.dfy`: `resolve_label`.
  - `chatbot.dfy`: the chatbot's intent detection, its field extractors and
    its multi-turn filing state machine.
  - `locations.dfy`: the location-id lookup and the soft-delete and list
    handlers.
  - `location_loader.dfy`: the idempotent CSV loader.
  - `analytics_service.dfy` and `weekly_analytics.dfy`: the two analytics
    services, with their period labels, bucketed trend counts and cache
    dispatch.
  - `text_input_schema.dfy`: the `TextInput` validators of the classifier
    APIs.
  - `auth_forms.dfy`, `dashboard.dfy`, `report_manager.dfy` and
    `team_management.dfy`: the front-end helpers. These cover password
    strength and form validation, the grievance dashboard's pagination and
    delete, the misclassification manager and the team-management filters.

`text.dfy` holds the Python and JavaScript string primitives the models share:
`strip`, `rstrip`, `trim`, ASCII lower-casing, `isdigit`, `int()`, `parseInt`,
`str()` of an int, and substring tests. `wrappers.dfy` holds `Option` and
`Result`.

Code that changes state step by step is modelled imperatively:

- Loops become methods with invariants.
- Each loop method is proved equal to a recursive specification function,
  whose properties are lemmas.
- Objects whose fields the source updates become classes, with `modifies`
  and `reads` frames:
  - `Config`, `RetrainPipeline` and `MisclassificationTable`;
  - `LocationTable` and `LocationStore`;
  - `StrengthIndicator`, `DashboardPage`, `Manager` and `Team`.

Pure code becomes functions and lemmas.

`main` in `orchestrator/orchestrator.py` has no try/except around one label's
work. A poll timeout, a failed metadata fetch or a failed space restart
raises out of `main`, and the labels after it are never handled
(`Orchestrator.AbortStopsLaterLabels`).

## Model

| member | source | states |
|---|---|---|
| Orchestrator.MisCount | orchestrator/orchestrator.py:41-46 | the count is at most the number of rows, and 0 exactly when no row is a reviewed correction that differs from the prediction (NULL-safe) |
| Orchestrator.ComputeDatasetLen | orchestrator/orchestrator.py:41-50 | the size is the misclassified count plus half of it rounded down: 2c <= mis < 2c+2 and total = mis + c |
| Orchestrator.FlaggedAmong | orchestrator/orchestrator.py:113-128 | a label is in the flagged list iff it is among the labels tried and its size reaches its threshold |
| Orchestrator.NoReportsNeverFlags | orchestrator/orchestrator.py:113-127 | a label without misclassified rows is never flagged under a positive threshold |
| Orchestrator.JoinLabels | orchestrator/orchestrator.py:136 | the comma-joined label list is empty iff there are no labels |
| Orchestrator.RestartCalls | orchestrator/orchestrator.py:53-58 | restart_hf_space: no call under DRY_RUN, otherwise exactly the one restart call |
| Orchestrator.RetrainCalls | orchestrator/orchestrator.py:150-155 | no retraining call under DRY_RUN or for a label without a space id, otherwise exactly that label's restart |
| Orchestrator.FetchJsonWithRetries | orchestrator/orchestrator.py:61-74 | the GET loop returns exactly what the recursive attempt specification gives (result, GETs issued, seconds used) |
| Orchestrator.FetchJson | orchestrator/orchestrator.py:61-74 | specification of the GET loop, with no contract of its own; AttemptsOutcome, DefaultFetchBounds and NoRetriesNoGets state its properties |
| Orchestrator.BackoffSumClosedForm | orchestrator/orchestrator.py:73 | the sleeps backoff*attempt for attempt a..r add up to backoff*(r(r+1) - (a-1)a)/2 |
| Orchestrator.AttemptsOutcome | orchestrator/orchestrator.py:61-74 | the fetch returns the first reply among the first `retries` GETs and issues no GET after it; otherwise every GET failed, all were issued, and a sleep followed each, the last included, before the last error is re-raised |
| Orchestrator.DefaultFetchBounds | orchestrator/orchestrator.py:61 | with the defaults (3 retries, backoff 2) one to three GETs are made; when all fail the error is the request failure and 2+4+6 = 12 seconds of sleep are added to the GETs' time |
| Orchestrator.NoRetriesNoGets | orchestrator/orchestrator.py:61-74 | with no attempt allowed no GET is made, and the final `raise` has nothing to raise |
| Orchestrator.WaitForDatasetUpdate | orchestrator/orchestrator.py:77-102 | the poll loop returns exactly what the recursive poll specification gives |
| Orchestrator.PollFrom | orchestrator/orchestrator.py:77-102 | specification of the poll loop, with no contract of its own; PollStep, PollOutcome and StaleTagNeverAccepted state its properties |
| Orchestrator.PollStep | orchestrator/orchestrator.py:82-102 | one iteration before the deadline is a fetch, then acceptance or a sleep of POLL_INTERVAL |
| Orchestrator.PollOutcome | orchestrator/orchestrator.py:82-102 | an accepted snapshot has num_samples >= min_len and a tag other than the previous one; a timeout is raised only once the clock is past the deadline; the clock never goes back |
| Orchestrator.StaleTagNeverAccepted | orchestrator/orchestrator.py:91 | a snapshot carrying the previous tag is never accepted, whatever its size |
| Orchestrator.MissingPreviousTagIgnoresTag | orchestrator/orchestrator.py:87-91 | when the previous metadata's version_tag is missing or null, a snapshot is accepted iff its num_samples is a number >= min_len and its own version_tag is not null (a missing one reads as "" and differs from None) |
| Orchestrator.NullSamplesNeverAccepted | orchestrator/orchestrator.py:88-99 | a null num_samples makes the comparison raise, which the poll swallows: such a snapshot is never accepted |
| Orchestrator.LateReplyStillAccepted | orchestrator/orchestrator.py:83-93 | a fetch started before the deadline is accepted even when it finishes 5000 seconds later |
| Orchestrator.LabelStepReady | orchestrator/orchestrator.py:146-147 | a label's ready dataset is at least its computed size and newer than the tag read first |
| Orchestrator.PrepareLabel | orchestrator/orchestrator.py:146-147 | reading the tag then polling gives exactly the label step specification |
| Orchestrator.FlagLabels | orchestrator/orchestrator.py:113-128 | the flagging loop returns exactly the flagged labels, department before urgency |
| Orchestrator.RetrainLabels | orchestrator/orchestrator.py:143-157 | the per-label loop appends exactly the events of the per-label specification (acceptance, then the retraining restart, which may raise) and ends with its abort, if any |
| Orchestrator.RetrainEachFirst | orchestrator/orchestrator.py:143-157 | one label of the phase: a failed fetch or a timeout aborts naming that label; a ready dataset is logged and the label's space restarted; a restart that raises ends the phase with that call as the last event; otherwise the phase goes on with the next label |
| Orchestrator.RunOrchestration | orchestrator/orchestrator.py:105-159 | main gives exactly the run specification `Orchestration`: no DATABASE_URL aborts; nothing flagged returns with no call; otherwise one preparation restart (skipped if unset or dry run), which may raise and end the run, then the per-label phase |
| Orchestrator.Orchestration | orchestrator/orchestrator.py:105-159 | specification of main, with no contract of its own; its properties are the lemmas NothingFlaggedNoRestart, PrepRestartFailureEndsRun, DryRunNoRestart and the per-label phase lemmas |
| Orchestrator.PrepRestartFailureEndsRun | orchestrator/orchestrator.py:134-138 | a preparation restart that raises ends main with that call as its only event: no label is polled |
| Orchestrator.NothingFlaggedNoRestart | orchestrator/orchestrator.py:130-132 | with no flagged label, main records no event at all: no restart, no dataset |
| Orchestrator.DryRunRetrainCalls | orchestrator/orchestrator.py:53-56 | under DRY_RUN the per-label phase records only dataset acceptances and no restart call, and no restart failure can end it |
| Orchestrator.DryRunNoRestart | orchestrator/orchestrator.py:53-58 | under DRY_RUN the whole run records only dataset acceptances and never ends in a restart failure |
| Orchestrator.RetrainAfterReady | orchestrator/orchestrator.py:143-157 | every retraining restart comes right after the acceptance of the same label's dataset |
| Orchestrator.ReadyDatasetsLargeEnough | orchestrator/orchestrator.py:143-153 | every dataset the run accepts is at least as large as its label's computed size |
| Orchestrator.AbortStopsLaterLabels | orchestrator/orchestrator.py:143-157 | a failure stops the phase at some flagged label: its abort names that label and no later label has any event; a raised restart is the last event |
| Orchestrator.RaisedRestartStopsAtFirst | orchestrator/orchestrator.py:150-153 | a retraining restart that raises on the first label stops the phase there |
| Orchestrator.StoppedAfterReady | orchestrator/orchestrator.py:143-157 | a stop at some label of the rest is a stop one label later once a ready label is put in front |
| Orchestrator.CompletedPhaseCoversAll | orchestrator/orchestrator.py:143-159 | a phase that ends without exception accepted a dataset for every flagged label |
| ModelPipeline.PredIdFailures | src/services/retrain_model/model_pipeline.py:350-368 | a raised call, a status other than 200, an absent or unhashable label, or a label neither in label2id nor int()-readable is recorded as -1; any other id comes from a 200 reply |
| ModelPipeline.PredIdKnownLabel | src/services/retrain_model/model_pipeline.py:356-358 | a 200 reply whose label is a key of label2id is recorded as that key's id |
| ModelPipeline.PredId | src/services/retrain_model/model_pipeline.py:350-368 | the id recorded for one reply, with no contract of its own; PredIdFailures and PredIdKnownLabel state it |
| ModelPipeline.QueryDeployedModel | src/services/retrain_model/model_pipeline.py:334-370 | exactly one id per text, in order, each the id of the i-th POST's reply |
| ModelPipeline.PrefixSlice | src/services/retrain_model/model_pipeline.py:427-428 | Python's s[:n]: the first min(n, len) items for n >= 0, and all but the last -n for n < 0 |
| ModelPipeline.ChampionSampleSize | src/services/retrain_model/model_pipeline.py:426-429 | the champion sample is the first min(deployed_sample_size, len(test)) rows of the shuffle |
| ModelPipeline.PairUsable | src/services/retrain_model/model_pipeline.py:433-438 | the pairing loop returns the two columns of the usable pairs |
| ModelPipeline.UsablePairsExactly | src/services/retrain_model/model_pipeline.py:433-438 | a pair is kept iff it sits at a common index and its id is not -1, in order |
| ModelPipeline.AllFailedNoPairs | src/services/retrain_model/model_pipeline.py:433-443 | when every champion call failed no pair is usable |
| ModelPipeline.AcceptanceIsStrict | src/services/retrain_model/model_pipeline.py:445-447 | "accepted" iff challenger > champion + threshold; a tie is rejected and a missing champion counts as 0.0 |
| ModelPipeline.Accepted | src/services/retrain_model/model_pipeline.py:445-447 | the acceptance gate, with no contract of its own; AcceptanceIsStrict and DeadChampionScoresZero state it |
| ModelPipeline.DeadChampionScoresZero | src/services/retrain_model/model_pipeline.py:425-447 | a champion whose every call fails scores 0.0, so the challenger is accepted iff its F1 exceeds the threshold |
| ModelPipeline.Evaluate | src/services/retrain_model/model_pipeline.py:423-447 | sampling, querying, pairing and deciding give the evaluation specification |
| ModelPipeline.SanitizeTrainingArgs | src/services/retrain_model/model_pipeline.py:36-48 | {} for absent arguments; otherwise every key is kept, and a value json.dumps refuses becomes its str() form |
| ModelPipeline.Clean | src/services/retrain_model/model_pipeline.py:42-47 | what sanitize_training_args stores for one value, with no contract of its own; SanitizeTrainingArgs states it |
| ModelPipeline.AttemptedIsPrefix | src/services/retrain_model/model_pipeline.py:488-552 | the attempted pushes are a prefix of the plan, all but the last succeeded, and the whole plan runs iff every step succeeds |
| ModelPipeline.AttemptedAppend | src/services/retrain_model/model_pipeline.py:488-552 | a later group of steps runs only if every step of the earlier group succeeded |
| ModelPipeline.TagOnlyAfterPushes | src/services/retrain_model/model_pipeline.py:538-544 | the version tag is created only after every earlier push succeeded |
| ModelPipeline.RejectedTouchesNothing | src/services/retrain_model/model_pipeline.py:667-689 | a rejected run makes no hub or space call; it ends normally iff self.hub_model_id was set, and otherwise the summary alert's title raises AttributeError |
| ModelPipeline.FailedPushStillRestarts | src/services/retrain_model/model_pipeline.py:668-685 | an accepted run restarts the space whatever the pushes came to, and fails only if the restart fails |
| ModelPipeline.RetrainPipeline.constructor | src/services/retrain_model/model_pipeline.py:124-129 | a new job has no hub id attribute, no trainer, no space id and has made no call |
| ModelPipeline.RetrainPipeline.ApplyTrainingArgs | src/services/retrain_model/model_pipeline.py:254-273 | non-empty overrides set hub_model_id to their entry (None when absent); empty ones keep it; a trainer exists afterwards |
| ModelPipeline.RetrainPipeline.PushModelToHub | src/services/retrain_model/model_pipeline.py:460-552 | the version tag becomes "v" + timestamp; an error iff there is no hub id, with no call; otherwise the pushes are attempted in order up to the first failure, whose error is swallowed |
| ModelPipeline.RetrainPipeline.PushWeights | src/services/retrain_model/model_pipeline.py:491-504 | the weight pushes (through the trainer or model then tokenizer) are attempted in order, stopping at the first failure |
| ModelPipeline.RetrainPipeline.RestartSpaceCall | src/services/retrain_model/model_pipeline.py:719-744 | an already set space id is kept; an empty id or token is a ValueError; a failed restart is a RuntimeError |
| ModelPipeline.RetrainPipeline.DeployIfAccepted | src/services/retrain_model/model_pipeline.py:650-697 | the space id is recorded, the decision re-derived, and push then restart happen only when accepted; the summary alert raises AttributeError when self.hub_model_id was never set |
| RetrainConfig.MissingFields | src/services/retrain_model/configs.py:45-49 | exactly the required fields whose value is falsy, in list order |
| RetrainConfig.Config.constructor | src/services/retrain_model/configs.py:52-66 | a config of the chosen kind holds the attributes read and the kind's label maps |
| RetrainConfig.Config.StripStrings | src/services/retrain_model/configs.py:104-119 | every string attribute loses its trailing whitespace, and the others are unchanged |
| RetrainConfig.GetConfig | src/services/retrain_model/configs.py:69-121 | the result is the config specification: the label class, validated, then stripped, or the error raised |
| RetrainConfig.LabelSelection | src/services/retrain_model/configs.py:75-100 | LABEL selects the class after lower-casing; any other value is a ValueError naming the lowered text |
| RetrainConfig.DepartmentByDefault | src/services/retrain_model/configs.py:75 | an unset LABEL selects the department model |
| RetrainConfig.SameRequiredFields | src/services/retrain_model/configs.py:79-98 | both labels require the same seven fields |
| RetrainConfig.MissingReportsEveryField | src/services/retrain_model/configs.py:45-49 | validation fails iff a required field is falsy, and the error names every such field in order |
| RetrainConfig.StringsStripped | src/services/retrain_model/configs.py:104-119 | after get_config every string attribute has no trailing whitespace and is a prefix of the value read; others are as read |
| RetrainConfig.BaseAttrsEntries | src/services/retrain_model/configs.py:27-42 | the base attributes hold the environment's values or the stated defaults |
| RetrainConfig.BlankSecretPassesValidation | src/services/retrain_model/configs.py:102-116 | a whitespace-only secret passes validation (which runs before stripping) and comes out empty |
| RetrainConfig.Defaults | src/services/retrain_model/configs.py:27-42 | unset variables give checkpoint xlm-roberta-base, sample size 300, threshold 0.001, patience 1 |
| RetrainConfig.DefaultCheckpoint | src/services/retrain_model/configs.py:28 | an unset MODEL_CHECKPOINT gives xlm-roberta-base |
| RetrainConfig.DefaultSampleSize | src/services/retrain_model/configs.py:40 | an unset DEPLOYED_SAMPLE_SIZE gives 300 |
| RetrainConfig.DefaultThreshold | src/services/retrain_model/configs.py:41 | an unset DECISION_THRESHOLD gives 0.001 |
| RetrainConfig.DefaultPatience | src/services/retrain_model/configs.py:42 | an unset EARLY_STOPPING_PATIENCE gives 1 |
| LabelMaps.ToMap | src/services/retrain_model/configs.py:7-12 | a dict literal's keys are the literal's keys, with a later entry overwriting an earlier one |
| LabelMaps.ToMapEntries | src/services/retrain_model/configs.py:14 | for a one-to-one literal the dict holds exactly its entries |
| LabelMaps.InverseInverts | src/services/retrain_model/configs.py:14-19 | for a one-to-one literal the swap comprehension is the inverse of the dict, in both directions |
| LabelMaps.Numbered | src/services/retrain_model/configs.py:7-16 | the literal numbers the names 0, 1, 2, ... in order |
| LabelMaps.NumberedMaps | src/services/retrain_model/configs.py:7-16 | each name's id is its position, and the ids are exactly the positions |
| LabelMaps.DepartmentMapsInverse | src/services/prepare_dataset/preprocess_and_prepare_dataset.py:15-22 | department2id and id2department are mutually inverse over the ids 0..3 |
| LabelMaps.UrgencyMapsInverse | scripts/dept-classifier/preprocess_and_prepare_dataset.py:21-24 | urgency2id and id2urgency are mutually inverse over the ids 0..2 |
| LabelMaps.Id2LabelIsInverse | src/data_science/preprocessing/data_prep.py:7-8 | the literal ID2LABEL is the inverse of LABEL_MAP |
| TextCleaning.NonSpaceRun | src/services/prepare_dataset/preprocess_and_prepare_dataset.py:35 | the leading run has no whitespace and ends at whitespace or at the end |
| TextCleaning.NoMatchLeft | src/services/prepare_dataset/preprocess_and_prepare_dataset.py:35 | after URL removal no match of the pattern starts anywhere |
| TextCleaning.RemoveMatchesKeepsPlainText | src/services/prepare_dataset/preprocess_and_prepare_dataset.py:35 | text in which the pattern matches nowhere is left unchanged |
| TextCleaning.TagCloseUnclosed | src/services/prepare_dataset/preprocess_and_prepare_dataset.py:36 | the lazy <.*?> finds no close exactly when no '>' comes before the next newline or the end |
| TextCleaning.RemoveTags | src/services/prepare_dataset/preprocess_and_prepare_dataset.py:36 | re.sub of the lazy tag pattern: never longer than the input (NoTagLeft, UnclosedSurvives and RemoveTagsKeepsPlainText state the rest) |
| TextCleaning.UnclosedSurvives | src/services/prepare_dataset/preprocess_and_prepare_dataset.py:36 | text with no '>' before the next newline or the end keeps that property through tag removal |
| TextCleaning.RemoveTagsKeepsPlainText | src/services/prepare_dataset/preprocess_and_prepare_dataset.py:36 | text in which no tag starts is left unchanged by tag removal |
| TextCleaning.NoTagLeft | src/services/prepare_dataset/preprocess_and_prepare_dataset.py:36 | after tag removal no tag is left anywhere |
| TextCleaning.NewlinesToSpaces | src/services/prepare_dataset/preprocess_and_prepare_dataset.py:37 | same length, no newline, other characters unchanged |
| TextCleaning.CollapseSpaces | src/services/prepare_dataset/preprocess_and_prepare_dataset.py:38 | the result is single-spaced, no longer than the input, and starts with whitespace iff the input does |
| TextCleaning.CollapseKeepsSingleSpaced | src/services/prepare_dataset/preprocess_and_prepare_dataset.py:38 | single-spaced text is unchanged by collapsing |
| TextCleaning.CleanTextShape | src/services/prepare_dataset/preprocess_and_prepare_dataset.py:33-39 | clean_text's result has no surrounding whitespace and every inner whitespace is a single plain space |
| TextCleaning.CleanText | src/services/prepare_dataset/preprocess_and_prepare_dataset.py:33-39 | clean_text, the composition of the four cleaning steps and strip, with no contract of its own; CleanTextShape and UrlOnlyCleansToEmpty state its properties |
| TextCleaning.UrlOnlyCleansToEmpty | src/services/prepare_dataset/preprocess_and_prepare_dataset.py:35-38 | a text made of one URL cleans to "" |
| TextCleaning.TagAcrossNewlineSurvives | src/services/prepare_dataset/preprocess_and_prepare_dataset.py:36-37 | a tag spanning a newline survives, and the output then holds a complete tag |
| TextCleaning.KeepNepali | src/data_science/preprocessing/data_prep.py:18 | only allowed characters remain, and the result is no longer than the input |
| TextCleaning.CleanNepaliText | src/data_science/preprocessing/data_prep.py:10-19 | every character of the cleaned text is an allowed one, NaN included (it gives "") |
| TextCleaning.NoEmailAfterEmailStep | src/data_science/preprocessing/data_prep.py:15-16 | no email-like token survives the email step |
| TextCleaning.DoubleSpaceSurvives | src/data_science/preprocessing/data_prep.py:17-19 | "x # y" for digits x and y cleans to "x  y": deleting after collapsing can leave two spaces |
| TextCleaning.ShortTextsDropped | src/data_science/preprocessing/data_prep.py:26-27 | a missing text or one of at most 10 cleaned characters never reaches training |
| DatasetPrep.MissingNames | src/services/prepare_dataset/prepare_dataset_pipeline.py:33-42 | exactly the unset or empty required settings, in order |
| DatasetPrep.CheckDatabase | src/services/prepare_dataset/prepare_dataset_pipeline.py:64-92 | the attempt loop gives exactly the recursive check specification |
| DatasetPrep.DbCheck | src/services/prepare_dataset/prepare_dataset_pipeline.py:64-92 | specification of the connection attempts, with no contract of its own; DbCheckBounded, BackoffWaits and DbCheckEvents state its properties |
| DatasetPrep.DbCheckBounded | src/services/prepare_dataset/prepare_dataset_pipeline.py:68-83 | one to three attempts; the check succeeds iff some attempt connects and every attempt before it failed with a SQL error |
| DatasetPrep.BackoffWaits | src/services/prepare_dataset/prepare_dataset_pipeline.py:81-83 | the waits are 2**attempt seconds: 2 s then 4 s |
| DatasetPrep.LabelsRun | src/services/prepare_dataset/prepare_dataset_pipeline.py:100-158 | the label that stops the run, if any, is one of the labels handled |
| DatasetPrep.ProcessLabels | src/services/prepare_dataset/prepare_dataset_pipeline.py:100-158 | the per-label loop gives exactly the per-label specification |
| DatasetPrep.RunPrepareDatasets | src/services/prepare_dataset/prepare_dataset_pipeline.py:16-181 | prepare_datasets gives exactly the job specification `PrepareDatasets`, for the frame fetch as written or corrected |
| DatasetPrep.PrepareDatasets | src/services/prepare_dataset/prepare_dataset_pipeline.py:16-181 | specification of the job, with no contract of its own: settings check, database check, the per-label loop and the pause; the lemmas below state its properties |
| DatasetPrep.LabelRun | src/services/prepare_dataset/prepare_dataset_pipeline.py:100-158 | specification of one label's iteration, with no contract of its own: a ValueError (bad column, small frame, unreadable MIN_DATASET_LEN, push ValueError) skips, another error aborts; LabelRunEvents, SmallFramesSkipped and PushedOnlyWhenLargeEnough state its properties |
| DatasetPrep.LabelRunEvents | src/services/prepare_dataset/prepare_dataset_pipeline.py:100-158 | one label's iteration only fetches, pushes or skips, and only for that label |
| DatasetPrep.AsWrittenJobAbortsOnDepartment | src/services/prepare_dataset/prepare_dataset_pipeline.py:100-158 | with the frame fetch as written, two department reports and a non-empty pool of correct rows make the job abort on the department label right after the database check: the urgency label is never handled and the space is not paused |
| DatasetPrep.AsWrittenPushesOnlyUnsampled | src/services/prepare_dataset/prepare_dataset_pipeline.py:100-128 | as written, a dataset is pushed only for a frame that sampled no correct row |
| DatasetPrep.CorrectedJobPushesDepartment | src/services/prepare_dataset/prepare_dataset_pipeline.py:100-128 | with the corrected fetch, a large-enough department frame is fetched and pushed |
| DatasetPrep.MissingSettingsStopFirst | src/services/prepare_dataset/prepare_dataset_pipeline.py:40-42 | the job stops with no event at all (no database or outside call) iff a required setting is unset or empty, and then names every such setting |
| DatasetPrep.SkipContinues | src/services/prepare_dataset/prepare_dataset_pipeline.py:139-147 | when the department label is skipped, the urgency label still runs: the events are both labels' events in order |
| DatasetPrep.AbortStopsLaterLabels | src/services/prepare_dataset/prepare_dataset_pipeline.py:149-158 | an abort on the department label leaves the urgency label untouched and the space not paused |
| DatasetPrep.SmallFramesSkipped | src/services/prepare_dataset/prepare_dataset_pipeline.py:113-119 | a fetched frame below MIN_DATASET_LEN is skipped with no push, and an unreadable MIN_DATASET_LEN skips every label, for either fetch |
| DatasetPrep.PushedOnlyWhenLargeEnough | src/services/prepare_dataset/prepare_dataset_pipeline.py:112-128 | a dataset is pushed only for a frame of at least MIN_DATASET_LEN rows whose push succeeded |
| DatasetPrep.PauseOnlyWhenSet | src/services/prepare_dataset/prepare_dataset_pipeline.py:162-176 | the pause is requested only when the space id is set, and only on a completed run |
| PrepFrame.TruncToInt | src/services/prepare_dataset/prepare_pd_df.py:54 | int() of a float truncates toward zero: \|n\| <= \|x\| < \|n\| + 1 with n's sign |
| PrepFrame.SampleSize | src/services/prepare_dataset/prepare_pd_df.py:70-74 | min(n_correct, pool) when both are positive, else 0 |
| PrepFrame.FetchMisclassified | src/services/prepare_dataset/prepare_pd_df.py:7-82 | corrected: a returned frame has exactly the three promised columns, so the column assert never fails |
| PrepFrame.FetchMisclassifiedRules | src/services/prepare_dataset/prepare_pd_df.py:28-74 | an unknown label column is a ValueError (and only then); no reports gives the empty frame; otherwise every report plus min(target, pool) correct rows, none when the target is not positive |
| PrepFrame.AsWrittenFailsWhenSampling | src/services/prepare_dataset/prepare_pd_df.py:57-80 | as written, any run that samples a correct row fails the final assert |
| PrepFrame.FetchAsWritten | src/services/prepare_dataset/prepare_pd_df.py:7-82 | the fetch as written, with no contract of its own; AsWrittenFailsWhenSampling, TwoReportsHitTheAssert and FixAgreesWithoutSampling state its properties |
| PrepFrame.TwoReportsHitTheAssert | src/services/prepare_dataset/prepare_pd_df.py:53-80 | with ratio 0.5, two reports and a non-empty pool already fail it |
| PrepFrame.FixAgreesWithoutSampling | src/services/prepare_dataset/prepare_pd_df.py:50-80 | where no correct row is sampled the corrected and as-written functions agree |
| PrepFrame.HalfRatioSize | src/services/prepare_dataset/prepare_pd_df.py:53-77 | with ratio 0.5 the frame holds the reports plus up to half as many, rounded down |
| Preprocess.LabelFor | src/services/prepare_dataset/preprocess_and_prepare_dataset.py:56-57 | only "department" and "urgency" name a label |
| Preprocess.CleanAndEncode | src/services/prepare_dataset/preprocess_and_prepare_dataset.py:45-69 | a ValueError exactly for another label column; otherwise the encoded rows |
| Preprocess.EncodeRowsSound | src/services/prepare_dataset/preprocess_and_prepare_dataset.py:59-68 | every output row encodes a mapped input row, in order |
| Preprocess.EncodeRowsComplete | src/services/prepare_dataset/preprocess_and_prepare_dataset.py:62-68 | every row with a mapped label appears in the output |
| Preprocess.EncodedLabelsDecode | src/services/prepare_dataset/preprocess_and_prepare_dataset.py:62-68 | each encoded label decodes through the inverse map to its row's label text |
| Preprocess.CleanAndEncodeLabels | src/services/prepare_dataset/preprocess_and_prepare_dataset.py:62-65 | with the real maps the labels are 0..3 or 0..2 and decode back through id2department or id2urgency |
| Preprocess.EncodedTextsClean | src/services/prepare_dataset/preprocess_and_prepare_dataset.py:60 | every kept grievance is cleaned: single-spaced, no whitespace at either end |
| Preprocess.SplitDataset | src/services/prepare_dataset/preprocess_and_prepare_dataset.py:75-105 | a ValueError exactly when the frame is empty, some label occurs only once, or the splitter fails; otherwise the dict with exactly the keys train, eval and test |
| Preprocess.SingletonClassFails | src/services/prepare_dataset/preprocess_and_prepare_dataset.py:89-97 | a label that occurs once makes the split raise, whatever the splitter does |
| Preprocess.Parts | src/services/prepare_dataset/preprocess_and_prepare_dataset.py:100-104 | the dict of the three parts has exactly the keys train, eval and test |
| Preprocess.LabelCount | src/services/prepare_dataset/preprocess_and_prepare_dataset.py:89-91 | the number of rows with a label id, at most the rows |
| Preprocess.SplitPartitions | src/services/prepare_dataset/preprocess_and_prepare_dataset.py:75-105 | the three parts hold every row exactly as often as the frame does |
| Preprocess.SplitSizesAddUp | src/services/prepare_dataset/preprocess_and_prepare_dataset.py:302 | the split sizes add up to the frame's length |
| Preprocess.SplitSizesPartition | src/services/prepare_dataset/preprocess_and_prepare_dataset.py:75-105 | the three part sizes add up to the number of rows |
| Preprocess.PreprocessPipeline | scripts/dept-classifier/preprocess_and_prepare_dataset.py:110-122 | a bad label column is a ValueError; otherwise the split succeeds iff the cleaned rows are stratifiable and the splitter succeeds, and the result has the three keys |
| Preprocess.PipelineKeepsEveryRow | scripts/dept-classifier/preprocess_and_prepare_dataset.py:110-122 | when the pipeline succeeds, the split sizes add up to the rows that survived cleaning |
| Preprocess.VersionTagFormat | src/services/prepare_dataset/preprocess_and_prepare_dataset.py:265-266 | the tag has 16 characters: "v", eight date digits, "_", six time digits; the digits read back as the clock |
| Preprocess.VersionTag | src/services/prepare_dataset/preprocess_and_prepare_dataset.py:265-266 | the tag "v" + timestamp, with no contract of its own; VersionTagFormat states its shape |
| Preprocess.Publish | src/services/prepare_dataset/preprocess_and_prepare_dataset.py:268-346 | success iff creating the repo, pushing and uploading the README succeed; a failed create or push stops with that error; the tag is created only on success; metadata and tag carry the one version tag |
| Preprocess.PreprocessAndPushDataset | src/services/prepare_dataset/preprocess_and_prepare_dataset.py:235-349 | a bad label column or a failed split raises before any remote call; success iff the pipeline and the remote steps succeed, returning the split dict; uploaded metadata sizes add up to num_samples |
| Misclassification.StatusCode | src/backend/app/routers/misclassification.py:47-150 | 404, 400 and 403 for the three errors |
| Misclassification.ReportCheck | src/backend/app/routers/misclassification.py:46-67 | 404 for an unknown complaint, then 400 for a pending report, then 400 without a correction |
| Misclassification.ReportCheckOrder | src/backend/app/routers/misclassification.py:46-67 | the checks go in order: a missing complaint is 404 whatever else holds, then a pending report is 400, then a missing correction is 400 |
| Misclassification.AddKeepsOnePending | src/backend/app/routers/misclassification.py:51-80 | adding an unreviewed report for a complaint with none pending keeps at most one pending per complaint |
| Misclassification.SecondReportRefused | src/backend/app/routers/misclassification.py:51-60 | a second report for the same complaint is refused until the first is reviewed |
| Misclassification.FilterExactly | src/backend/app/routers/misclassification.py:100-106 | a record is listed iff it is in the table and matches the reviewed and department filters |
| Misclassification.FilterKeepsOrder | src/backend/app/routers/misclassification.py:100-106 | filtering keeps table order: the matches of a table's front come before those of its back |
| Misclassification.Filter | src/backend/app/routers/misclassification.py:100-106 | the filtered list is no longer than the table |
| Misclassification.Page | src/backend/app/routers/misclassification.py:108 | offset then limit: at most `limit` items, a window of the input |
| Misclassification.ListMisclassificationsSound | src/backend/app/routers/misclassification.py:97-109 | listed records are in the table and pass the filters, at most `limit` |
| Misclassification.ListMisclassifications | src/backend/app/routers/misclassification.py:97-109 | list_misclassifications, filter then page, with no contract of its own; ListMisclassificationsSound, UnfilteredFirstPage and UnfilteredListsAll state it |
| Misclassification.UnfilteredFirstPage | src/backend/app/routers/misclassification.py:97-109 | with no filters and offset 0, the page is the first min(limit, len) records of the table |
| Misclassification.UnfilteredListsAll | src/backend/app/routers/misclassification.py:97-109 | with no filters, offset 0 and a large limit list every record |
| Misclassification.FilterAll | src/backend/app/routers/misclassification.py:100-106 | with neither filter every record is kept, in order |
| Misclassification.Find | src/backend/app/routers/misclassification.py:118-123 | the index of the first record with the id, or None when there is none |
| Misclassification.DeleteCheckRules | src/backend/app/routers/misclassification.py:135-150 | 404, then 403 for another admin, then 400 once reviewed; a delete passes iff the caller is the reporter and it is unreviewed |
| Misclassification.DeleteCheck | src/backend/app/routers/misclassification.py:135-150 | the checks of delete_misclassification, with no contract of its own; DeleteCheckRules states them both ways |
| Misclassification.Without | src/backend/app/routers/misclassification.py:152-153 | the records without that id, no more than before |
| Misclassification.WithoutExactly | src/backend/app/routers/misclassification.py:152-153 | deleting removes exactly that record; every other record stays in order |
| Misclassification.WithoutKeepsInvariants | src/backend/app/routers/misclassification.py:152-153 | removal keeps unique ids and at most one pending report per complaint |
| Misclassification.MarkReviewed | src/backend/app/routers/misclassification.py:175-180 | the record with the id becomes reviewed at `now`, and nothing else changes |
| Misclassification.ReviewTwice | src/backend/app/routers/misclassification.py:175-185 | reviewing again keeps the record reviewed and only moves its review time |
| Misclassification.ReviewKeepsInvariants | src/backend/app/routers/misclassification.py:175-185 | reviewing keeps the table's invariants |
| Misclassification.MisclassificationTable.constructor | src/backend/app/routers/misclassification.py:14-29 | an empty report table over the given complaints, ids starting at 1 |
| Misclassification.MisclassificationTable.Report | src/backend/app/routers/misclassification.py:35-84 | after the checks a new unreviewed record copies the complaint's department and urgency as the predictions; the invariant is kept |
| Misclassification.MisclassificationTable.Delete | src/backend/app/routers/misclassification.py:128-155 | after the checks only that record is removed |
| Misclassification.MisclassificationTable.Review | src/backend/app/routers/misclassification.py:158-185 | 404 for an unknown id, otherwise the record is marked reviewed at `now` |
| LabelConverter.ResolveLabel | src/backend/app/utils/label_converter.py:6-19 | a resolved label is always one of the mapping's names |
| LabelConverter.ResolveLabelCases | src/backend/app/utils/label_converter.py:6-19 | None gives None; a string passes iff it is a mapping name, else InvalidLabel; an int or bool gives its name iff it is a key, else InvalidCode; any other type is a TypeError; each both ways |
| LabelConverter.BoolResolvesAsInt | src/backend/app/utils/label_converter.py:15-18 | True resolves like 1 and False like 0 |
| LabelConverter.ResolveIdempotent | src/backend/app/utils/label_converter.py:10-18 | the name a value resolves to resolves to itself |
| LabelConverter.ResolveInverseCode | src/backend/app/utils/label_converter.py:3-4 | for a label dict written as a one-to-one literal of codes to names, the id INV_* gives a name resolves back to that name, and a code's name maps back to that code; the literals themselves are not part of this model, so one-to-one is taken as given |
| Chatbot.MyComplaintsIsFiling | src/backend/app/chatbot_api.py:669-677 | a message containing "my complaints" is filing (or a greeting), never the complaint list |
| Chatbot.HiInsideAWordGreets | src/backend/app/chatbot_api.py:660-684 | any message containing "hi", even inside a word, is a greeting |
| Chatbot.NumberIsUnknown | src/backend/app/chatbot_api.py:660-684 | a bare number matches no keyword and is "unknown" |
| Chatbot.HelpIsDetected | src/backend/app/chatbot_api.py:660-684 | "help" is detected as the help intent |
| Chatbot.DetectIntent | src/backend/app/chatbot_api.py:660-684 | detect_intent, with no contract of its own; the keyword lemmas around it (MyComplaintsIsFiling, HiInsideAWordGreets, NumberIsUnknown, HelpIsDetected and the Help* lemmas) state its behaviour |
| Chatbot.HelpNotGreeting | src/backend/app/chatbot_api.py:660-684 | "help" contains no greeting keyword |
| Chatbot.HelpNotFiling | src/backend/app/chatbot_api.py:660-684 | "help" contains no filing keyword |
| Chatbot.HelpNotStatus | src/backend/app/chatbot_api.py:660-684 | "help" contains no status keyword |
| Chatbot.HelpNotList | src/backend/app/chatbot_api.py:660-684 | "help" contains no list keyword |
| Chatbot.ExtractIntRules | src/backend/app/chatbot_api.py:84-98 | 0 for a missing object, a missing field or a value int() refuses; otherwise int() of it |
| Chatbot.ExtractInt | src/backend/app/chatbot_api.py:84-98 | extract_int, with no contract of its own; ExtractIntRules and the round-trip lemmas state it |
| Chatbot.ExtractStrRules | src/backend/app/chatbot_api.py:100-105 | "" for a missing object or a falsy value; otherwise str() of it |
| Chatbot.ExtractStr | src/backend/app/chatbot_api.py:100-105 | extract_str, with no contract of its own; ExtractStrRules and the round-trip lemmas state it |
| Chatbot.ExtractRoundTrip | src/backend/app/chatbot_api.py:84-105 | an int read with extract_str reads back through extract_int unchanged, 0 included |
| Chatbot.IntTextRoundTrip | src/backend/app/chatbot_api.py:84-98 | int() reads back str() of an int |
| Chatbot.ExtractStrOfInt | src/backend/app/chatbot_api.py:100-105 | extract_str of an int field is its decimal text, and "" for 0 |
| Chatbot.ExtractIntOfText | src/backend/app/chatbot_api.py:84-98 | extract_int of a text field is int() of it, or 0 when int() refuses |
| Chatbot.AsIntent | src/backend/app/chatbot_api.py:120-124 | the stored intent string names the intent it came from |
| Chatbot.AsIntentOfName | src/backend/app/chatbot_api.py:120-124 | an intent stored by name is read back as the same intent |
| Chatbot.Split | src/backend/app/chatbot_api.py:183 | str.split(): non-empty runs without whitespace, in order |
| Chatbot.SplitNumber | src/backend/app/chatbot_api.py:183 | a bare number splits into itself alone |
| Chatbot.FirstNumber | src/backend/app/chatbot_api.py:183-188 | the value of the first all-digit word, and None iff there is none |
| Chatbot.SelectMunicipality | src/backend/app/chatbot_api.py:323-335 | a number picks by 1-based index when in range; other text picks the first name containing it, ignoring case |
| Chatbot.Classify | src/backend/app/chatbot_api.py:415-428 | resolved predictions lie in the label maps; a failed prediction falls back to code 0 |
| Chatbot.DetectTurn | src/backend/app/chatbot_api.py:109-124 | the message is stripped; the intent is re-detected and stored exactly when the context has none, or when a non-empty, non-numeric message arrives outside any flow |
| Chatbot.TrackStatus | src/backend/app/chatbot_api.py:179-258 | the id comes from the context, else from the first all-digit word unless it is 0; an id is looked up (found clears the context, unknown drops it); no id re-prompts with the context unchanged |
| Chatbot.FirstTen | src/backend/app/chatbot_api.py:153 | at most ten ids, a prefix of the newest-first list |
| Chatbot.ListComplaintsReply | src/backend/app/chatbot_api.py:138-175 | sign-in is required; the reply lists at most ten newest complaints with an empty context |
| Chatbot.DistrictStep | src/backend/app/chatbot_api.py:275-307 | only an in-range number picks a district; otherwise the context is unchanged |
| Chatbot.FilingSteps | src/backend/app/chatbot_api.py:309-469 | municipality, ward and description steps, then the filing that clears the context; never a help or unknown reply |
| Chatbot.Front | src/backend/app/chatbot_api.py:126-307 | the replies given before step 2 (greeting, list, status, step 1), exactly when the turn is answered early |
| Chatbot.ChatbotMessage | src/backend/app/chatbot_api.py:107-519 | as written: every turn not answered early runs steps 2-4, so no reply is ever the help text, the LLM answer or the fallback, and "help" with no district or municipality is asked for a district under file_grievance |
| Chatbot.ChatbotMessageNested | src/backend/app/chatbot_api.py:107-519 | corrected: steps 2-4 only for filing; help gets the help text with an empty context, unknown the LLM answer or the fallback, and an unreadable intent a server error |
| Locations.MatchingFirst | src/backend/app/routers/location.py:223-236 | the first match is the first entry that passes the filter |
| Locations.MatchingEmpty | src/backend/app/routers/location.py:233-234 | nothing matches exactly when no entry passes |
| Locations.IdsOf | src/backend/app/routers/location.py:237-245 | the answer has district_id, municipality_id and ward_id exactly for the truthy parameters |
| Locations.GetLocationIds | src/backend/app/routers/location.py:213-245 | the ids of the first entry passing the normalised filters (ward exact, 0 ignored), or 404 when none does |
| Locations.BlankDistrictStillAnswered | src/backend/app/routers/location.py:220-239 | a blank district name filters nothing yet still puts the first entry's district id in the answer |
| Locations.FindIndex | src/backend/app/routers/location.py:42 | the index of the first row with the id, or None |
| Locations.Filter | src/backend/app/routers/location.py:36 | a row is kept iff it is in the table with the given active flag and, when the parent filter is truthy, that parent |
| Locations.FilterKeepsOrder | src/backend/app/routers/location.py:36 | filtering keeps table order: the matches of a table's front come before those of its back |
| Locations.Window | src/backend/app/routers/location.py:37 | offset then limit: at most `limit` rows |
| Locations.List | src/backend/app/routers/location.py:29-37 | read_districts, read_municipalities and read_wards: filter then page, with no contract of its own; ListRules and FilterZeroParent state it |
| Locations.ListRules | src/backend/app/routers/location.py:29-37 | a page holds at most `limit` rows, each from the table and passing the filters; a parent id of 0 filters nothing |
| Locations.FilterZeroParent | src/backend/app/routers/location.py:84-86 | a parent id of 0 filters like no parent id |
| Locations.SoftDeleteRules | src/backend/app/routers/location.py:59-67 | a soft-deleted row leaves the active lists and appears in the inactive ones; no row is removed |
| Locations.SoftDeleted | src/backend/app/routers/location.py:59-67 | the table after a soft delete, with no contract of its own; SoftDeleteRules states it |
| Locations.LocationTable.constructor | src/backend/app/routers/location.py:29-67 | a table holding the given rows, whose ids are unique |
| Locations.LocationTable.Read | src/backend/app/routers/location.py:40-45 | the row with the id, or 404 |
| Locations.LocationTable.Update | src/backend/app/routers/location.py:48-56 | the row's payload and parent are replaced and nothing else changes; 404 when absent |
| Locations.LocationTable.Delete | src/backend/app/routers/location.py:59-67 | only the row's active flag is cleared; 404 when absent |
| LocationLoader.FindDistrictAppend | src/backend/app/scripts/load_location.py:39 | after an append the lookup still finds what it found before, else the new district when its name matches, else nothing |
| LocationLoader.FindDistrict | src/backend/app/scripts/load_location.py:39 | a found district is in the table under that name |
| LocationLoader.FindMunicipalityAppend | src/backend/app/scripts/load_location.py:56-58 | after an append the lookup still finds what it found before, else the new municipality when name and district match, else nothing |
| LocationLoader.FindMunicipality | src/backend/app/scripts/load_location.py:56-58 | a found municipality is in the table under that name and district |
| LocationLoader.Parse | src/backend/app/scripts/load_location.py:28-35 | the names are stripped; a ward count int() rejects skips the row |
| LocationLoader.ParseAll | src/backend/app/scripts/load_location.py:27-35 | one parse result per CSV row, in order |
| LocationLoader.MissingWards | src/backend/app/scripts/load_location.py:74-80 | exactly the ward numbers 1..n the table lacks, in increasing order |
| LocationLoader.NoneMissing | src/backend/app/scripts/load_location.py:78-80 | with every ward present there is nothing to insert |
| LocationLoader.LocationStore.constructor | src/backend/app/scripts/load_location.py:11-15 | the store holds the given tables and id counters, with no commit yet |
| LocationLoader.LocationStore.EnsureDistrict | src/backend/app/scripts/load_location.py:37-51 | the district comes from the cache, the table, or a fresh committed insert; the cache is kept in agreement |
| LocationLoader.LocationStore.EnsureMunicipality | src/backend/app/scripts/load_location.py:53-70 | the same rule keyed by (district id, name) |
| LocationLoader.LocationStore.EnsureWards | src/backend/app/scripts/load_location.py:72-86 | the missing wards 1..n are inserted, and one commit follows only if something was |
| LocationLoader.LocationStore.LoadEntry | src/backend/app/scripts/load_location.py:37-86 | afterwards the row's district, municipality and wards are present |
| LocationLoader.LocationStore.LoadEntries | src/backend/app/scripts/load_location.py:27-86 | afterwards every entry is covered; on tables that already cover them nothing is inserted or committed |
| LocationLoader.LocationStore.LoadLocations | src/backend/app/scripts/load_location.py:10-86 | the tables cover the file; a second run on the same file changes nothing |
| AnalyticsService.KeyedCounts | src/backend/app/services/analytics_service.py:54-70 | every row's key (NULL as "Unspecified") is present; a key's value is the count of the last row with it |
| AnalyticsService.KeyedCountsKeepsGroups | src/backend/app/services/analytics_service.py:54-70 | with distinct GROUP BY values and none literally "Unspecified", every row's count is reported |
| AnalyticsService.SummaryCounts | src/backend/app/services/analytics_service.py:37-90 | the total is `scalar() or 0`, with one keyed dict per category |
| AnalyticsService.TwoDigitsShape | src/backend/app/services/analytics_service.py:118 | a number below 100 takes two zero-padded digits whose value is the number |
| AnalyticsService.MonthLabelInjective | src/backend/app/services/analytics_service.py:131-138 | two month labels agree only for the same year and month |
| AnalyticsService.MonthLabel | src/backend/app/services/analytics_service.py:138 | the f-string "year-MM", with no contract of its own; MonthLabelInjective states it |
| AnalyticsService.WeekLabel | src/backend/app/services/analytics_service.py:119 | the f-string "year-Www", with no contract of its own; WeekLabelShape states its shape |
| AnalyticsService.WeekLabelShape | src/backend/app/services/analytics_service.py:118 | a week label is the year's digits, "-W" and two digits |
| AnalyticsService.MonthsBack | src/backend/app/services/analytics_service.py:131-137 | the (year, month) `back` months earlier: month in 1..12 and year*12+month lowered by `back` |
| AnalyticsService.LookbackIndex | src/backend/app/services/analytics_service.py:103-106 | position j of n periods is n-1-j steps back; the last is the current one |
| AnalyticsService.LookbackLabels | src/backend/app/services/analytics_service.py:103-106 | the shared loop for i from n-1 down to 0 gives exactly the lookback |
| AnalyticsService.PeriodLabelsForDays | src/backend/app/services/analytics_service.py:96-106 | `days` ISO dates, oldest first, ending today |
| AnalyticsService.PeriodLabelsForWeeks | src/backend/app/services/analytics_service.py:109-120 | `weeks` week labels, oldest first, ending this week |
| AnalyticsService.NormalizeMonth | src/backend/app/services/analytics_service.py:133-137 | the month lands in 1..12 with the same year*12+month |
| AnalyticsService.MonthBack | src/backend/app/services/analytics_service.py:131-138 | the label of the month i months back, by the closed form |
| AnalyticsService.PeriodLabelsForMonths | src/backend/app/services/analytics_service.py:123-139 | `months` YYYY-MM labels, oldest first, the last being this month |
| AnalyticsService.Slot | src/backend/app/services/analytics_service.py:186-191 | a row lands in a period iff it has a period whose label is one of the labels, and then in that label |
| AnalyticsService.AddRow | src/backend/app/services/analytics_service.py:192-196 | a counted row adds its count to its period's total and its two buckets |
| AnalyticsService.NoKeyNoBucket | src/backend/app/services/analytics_service.py:192-196 | a key no counted row carries has a 0 count in every period |
| AnalyticsService.GroupRows | src/backend/app/services/analytics_service.py:169-196 | every period starts at 0; rows with no period or an out-of-range label are skipped; the result is the trend of the rows |
| AnalyticsService.GroupedTrend | src/backend/app/services/analytics_service.py:142-203 | _grouped_trend's dicts are the trend of the rows under label_from_truncated |
| AnalyticsService.TotalIsBucketSum | src/backend/app/services/analytics_service.py:192-196 | a period total is the sum of its urgency buckets, and of its department buckets |
| AnalyticsService.TrendTotalIsColumnSum | src/backend/app/services/analytics_service.py:169-203 | on the returned trend each total equals the sum over either bucket family |
| AnalyticsService.GetCachedOrCompute | src/backend/app/services/analytics_service.py:243-269 | a non-empty cache is returned as is; otherwise the named analytic is computed, and an unknown name is a ValueError |
| WeeklyAnalytics.Iso | src/backend/app/analytics/service.py:16-21 | None stays None; otherwise the UTC text of the instant |
| WeeklyAnalytics.UtcSeconds | src/backend/app/analytics/service.py:16-21 | a naive datetime is taken as UTC; an aware one is shifted by its offset |
| WeeklyAnalytics.IsoNaiveIsUtc | src/backend/app/analytics/service.py:16-21 | a naive datetime is read as UTC, and equal instants give equal text |
| WeeklyAnalytics.WeekKeyShape | src/backend/app/analytics/service.py:24-30 | the key is the year's digits, "-W" and the week in two digits |
| WeeklyAnalytics.WeekKey | src/backend/app/analytics/service.py:24-30 | _week_key, with no contract of its own; WeekKeyShape states its shape |
| WeeklyAnalytics.CountsBy | src/backend/app/analytics/service.py:55-86 | the loop's dict is the keyed counts: NULL under "Unspecified", last row wins |
| WeeklyAnalytics.CountsByDistrict | src/backend/app/analytics/service.py:88-104 | every district row's name is a key |
| WeeklyAnalytics.WeekKeys | src/backend/app/analytics/service.py:126-133 | `weeks` keys, oldest first, ending this week |
| WeeklyAnalytics.TrendsWeekly | src/backend/app/analytics/service.py:107-160 | every week starts at 0; rows with no date or an out-of-range week are skipped; each kept row adds 1 to its week and both buckets |
| WeeklyAnalytics.WeeklyTotalCounts | src/backend/app/analytics/service.py:147 | a week's total is the number of complaints counted in that week |
| WeeklyAnalytics.UnitTotalCounts | src/backend/app/analytics/service.py:147 | when every row counts 1 a period total is the number of rows counted in it |
| WeeklyAnalytics.GetCachedOrCompute | src/backend/app/analytics/service.py:182-203 | a non-empty cache is returned as is; otherwise computed; an unknown name is a ValueError |
| TextInputSchema.ValidateText | src/services/dept_classifier_api/response_schema.py:30-42 | a string comes back stripped, a list with its items as posted; only a value of neither type is a TypeError |
| TextInputSchema.FirstBad | src/services/dept_classifier_api/response_schema.py:35-40 | None iff every item from i on is a non-blank string, else the first index that is not |
| TextInputSchema.ValidateString | src/services/urgency_classiifer_api/response_schema.py:19-22 | a string is accepted iff it is not all whitespace, and then comes back stripped |
| TextInputSchema.ValidateList | src/services/dept_classifier_api/response_schema.py:35-40 | a list is accepted iff it is non-empty and every item is a non-blank string |
| TextInputSchema.ListErrorNamesFirstBad | src/services/urgency_classiifer_api/response_schema.py:23-29 | the error of a rejected list names its first bad index |
| TextInputSchema.ValidateTextStable | services/dept_classifier_api/response_schema.py:19-32 | what the validator returns passes it again unchanged |
| TextInputSchema.StrippedEnds | src/services/dept_classifier_api/response_schema.py:33 | a stripped string starts and ends with no whitespace |
| TextInputSchema.StripIdempotent | src/services/dept_classifier_api/response_schema.py:33 | stripping twice is stripping once |
| TextInputSchema.CleanField | src/services/dept_classifier_api/response_schema.py:46-52 | cleaning keeps the shape and list length and cleans each item |
| TextInputSchema.CleanedTextInput | src/services/urgency_classiifer_api/response_schema.py:35-41 | accepted iff validation accepts; then the stripped string or each item is cleaned |
| TextInputSchema.PlainTextInput | services/dept_classifier_api/response_schema.py:20-32 | list items come back as posted, without cleaning |
| TextInputSchema.UrlOnlyPassesAsEmpty | src/services/dept_classifier_api/response_schema.py:46-52 | a URL-only text passes validation and reaches the classifier as "", alone or in a list |
| AuthForms.MetPlusMissing | frontend-next/src/app/auth/signup/page.tsx:135-140 | every criterion is met or missing: the two counts add up to the criteria |
| AuthForms.Met | frontend-next/src/app/auth/signup/page.tsx:135-140 | the criteria the password meets, at most all of them |
| AuthForms.Missing | src/frontend/auth.js:58-79 | the criteria the password misses, at most all of them |
| AuthForms.ScoreBounds | frontend-next/src/app/auth/signup/page.tsx:135-140 | the score lies in 0..5, and it is 5 exactly when nothing is missing |
| AuthForms.NonEmptyScoresAtLeastOne | frontend-next/src/app/auth/signup/page.tsx:135-140 | a non-empty password meets at least one criterion |
| AuthForms.Band | frontend-next/src/app/auth/signup/page.tsx:141-143 | <= 2 Weak, 3-4 Medium, 5 Strong |
| AuthForms.GetPasswordStrength | frontend-next/src/app/auth/login/page.tsx:211-222 | the incrementing function gives the score and band of the criteria met, nothing for "" |
| AuthForms.StrengthShape | frontend-next/src/app/auth/signup/page.tsx:133-144 | empty exactly for the empty password; a shown score is 1..5, and "Strong" means all five |
| AuthForms.Assess | src/frontend/auth.js:58-79 | strength is the number of criteria met, and feedback lists the missing ones in order |
| AuthForms.StrengthIndicator.constructor | src/frontend/auth.js:43-47 | the indicator and hint start hidden |
| AuthForms.StrengthIndicator.CheckPasswordStrength | src/frontend/auth.js:43-96 | "" only hides the indicator and hint; otherwise both show, and the level and hint follow the score and missing criteria |
| AuthForms.HintContents | src/frontend/auth.js:82-95 | a weak hint names the first two missing criteria, a medium one all of them, a strong one none |
| AuthForms.SubmitLogin | src/frontend/auth.js:123-134 | an empty trimmed e-mail or empty password is an error with no request |
| AuthForms.SubmitSignup | src/frontend/auth.js:179-225 | the checks run in order (required, name >= 2, password >= 6, phone >= 10) and the first failure is reported; ward_id is sent only when chosen |
| AuthForms.BlankNameRejected | src/frontend/auth.js:182-193 | a name of blanks counts as missing |
| AuthForms.SignupSchemaErrors | frontend-next/src/app/auth/signup/page.tsx:13-22 | each field fails iff its rule fails, and the mismatch lands on confirmPassword |
| AuthForms.LoginSchemaErrors | frontend-next/src/app/auth/login/page.tsx:115-118 | only empty fields are errors |
| AuthForms.SchemaStricterThanHandler | frontend-next/src/app/auth/login/page.tsx:120-129 | a form the signup schema accepts passes the static handler's checks once nothing needs trimming |
| AuthForms.LoginErrorMessage | frontend-next/src/app/auth/login/page.tsx:162-168 | a truthy detail, else the Error's message, else the fixed text |
| AuthForms.LoginErrorHiddenOnlyForEmptyMessage | frontend-next/src/app/auth/login/page.tsx:162-168 | the shown text is empty only for an Error with an empty message and no detail |
| Dashboard.PageCount | frontend-next/src/app/dashboard/page.tsx:767 | Math.ceil(n/5): the fewest pages of 5 that hold n |
| Dashboard.SliceIndex | frontend-next/src/app/dashboard/page.tsx:774 | JavaScript slice index clamping: never beyond the length, and an index inside the list is kept |
| Dashboard.PageSliceIsWindow | frontend-next/src/app/dashboard/page.tsx:773-774 | page p holds items (p-1)*5 up to p*5, cut at the end |
| Dashboard.PageSlice | frontend-next/src/app/dashboard/page.tsx:773-774 | the slice of a page, with no contract of its own; PageSliceIsWindow, PageOfIndex and PagesCover state its properties |
| Dashboard.PageOfIndex | frontend-next/src/app/dashboard/page.tsx:773-774 | item i is on page i/5+1 at position i%5 |
| Dashboard.AllPagesCover | frontend-next/src/app/dashboard/page.tsx:773-774 | the pages one after another are the whole list |
| Dashboard.PagesCover | frontend-next/src/app/dashboard/page.tsx:773-774 | the first k pages one after another are the list cut at k*5 |
| Dashboard.RangeMatchesPage | frontend-next/src/app/dashboard/page.tsx:764-767 | "Showing from to to" counts exactly the items on the page, by 1-based position |
| Dashboard.Range | frontend-next/src/app/dashboard/page.tsx:764-767 | the "Showing" numbers, with no contract of its own; RangeMatchesPage states them against the page |
| Dashboard.AnchorsAreButtons | frontend-next/src/app/dashboard/page.tsx:954-970 | on a page within range, the first, last and current pages have a button |
| Dashboard.EndsAreButtons | frontend-next/src/app/dashboard/page.tsx:954-970 | the first and last pages have a button even on a stranded page one past the end |
| Dashboard.PageItemAt | frontend-next/src/app/dashboard/page.tsx:954-970 | button, ellipsis or nothing for a page, with no contract of its own; AnchorsAreButtons, EndsAreButtons, HiddenPagesUnderEllipsis and EllipsisHidesOnlyFarPages state its properties |
| Dashboard.HiddenPagesUnderEllipsis | frontend-next/src/app/dashboard/page.tsx:954-970 | a page with neither button nor ellipsis lies inside a run an ellipsis stands for |
| Dashboard.EllipsisHidesOnlyFarPages | frontend-next/src/app/dashboard/page.tsx:954-970 | an ellipsis stands only for pages that would have no button |
| Dashboard.CountStatus | frontend-next/src/app/dashboard/page.tsx:379-380 | the number of grievances with the status, at most all of them |
| Dashboard.StatsOf | frontend-next/src/app/dashboard/page.tsx:378-386 | the total is the list length, resolved counts "Resolved" and active counts "In Progress" |
| Dashboard.ResolvedPlusActive | frontend-next/src/app/dashboard/page.tsx:379-380 | counts of two statuses never add up to more than the list |
| Dashboard.StatsBounded | frontend-next/src/app/dashboard/page.tsx:378-386 | resolved + active never exceeds the total |
| Dashboard.Preview | frontend-next/src/app/dashboard/page.tsx:540-542 | no message gives "No description provided"; a message of at most 80 characters is shown whole; a longer one is cut to 80 plus "..." |
| Dashboard.PreviewBounded | frontend-next/src/app/dashboard/page.tsx:540-542 | a non-empty message's preview fits in 83 characters, and equals the message iff the message fits in 80 or is 83 long ending in "..." |
| Dashboard.DashboardPage.constructor | frontend-next/src/app/dashboard/page.tsx:247-254 | page 1, an empty list and zero stats |
| Dashboard.DashboardPage.Load | frontend-next/src/app/dashboard/page.tsx:369-386 | the list is stored and the stats computed from it |
| Dashboard.DashboardPage.SelectTab | frontend-next/src/app/dashboard/page.tsx:636-641 | only "My Grievances" resets the page to 1 |
| Dashboard.DashboardPage.Previous | frontend-next/src/app/dashboard/page.tsx:945 | callable on any page from 1 while the bar is shown, a stranded one included: one page back, never before 1, and back in range from a page at most one past the end |
| Dashboard.DashboardPage.Next | frontend-next/src/app/dashboard/page.tsx:990 | callable on any page from 1 while the bar is shown: one page on, never past ceil(n/5), so always in range afterwards |
| Dashboard.DashboardPage.GoToPage | frontend-next/src/app/dashboard/page.tsx:975 | the page becomes the button's number |
| Dashboard.DashboardPage.DeleteClick | frontend-next/src/app/dashboard/page.tsx:288-291 | the id is remembered and the dialog opened |
| Dashboard.DashboardPage.ConfirmDelete | frontend-next/src/app/dashboard/page.tsx:293-313 | no target (or id 0) changes nothing; success removes that id, decrements the total and closes the dialog; failure only raises the alert; the page never moves |
| Dashboard.DashboardPage.ConfirmDeleteClamped | frontend-next/src/app/dashboard/page.tsx:293-305 | corrected: no target (or id 0) changes nothing; success removes that id, decrements the total, clears the target and closes the dialog; failure only raises the alert; in every case the page is clamped back into range |
| Dashboard.Without | frontend-next/src/app/dashboard/page.tsx:300 | exactly the grievances with another id stay |
| Dashboard.WithoutNone | frontend-next/src/app/dashboard/page.tsx:300 | an id no grievance carries leaves the list unchanged |
| Dashboard.WithoutOnce | frontend-next/src/app/dashboard/page.tsx:300-305 | removing an id that occurs once shortens the list by one, so the total still matches |
| Dashboard.ClampPage | frontend-next/src/app/dashboard/page.tsx:990 | the page itself when it exists, else the last page |
| Dashboard.DeleteStrandsPage | frontend-next/src/app/dashboard/page.tsx:293-305 | as written: deleting the sixth of six items on page 2 leaves page 2 empty with no bar to go back |
| Dashboard.StrandedPageRecovers | frontend-next/src/app/dashboard/page.tsx:990 | eleven grievances, page 3, delete the eleventh: page 3 is now past the end but the bar still shows, and Next, callable there, brings the page back to 2 |
| ReportManager.ComplaintParams | frontend-next/src/components/dashboard/MisclassificationManager.jsx:48-56 | parameters by role, each sent only when set |
| ReportManager.PendingParams | frontend-next/src/components/dashboard/MisclassificationManager.jsx:74-77 | always reviewed=false, plus the department for a department admin who has one |
| ReportManager.RefreshParamsAsWritten | frontend-next/src/components/dashboard/MisclassificationManager.jsx:121 | as written: the refresh asks only reviewed=false, for every role |
| ReportManager.RefreshDropsDepartment | frontend-next/src/components/dashboard/MisclassificationManager.jsx:121 | as written, the refresh loses a department admin's department filter |
| ReportManager.RefreshDiffersOnlyForDepartmentAdmins | frontend-next/src/components/dashboard/MisclassificationManager.jsx:74-77 | for every other role the refresh asks the same as the first fetch |
| ReportManager.RefreshParams | frontend-next/src/components/dashboard/MisclassificationManager.jsx:74-77 | corrected: the refresh repeats the first pending fetch for every role |
| ReportManager.RefreshFor | frontend-next/src/components/dashboard/MisclassificationManager.jsx:121 | the refresh parameters of each version: reviewed=false alone as written, the first pending fetch's parameters when corrected |
| ReportManager.Correction | frontend-next/src/components/dashboard/MisclassificationManager.jsx:99-105 | a correction is sent iff one was chosen and it differs from the current value, and then it is the chosen one |
| ReportManager.BuildPayload | frontend-next/src/components/dashboard/MisclassificationManager.jsx:94-105 | a correction is included only when chosen and different from the current value |
| ReportManager.PayloadOnlyRealCorrections | frontend-next/src/components/dashboard/MisclassificationManager.jsx:98-110 | never a move to where the complaint already is; empty iff nothing changes |
| ReportManager.Search | frontend-next/src/components/dashboard/MisclassificationManager.jsx:145-148 | exactly the complaints matching the term, in order |
| ReportManager.SearchIgnoresCase | frontend-next/src/components/dashboard/MisclassificationManager.jsx:145-148 | the term's case does not change the result |
| ReportManager.EmptySearch | frontend-next/src/components/dashboard/MisclassificationManager.jsx:145-148 | an empty term keeps a complaint with a message or department, and drops one with neither |
| ReportManager.WithoutReport | frontend-next/src/components/dashboard/MisclassificationManager.jsx:137 | exactly the reports with another id stay |
| ReportManager.WithoutKeepsOthers | frontend-next/src/components/dashboard/MisclassificationManager.jsx:137 | an id no listed report carries leaves the list unchanged, order included |
| ReportManager.Manager.constructor | frontend-next/src/components/dashboard/MisclassificationManager.jsx:44-89 | an empty manager for the user whose first two requests are the role's complaint fetch and its pending-report fetch |
| ReportManager.Manager.ReportMisclassification | frontend-next/src/components/dashboard/MisclassificationManager.jsx:91-129 | no selection does nothing; no real correction alerts with no request; otherwise the payload is posted, and on success the dialog resets and the pending list is refreshed with the as-written parameters (only reviewed=false) or, for the corrected version, with the first fetch's parameters |
| ReportManager.Manager.HandleDeleteReport | frontend-next/src/components/dashboard/MisclassificationManager.jsx:131-143 | nothing unless confirmed; on success only that report leaves the list |
| TeamManagement.Filter | frontend-next/src/components/dashboard/TeamManagement.jsx:178-192 | search AND municipality, or search AND department, by view |
| TeamManagement.NoFilterKeepsNamed | frontend-next/src/components/dashboard/TeamManagement.jsx:178-192 | an empty search with "all" lists every admin with a name or e-mail |
| TeamManagement.Group | frontend-next/src/components/dashboard/TeamManagement.jsx:195-198 | exactly the admins of that department, in order |
| TeamManagement.ActiveAmong | frontend-next/src/components/dashboard/TeamManagement.jsx:207 | the number of departments with an admin, at most the departments |
| TeamManagement.ActiveAmongExact | frontend-next/src/components/dashboard/TeamManagement.jsx:207 | the active count is 0 iff no admin belongs to any of the departments |
| TeamManagement.ActiveDepartmentsBounds | frontend-next/src/components/dashboard/TeamManagement.jsx:207 | at most 4 active departments, and 0 iff no admin is in one of the four |
| TeamManagement.GroupsPartition | frontend-next/src/components/dashboard/TeamManagement.jsx:195-198 | with distinct departments the group sizes add up to the number of admins in any of them: no admin is in two groups |
| TeamManagement.FourGroupsPartition | frontend-next/src/components/dashboard/TeamManagement.jsx:195-198 | the four department groups add up to the admins of those departments, never more than all admins |
| TeamManagement.Team.constructor | frontend-next/src/components/dashboard/TeamManagement.jsx:44-95 | the roles follow the viewer's role; nothing loaded or selected, no stats, filters at "all" and an empty search; the requests are exactly the mount effect's |
| TeamManagement.MountRequests | frontend-next/src/components/dashboard/TeamManagement.jsx:47-94 | no user asks nothing; a super admin asks for the municipal admins (district id when present) and, iff the district id is truthy, its municipalities; a municipal admin with a truthy municipality asks for its department admins; anyone else asks nothing |
| TeamManagement.Team.LoadAdmins | frontend-next/src/components/dashboard/TeamManagement.jsx:60-62 | an admin-list answer replaces the admins; an error leaves everything as it was |
| TeamManagement.Team.LoadMunicipalities | frontend-next/src/components/dashboard/TeamManagement.jsx:70-73 | the municipalities become the answer, or an empty list on an error; nothing else changes |
| TeamManagement.Team.DisplayAdmins | frontend-next/src/components/dashboard/TeamManagement.jsx:167-174 | the department admins exactly when a super admin opened a municipal admin |
| TeamManagement.Team.FilteredAdmins | frontend-next/src/components/dashboard/TeamManagement.jsx:178-192 | by municipality exactly for a super admin on the municipal list |
| TeamManagement.Team.FetchDepartmentAdmins | frontend-next/src/components/dashboard/TeamManagement.jsx:97-116 | the municipal admin is selected, the selected admin cleared, and the answer listed |
| TeamManagement.Team.GoBackToMunicipalAdmins | frontend-next/src/components/dashboard/TeamManagement.jsx:119-123 | clears the municipal admin, the department list and the selected admin |
| TeamManagement.Team.FetchAdminStats | frontend-next/src/components/dashboard/TeamManagement.jsx:126-164 | cached stats only select the admin; otherwise one request, and an answer is cached and selects the admin |
| TeamManagement.Team.StatsParams | frontend-next/src/components/dashboard/TeamManagement.jsx:136-149 | the stats request's parameters by role and selection, with no contract of its own; FetchAdminStats sends them |
| TeamManagement.StatsLoadedOnce | frontend-next/src/components/dashboard/TeamManagement.jsx:126-131 | fetching stats twice for an admin whose first answer had data sends at most one request and selects the admin |

## Left out

- I/O and outside services become parameters:
  - the network (GET and POST outcomes, HF Hub and space calls, W&B logging and alerts);
    the orchestrator's space restarts succeed or raise by a function of the restart call (`restartOk`);
  - the database (query results, connection attempts);
  - the wall clock (a number the model advances);
  - ML predictions and F1 scores (opaque reals).
- Printing and logging are left out. Only the calls and exceptions that
  decide the control flow are kept.
- Model training, tokenisation, the loss, and the challenger's own metric
  computation: floating-point numerics in foreign libraries.
- Which rows `sample` and the stratified split pick: randomness. The model
  keeps the sampled count and the partition property. The split's ratio
  check and proportions are float arithmetic.
- ISO calendar week numbering and date formatting: given as functions of
  the date (`Calendar`). The day and week lookbacks are total functions,
  whereas Python's `timedelta` raises OverflowError for a huge count.
- The analytics cache files (`_save_cache`, `_load_cache`, `recompute_all`):
  the cache content is a parameter. The `{"data": ...}` wrapper is left out.
- Strings are sequences of characters. JavaScript lengths are counted in
  characters, not UTF-16 code units. Lower-casing and `isdigit` cover ASCII
  only.
- The zod e-mail rule is a parameter `isEmail`.
- The pydantic schemas type-check `Union[str, List[str]]` before the field
  validator runs. The validator's TypeError and non-string-item branches are
  modelled as written, on an arbitrary JSON value, though pydantic does not
  reach them.
- The location create handlers (`create_district` and the like): plain
  inserts with no rule to state.
- The chatbot's authentication endpoints, its LLM/RAG answer (a parameter),
  and the exact reply texts (a reply datatype).
- Chatbot.FilingSteps: the defensive "no municipality_id" branch of step 3
  is not modelled. Step 2 always returns unless the municipality is set, so
  that branch cannot be reached.
- The team-management grouping by municipality (`adminsByMunicipality`,
  `activeMunicipalities`): the same reduce as the department grouping over
  another key. Only the department grouping is modelled.
- DOM rendering, React state batching and asynchronous timing: each handler
  is one atomic method.
- DatasetPrep.ProcessLabels takes the loop body as a function of the label,
  so the loop is proved against any body. `RunPrepareDatasets` supplies the
  real one.
- Orchestrator.PollFrom: POLL_INTERVAL is taken as at least one second
  (`Seconds`), which makes the poll loop terminate. The source reads any
  integer; 0 would poll without pause and a negative value makes
  `time.sleep` raise.
- Metadata replies are taken to be JSON objects whose num_samples and
  version_tag are numbers and strings when present; another JSON value
  would make `.get` or the comparison raise in the source.
- Locations.Window and Locations.List take skip and limit as natural
  numbers. The handlers accept any integer, and a negative offset or limit
  is left to the database.
- Misclassification.Page takes skip and limit as natural numbers, for the
  same reason.
- Text.JsParseInt reads base 10 only. parseInt without a radix also reads a
  "0x" prefix as hexadecimal.
- Text.PyInt accepts ASCII digits with an optional sign only. Python's int()
  also accepts "_" between digits ("1_000") and non-ASCII decimal digits.
- ModelPipeline.PushSteps has no step for writing model_metadata.json with
  json.dump before its upload. A failure there ends the pushes just as a
  failed metadata upload does, except that the source then makes no upload
  call.
- LocationLoader.Parse: a CSV row is always three strings. A short row, whose
  missing fields csv.DictReader fills with None, makes `.strip()` or `int()`
  raise an error the loader does not catch; the model cannot write such a
  row.
- WeeklyAnalytics.CountsByDistrict states only its keys. Its counts are those
  of AnalyticsService.KeyedCounts, whose contract and
  AnalyticsService.KeyedCountsKeepsGroups state them.
- Row order of the list queries: list_misclassifications and the location
  list handlers have no ORDER BY, so the database may return rows in any
  order. The model lists them in table order.
- ReportManager.Manager.constructor takes a user. The effects' early return
  when there is no user is not modelled; such a manager sends no request.
- ModelPipeline.LabelId: a float "label" in a reply is not in the JSON label
  domain. The source's `int()` would truncate a finite one toward zero and
  record -1 for NaN or infinity.
- TeamManagement.Team: the `loading` flag of the mount effect is not
  modelled; it only switches a spinner.

## Findings

| source | as written | input that shows it | evidently intended | confidence | as-written member | corrected member |
|---|---|---|---|---|---|---|
| src/services/prepare_dataset/prepare_pd_df.py:57-80 | the correct-row query also selects complaint_id, so the concatenated frame has four columns and the final assert on three fails; the dataset job then aborts on the department label | two misclassified reports, a non-empty pool of correct rows, correct_ratio 0.5 | select only the three promised columns | not executed | DatasetPrep.AsWrittenJobAbortsOnDepartment | PrepFrame.FetchMisclassified |
| frontend-next/src/app/dashboard/page.tsx:293-305 | confirmDelete filters the list but never brings currentPage back into range | six grievances, page 2, delete the sixth: page 2 is empty and, with five left, no pagination bar is rendered | clamp the page to the new page count | not executed | Dashboard.DeleteStrandsPage | Dashboard.DashboardPage.ConfirmDeleteClamped |
| frontend-next/src/components/dashboard/MisclassificationManager.jsx:121 | the refresh after a report asks only reviewed=false, dropping the department filter of the first fetch; `ReportMisclassification(AsWritten, ...)` sends that request | a department admin with a department reports a complaint | refresh with the same parameters as the first pending fetch | not executed | ReportManager.RefreshDropsDepartment | ReportManager.RefreshParams |
| src/backend/app/chatbot_api.py:309-519 | steps 2-4 of filing are not nested under the file_complaint branch, so help and unknown intents fall into the municipality step and the handlers after line 469 are unreachable | the message "help" with an empty context | nest steps 2-4 under the filing intent | not executed | Chatbot.ChatbotMessage | Chatbot.ChatbotMessageNested |
