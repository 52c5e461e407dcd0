# BixBench run pipeline and graders in Dafny

BixBench is a benchmark for agents that analyse bioinformatics data. A
"capsule" is one row of the benchmark dataset: a data archive plus a set of
questions. This project models the deterministic core of three of the
repository's files and proves properties of that model:

- `bixbench/start_analyse.py` (module `StartAnalyse`): the run script. It
  overlays the run name, model name and capsule mode onto the
  trajectory-generation template, and the data path, results directory
  and comparison block onto the postprocessing template. It selects
  capsules by `short_id`. It sequences the generation and postprocessing
  stages.
- `bixbench/generate_trajectories.py` (module `GenerateTrajectories`): the
  trajectory generator's bookkeeping:
  - the configuration `load_config` derives;
  - the data directory a capsule is unpacked into;
  - the environment built from a capsule (the capsule dictionary is a
    `class` updated in place and shared with the environment);
  - the record stored for a finished trajectory;
  - the bounded rollout loop, with the agent and environment as one oracle;
  - the batching of the capsule list.
- `bixbench/graders.py` (module `Graders`): multiple-choice grading, the
  reading of an LLM judge's `<grade>...</grade>` reply, and the summary
  metrics.

Three support modules hold what those rely on:

- `Wrappers` has `Option`, and `Result`, whose error names the Python
  exception.
- `Text` has ASCII `upper`, `lower` and `strip`, `str.replace`, `str.join`
  and substring search.
- `Document` has the loaded YAML value, with Python's rules for a chained
  subscript read and a chained subscript assignment.

The regular expression `<grade>\s*(.*?)\s*</grade>` is modelled as the
backtracking search it performs:

- a greedy leading `\s*`;
- a lazy group;
- a greedy trailing `\s*` retried shorter;
- a search over start positions.

It is proved equal to a plain reading: the stripped text between the first
`<grade>` and the next `</grade>`.

## Model

| member | source | states |
|---|---|---|
| StartAnalyse.SystemPromptFor | bixbench/start_analyse.py:72-75 | the prompt selector is `CAPSULE_SYSTEM_PROMPT_` followed by the upper-cased mode, for both modes argparse admits |
| StartAnalyse.DerivedNamesDistinct | bixbench/start_analyse.py:78-106 | distinct run names give distinct path strings for the trajectory and postprocessing outputs, the data path and the results directory; the two output path strings never coincide and never equal a template's |
| StartAnalyse.TrajectoryConfigSpec | bixbench/start_analyse.py:66-75 | the trajectory overlay succeeds iff the nested sections exist as mappings; then run name, model name, mode and prompt selector hold the arguments and every other path reads as before |
| StartAnalyse.TrajectoryConfigSucceeds | bixbench/start_analyse.py:67-69 | the overlay fails exactly when `agent`, `agent_kwargs`, `llm_model` or `capsule` is missing or not a mapping; a missing top-level `run_name` is inserted |
| StartAnalyse.TrajectoryConfigValues | bixbench/start_analyse.py:67-75 | after the overlay the four written paths read back the run name, model name, mode and selector |
| StartAnalyse.TrajectoryConfigFrame | bixbench/start_analyse.py:66-75 | every path apart from the four written ones reads (or fails) as in the template |
| StartAnalyse.TrajectoryConfigIdempotent | bixbench/start_analyse.py:66-75 | overlaying a derived configuration again with the same arguments gives it back |
| StartAnalyse.FillComparisonSpec | bixbench/start_analyse.py:100-103 | with `run_comparison` a mapping, the three comparison writes succeed and store `total_questions`, `[[run_name]]` and `[llm_model]` |
| StartAnalyse.FillComparisonFrame | bixbench/start_analyse.py:100-103 | the comparison writes change no path apart from those three |
| StartAnalyse.PostprocessingConfigSpec | bixbench/start_analyse.py:95-103 | the overlay succeeds iff `run_comparison.run` can be read; it sets `data_path` and `results_dir` from the run name, fills the comparison block iff `run` is truthy, leaves the block untouched otherwise, and changes nothing else |
| StartAnalyse.PostprocessingConfigIdempotent | bixbench/start_analyse.py:95-103 | overlaying a derived postprocessing configuration again gives it back |
| StartAnalyse.PostprocessingPathsFollowRunName | bixbench/start_analyse.py:96-97 | `data_path` and `results_dir` depend on the run name alone, not on the template or the other arguments |
| StartAnalyse.FilterPositions | bixbench/start_analyse.py:120-123 | the comprehension's result is the input at strictly increasing positions, and those positions are exactly the ones whose element is kept (a subsequence in dataset order) |
| StartAnalyse.FilterAppend | bixbench/start_analyse.py:120-123 | filtering a concatenation filters each part in turn |
| StartAnalyse.FilterMembers | bixbench/start_analyse.py:120-123 | a capsule is selected iff it is in the dataset and its `short_id` is requested |
| StartAnalyse.AvailableShortIds | bixbench/start_analyse.py:126 | the reported ids are the dataset's `short_id`s, one per row, in order |
| StartAnalyse.LoadAndFilterOutcome | bixbench/start_analyse.py:119-130 | no ids gives the whole dataset unchanged; with ids the run stops iff no row is requested, reporting every available id; otherwise exactly the requested rows are kept and unmatched ids are dropped |
| StartAnalyse.RunStages | bixbench/start_analyse.py:221-240 | never raises; the dataset is loaded iff generation runs with ids; exit 1 iff that selection is empty, after reporting the requested and available ids; the selection runs iff some id matched; the generation script runs iff there are no ids; postprocessing runs iff not skipped and generation was skipped or succeeded; each of these happens at most once and nothing else happens, loading first, postprocessing or the report last |
| StartAnalyse.WithoutGeneration | bixbench/start_analyse.py:221-240 | with `--skip_generation`, only postprocessing runs, unless it is skipped too |
| StartAnalyse.NothingMatched | bixbench/start_analyse.py:224-225 | with ids of which none matches, the run loads the dataset, reports, and exits with code 1 |
| StartAnalyse.SelectedCapsules | bixbench/start_analyse.py:224-240 | with ids of which some match, the run loads the dataset, runs exactly the matching capsules, then postprocessing iff that run succeeded and postprocessing is not skipped |
| StartAnalyse.GenerationScript | bixbench/start_analyse.py:229-240 | with no ids, the generation script runs, then postprocessing iff the script succeeded and postprocessing is not skipped |
| StartAnalyse.RunAnalysis | bixbench/start_analyse.py:209-240 | an exception while deriving either configuration ends the run, and only the trajectory file is written if the postprocessing overlay fails; otherwise both configurations are written, in that order, and everything after the two writes follows the stages above exactly; postprocessing runs iff no configuration failed, it is not skipped and generation was skipped or succeeded; the postprocessing outcome is not used |
| StartAnalyse.RunAnalysisAsWritten | bixbench/start_analyse.py:149-174 | as written, a run with ids and without `--skip_generation` never reaches postprocessing |
| GenerateTrajectories.PromptNamed | bixbench/generate_trajectories.py:59 | `getattr(prompts, name)` succeeds iff the name is a string naming a prompt, and gives that prompt |
| GenerateTrajectories.Subscript | bixbench/generate_trajectories.py:62 | subscripting the templates by the mode: a mapping succeeds iff the mode is a string key of it and gives its value; a list or string succeeds iff the mode is an int or bool within range, counting from the end when negative, and gives that element or character; anything else raises TypeError |
| GenerateTrajectories.EnumMember | bixbench/generate_trajectories.py:72-77 | an enumeration lookup succeeds iff the key is a string naming a member |
| GenerateTrajectories.UpperMethod | bixbench/generate_trajectories.py:72 | `.upper()` succeeds iff the value is a string and gives its upper-cased form |
| GenerateTrajectories.PathOf | bixbench/generate_trajectories.py:78-82 | a configured path is accepted iff it is a string, and kept as given |
| GenerateTrajectories.AvoidImagesExtends | bixbench/generate_trajectories.py:64-65 | the base prompt extends the template, by a newline and the avoid-images text exactly when the flag is truthy; the step fails only when the flag is set and the text is undefined |
| GenerateTrajectories.RolloutTypeOf | bixbench/generate_trajectories.py:84 | `rollout.get("type", "vanilla")` succeeds iff the section is a mapping, gives the configured type if present and "vanilla" otherwise |
| GenerateTrajectories.LoadConfig | bixbench/generate_trajectories.py:41-86 | a loaded configuration holds the flag's base prompt derivation, the rollout type read with its default, and the upper-cased language name, which is an enumeration member |
| GenerateTrajectories.RolloutDefaultsToVanilla | bixbench/generate_trajectories.py:84 | with no configured type the vanilla loop runs; a configured type is used as given |
| GenerateTrajectories.ExtractDirOfArchive | bixbench/generate_trajectories.py:96-98 | for `stem.zip` in which ".zip" first occurs at the end, the directory is `data_folder/stem` |
| GenerateTrajectories.ExtractDirKeepsInnerDots | bixbench/generate_trajectories.py:96-98 | other dots stay: `a.b.zip` unpacks into `data_folder/a.b` |
| GenerateTrajectories.ExtractDirOfPlainName | bixbench/generate_trajectories.py:96-98 | a name without ".zip" is used unchanged |
| GenerateTrajectories.ProcessCapsule | bixbench/generate_trajectories.py:88-119 | fails iff `data_folder` is missing or not a string; otherwise the capsule's `local_data_folder`, and nothing else, is set to the extract directory, and a download happens iff the directory was not already filled |
| GenerateTrajectories.DictFromPairs | bixbench/generate_trajectories.py:240 | a dictionary comprehension has exactly the pairs' keys, and a key not repeated later maps to its pair's value |
| GenerateTrajectories.KeysOfQuestionPairs | bixbench/generate_trajectories.py:240 | pairs keyed position by position by the questions have the questions' ids as keys |
| GenerateTrajectories.DictFromDistinctPairs | bixbench/generate_trajectories.py:240 | with no key repeated every pair's value is stored under its key |
| GenerateTrajectories.Prompts | bixbench/generate_trajectories.py:236-238 | the list of question prompts, one per question, in order |
| GenerateTrajectories.FormatFillsField | bixbench/generate_trajectories.py:235-239 | a template with one `{questions}` field reads as the text before it, the questions text, and the rest |
| GenerateTrajectories.QuestionsTextLayout | bixbench/generate_trajectories.py:235-239 | each question prompt appears in the joined text at its offset, with exactly one separator line between consecutive prompts |
| GenerateTrajectories.KeyedPairs | bixbench/generate_trajectories.py:240 | one `(question_id, value)` pair per question, in order |
| GenerateTrajectories.KeyedDict | bixbench/generate_trajectories.py:240 | a dictionary keyed by question id has exactly the ids as keys, and with distinct ids each maps to its own question's value |
| GenerateTrajectories.AnswerKeyEntries | bixbench/generate_trajectories.py:240 | the answer map has one key per question id and, with distinct ids, maps each id to that question's ideal answer |
| GenerateTrajectories.EnvironmentFactory | bixbench/generate_trajectories.py:221-272 | succeeds iff the entries it reads are present and well typed; the data directory is copied iff `questions` is present and `uuid` and `data_folder` are strings, before the notebook name is checked; the capsule gains the two flags iff in addition the notebook name is a string, even if `short_id` is then missing; the environment's problem is the template with the joined prompts, its answer the answer map, its metadata the capsule itself, its work dir and notebook path built from `uuid` and the notebook name |
| GenerateTrajectories.PrepareEnvironment | bixbench/generate_trajectories.py:243-245 | the directory the environment copies from is the one `process_capsule` recorded in the capsule |
| GenerateTrajectories.TrajectoryRecord | bixbench/generate_trajectories.py:188-205 | stored metadata is the capsule's entries without `local_data_folder`, all others unchanged; options and questions are parallel lists, one per question (empty without questions); refusal keys are the question ids; the action count is the number of actions |
| GenerateTrajectories.RefusalOptions | bixbench/generate_trajectories.py:201-203 | the refusal map's keys are the question ids |
| GenerateTrajectories.RefusalOptionsEntries | bixbench/generate_trajectories.py:201-203 | with distinct ids each id maps to its question's unsure-answer letter |
| GenerateTrajectories.VanillaRollout | bixbench/generate_trajectories.py:292-332 | the loop's trajectory: each transition follows the oracle with timestep k and chains from the previous one, there are at most `max_steps` of them, none but the last is done or truncated, and the loop ends early only on such a step |
| GenerateTrajectories.RolloutDeterministic | bixbench/generate_trajectories.py:309-330 | the oracle and the bound determine the trajectory |
| GenerateTrajectories.SamePrefix | bixbench/generate_trajectories.py:309-330 | two step sequences following the oracle from the same start agree on their common prefix |
| GenerateTrajectories.BatchStep | bixbench/generate_trajectories.py:367-368 | taking the next slice keeps the batching invariant |
| GenerateTrajectories.Batches | bixbench/generate_trajectories.py:367-368 | a batch size of 0 raises ValueError and a negative one gives no batches; otherwise the batches are non-empty, at most the batch size, all full but the last, and concatenate to the capsule list |
| Graders.GradeMcqAnswer | bixbench/graders.py:4-16 | grade is 0 or 1, 1 iff correct; correct iff prediction and target are equal ignoring case; sure iff prediction and unsure answer differ ignoring case |
| Graders.GradeMcqIgnoresCase | bixbench/graders.py:5-9 | changing the case of any input leaves the result unchanged |
| Graders.SpaceRunEnd | bixbench/graders.py:23 | greedy `\s*` stops at the first non-whitespace character or the end |
| Graders.LazyGroupEnd | bixbench/graders.py:23 | the lazy group ends within the string |
| Graders.LeadFrom | bixbench/graders.py:23 | the group found after the opening tag lies within the string |
| Graders.MatchAt | bixbench/graders.py:23 | a match at i has its group after the opening tag |
| Graders.SearchFrom | bixbench/graders.py:23 | a found group lies within the string |
| Graders.FindSkipsSpaces | bixbench/graders.py:23 | searching for a tag passes over whitespace |
| Graders.CloseAfterRun | bixbench/graders.py:23 | with whitespace before w, `\s*</grade>` succeeds iff the closing tag stands at w |
| Graders.LazyGroupEndHere | bixbench/graders.py:23 | when the whitespace is followed by the closing tag, the lazy group is empty |
| Graders.LazyGroupEndSpec | bixbench/graders.py:23 | the lazy group exists iff a closing tag follows, and ends where only whitespace remains before the first one, as early as possible |
| Graders.LazyGroupEndStep | bixbench/graders.py:23 | the inductive step of the above past a position not followed by the tag |
| Graders.SkipOne | bixbench/graders.py:23 | past such a position, the lazy group and the tag search both move on one place |
| Graders.WidenGroup | bixbench/graders.py:23 | a group found one place on is also one from the earlier position |
| Graders.LeadFromSpec | bixbench/graders.py:23 | after the opening tag the rest of the pattern matches iff a closing tag follows, with the group starting after the leading whitespace |
| Graders.MatchAtSpec | bixbench/graders.py:23 | the pattern matches at i iff the opening tag stands there and a closing tag follows it |
| Graders.SearchFromSpec | bixbench/graders.py:23 | the search succeeds at the first opening tag or not at all |
| Graders.GroupBounds | bixbench/graders.py:23 | the group lies between the leading whitespace and the trailing whitespace before the first closing tag |
| Graders.GroupIsStripped | bixbench/graders.py:23-24 | the group is the text between the tags, stripped |
| Graders.GradeGroupIsTaggedText | bixbench/graders.py:23-24 | the regular expression's group equals the stripped text between the first `<grade>` and the next `</grade>`, and is absent iff either tag is missing |
| Graders.ExtractedGradeSpec | bixbench/graders.py:23-24 | the extracted grade is that text lower-cased |
| Graders.FindFromIs | bixbench/graders.py:23 | a tag with no '<' before it from the search start is the one found |
| Graders.ExtractedGradeOfReply | bixbench/graders.py:23-24 | a reply `before<grade>body</grade>after`, with no '<' in `before` or `body`, yields `body` stripped and lower-cased, across line breaks |
| Graders.OpenEndedAsWrittenRaises | bixbench/graders.py:25-33 | as written, grading raises UnboundLocalError iff the extracted grade is neither "correct" nor "incorrect", e.g. for a reply with no tag |
| Graders.GradeOpenEnded | bixbench/graders.py:23-33 | always sure; grade 1 iff correct iff the tagged text is "correct" ignoring case; a grade is given iff it is "correct" or "incorrect" |
| Graders.OpenEndedAgrees | bixbench/graders.py:25-33 | wherever the code as written returns, the corrected grading returns the same triple |
| Graders.CountCorrect | bixbench/graders.py:37 | the number of correct rows is at most the row count |
| Graders.CountSure | bixbench/graders.py:38 | the number of sure rows is at most the row count |
| Graders.CountsAppend | bixbench/graders.py:37-38 | both counts add over a concatenation of rows |
| Graders.CorrectWithinSure | bixbench/graders.py:37-38 | if every correct row is sure, correct rows are no more than sure rows |
| Graders.Ratio | bixbench/graders.py:41-43 | a guarded ratio is 0 for a zero total, never negative, at most 1 when the count is within the total |
| Graders.ComputeMetrics | bixbench/graders.py:35-52 | the counts are the row, correct and sure counts; accuracy and coverage are 0 on no rows and precision 0 on no sure rows; accuracy and coverage lie in [0, 1] and precision is non-negative |
| Graders.MetricsOf | bixbench/graders.py:41-52 | the same guards and bounds for given counts |
| Graders.MetricsAreRatios | bixbench/graders.py:41-43 | otherwise each metric times its total is its count: accuracy and coverage over all rows, precision over sure rows |
| Graders.RatiosOf | bixbench/graders.py:41-43 | the same for metrics built from counts |
| Graders.RatioProduct | bixbench/graders.py:41-43 | with some sure rows, accuracy is precision times coverage, for given counts |
| Graders.AccuracyIsPrecisionTimesCoverage | bixbench/graders.py:41-43 | with some sure row, accuracy equals precision times coverage |
| Graders.PrecisionBound | bixbench/graders.py:42 | precision is at most 1 when every correct row is sure, and can exceed 1 otherwise (two correct rows, one sure, give 2) |
| Text.UpperEqualIff | bixbench/graders.py:5-9 | comparing upper-cased strings is exactly case-insensitive comparison |
| Text.UpperIgnoresCase | bixbench/graders.py:5-9 | upper-casing is unaffected by prior case changes |
| Text.Strip | bixbench/graders.py:24 | the stripped string is no longer than the input and has no whitespace at either end |
| Text.StripIs | bixbench/graders.py:24 | the strip is exactly the slice between the leading and the trailing whitespace |
| Text.StripAllSpace | bixbench/graders.py:24 | an all-whitespace string strips to empty |
| Text.FindFrom | bixbench/graders.py:23 | the search returns the first occurrence at or after the start, or none if there is none |
| Text.ReplaceAllAbsent | bixbench/generate_trajectories.py:96-98 | replace leaves a string without the pattern unchanged |
| Text.ReplaceAllFirst | bixbench/generate_trajectories.py:96-98 | when the pattern first occurs right after a prefix, that occurrence is replaced, the prefix kept, and the pass continues after it |
| Text.JoinLength | bixbench/generate_trajectories.py:236-238 | the joined string is the parts and the separators between them, nothing more |
| Text.JoinPart | bixbench/generate_trajectories.py:236-238 | part i of the joined string sits at its offset |
| Text.JoinSeparator | bixbench/generate_trajectories.py:236-238 | exactly one separator stands between consecutive parts |
| Document.AssignSucceeds | bixbench/start_analyse.py:67-69 | a chained subscript assignment succeeds iff every proper prefix of the path names a mapping |
| Document.AssignReadsBack | bixbench/start_analyse.py:67-69 | after it, the path reads back the value |
| Document.AssignFrame | bixbench/start_analyse.py:67-69 | a path apart from the assigned one reads, or fails, as before |
| Document.AssignUnchanged | bixbench/start_analyse.py:67-69 | writing back the stored value changes nothing |

## Left out

- File and network I/O are not modelled:
  - YAML reading and dumping;
  - `datasets.load_dataset` and `hf_hub_download`;
  - archive unpacking and moving (`_extract_and_process_files`);
  - the JSON and JSONL writes, `mkdir` and the file copies.

  Templates, the dataset, "already extracted" and `collect_notebook_stats`
  are parameters. A configuration write is an effect in the trace
  `StartAnalyse.RunAnalysis` returns. YAML key order is not modelled: a
  mapping is a Dafny `map`.
- The subprocess launches are not modelled:
  - `run_generate_trajectories` becomes a success boolean;
  - `run_postprocessing` is an effect whose result `main` does not use;
  - `run_selected_capsules` becomes a boolean, and its failing constructor
    call is modelled separately (see Findings).
- `parse_args` is not modelled. Its result is the `RunArgs` datatype: the
  mode is a two-valued datatype, and an absent `--short_ids` and an empty
  one are the same empty sequence, as the script treats them.
- The agent, the environment, `reset`, `init_state` and the "aviary"
  `RolloutManager` are not modelled. The vanilla loop's agent and
  environment are one oracle function. `RolloutFor` names the aviary
  branch and does not model it.
- `asyncio.gather` concurrency is not modelled. Rollouts and capsule
  processing are taken as sequential.
- `TrajectoryGenerator.run` is modelled through `Batches` only. The
  per-batch calls to the factory, the rollout and `store_trajectory` are
  modelled one by one, not chained.
- `ast.literal_eval` and `load_mcq` are not modelled. The parsed questions
  are a parameter of `EnvironmentFactory`.
- `str.format` is modelled as replacing `{questions}` only. Other fields,
  escaped braces and format errors are not.
- `Path(...).absolute()` and path normalisation are not modelled. A path
  is the configured string, and `/` joins with a slash.
- StartAnalyse.DerivedNamesDistinct: distinctness is of path strings;
  `pathlib` may still map two distinct strings (`a//b` and `a/b`,
  `a/./b`, or a name with `..`) to the same file.
- Document.Node: a mapping has string keys only, there are no floats, and
  YAML anchors and aliases, which make two places in a document share one
  object, are not modelled; `Document.AssignFrame` and
  `StartAnalyse.TrajectoryConfigFrame` describe documents without shared
  parts.
- GenerateTrajectories.Subscript: a mapping key that is an int, a bool or
  None reads as absent (KeyError), as a loaded mapping here holds string
  keys only.
- The progress and error messages (`print` at bixbench/start_analyse.py
  lines 162, 172-173, 183, 189, 199, 205, 217-219, 226-227, 234 and 239)
  and the `logger.debug` call in `process_capsule` are not modelled; the
  report printed when no id matches (lines 125-126) is the
  `ReportNoMatch` effect.
- Text is ASCII only:
  - `upper`, `lower` and `strip` use ASCII case mapping and ASCII
    whitespace;
  - `\s` in the regular expression uses the same whitespace set;
  - Unicode case folding is not modelled.
- `compute_metrics` works over exact reals and counts, not floats. Its
  argument is the sequence of `(correct, sure)` rows of the data frame.
- Graders.GradeMcqAnswer: the `.upper()` call on a non-string argument
  (AttributeError) is not modelled, because the arguments are strings.
- Graders.ComputeMetrics: the products of each ratio and its total are
  stated in `Graders.MetricsAreRatios`, not in its own contract.
- bixbench/llm_clients.py, bixbench/zero_shot.py and bixbench/__init__.py
  are not part of this model.

## Findings

| source | as written | input that shows it | evidently intended | confidence | as-written member | corrected member |
|---|---|---|---|---|---|---|
| bixbench/graders.py:25-33 | `correct` is assigned only when the grade is "correct" or "incorrect"; otherwise the `return` reads an unbound local and raises UnboundLocalError | a judge reply with no `<grade>` tag, e.g. "no tag", or a tag holding anything else | grade None, correct False, sure True | not executed | Graders.OpenEndedAsWrittenRaises | Graders.GradeOpenEnded |
| bixbench/start_analyse.py:152 | `TrajectoryGenerator(config_path=...)` passes a keyword argument to an `__init__` (bixbench/generate_trajectories.py:32) that takes none; the TypeError is caught (lines 170-174) and the selected run always reports failure | any run with `--short_ids` naming an existing capsule and without `--skip_generation` | the selected capsules are processed and postprocessing follows a successful run | not executed | StartAnalyse.RunAnalysisAsWritten | StartAnalyse.RunAnalysis |
