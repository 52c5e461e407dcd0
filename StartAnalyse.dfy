/** The run script `bixbench/start_analyse.py`: it derives the two run
    configurations from their templates, optionally selects capsules by
    short id, and sequences the generation and postprocessing stages. */
module StartAnalyse {
  import opened Wrappers
  import opened Document
  import Text

  // ---------------------------------------------------------------------
  // Arguments

  /** `--capsule_mode`; argparse admits only these two choices. */
  datatype CapsuleMode = Open | Mcq

  /** The parsed command line. An absent `--short_ids` (None) and an empty
      one are both represented by the empty sequence: the script treats
      them alike. */
  datatype RunArgs = RunArgs(
    runName: string,
    llmModel: string,
    capsuleMode: CapsuleMode,
    shortIds: seq<string>,
    skipGeneration: bool,
    skipPostprocessing: bool,
    totalQuestions: int)

  /** The value argparse stores for the mode. */
  function ModeName(m: CapsuleMode): string {
    match m
    case Open => "open"
    case Mcq => "mcq"
  }

  /** The prompt selector written for a mode: the prompt constant named
      after the upper-cased mode, so the two modes get different prompts. */
  function SystemPromptFor(m: CapsuleMode): (r: string)
    ensures r == "CAPSULE_SYSTEM_PROMPT_" + Text.Upper(ModeName(m))
  {
    match m
    case Open => "CAPSULE_SYSTEM_PROMPT_OPEN"
    case Mcq => "CAPSULE_SYSTEM_PROMPT_MCQ"
  }

  // ---------------------------------------------------------------------
  // Derived names

  /** The two templates the overlays start from. */
  const TrajectoryTemplatePath := "run_configuration/generate_trajectories.yaml"
  const PostprocessingTemplatePath := "run_configuration/postprocessing.yaml"

  function TrajectoryConfigPath(runName: string): string {
    "run_configuration/" + runName + "_generate_trajectories.yaml"
  }

  function PostprocessingConfigPath(runName: string): string {
    "run_configuration/" + runName + "_postprocessing.yaml"
  }

  function DataPath(runName: string): string {
    "data/trajectories/" + runName + "/"
  }

  function ResultsDir(runName: string): string {
    "bixbench_results_" + runName
  }

  /** Putting a fixed prefix and suffix around a name loses no information. */
  lemma WrapInjective(pre: string, a: string, b: string, post: string)
    requires pre + a + post == pre + b + post
    ensures a == b
  {
    assert |a| == |b|;
    assert (pre + a + post)[|pre|..|pre| + |a|] == a;
    assert (pre + b + post)[|pre|..|pre| + |b|] == b;
  }

  /** Runs with different names write different files and use different
      data and results locations; a run never writes over either template,
      and its two outputs never coincide, whatever the two names. */
  lemma DerivedNamesDistinct(a: string, b: string)
    ensures a != b ==> TrajectoryConfigPath(a) != TrajectoryConfigPath(b)
    ensures a != b ==> PostprocessingConfigPath(a) != PostprocessingConfigPath(b)
    ensures a != b ==> DataPath(a) != DataPath(b) && ResultsDir(a) != ResultsDir(b)
    ensures TrajectoryConfigPath(a) != PostprocessingConfigPath(b)
    ensures TrajectoryConfigPath(a) !in {TrajectoryTemplatePath, PostprocessingTemplatePath}
    ensures PostprocessingConfigPath(a) !in {TrajectoryTemplatePath, PostprocessingTemplatePath}
  {
    if a != b {
      if TrajectoryConfigPath(a) == TrajectoryConfigPath(b) {
        WrapInjective("run_configuration/", a, b, "_generate_trajectories.yaml");
      }
      if PostprocessingConfigPath(a) == PostprocessingConfigPath(b) {
        WrapInjective("run_configuration/", a, b, "_postprocessing.yaml");
      }
      if DataPath(a) == DataPath(b) {
        WrapInjective("data/trajectories/", a, b, "/");
      }
      if ResultsDir(a) == ResultsDir(b) {
        WrapInjective("bixbench_results_", a, b, "");
      }
    }
    var t, p := TrajectoryConfigPath(a), PostprocessingConfigPath(b);
    assert t[|t| - 6] == 's';
    assert p[|p| - 6] == 'g';
    var pa := PostprocessingConfigPath(a);
    assert pa[|pa| - 6] == 'g';
    assert TrajectoryTemplatePath[|TrajectoryTemplatePath| - 6] == 's';
    assert PostprocessingTemplatePath[|PostprocessingTemplatePath| - 6] == 'g';
    assert |t| != |TrajectoryTemplatePath|;
    assert |pa| != |PostprocessingTemplatePath|;
  }

  // ---------------------------------------------------------------------
  // The trajectory-generation overlay

  const RunNameKey: KeyPath := ["run_name"]
  const ModelNameKey: KeyPath := ["agent", "agent_kwargs", "llm_model", "name"]
  const ModeKey: KeyPath := ["capsule", "mode"]
  const SystemPromptKey: KeyPath := ["capsule", "system_prompt"]

  /** `generate_trajectory_yaml` on a loaded template: four assignments in
      source order; the first one that raises ends the overlay. */
  function TrajectoryConfig(template: Node, args: RunArgs): Result<Node> {
    var c1 :- Assign(template, RunNameKey, Str(args.runName));
    var c2 :- Assign(c1, ModelNameKey, Str(args.llmModel));
    var c3 :- Assign(c2, ModeKey, Str(ModeName(args.capsuleMode)));
    Assign(c3, SystemPromptKey, Str(SystemPromptFor(args.capsuleMode)))
  }

  /** The sections the trajectory overlay writes into exist as mappings. */
  predicate TrajectoryTemplateFits(t: Node) {
    IsMapAt(t, [])
    && IsMapAt(t, ["agent"])
    && IsMapAt(t, ["agent", "agent_kwargs"])
    && IsMapAt(t, ["agent", "agent_kwargs", "llm_model"])
    && IsMapAt(t, ["capsule"])
  }

  /** A path the trajectory overlay does not write to or through. */
  predicate OutsideTrajectoryOverlay(q: KeyPath) {
    Apart(RunNameKey, q) && Apart(ModelNameKey, q) && Apart(ModeKey, q) && Apart(SystemPromptKey, q)
  }

  lemma MapsAlongOne(n: Node, a: string)
    ensures MapsAlong(n, [a]) <==> IsMapAt(n, [])
  {
    assert [a][..0] == [];
  }

  lemma MapsAlongTwo(n: Node, a: string, b: string)
    ensures MapsAlong(n, [a, b]) <==> IsMapAt(n, []) && IsMapAt(n, [a])
  {
    assert [a, b][..0] == [] && [a, b][..1] == [a];
  }

  lemma MapsAlongFour(n: Node, a: string, b: string, c: string, d: string)
    ensures MapsAlong(n, [a, b, c, d]) <==>
      IsMapAt(n, []) && IsMapAt(n, [a]) && IsMapAt(n, [a, b]) && IsMapAt(n, [a, b, c])
  {
    var p := [a, b, c, d];
    assert p[..0] == [] && p[..1] == [a] && p[..2] == [a, b] && p[..3] == [a, b, c];
  }

  /** The trajectory overlay succeeds exactly when the template has the
      sections it writes into (the top-level `run_name` may be missing);
      it then sets the run name, the model name, the mode and the prompt
      selector, and every entry outside those four stays as it was. */
  lemma TrajectoryConfigSpec(t: Node, args: RunArgs)
    ensures TrajectoryConfig(t, args).Ok? <==> TrajectoryTemplateFits(t)
    ensures TrajectoryConfig(t, args).Ok? ==>
      var r := TrajectoryConfig(t, args).value;
      && Lookup(r, RunNameKey) == Ok(Str(args.runName))
      && Lookup(r, ModelNameKey) == Ok(Str(args.llmModel))
      && Lookup(r, ModeKey) == Ok(Str(ModeName(args.capsuleMode)))
      && Lookup(r, SystemPromptKey) == Ok(Str(SystemPromptFor(args.capsuleMode)))
      && forall q :: OutsideTrajectoryOverlay(q) ==> Lookup(r, q) == Lookup(t, q)
  {
    TrajectoryConfigSucceeds(t, args);
    if TrajectoryConfig(t, args).Ok? {
      TrajectoryConfigValues(t, args);
      forall q | OutsideTrajectoryOverlay(q)
        ensures Lookup(TrajectoryConfig(t, args).value, q) == Lookup(t, q)
      {
        TrajectoryConfigFrame(t, args, q);
      }
    }
  }

  /** The trajectory overlay succeeds exactly when the template has the
      sections it writes into. */
  lemma TrajectoryConfigSucceeds(t: Node, args: RunArgs)
    ensures TrajectoryConfig(t, args).Ok? <==> TrajectoryTemplateFits(t)
  {
    var v1, v2 := Str(args.runName), Str(args.llmModel);
    var v3, v4 := Str(ModeName(args.capsuleMode)), Str(SystemPromptFor(args.capsuleMode));
    AssignSucceeds(t, RunNameKey, v1);
    MapsAlongOne(t, "run_name");
    if !t.Map? {
      return;
    }
    var c1 := Assign(t, RunNameKey, v1).value;
    AssignFrame(t, RunNameKey, v1, ["agent"]);
    AssignFrame(t, RunNameKey, v1, ["agent", "agent_kwargs"]);
    AssignFrame(t, RunNameKey, v1, ["agent", "agent_kwargs", "llm_model"]);
    AssignFrame(t, RunNameKey, v1, ["capsule"]);
    AssignSucceeds(c1, ModelNameKey, v2);
    MapsAlongFour(c1, "agent", "agent_kwargs", "llm_model", "name");
    if !MapsAlong(c1, ModelNameKey) {
      return;
    }
    var c2 := Assign(c1, ModelNameKey, v2).value;
    AssignFrame(c1, ModelNameKey, v2, ["capsule"]);
    AssignSucceeds(c2, ModeKey, v3);
    MapsAlongTwo(c2, "capsule", "mode");
    if !MapsAlong(c2, ModeKey) {
      return;
    }
    var c3 := Assign(c2, ModeKey, v3).value;
    AssignReadsBack(c2, ModeKey, v3);
    AssignSucceeds(c3, SystemPromptKey, v4);
    MapsAlongTwo(c3, "capsule", "system_prompt");
    MapsAlongTwo(c3, "capsule", "mode");
  }

  /** A successful trajectory overlay stores its four values. */
  lemma TrajectoryConfigValues(t: Node, args: RunArgs)
    requires TrajectoryConfig(t, args).Ok?
    ensures var r := TrajectoryConfig(t, args).value;
      && Lookup(r, RunNameKey) == Ok(Str(args.runName))
      && Lookup(r, ModelNameKey) == Ok(Str(args.llmModel))
      && Lookup(r, ModeKey) == Ok(Str(ModeName(args.capsuleMode)))
      && Lookup(r, SystemPromptKey) == Ok(Str(SystemPromptFor(args.capsuleMode)))
  {
    var v1, v2 := Str(args.runName), Str(args.llmModel);
    var v3, v4 := Str(ModeName(args.capsuleMode)), Str(SystemPromptFor(args.capsuleMode));
    var c1 := Assign(t, RunNameKey, v1).value;
    var c2 := Assign(c1, ModelNameKey, v2).value;
    var c3 := Assign(c2, ModeKey, v3).value;
    AssignReadsBack(t, RunNameKey, v1);
    AssignReadsBack(c1, ModelNameKey, v2);
    AssignReadsBack(c2, ModeKey, v3);
    AssignReadsBack(c3, SystemPromptKey, v4);
    AssignFrame(c1, ModelNameKey, v2, RunNameKey);
    AssignFrame(c2, ModeKey, v3, RunNameKey);
    AssignFrame(c2, ModeKey, v3, ModelNameKey);
    AssignFrame(c3, SystemPromptKey, v4, RunNameKey);
    AssignFrame(c3, SystemPromptKey, v4, ModelNameKey);
    AssignFrame(c3, SystemPromptKey, v4, ModeKey);
  }

  /** A successful trajectory overlay leaves every path outside it as it was. */
  lemma TrajectoryConfigFrame(t: Node, args: RunArgs, q: KeyPath)
    requires TrajectoryConfig(t, args).Ok? && OutsideTrajectoryOverlay(q)
    ensures Lookup(TrajectoryConfig(t, args).value, q) == Lookup(t, q)
  {
    var v1, v2 := Str(args.runName), Str(args.llmModel);
    var v3, v4 := Str(ModeName(args.capsuleMode)), Str(SystemPromptFor(args.capsuleMode));
    var c1 := Assign(t, RunNameKey, v1).value;
    var c2 := Assign(c1, ModelNameKey, v2).value;
    var c3 := Assign(c2, ModeKey, v3).value;
    AssignFrame(t, RunNameKey, v1, q);
    AssignFrame(c1, ModelNameKey, v2, q);
    AssignFrame(c2, ModeKey, v3, q);
    AssignFrame(c3, SystemPromptKey, v4, q);
  }

  /** Overlaying a derived trajectory configuration again with the same
      arguments changes nothing. */
  lemma TrajectoryConfigIdempotent(t: Node, args: RunArgs)
    requires TrajectoryConfig(t, args).Ok?
    ensures TrajectoryConfig(TrajectoryConfig(t, args).value, args) == TrajectoryConfig(t, args)
  {
    var r := TrajectoryConfig(t, args).value;
    TrajectoryConfigSpec(t, args);
    AssignUnchanged(r, RunNameKey, Str(args.runName));
    AssignUnchanged(r, ModelNameKey, Str(args.llmModel));
    AssignUnchanged(r, ModeKey, Str(ModeName(args.capsuleMode)));
    AssignUnchanged(r, SystemPromptKey, Str(SystemPromptFor(args.capsuleMode)));
  }

  // ---------------------------------------------------------------------
  // The postprocessing overlay

  const DataPathKey: KeyPath := ["data_path"]
  const ResultsDirKey: KeyPath := ["results_dir"]
  const ComparisonKey: KeyPath := ["run_comparison"]
  const ComparisonFlagKey: KeyPath := ["run_comparison", "run"]
  const TotalQuestionsKey: KeyPath := ["run_comparison", "total_questions"]
  const RunNameGroupsKey: KeyPath := ["run_comparison", "run_name_groups"]
  const GroupTitlesKey: KeyPath := ["run_comparison", "group_titles"]

  /** `generate_postprocessing_yaml` on a loaded template: the two top-level
      paths, then the comparison block only when its `run` flag is truthy. */
  function PostprocessingConfig(template: Node, args: RunArgs): Result<Node> {
    var c1 :- Assign(template, DataPathKey, Str(DataPath(args.runName)));
    var c2 :- Assign(c1, ResultsDirKey, Str(ResultsDir(args.runName)));
    var flag :- Lookup(c2, ComparisonFlagKey);
    if Truthy(flag) then FillComparison(c2, args) else Ok(c2)
  }

  /** The three writes into `run_comparison` made when its `run` flag is set. */
  function FillComparison(c: Node, args: RunArgs): Result<Node> {
    var c3 :- Assign(c, TotalQuestionsKey, Int(args.totalQuestions));
    var c4 :- Assign(c3, RunNameGroupsKey, List([List([Str(args.runName)])]));
    Assign(c4, GroupTitlesKey, List([Str(args.llmModel)]))
  }

  /** Filling an existing `run_comparison` mapping succeeds, stores the three
      values and changes no path apart from them. */
  lemma FillComparisonSpec(c: Node, args: RunArgs)
    requires IsMapAt(c, ComparisonKey)
    ensures FillComparison(c, args).Ok?
    ensures var r := FillComparison(c, args).value;
      && Lookup(r, TotalQuestionsKey) == Ok(Int(args.totalQuestions))
      && Lookup(r, RunNameGroupsKey) == Ok(List([List([Str(args.runName)])]))
      && Lookup(r, GroupTitlesKey) == Ok(List([Str(args.llmModel)]))
  {
    var v3, v4, v5 := Int(args.totalQuestions), List([List([Str(args.runName)])]), List([Str(args.llmModel)]);
    MapsAlongTwo(c, "run_comparison", "total_questions");
    AssignSucceeds(c, TotalQuestionsKey, v3);
    var c3 := Assign(c, TotalQuestionsKey, v3).value;
    AssignReadsBack(c, TotalQuestionsKey, v3);
    MapsAlongTwo(c3, "run_comparison", "total_questions");
    MapsAlongTwo(c3, "run_comparison", "run_name_groups");
    AssignSucceeds(c3, RunNameGroupsKey, v4);
    var c4 := Assign(c3, RunNameGroupsKey, v4).value;
    AssignReadsBack(c3, RunNameGroupsKey, v4);
    MapsAlongTwo(c4, "run_comparison", "run_name_groups");
    MapsAlongTwo(c4, "run_comparison", "group_titles");
    AssignSucceeds(c4, GroupTitlesKey, v5);
    AssignReadsBack(c4, GroupTitlesKey, v5);
    AssignFrame(c3, RunNameGroupsKey, v4, TotalQuestionsKey);
    AssignFrame(c4, GroupTitlesKey, v5, TotalQuestionsKey);
    AssignFrame(c4, GroupTitlesKey, v5, RunNameGroupsKey);
  }

  /** Filling `run_comparison` changes no path apart from the three it writes. */
  lemma FillComparisonFrame(c: Node, args: RunArgs, q: KeyPath)
    requires FillComparison(c, args).Ok?
    requires Apart(TotalQuestionsKey, q) && Apart(RunNameGroupsKey, q) && Apart(GroupTitlesKey, q)
    ensures Lookup(FillComparison(c, args).value, q) == Lookup(c, q)
  {
    var v3, v4, v5 := Int(args.totalQuestions), List([List([Str(args.runName)])]), List([Str(args.llmModel)]);
    var c3 := Assign(c, TotalQuestionsKey, v3).value;
    var c4 := Assign(c3, RunNameGroupsKey, v4).value;
    AssignFrame(c, TotalQuestionsKey, v3, q);
    AssignFrame(c3, RunNameGroupsKey, v4, q);
    AssignFrame(c4, GroupTitlesKey, v5, q);
  }

  /** A path the postprocessing overlay does not write to or through. */
  predicate OutsidePostprocessingOverlay(q: KeyPath) {
    Apart(DataPathKey, q) && Apart(ResultsDirKey, q)
    && Apart(TotalQuestionsKey, q) && Apart(RunNameGroupsKey, q) && Apart(GroupTitlesKey, q)
  }

  /** The postprocessing overlay succeeds exactly when the template has a
      `run_comparison` mapping holding a `run` key (`data_path` and
      `results_dir` may be missing); it then sets both paths from the run
      name, fills the comparison block only when `run` is truthy and
      otherwise leaves that block untouched, and changes nothing else. */
  lemma {:induction false} PostprocessingConfigSpec(t: Node, args: RunArgs)
    ensures PostprocessingConfig(t, args).Ok? <==> Lookup(t, ComparisonFlagKey).Ok?
    ensures PostprocessingConfig(t, args).Ok? ==>
      var r := PostprocessingConfig(t, args).value;
      && Lookup(r, DataPathKey) == Ok(Str(DataPath(args.runName)))
      && Lookup(r, ResultsDirKey) == Ok(Str(ResultsDir(args.runName)))
      && Lookup(r, ComparisonFlagKey) == Lookup(t, ComparisonFlagKey)
      && (Truthy(Lookup(t, ComparisonFlagKey).value) ==>
            && Lookup(r, TotalQuestionsKey) == Ok(Int(args.totalQuestions))
            && Lookup(r, RunNameGroupsKey) == Ok(List([List([Str(args.runName)])]))
            && Lookup(r, GroupTitlesKey) == Ok(List([Str(args.llmModel)])))
      && (!Truthy(Lookup(t, ComparisonFlagKey).value) ==>
            Lookup(r, ComparisonKey) == Lookup(t, ComparisonKey))
      && forall q :: OutsidePostprocessingOverlay(q) ==> Lookup(r, q) == Lookup(t, q)
  {
    var v1, v2 := Str(DataPath(args.runName)), Str(ResultsDir(args.runName));
    AssignSucceeds(t, DataPathKey, v1);
    MapsAlongOne(t, "data_path");
    if !t.Map? {
      return;
    }
    var c1 := Assign(t, DataPathKey, v1).value;
    AssignReadsBack(t, DataPathKey, v1);
    AssignSucceeds(c1, ResultsDirKey, v2);
    MapsAlongOne(c1, "results_dir");
    var c2 := Assign(c1, ResultsDirKey, v2).value;
    AssignReadsBack(c1, ResultsDirKey, v2);
    AssignFrame(c1, ResultsDirKey, v2, DataPathKey);
    AssignFrame(t, DataPathKey, v1, ComparisonFlagKey);
    AssignFrame(c1, ResultsDirKey, v2, ComparisonFlagKey);
    AssignFrame(t, DataPathKey, v1, ComparisonKey);
    AssignFrame(c1, ResultsDirKey, v2, ComparisonKey);
    if Lookup(c2, ComparisonFlagKey).Err? {
      return;
    }
    var flag := Lookup(c2, ComparisonFlagKey).value;
    assert IsMapAt(c2, ComparisonKey) by {
      assert Lookup(c2, ComparisonKey).Ok?;
    }
    FillComparisonSpec(c2, args);
    forall q | OutsidePostprocessingOverlay(q)
      ensures Lookup(c2, q) == Lookup(t, q)
    {
      AssignFrame(t, DataPathKey, v1, q);
      AssignFrame(c1, ResultsDirKey, v2, q);
    }
    if Truthy(flag) {
      var c5 := FillComparison(c2, args).value;
      forall k | k in [DataPathKey, ResultsDirKey, ComparisonFlagKey]
        ensures Lookup(c5, k) == Lookup(c2, k)
      {
        FillComparisonFrame(c2, args, k);
      }
      forall q | OutsidePostprocessingOverlay(q)
        ensures Lookup(c5, q) == Lookup(t, q)
      {
        FillComparisonFrame(c2, args, q);
      }
    }
  }

  /** Overlaying a derived postprocessing configuration again with the same
      arguments changes nothing. */
  lemma PostprocessingConfigIdempotent(t: Node, args: RunArgs)
    requires PostprocessingConfig(t, args).Ok?
    ensures PostprocessingConfig(PostprocessingConfig(t, args).value, args) == PostprocessingConfig(t, args)
  {
    var r := PostprocessingConfig(t, args).value;
    PostprocessingConfigSpec(t, args);
    AssignUnchanged(r, DataPathKey, Str(DataPath(args.runName)));
    AssignUnchanged(r, ResultsDirKey, Str(ResultsDir(args.runName)));
    if Truthy(Lookup(t, ComparisonFlagKey).value) {
      AssignUnchanged(r, TotalQuestionsKey, Int(args.totalQuestions));
      AssignUnchanged(r, RunNameGroupsKey, List([List([Str(args.runName)])]));
      AssignUnchanged(r, GroupTitlesKey, List([Str(args.llmModel)]));
    }
  }

  /** The derived `data_path` and `results_dir` depend on the run name alone:
      neither the template nor any other argument affects them. */
  lemma PostprocessingPathsFollowRunName(t1: Node, t2: Node, a1: RunArgs, a2: RunArgs)
    requires PostprocessingConfig(t1, a1).Ok? && PostprocessingConfig(t2, a2).Ok?
    requires a1.runName == a2.runName
    ensures Lookup(PostprocessingConfig(t1, a1).value, DataPathKey)
         == Lookup(PostprocessingConfig(t2, a2).value, DataPathKey)
    ensures Lookup(PostprocessingConfig(t1, a1).value, ResultsDirKey)
         == Lookup(PostprocessingConfig(t2, a2).value, ResultsDirKey)
  {
    PostprocessingConfigSpec(t1, a1);
    PostprocessingConfigSpec(t2, a2);
  }

  // ---------------------------------------------------------------------
  // Capsule selection

  /** A dataset row, as `to_list()` gives it. */
  type Capsule = map<string, Node>

  /** Every row of the dataset carries the `short_id` column. */
  predicate HasShortIds(dataset: seq<Capsule>) {
    forall i :: 0 <= i < |dataset| ==> "short_id" in dataset[i]
  }

  /** `capsule["short_id"] in short_ids`: list membership by equality, which
      a non-string id never satisfies. */
  predicate Requested(c: Capsule, ids: seq<string>) {
    "short_id" in c && c["short_id"].Str? && c["short_id"].s in ids
  }

  /** A list comprehension `[x for x in xs if keep(x)]`. */
  function Filter<T>(xs: seq<T>, keep: T -> bool): seq<T> {
    if xs == [] then []
    else (if keep(xs[0]) then [xs[0]] else []) + Filter(xs[1..], keep)
  }

  /** The comprehension over the dataset that selects the requested capsules. */
  function FilterByShortId(dataset: seq<Capsule>, ids: seq<string>): seq<Capsule> {
    Filter(dataset, c => Requested(c, ids))
  }

  /** Positions `pos` of `xs` picking out `ys` in increasing order, and
      containing exactly the positions of the elements `keep` accepts. */
  ghost predicate SelectsKept<T>(xs: seq<T>, keep: T -> bool, ys: seq<T>, pos: seq<nat>) {
    && |pos| == |ys|
    && (forall k :: 0 <= k < |pos| ==> pos[k] < |xs| && xs[pos[k]] == ys[k])
    && (forall k, l :: 0 <= k < l < |pos| ==> pos[k] < pos[l])
    && (forall i :: 0 <= i < |xs| ==> (i in pos <==> keep(xs[i])))
  }

  /** The comprehension keeps exactly the wanted elements, in order: the
      result is the input at a strictly increasing list of positions, and
      those positions are all and only the ones whose element is kept. */
  lemma {:induction false} FilterPositions<T>(xs: seq<T>, keep: T -> bool) returns (pos: seq<nat>)
    ensures SelectsKept(xs, keep, Filter(xs, keep), pos)
  {
    if xs == [] {
      return [];
    }
    var f, tail := Filter(xs, keep), Filter(xs[1..], keep);
    var rest := FilterPositions(xs[1..], keep);
    var shifted := ShiftPositions(xs, keep, tail, rest);
    if keep(xs[0]) {
      assert f == [xs[0]] + tail;
      pos := PrependFirst(xs, keep, tail, shifted);
    } else {
      pos := shifted;
      assert f == tail;
    }
  }

  /** When the first element is kept, position 0 in front of the shifted
      positions selects it followed by the rest. */
  lemma PrependFirst<T>(xs: seq<T>, keep: T -> bool, tail: seq<T>, shifted: seq<nat>) returns (pos: seq<nat>)
    requires xs != [] && keep(xs[0])
    requires |shifted| == |tail| && 0 !in shifted
    requires forall k :: 0 <= k < |shifted| ==> shifted[k] < |xs| && xs[shifted[k]] == tail[k]
    requires forall k, l :: 0 <= k < l < |shifted| ==> shifted[k] < shifted[l]
    requires forall i :: 0 < i < |xs| ==> (i in shifted <==> keep(xs[i]))
    ensures SelectsKept(xs, keep, [xs[0]] + tail, pos)
  {
    pos := [0] + shifted;
    var f := [xs[0]] + tail;
    forall k | 0 <= k < |pos|
      ensures pos[k] < |xs| && xs[pos[k]] == f[k]
    {
      if k > 0 {
        assert pos[k] == shifted[k - 1] && f[k] == tail[k - 1];
      }
    }
    PrependOrdered(shifted);
    forall i | 0 <= i < |xs|
      ensures i in pos <==> keep(xs[i])
    {
      if i > 0 {
        assert i in pos <==> i in shifted;
      }
    }
  }

  /** Position 0 in front of increasing positions that avoid it keeps them increasing. */
  lemma PrependOrdered(shifted: seq<nat>)
    requires 0 !in shifted
    requires forall k, l :: 0 <= k < l < |shifted| ==> shifted[k] < shifted[l]
    ensures forall k, l :: 0 <= k < l < |[0] + shifted| ==> ([0] + shifted)[k] < ([0] + shifted)[l]
  {
    var pos := [0] + shifted;
    forall k, l | 0 <= k < l < |pos|
      ensures pos[k] < pos[l]
    {
      assert pos[l] == shifted[l - 1];
      if k > 0 {
        assert pos[k] == shifted[k - 1];
      } else {
        assert shifted[l - 1] in shifted;
      }
    }
  }

  /** Every position moved one place on. */
  function Shifted(rest: seq<nat>): (r: seq<nat>)
    ensures |r| == |rest| && forall k :: 0 <= k < |r| ==> r[k] == rest[k] + 1
  {
    seq(|rest|, k requires 0 <= k < |rest| => rest[k] + 1)
  }

  /** Positions selecting from `xs[1..]`, each moved one place on, select
      the same elements from `xs`, and never name the first position. */
  lemma ShiftPositions<T>(xs: seq<T>, keep: T -> bool, ys: seq<T>, rest: seq<nat>) returns (shifted: seq<nat>)
    requires xs != [] && SelectsKept(xs[1..], keep, ys, rest)
    ensures |shifted| == |ys| && 0 !in shifted
    ensures forall k :: 0 <= k < |shifted| ==> shifted[k] < |xs| && xs[shifted[k]] == ys[k]
    ensures forall k, l :: 0 <= k < l < |shifted| ==> shifted[k] < shifted[l]
    ensures forall i :: 0 < i < |xs| ==> (i in shifted <==> keep(xs[i]))
  {
    shifted := Shifted(rest);
    forall k | 0 <= k < |shifted|
      ensures shifted[k] < |xs| && xs[shifted[k]] == ys[k]
    {
      assert xs[1..][rest[k]] == xs[rest[k] + 1];
    }
    forall i | 0 < i < |xs|
      ensures i in shifted <==> keep(xs[i])
    {
      ShiftedMember(xs, keep, ys, rest, i);
    }
  }

  /** A later position is among the shifted ones exactly when it is kept. */
  lemma ShiftedMember<T>(xs: seq<T>, keep: T -> bool, ys: seq<T>, rest: seq<nat>, i: nat)
    requires xs != [] && SelectsKept(xs[1..], keep, ys, rest)
    requires 0 < i < |xs|
    ensures i in Shifted(rest) <==> keep(xs[i])
  {
    var shifted := Shifted(rest);
    assert xs[1..][i - 1] == xs[i];
    if i - 1 in rest {
      var k :| 0 <= k < |rest| && rest[k] == i - 1;
      assert shifted[k] == i;
    }
    if i in shifted {
      var k :| 0 <= k < |shifted| && shifted[k] == i;
      assert rest[k] == i - 1;
    }
  }

  /** Filtering a concatenation filters each part in turn. */
  lemma {:induction false} FilterAppend<T>(a: seq<T>, b: seq<T>, keep: T -> bool)
    ensures Filter(a + b, keep) == Filter(a, keep) + Filter(b, keep)
  {
    if a != [] {
      assert (a + b)[1..] == a[1..] + b;
      FilterAppend(a[1..], b, keep);
    } else {
      assert a + b == b;
    }
  }

  /** An element is in the result exactly when it is in the input and kept. */
  lemma {:induction false} FilterMembers<T>(xs: seq<T>, keep: T -> bool, x: T)
    ensures x in Filter(xs, keep) <==> x in xs && keep(x)
  {
    if xs != [] {
      FilterMembers(xs[1..], keep, x);
      assert xs == [xs[0]] + xs[1..];
    }
  }

  /** The short ids of the dataset, in order, as the error report lists them. */
  function AvailableShortIds(dataset: seq<Capsule>): (r: seq<Node>)
    requires HasShortIds(dataset)
    ensures |r| == |dataset| && forall i :: 0 <= i < |r| ==> r[i] == dataset[i]["short_id"]
  {
    seq(|dataset|, i requires 0 <= i < |dataset| => dataset[i]["short_id"])
  }

  /** What `load_and_filter_capsules` ends in: the capsules to run, or the
      report of the requested and available ids before `sys.exit(1)`. */
  datatype Selection =
    | Capsules(capsules: seq<Capsule>)
    | NoMatch(requested: seq<string>, available: seq<Node>)

  function LoadAndFilter(dataset: seq<Capsule>, ids: seq<string>): Selection
    requires HasShortIds(dataset)
  {
    if ids != [] then
      var filtered := FilterByShortId(dataset, ids);
      if filtered == [] then NoMatch(ids, AvailableShortIds(dataset)) else Capsules(filtered)
    else
      Capsules(dataset)
  }

  /** No requested ids: the whole dataset, unchanged. Some requested ids:
      the run stops exactly when none of them names a row; otherwise the
      requested rows that exist are run and the ids that name no row are
      dropped without a word. */
  lemma LoadAndFilterOutcome(dataset: seq<Capsule>, ids: seq<string>)
    requires HasShortIds(dataset)
    ensures ids == [] ==> LoadAndFilter(dataset, ids) == Capsules(dataset)
    ensures LoadAndFilter(dataset, ids).NoMatch? <==>
      ids != [] && forall i :: 0 <= i < |dataset| ==> !Requested(dataset[i], ids)
    ensures LoadAndFilter(dataset, ids).NoMatch? ==>
      LoadAndFilter(dataset, ids).available == AvailableShortIds(dataset)
    ensures ids != [] && LoadAndFilter(dataset, ids).Capsules? ==>
      forall c :: c in LoadAndFilter(dataset, ids).capsules <==> c in dataset && Requested(c, ids)
  {
    if ids != [] {
      forall c
        ensures c in FilterByShortId(dataset, ids) <==> c in dataset && Requested(c, ids)
      {
        FilterMembers(dataset, c => Requested(c, ids), c);
      }
      var filtered := FilterByShortId(dataset, ids);
      if filtered == [] {
        forall i | 0 <= i < |dataset|
          ensures !Requested(dataset[i], ids)
        {
          assert dataset[i] in dataset;
        }
      } else {
        assert filtered[0] in filtered;
        var i :| 0 <= i < |dataset| && dataset[i] == filtered[0];
        assert Requested(dataset[i], ids);
      }
    }
  }

  // ---------------------------------------------------------------------
  // Stage sequencing

  /** What `main` does to the outside world, in order. */
  datatype Effect =
    | WriteConfig(path: string, doc: Node)
    | LoadDataset
    | ReportNoMatch(requested: seq<string>, available: seq<Node>)
    | RunSelected(configPath: string, capsules: seq<Capsule>)
    | RunGenerationScript(configPath: string)
    | RunPostprocessingScript(configPath: string)

  /** How `main` ends: a normal return, `sys.exit(code)`, or an exception. */
  datatype Ending = Returned | Exited(code: int) | Raised(error: Error)

  /** Whether the generation stage reports success, given the outcomes of
      the two ways of running it. */
  predicate GenerationSucceeds(args: RunArgs, dataset: seq<Capsule>, selectedRunOk: bool, generationScriptOk: bool)
    requires HasShortIds(dataset)
  {
    if args.shortIds != [] then LoadAndFilter(dataset, args.shortIds).Capsules? && selectedRunOk
    else generationScriptOk
  }

  /** The effects a stage of `main` can have for these arguments. */
  predicate StageEffect(args: RunArgs, dataset: seq<Capsule>, e: Effect)
    requires HasShortIds(dataset)
  {
    || e == LoadDataset
    || e == ReportNoMatch(args.shortIds, AvailableShortIds(dataset))
    || e == RunSelected(TrajectoryConfigPath(args.runName), FilterByShortId(dataset, args.shortIds))
    || e == RunGenerationScript(TrajectoryConfigPath(args.runName))
    || e == RunPostprocessingScript(PostprocessingConfigPath(args.runName))
  }

  /** The order of the stages: each effect is one of the above and happens
      at most once, loading the dataset comes first, and postprocessing or
      the report that nothing matched comes last. */
  predicate StageOrder(args: RunArgs, dataset: seq<Capsule>, trace: seq<Effect>)
    requires HasShortIds(dataset)
  {
    && (forall e :: e in trace ==> StageEffect(args, dataset, e))
    && (forall i, j :: 0 <= i < j < |trace| ==> trace[i] != trace[j])
    && (LoadDataset in trace ==> trace[0] == LoadDataset)
    && (RunPostprocessingScript(PostprocessingConfigPath(args.runName)) in trace ==>
          trace[|trace| - 1] == RunPostprocessingScript(PostprocessingConfigPath(args.runName)))
    && (ReportNoMatch(args.shortIds, AvailableShortIds(dataset)) in trace ==>
          trace[|trace| - 1] == ReportNoMatch(args.shortIds, AvailableShortIds(dataset)))
  }

  /** What the stages of `main` after both configurations are written
      promise: they never raise; they exit, with code 1, exactly when
      generation runs on requested ids of which none matches, and report
      the requested and available ids then; the dataset is loaded iff
      generation runs with ids; the selected capsules run iff some matched;
      the generation script runs iff there are no ids; postprocessing runs
      iff it is not skipped and generation was skipped or reported success;
      and all of this happens in the order `StageOrder` gives. */
  predicate StagesFollow(args: RunArgs, dataset: seq<Capsule>, selectedRunOk: bool, generationScriptOk: bool,
                         effects: seq<Effect>, ending: Ending)
    requires HasShortIds(dataset)
  {
    && !ending.Raised?
    && (ending.Exited? <==> !args.skipGeneration && LoadAndFilter(dataset, args.shortIds).NoMatch?)
    && (ending.Exited? ==> ending.code == 1)
    && StageOrder(args, dataset, effects)
    && (LoadDataset in effects <==> !args.skipGeneration && args.shortIds != [])
    && (ReportNoMatch(args.shortIds, AvailableShortIds(dataset)) in effects <==> ending.Exited?)
    && (RunSelected(TrajectoryConfigPath(args.runName), FilterByShortId(dataset, args.shortIds)) in effects <==>
          !args.skipGeneration && args.shortIds != [] && LoadAndFilter(dataset, args.shortIds).Capsules?)
    && (RunGenerationScript(TrajectoryConfigPath(args.runName)) in effects <==>
          !args.skipGeneration && args.shortIds == [])
    && (RunPostprocessingScript(PostprocessingConfigPath(args.runName)) in effects <==>
          && !args.skipPostprocessing
          && (args.skipGeneration || GenerationSucceeds(args, dataset, selectedRunOk, generationScriptOk)))
  }

  /** The postprocessing stage: the script runs unless it is skipped. */
  function PostprocessingStage(args: RunArgs): seq<Effect> {
    if args.skipPostprocessing then [] else [RunPostprocessingScript(PostprocessingConfigPath(args.runName))]
  }

  /** The stages of `main` after both configurations are written: the
      generation stage (in-process on selected capsules, or the generation
      script), then postprocessing only if generation was skipped or
      reported success. */
  method RunStages(args: RunArgs, dataset: seq<Capsule>, selectedRunOk: bool, generationScriptOk: bool)
    returns (effects: seq<Effect>, ending: Ending)
    requires HasShortIds(dataset)
    ensures StagesFollow(args, dataset, selectedRunOk, generationScriptOk, effects, ending)
  {
    ending := Returned;
    if args.skipGeneration {
      effects := PostprocessingStage(args);
      WithoutGeneration(args, dataset, selectedRunOk, generationScriptOk);
    } else if args.shortIds != [] {
      var selection := LoadAndFilter(dataset, args.shortIds);
      if selection.NoMatch? {
        effects := [LoadDataset, ReportNoMatch(selection.requested, selection.available)];
        ending := Exited(1);
        NothingMatched(args, dataset, selectedRunOk, generationScriptOk);
        return;
      }
      effects := [LoadDataset, RunSelected(TrajectoryConfigPath(args.runName), selection.capsules)];
      if selectedRunOk {
        effects := effects + PostprocessingStage(args);
      }
      SelectedCapsules(args, dataset, selectedRunOk, generationScriptOk);
    } else {
      effects := [RunGenerationScript(TrajectoryConfigPath(args.runName))];
      if generationScriptOk {
        effects := effects + PostprocessingStage(args);
      }
      GenerationScript(args, dataset, selectedRunOk, generationScriptOk);
    }
  }

  /** With generation skipped, only postprocessing can run. */
  lemma WithoutGeneration(args: RunArgs, dataset: seq<Capsule>, selectedRunOk: bool, generationScriptOk: bool)
    requires HasShortIds(dataset) && args.skipGeneration
    ensures StagesFollow(args, dataset, selectedRunOk, generationScriptOk, PostprocessingStage(args), Returned)
  {
  }

  /** Requested ids of which none matches: load, report, exit. */
  lemma NothingMatched(args: RunArgs, dataset: seq<Capsule>, selectedRunOk: bool, generationScriptOk: bool)
    requires HasShortIds(dataset) && !args.skipGeneration && args.shortIds != []
    requires LoadAndFilter(dataset, args.shortIds).NoMatch?
    ensures StagesFollow(args, dataset, selectedRunOk, generationScriptOk,
      [LoadDataset, ReportNoMatch(args.shortIds, AvailableShortIds(dataset))], Exited(1))
  {
  }

  /** Requested ids of which some match: load, run the selection, then
      postprocessing if that run succeeded. */
  lemma SelectedCapsules(args: RunArgs, dataset: seq<Capsule>, selectedRunOk: bool, generationScriptOk: bool)
    requires HasShortIds(dataset) && !args.skipGeneration && args.shortIds != []
    requires LoadAndFilter(dataset, args.shortIds).Capsules?
    ensures StagesFollow(args, dataset, selectedRunOk, generationScriptOk,
      [LoadDataset, RunSelected(TrajectoryConfigPath(args.runName), FilterByShortId(dataset, args.shortIds))]
        + (if selectedRunOk then PostprocessingStage(args) else []), Returned)
  {
    var load := LoadDataset;
    var run := RunSelected(TrajectoryConfigPath(args.runName), FilterByShortId(dataset, args.shortIds));
    var post := RunPostprocessingScript(PostprocessingConfigPath(args.runName));
    if selectedRunOk && !args.skipPostprocessing {
      assert [load, run] + PostprocessingStage(args) == [load, run, post];
    } else {
      assert [load, run] + (if selectedRunOk then PostprocessingStage(args) else []) == [load, run];
    }
  }

  /** No requested ids: the generation script, then postprocessing if it succeeded. */
  lemma GenerationScript(args: RunArgs, dataset: seq<Capsule>, selectedRunOk: bool, generationScriptOk: bool)
    requires HasShortIds(dataset) && !args.skipGeneration && args.shortIds == []
    ensures StagesFollow(args, dataset, selectedRunOk, generationScriptOk,
      [RunGenerationScript(TrajectoryConfigPath(args.runName))]
        + (if generationScriptOk then PostprocessingStage(args) else []), Returned)
  {
  }

  /** `main` after argument parsing. The templates and the dataset are given
      as values; `selectedRunOk` is what `run_selected_capsules` returns and
      `generationScriptOk` what `run_generate_trajectories` returns. The
      result of `run_postprocessing` is not used by `main`, so it is no
      parameter here. Both configurations are derived and written before
      any stage runs, the trajectory one first; an exception while deriving
      either ends `main`, after the trajectory configuration is written if
      only the postprocessing one fails. */
  method RunAnalysis(args: RunArgs, trajectoryTemplate: Node, postprocessingTemplate: Node,
              dataset: seq<Capsule>, selectedRunOk: bool, generationScriptOk: bool)
    returns (effects: seq<Effect>, ending: Ending)
    requires HasShortIds(dataset)
    ensures ending.Raised? <==>
      TrajectoryConfig(trajectoryTemplate, args).Err? || PostprocessingConfig(postprocessingTemplate, args).Err?
    ensures TrajectoryConfig(trajectoryTemplate, args).Err? ==> effects == []
    ensures TrajectoryConfig(trajectoryTemplate, args).Ok? ==>
      |effects| >= 1 && effects[0] == WriteConfig(TrajectoryConfigPath(args.runName), TrajectoryConfig(trajectoryTemplate, args).value)
    ensures ending.Raised? ==> |effects| <= 1
    ensures !ending.Raised? ==>
      |effects| >= 2 && effects[1] == WriteConfig(PostprocessingConfigPath(args.runName), PostprocessingConfig(postprocessingTemplate, args).value)
    ensures !ending.Raised? ==> StagesFollow(args, dataset, selectedRunOk, generationScriptOk, effects[2..], ending)
    ensures RunPostprocessingScript(PostprocessingConfigPath(args.runName)) in effects <==>
      && !ending.Raised? && !args.skipPostprocessing
      && (args.skipGeneration || GenerationSucceeds(args, dataset, selectedRunOk, generationScriptOk))
  {
    var trajectory := TrajectoryConfig(trajectoryTemplate, args);
    if trajectory.Err? {
      return [], Raised(trajectory.error);
    }
    var first := WriteConfig(TrajectoryConfigPath(args.runName), trajectory.value);
    var postprocessing := PostprocessingConfig(postprocessingTemplate, args);
    if postprocessing.Err? {
      return [first], Raised(postprocessing.error);
    }
    var second := WriteConfig(PostprocessingConfigPath(args.runName), postprocessing.value);
    var stages;
    stages, ending := RunStages(args, dataset, selectedRunOk, generationScriptOk);
    effects := [first, second] + stages;
    assert effects[2..] == stages;
    StagesAfterWrites(first, second, stages, RunPostprocessingScript(PostprocessingConfigPath(args.runName)));
  }

  /** Behind the two configuration writes, any other effect is in the
      whole trace iff it is among the stages'. */
  lemma StagesAfterWrites(first: Effect, second: Effect, stages: seq<Effect>, e: Effect)
    requires first.WriteConfig? && second.WriteConfig? && !e.WriteConfig?
    ensures e in [first, second] + stages <==> e in stages
  {
  }

  // ---------------------------------------------------------------------
  // run_selected_capsules as written

  /** Calling `TrajectoryGenerator(...)` with the given keyword arguments:
      its `__init__` takes none, so any keyword raises TypeError. */
  function ConstructGenerator(keywords: set<string>): Result<()> {
    if keywords == {} then Ok(()) else Err(TypeError)
  }

  /** `run_selected_capsules` as written: the generator is constructed with
      `config_path=...`, the exception is caught and False returned, so
      `runOk`, the outcome the remaining steps would have had, never matters. */
  function RunSelectedCapsulesAsWritten(runOk: bool): bool {
    match ConstructGenerator({"config_path"})
    case Err(_) => false
    case Ok(_) => runOk
  }

  /** As written, asking for specific capsules never reaches postprocessing
      unless generation is skipped: the in-process run always reports failure. */
  method RunAnalysisAsWritten(args: RunArgs, trajectoryTemplate: Node, postprocessingTemplate: Node,
                       dataset: seq<Capsule>, selectedRunWouldSucceed: bool, generationScriptOk: bool)
    returns (effects: seq<Effect>, ending: Ending)
    requires HasShortIds(dataset)
    ensures args.shortIds != [] && !args.skipGeneration ==>
      RunPostprocessingScript(PostprocessingConfigPath(args.runName)) !in effects
  {
    var selectedRunOk := RunSelectedCapsulesAsWritten(selectedRunWouldSucceed);
    assert !selectedRunOk;
    effects, ending := RunAnalysis(args, trajectoryTemplate, postprocessingTemplate, dataset, selectedRunOk, generationScriptOk);
  }
}
