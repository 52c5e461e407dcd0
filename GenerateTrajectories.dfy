/** The bookkeeping of `bixbench/generate_trajectories.py`: the derived
    generator configuration, the capsule directory naming, the environment
    built from a capsule, the record stored for a finished trajectory, the
    bounded rollout loop and the batching of the capsule list. */
module GenerateTrajectories {
  import opened Wrappers
  import opened Document
  import opened Text

  // ---------------------------------------------------------------------
  // Configuration (`load_config`)

  /** The dictionary `load_config` returns. `Path(...).absolute()` is kept
      as the configured string; `AgentConfig` as its two arguments; the two
      enumerations as the member name. */
  datatype GeneratorConfig = GeneratorConfig(
    agentType: Node,
    agentKwargs: Node,
    maxRolloutSteps: Node,
    batchSize: Node,
    notebookName: Node,
    language: string,
    capsuleMode: Node,
    includeRefusalOption: Node,
    systemPrompt: string,
    basePrompt: string,
    evalMode: string,
    workspaceDir: string,
    trajectoriesDir: string,
    dataFolder: string,
    hfRepoId: Node,
    rolloutType: Node,
    avoidImages: Node)

  /** `getattr(prompts, name)`: the prompt module is given as a map from
      attribute names to prompt texts. */
  function PromptNamed(prompts: map<string, string>, name: Node): (r: Result<string>)
    ensures r.Ok? <==> name.Str? && name.s in prompts
    ensures r.Ok? ==> r.value == prompts[name.s]
  {
    if !name.Str? then Err(TypeError)
    else if name.s in prompts then Ok(prompts[name.s])
    else Err(AttributeError)
  }

  /** The integer a key stands for when it indexes a list or a string:
      an int, or a bool read as 0 or 1. */
  function IndexValue(key: Node): Option<int> {
    match key
    case Int(i) => Some(i)
    case Bool(b) => Some(if b then 1 else 0)
    case _ => None
  }

  /** The position Python's `xs[i]` reads in a sequence of length `len`:
      a negative index counts from the end. */
  function Position(i: int, len: nat): (r: Option<nat>)
    ensures r.Some? <==> 0 <= i + len && i < len
    ensures r.Some? ==> r.value < len && (r.value == i || r.value == i + len)
  {
    if 0 <= i < len then Some(i)
    else if 0 <= i + len && i < 0 then Some(i + len)
    else None
  }

  /** `d[key]` for a key read from the configuration. A loaded mapping has
      string keys here, so another hashable key is simply absent and a list
      or mapping key is unhashable; a list or a string is indexed by an int
      or a bool, from the end when negative; anything else cannot be
      subscripted. */
  function Subscript(d: Node, key: Node): (r: Result<Node>)
    ensures d.Map? ==> (r.Ok? <==> key.Str? && key.s in d.entries)
    ensures d.Map? && r.Ok? ==> r.value == d.entries[key.s]
    ensures (d.List? || d.Str?) ==>
      var len := if d.List? then |d.items| else |d.s|;
      (r.Ok? <==> IndexValue(key).Some? && 0 <= IndexValue(key).value + len && IndexValue(key).value < len)
    ensures (d.List? || d.Str?) && r.Ok? ==>
      var i := IndexValue(key).value;
      var len := if d.List? then |d.items| else |d.s|;
      var k := if i < 0 then i + len else i;
      0 <= k < len && r.value == if d.List? then d.items[k] else Str([d.s[k]])
    ensures !d.Map? && !d.List? && !d.Str? ==> r == Err(TypeError)
  {
    match d
    case Map(entries) =>
      if key.Str? then (if key.s in entries then Ok(entries[key.s]) else Err(KeyError(key.s)))
      else if key.List? || key.Map? then Err(TypeError)
      else Err(KeyErrorNonString)
    case List(items) =>
      if IndexValue(key).None? then Err(TypeError)
      else if Position(IndexValue(key).value, |items|).None? then Err(IndexError)
      else Ok(items[Position(IndexValue(key).value, |items|).value])
    case Str(text) =>
      if IndexValue(key).None? then Err(TypeError)
      else if Position(IndexValue(key).value, |text|).None? then Err(IndexError)
      else Ok(Str([text[Position(IndexValue(key).value, |text|).value]]))
    case _ => Err(TypeError)
  }

  /** `Enum[key]`: look up an enumeration member by name. */
  function EnumMember(names: set<string>, key: Node): (r: Result<string>)
    ensures r.Ok? <==> key.Str? && key.s in names
    ensures r.Ok? ==> r.value == key.s
  {
    if key.Str? then (if key.s in names then Ok(key.s) else Err(KeyError(key.s)))
    else if key.List? || key.Map? then Err(TypeError)
    else Err(KeyErrorNonString)
  }

  /** `x.upper()`, which only strings have. */
  function UpperMethod(x: Node): (r: Result<Node>)
    ensures r.Ok? <==> x.Str?
    ensures r.Ok? ==> r.value == Str(Upper(x.s))
  {
    if x.Str? then Ok(Str(Upper(x.s))) else Err(AttributeError)
  }

  /** `Path(x)`, which accepts only a string here. */
  function PathOf(x: Node): (r: Result<string>)
    ensures r.Ok? <==> x.Str?
    ensures r.Ok? ==> r.value == x.s
  {
    if x.Str? then Ok(x.s) else Err(TypeError)
  }

  /** The prompt template chosen by the capsule mode. */
  function TemplatePrompt(raw: Node, prompts: map<string, string>): Result<string> {
    var mode :- Lookup(raw, ["capsule", "mode"]);
    var templates :- Lookup(raw, ["capsule", "prompt_templates"]);
    var name :- Subscript(templates, mode);
    PromptNamed(prompts, name)
  }

  /** `if avoid_images: base_prompt += "\n" + prompts.AVOID_IMAGES`. */
  function WithAvoidImages(template: string, avoid: Node, prompts: map<string, string>): Result<string> {
    if !Truthy(avoid) then Ok(template)
    else if "AVOID_IMAGES" in prompts then Ok(template + "\n" + prompts["AVOID_IMAGES"])
    else Err(AttributeError)
  }

  /** The base prompt always starts with the template; it is longer exactly
      when the flag is truthy, by a newline and the avoid-images text; the
      step fails only when the flag is set and that text is not defined. */
  lemma AvoidImagesExtends(template: string, avoid: Node, prompts: map<string, string>)
    ensures WithAvoidImages(template, avoid, prompts).Err? <==>
      Truthy(avoid) && "AVOID_IMAGES" !in prompts
    ensures WithAvoidImages(template, avoid, prompts).Ok? ==>
      var r := WithAvoidImages(template, avoid, prompts).value;
      && template <= r
      && (r == template <==> !Truthy(avoid))
      && (Truthy(avoid) ==> r[|template|..] == "\n" + prompts["AVOID_IMAGES"])
  {
    if Truthy(avoid) && "AVOID_IMAGES" in prompts {
      var r := template + "\n" + prompts["AVOID_IMAGES"];
      assert r[..|template|] == template;
      assert |r| > |template|;
    }
  }

  /** `config["rollout"].get("type", "vanilla")`: `get` exists on mappings only. */
  function RolloutTypeOf(rollout: Node): (r: Result<Node>)
    ensures r.Ok? <==> rollout.Map?
    ensures r.Ok? && "type" !in rollout.entries ==> r.value == Str("vanilla")
    ensures r.Ok? && "type" in rollout.entries ==> r.value == rollout.entries["type"]
  {
    if !rollout.Map? then Err(AttributeError)
    else if "type" in rollout.entries then Ok(rollout.entries["type"])
    else Ok(Str("vanilla"))
  }

  /** `load_config` on the loaded `config.yaml`, in the order Python
      evaluates it: the agent entries, the system prompt, the mode and its
      template, the avoid-images flag, then the returned dictionary's values
      from first to last. `prompts` is the prompt module, `languages` and
      `evalModes` the member names of the two enumerations. */
  function LoadConfig(raw: Node, prompts: map<string, string>, languages: set<string>, evalModes: set<string>)
    : (r: Result<GeneratorConfig>)
    ensures r.Ok? ==>
      && TemplatePrompt(raw, prompts).Ok?
      && Lookup(raw, ["capsule", "avoid_images"]) == Ok(r.value.avoidImages)
      && WithAvoidImages(TemplatePrompt(raw, prompts).value, r.value.avoidImages, prompts) == Ok(r.value.basePrompt)
    ensures r.Ok? ==>
      Lookup(raw, ["rollout"]).Ok? && RolloutTypeOf(Lookup(raw, ["rollout"]).value) == Ok(r.value.rolloutType)
    ensures r.Ok? ==>
      && Lookup(raw, ["notebook", "language"]).Ok? && Lookup(raw, ["notebook", "language"]).value.Str?
      && r.value.language == Upper(Lookup(raw, ["notebook", "language"]).value.s)
      && r.value.language in languages
  {
    var agentType :- Lookup(raw, ["agent", "agent_type"]);
    var agentKwargs :- Lookup(raw, ["agent", "agent_kwargs"]);
    var systemPromptName :- Lookup(raw, ["capsule", "system_prompt"]);
    var systemPrompt :- PromptNamed(prompts, systemPromptName);
    var capsuleMode :- Lookup(raw, ["capsule", "mode"]);
    var template :- TemplatePrompt(raw, prompts);
    var avoidFlag :- Lookup(raw, ["capsule", "avoid_images"]);
    var basePrompt :- WithAvoidImages(template, avoidFlag, prompts);
    var maxSteps :- Lookup(raw, ["rollout", "max_steps"]);
    var batchSize :- Lookup(raw, ["rollout", "batch_size"]);
    var notebookName :- Lookup(raw, ["notebook", "name"]);
    var languageName :- Lookup(raw, ["notebook", "language"]);
    var upperName :- UpperMethod(languageName);
    var language :- EnumMember(languages, upperName);
    var includeRefusal :- Lookup(raw, ["capsule", "include_refusal_option"]);
    var evalModeName :- Lookup(raw, ["capsule", "eval_mode"]);
    var evalMode :- EnumMember(evalModes, evalModeName);
    var workspaceName :- Lookup(raw, ["paths", "workspace_dir"]);
    var workspaceDir :- PathOf(workspaceName);
    var trajectoriesName :- Lookup(raw, ["paths", "trajectories_dir"]);
    var trajectoriesDir :- PathOf(trajectoriesName);
    var dataFolderName :- Lookup(raw, ["paths", "data_folder"]);
    var dataFolder :- PathOf(dataFolderName);
    var hfRepoId :- Lookup(raw, ["paths", "hf_repo_id"]);
    var rollout :- Lookup(raw, ["rollout"]);
    var rolloutType :- RolloutTypeOf(rollout);
    Ok(GeneratorConfig(agentType, agentKwargs, maxSteps, batchSize, notebookName, language,
                       capsuleMode, includeRefusal, systemPrompt, basePrompt, evalMode,
                       workspaceDir, trajectoriesDir, dataFolder, hfRepoId, rolloutType, avoidFlag))
  }

  /** How `batch_rollout` runs a batch, by the configured rollout type. */
  datatype RolloutKind = AviaryManager | VanillaLoop

  /** `batch_rollout`'s choice: "aviary" uses the rollout manager; otherwise
      the method named `<type>_rollout` is looked up on the generator. Of the
      generator's methods, `vanilla_rollout` runs the loop, `custom_rollout`
      raises NotImplementedError and `batch_rollout` rejects the two
      arguments it is called with; any other name is missing. */
  function RolloutFor(rolloutType: Node): Result<RolloutKind> {
    if rolloutType == Str("aviary") then Ok(AviaryManager)
    else if !rolloutType.Str? then Err(AttributeError)
    else if rolloutType.s == "vanilla" then Ok(VanillaLoop)
    else if rolloutType.s == "custom" then Err(NotImplementedError)
    else if rolloutType.s == "batch" then Err(TypeError)
    else Err(AttributeError)
  }

  /** A configuration whose rollout section names no type runs the vanilla
      loop; a configured type is used as given. */
  lemma RolloutDefaultsToVanilla(raw: Node, prompts: map<string, string>, languages: set<string>, evalModes: set<string>)
    requires LoadConfig(raw, prompts, languages, evalModes).Ok?
    ensures var cfg := LoadConfig(raw, prompts, languages, evalModes).value;
      var rollout := Lookup(raw, ["rollout"]).value;
      && ("type" !in rollout.entries ==> RolloutFor(cfg.rolloutType) == Ok(VanillaLoop))
      && ("type" in rollout.entries ==> cfg.rolloutType == rollout.entries["type"])
  {
  }

  // ---------------------------------------------------------------------
  // Capsules and their data directory

  /** A capsule: one row of the dataset, as a dictionary that `process_capsule`
      and `environment_factory` update in place and that the environment
      keeps as its metadata. */
  class CapsuleRecord {
    var fields: map<string, Node>

    constructor(fields: map<string, Node>)
      ensures this.fields == fields
    {
      this.fields := fields;
    }
  }

  /** `a / b` for two path strings. */
  function PathJoin(a: string, b: string): string {
    a + "/" + b
  }

  /** The directory a capsule's archive is unpacked into:
      `local_data_folder / data_folder.replace(".zip", "")`. */
  function ExtractDir(dataFolder: string, zipName: string): string {
    PathJoin(dataFolder, ReplaceAll(zipName, ".zip", ""))
  }

  /** For an archive name `stem.zip` whose only ".zip" is the final one,
      the directory is the stem. */
  lemma ExtractDirOfArchive(dataFolder: string, stem: string)
    requires forall i :: 0 <= i < |stem| ==> !OccursAt(stem + ".zip", ".zip", i)
    ensures ExtractDir(dataFolder, stem + ".zip") == PathJoin(dataFolder, stem)
  {
    assert stem + ".zip" + "" == stem + ".zip";
    ReplaceAllFirst(stem, ".zip", "", "");
    assert stem + "" + "" == stem;
  }

  /** Other dots in the stem are kept: `a.b.zip` is unpacked into `a.b`. */
  lemma ExtractDirKeepsInnerDots(dataFolder: string)
    ensures ExtractDir(dataFolder, "a.b.zip") == PathJoin(dataFolder, "a.b")
  {
    var name := "a.b.zip";
    assert name == "a.b" + ".zip";
    forall i | 0 <= i < 3
      ensures !OccursAt(name, ".zip", i)
    {
      assert name[i..i + 4] != ".zip" by {
        assert name[i..i + 4][1] == name[i + 1];
      }
    }
    ExtractDirOfArchive(dataFolder, "a.b");
  }

  /** A name without ".zip" in it is used as the directory name unchanged. */
  lemma ExtractDirOfPlainName(dataFolder: string, name: string)
    requires forall i :: 0 <= i < |name| ==> !OccursAt(name, ".zip", i)
    ensures ExtractDir(dataFolder, name) == PathJoin(dataFolder, name)
  {
    ReplaceAllAbsent(name, ".zip", "");
  }

  /** `process_capsule`: `alreadyExtracted` says whether the directory exists
      and is non-empty. Otherwise the archive is downloaded and unpacked
      (left to the file system here). Either way the capsule's
      `local_data_folder` is set to the directory. The result says whether
      a download took place. */
  method ProcessCapsule(cfg: GeneratorConfig, capsule: CapsuleRecord, alreadyExtracted: bool)
    returns (r: Result<bool>)
    modifies capsule
    ensures r.Ok? <==> "data_folder" in old(capsule.fields) && old(capsule.fields)["data_folder"].Str?
    ensures r.Err? ==> capsule.fields == old(capsule.fields)
    ensures r.Ok? ==>
      && r.value == !alreadyExtracted
      && capsule.fields == old(capsule.fields)["local_data_folder" :=
           Str(ExtractDir(cfg.dataFolder, old(capsule.fields)["data_folder"].s))]
  {
    if "data_folder" !in capsule.fields {
      return Err(KeyError("data_folder"));
    }
    var zipName := capsule.fields["data_folder"];
    if !zipName.Str? {
      return Err(AttributeError);
    }
    var extractDir := ExtractDir(cfg.dataFolder, zipName.s);
    capsule.fields := capsule.fields["local_data_folder" := Str(extractDir)];
    r := Ok(!alreadyExtracted);
  }

  // ---------------------------------------------------------------------
  // Questions, answers and the environment (`environment_factory`)

  /** A question as `load_mcq` gives it. */
  datatype Mcq = Mcq(
    questionId: string,
    question: string,
    questionPrompt: string,
    options: seq<string>,
    idealAnswer: string,
    unsureAnswerLetter: Option<string>)

  /** A dictionary comprehension `{k: v for (k, v) in pairs}`: entries are
      inserted in order, so a repeated key keeps its last value. */
  function DictFromPairs<K, V>(pairs: seq<(K, V)>): (m: map<K, V>)
    ensures m.Keys == set i | 0 <= i < |pairs| :: pairs[i].0
    ensures forall i :: 0 <= i < |pairs| && (forall j :: i < j < |pairs| ==> pairs[j].0 != pairs[i].0) ==>
      m[pairs[i].0] == pairs[i].1
  {
    if pairs == [] then map[]
    else
      var init := pairs[..|pairs| - 1];
      var last := pairs[|pairs| - 1];
      assert forall i :: 0 <= i < |init| ==> init[i] == pairs[i];
      DictFromPairs(init)[last.0 := last.1]
  }

  /** Pairs keyed by the questions' ids, position by position, have exactly
      the questions' ids as their set of keys. */
  lemma KeysOfQuestionPairs<V>(questions: seq<Mcq>, pairs: seq<(string, V)>)
    requires |pairs| == |questions|
    requires forall i :: 0 <= i < |questions| ==> pairs[i].0 == questions[i].questionId
    ensures (set i | 0 <= i < |pairs| :: pairs[i].0) == set i | 0 <= i < |questions| :: questions[i].questionId
  {
    forall i | 0 <= i < |questions|
      ensures questions[i].questionId in set j | 0 <= j < |pairs| :: pairs[j].0
    {
      assert pairs[i].0 == questions[i].questionId;
    }
  }

  /** With no key repeated, every pair's value is the one stored for its key. */
  lemma DictFromDistinctPairs<K, V>(pairs: seq<(K, V)>)
    requires forall i, j :: 0 <= i < j < |pairs| ==> pairs[i].0 != pairs[j].0
    ensures forall i :: 0 <= i < |pairs| ==> DictFromPairs(pairs)[pairs[i].0] == pairs[i].1
  {
    forall i | 0 <= i < |pairs|
      ensures DictFromPairs(pairs)[pairs[i].0] == pairs[i].1
    {
      assert forall j :: i < j < |pairs| ==> pairs[j].0 != pairs[i].0;
    }
  }

  const QuestionSeparator := "\n-------\n"

  /** The question prompts, in order. */
  function Prompts(questions: seq<Mcq>): (r: seq<string>)
    ensures |r| == |questions| && forall i :: 0 <= i < |r| ==> r[i] == questions[i].questionPrompt
  {
    seq(|questions|, i requires 0 <= i < |questions| => questions[i].questionPrompt)
  }

  /** The question prompts joined in order by the separator line. */
  function QuestionsText(questions: seq<Mcq>): string {
    Join(Prompts(questions), QuestionSeparator)
  }

  /** `base_prompt.format(questions=text)`: the `{questions}` field replaced. */
  function FormatQuestions(template: string, text: string): string {
    ReplaceAll(template, "{questions}", text)
  }

  /** A template with one `{questions}` field, and no brace before it, reads
      as the text before the field, the questions, and the rest of the
      template. */
  lemma FormatFillsField(pre: string, post: string, text: string)
    requires forall i :: 0 <= i < |pre| ==> pre[i] != '{'
    requires forall i :: 0 <= i < |post| ==> !OccursAt(post, "{questions}", i)
    ensures FormatQuestions(pre + "{questions}" + post, text) == pre + text + post
  {
    forall i | 0 <= i < |pre|
      ensures !OccursAt(pre + "{questions}" + post, "{questions}", i)
    {
      assert (pre + "{questions}" + post)[i] == pre[i];
    }
    ReplaceAllFirst(pre, "{questions}", text, post);
    ReplaceAllAbsent(post, "{questions}", text);
  }

  /** Each question prompt appears in the joined text at its place, and one
      separator stands between consecutive prompts. */
  lemma QuestionsTextLayout(questions: seq<Mcq>, i: nat)
    requires i < |questions|
    ensures var prompts := Prompts(questions);
      var text := QuestionsText(questions);
      var o := Offset(prompts, QuestionSeparator, i);
      && o + |questions[i].questionPrompt| <= |text|
      && text[o..o + |questions[i].questionPrompt|] == questions[i].questionPrompt
      && (i + 1 < |questions| ==>
            && Offset(prompts, QuestionSeparator, i + 1) <= |text|
            && text[o + |questions[i].questionPrompt|..Offset(prompts, QuestionSeparator, i + 1)] == QuestionSeparator)
  {
    var prompts := Prompts(questions);
    JoinPart(prompts, QuestionSeparator, i);
    if i + 1 < |questions| {
      JoinSeparator(prompts, QuestionSeparator, i);
    }
  }

  /** The pairs `(q.question_id, value(q))` of a dictionary comprehension over the questions. */
  function KeyedPairs<V>(questions: seq<Mcq>, value: Mcq -> V): (r: seq<(string, V)>)
    ensures |r| == |questions|
    ensures forall i :: 0 <= i < |r| ==> r[i] == (questions[i].questionId, value(questions[i]))
  {
    seq(|questions|, i requires 0 <= i < |questions| => (questions[i].questionId, value(questions[i])))
  }

  /** A dictionary keyed by question id has exactly the ids as keys; with
      distinct ids each id maps to its own question's value. */
  lemma KeyedDict<V>(questions: seq<Mcq>, value: Mcq -> V)
    ensures DictFromPairs(KeyedPairs(questions, value)).Keys == set i | 0 <= i < |questions| :: questions[i].questionId
    ensures (forall i, j :: 0 <= i < j < |questions| ==> questions[i].questionId != questions[j].questionId) ==>
      forall i :: 0 <= i < |questions| ==>
        DictFromPairs(KeyedPairs(questions, value))[questions[i].questionId] == value(questions[i])
  {
    var pairs := KeyedPairs(questions, value);
    KeysOfQuestionPairs(questions, pairs);
    if forall i, j :: 0 <= i < j < |questions| ==> questions[i].questionId != questions[j].questionId {
      DictFromDistinctPairs(pairs);
    }
  }

  function IdealAnswerOf(q: Mcq): string {
    q.idealAnswer
  }

  /** `{q.question_id: q.ideal_answer for q in questions}`. */
  function AnswerKey(questions: seq<Mcq>): map<string, string> {
    DictFromPairs(KeyedPairs(questions, IdealAnswerOf))
  }

  /** The answer key has one entry per question id; with distinct ids each
      question's id maps to its own ideal answer. */
  lemma AnswerKeyEntries(questions: seq<Mcq>)
    ensures AnswerKey(questions).Keys == set i | 0 <= i < |questions| :: questions[i].questionId
    ensures (forall i, j :: 0 <= i < j < |questions| ==> questions[i].questionId != questions[j].questionId) ==>
      forall i :: 0 <= i < |questions| ==> AnswerKey(questions)[questions[i].questionId] == questions[i].idealAnswer
  {
    KeyedDict(questions, IdealAnswerOf);
  }

  /** The environment `environment_factory` builds. `metadata` is the
      capsule record itself, not a copy. */
  datatype Env = Env(
    problemId: Node,
    problem: string,
    evalMode: string,
    nbPath: string,
    workDir: string,
    language: string,
    systemPrompt: string,
    metadata: CapsuleRecord,
    answer: map<string, string>,
    mcqs: Option<seq<Mcq>>)

  /** The capsule entries `environment_factory` reads, in the order it reads
      them, are all there and have the types it needs. */
  predicate FactoryInputsPresent(cfg: GeneratorConfig, fields: map<string, Node>) {
    && "questions" in fields
    && "uuid" in fields && fields["uuid"].Str?
    && "data_folder" in fields && fields["data_folder"].Str?
    && cfg.notebookName.Str?
    && "short_id" in fields
  }

  /** `environment_factory` gets as far as copying the capsule's data
      directory into the working directory. */
  predicate FactoryReachesCopy(fields: map<string, Node>) {
    && "questions" in fields
    && "uuid" in fields && fields["uuid"].Str?
    && "data_folder" in fields && fields["data_folder"].Str?
  }

  /** `environment_factory` gets as far as adding the configuration flags to the capsule. */
  predicate FactoryUpdatesCapsule(cfg: GeneratorConfig, fields: map<string, Node>) {
    FactoryReachesCopy(fields) && cfg.notebookName.Str?
  }

  /** `environment_factory`. `questions` is what `literal_eval` and `load_mcq`
      make of the capsule's `questions` entry. `copiedFrom` is the directory
      whose files are copied into the working directory, once reached; the
      copy comes before the notebook name is used, so it happens even when
      that name is not a string. The capsule gains the two configuration
      flags before its `short_id` is read, so it keeps them even when that
      read fails. */
  method EnvironmentFactory(cfg: GeneratorConfig, capsule: CapsuleRecord, questions: seq<Mcq>)
    returns (r: Result<Env>, copiedFrom: Option<string>)
    modifies capsule
    ensures r.Ok? <==> FactoryInputsPresent(cfg, old(capsule.fields))
    ensures capsule.fields == if FactoryUpdatesCapsule(cfg, old(capsule.fields))
      then old(capsule.fields)["avoid_images" := cfg.avoidImages]["include_refusal_option" := cfg.includeRefusalOption]
      else old(capsule.fields)
    ensures copiedFrom.Some? <==> FactoryReachesCopy(old(capsule.fields))
    ensures copiedFrom.Some? ==> copiedFrom.value == ExtractDir(cfg.dataFolder, old(capsule.fields)["data_folder"].s)
    ensures r.Ok? ==>
      var workDir := PathJoin(cfg.workspaceDir, old(capsule.fields)["uuid"].s);
      && r.value.metadata == capsule
      && r.value.problemId == old(capsule.fields)["short_id"]
      && r.value.problem == FormatQuestions(cfg.basePrompt, QuestionsText(questions))
      && r.value.answer == AnswerKey(questions)
      && r.value.mcqs == Some(questions)
      && r.value.workDir == workDir
      && r.value.nbPath == PathJoin(workDir, cfg.notebookName.s)
      && r.value.evalMode == cfg.evalMode && r.value.language == cfg.language
      && r.value.systemPrompt == cfg.systemPrompt
  {
    copiedFrom := None;
    if "questions" !in capsule.fields {
      return Err(KeyError("questions")), None;
    }
    var problem := FormatQuestions(cfg.basePrompt, QuestionsText(questions));
    var answer := AnswerKey(questions);
    if "uuid" !in capsule.fields {
      return Err(KeyError("uuid")), None;
    }
    var uuid := capsule.fields["uuid"];
    if !uuid.Str? {
      return Err(TypeError), None;
    }
    var workDir := PathJoin(cfg.workspaceDir, uuid.s);
    if "data_folder" !in capsule.fields {
      return Err(KeyError("data_folder")), None;
    }
    var zipName := capsule.fields["data_folder"];
    if !zipName.Str? {
      return Err(AttributeError), None;
    }
    var dataDir := ExtractDir(cfg.dataFolder, zipName.s);
    copiedFrom := Some(dataDir);
    if !cfg.notebookName.Str? {
      return Err(TypeError), copiedFrom;
    }
    var nbPath := PathJoin(workDir, cfg.notebookName.s);
    capsule.fields := capsule.fields["avoid_images" := cfg.avoidImages];
    capsule.fields := capsule.fields["include_refusal_option" := cfg.includeRefusalOption];
    if "short_id" !in capsule.fields {
      return Err(KeyError("short_id")), copiedFrom;
    }
    r := Ok(Env(capsule.fields["short_id"], problem, cfg.evalMode, nbPath, workDir, cfg.language,
                cfg.systemPrompt, capsule, answer, Some(questions)));
  }

  /** One capsule through `load_bixbench` and then `environment_factory`:
      the two agree on the capsule's data directory, so the environment's
      files come from the directory recorded in the capsule. */
  method PrepareEnvironment(cfg: GeneratorConfig, capsule: CapsuleRecord, alreadyExtracted: bool, questions: seq<Mcq>)
    returns (r: Result<Env>, copiedFrom: Option<string>)
    modifies capsule
    ensures copiedFrom.Some? ==>
      "local_data_folder" in capsule.fields && capsule.fields["local_data_folder"] == Str(copiedFrom.value)
  {
    var processed := ProcessCapsule(cfg, capsule, alreadyExtracted);
    if processed.Err? {
      return Err(processed.error), None;
    }
    r, copiedFrom := EnvironmentFactory(cfg, capsule, questions);
  }

  // ---------------------------------------------------------------------
  // The stored record (`store_trajectory`)

  /** What the environment holds after a rollout. */
  datatype EnvState = EnvState(answer: Node, nb: Node, actions: seq<Node>)

  /** The `extract` dictionary `store_trajectory` writes as JSON. */
  datatype StoredRecord = StoredRecord(
    problemId: Node,
    agentAnswer: Node,
    idealAnswer: map<string, string>,
    problem: string,
    mcqOptions: seq<seq<string>>,
    mcqQuestion: seq<string>,
    notebookStats: Node,
    numActions: nat,
    metadata: map<string, Node>,
    refusalOptions: map<string, Option<string>>,
    nb: Node)

  /** `env.mcqs`, with None read as no questions. */
  function McqsOf(env: Env): seq<Mcq> {
    if env.mcqs.Some? then env.mcqs.value else []
  }

  /** The extract for a finished environment; `notebookStats` is what
      `collect_notebook_stats` reports on the notebook. */
  function TrajectoryRecord(env: Env, state: EnvState, notebookStats: Node): (r: StoredRecord)
    reads env.metadata
    ensures r.metadata.Keys == env.metadata.fields.Keys - {"local_data_folder"}
    ensures forall k :: k in r.metadata ==> r.metadata[k] == env.metadata.fields[k]
    ensures |r.mcqOptions| == |r.mcqQuestion| == |McqsOf(env)|
    ensures forall i :: 0 <= i < |McqsOf(env)| ==>
      r.mcqOptions[i] == McqsOf(env)[i].options && r.mcqQuestion[i] == McqsOf(env)[i].question
    ensures r.refusalOptions.Keys == set i | 0 <= i < |McqsOf(env)| :: McqsOf(env)[i].questionId
    ensures r.numActions == |state.actions|
  {
    var mcqs := McqsOf(env);
    StoredRecord(
      env.problemId,
      state.answer,
      env.answer,
      env.problem,
      seq(|mcqs|, i requires 0 <= i < |mcqs| => mcqs[i].options),
      seq(|mcqs|, i requires 0 <= i < |mcqs| => mcqs[i].question),
      notebookStats,
      |state.actions|,
      map k | k in env.metadata.fields && k != "local_data_folder" :: env.metadata.fields[k],
      RefusalOptions(mcqs),
      state.nb)
  }

  /** `{q.question_id: q.unsure_answer_letter for q in mcqs}`. */
  function RefusalOptions(mcqs: seq<Mcq>): (m: map<string, Option<string>>)
    ensures m.Keys == set i | 0 <= i < |mcqs| :: mcqs[i].questionId
  {
    KeyedDict(mcqs, RefusalLetterOf);
    DictFromPairs(KeyedPairs(mcqs, RefusalLetterOf))
  }

  function RefusalLetterOf(q: Mcq): Option<string> {
    q.unsureAnswerLetter
  }

  /** With distinct question ids, each id maps to its own refusal letter. */
  lemma RefusalOptionsEntries(mcqs: seq<Mcq>)
    requires forall i, j :: 0 <= i < j < |mcqs| ==> mcqs[i].questionId != mcqs[j].questionId
    ensures forall i :: 0 <= i < |mcqs| ==> RefusalOptions(mcqs)[mcqs[i].questionId] == mcqs[i].unsureAnswerLetter
  {
    KeyedDict(mcqs, RefusalLetterOf);
  }

  // ---------------------------------------------------------------------
  // The rollout loop (`vanilla_rollout`)

  /** One `Transition` of the trajectory. */
  datatype Transition<S, O, A> = Transition(
    timestep: nat,
    agentState: S,
    nextAgentState: S,
    observation: O,
    nextObservation: O,
    action: A,
    reward: real,
    done: bool,
    truncated: bool,
    value: real)

  /** What one `get_asv` call and one `environment.step` return together. */
  datatype StepOutcome<S, O, A> = StepOutcome(
    action: A,
    nextAgentState: S,
    value: real,
    nextObservation: O,
    reward: real,
    done: bool,
    truncated: bool)

  /** The agent and environment as one oracle: given the transitions so far
      and the current agent state and observation, the outcome of the next step. */
  type Oracle<!S, !O, !A> = (seq<Transition<S, O, A>>, S, O) -> StepOutcome<S, O, A>

  /** Transition k records step k: its inputs are the initial state or those
      the previous step produced, its outputs what the oracle answered. */
  ghost predicate StepFollows<S, O, A>(s0: S, o0: O, oracle: Oracle<S, O, A>, steps: seq<Transition<S, O, A>>, k: nat)
    requires k < |steps|
  {
    var t := steps[k];
    var out := oracle(steps[..k], t.agentState, t.observation);
    && t.timestep == k
    && t.agentState == (if k == 0 then s0 else steps[k - 1].nextAgentState)
    && t.observation == (if k == 0 then o0 else steps[k - 1].nextObservation)
    && t.action == out.action && t.nextAgentState == out.nextAgentState && t.value == out.value
    && t.nextObservation == out.nextObservation && t.reward == out.reward
    && t.done == out.done && t.truncated == out.truncated
  }

  /** A trajectory of the bounded loop: every step follows the oracle, at
      most `maxSteps` steps, no step but the last is done or truncated, and
      the loop ends before `maxSteps` only on a done or truncated step. */
  ghost predicate IsRollout<S, O, A>(maxSteps: int, s0: S, o0: O, oracle: Oracle<S, O, A>, steps: seq<Transition<S, O, A>>) {
    && (forall k :: 0 <= k < |steps| ==> StepFollows(s0, o0, oracle, steps, k))
    && (steps == [] || |steps| <= maxSteps)
    && (forall k :: 0 <= k < |steps| - 1 ==> !steps[k].done && !steps[k].truncated)
    && (|steps| < maxSteps ==> steps != [] && (steps[|steps| - 1].done || steps[|steps| - 1].truncated))
  }

  /** `vanilla_rollout` after `reset` and `init_state`, which give `s0` and `o0`. */
  method VanillaRollout<S, O, A>(maxSteps: int, s0: S, o0: O, oracle: Oracle<S, O, A>)
    returns (steps: seq<Transition<S, O, A>>)
    ensures IsRollout(maxSteps, s0, o0, oracle, steps)
  {
    steps := [];
    var agentState, obs := s0, o0;
    var timestep := 0;
    while timestep < maxSteps
      invariant 0 <= timestep == |steps|
      invariant steps == [] || timestep <= maxSteps
      invariant forall k :: 0 <= k < |steps| ==> StepFollows(s0, o0, oracle, steps, k)
      invariant forall k :: 0 <= k < |steps| ==> !steps[k].done && !steps[k].truncated
      invariant agentState == (if steps == [] then s0 else steps[|steps| - 1].nextAgentState)
      invariant obs == (if steps == [] then o0 else steps[|steps| - 1].nextObservation)
      decreases maxSteps - timestep
    {
      var out := oracle(steps, agentState, obs);
      var t := Transition(timestep, agentState, out.nextAgentState, obs, out.nextObservation,
                          out.action, out.reward, out.done, out.truncated, out.value);
      ghost var before := steps;
      steps := steps + [t];
      forall k | 0 <= k < |steps|
        ensures StepFollows(s0, o0, oracle, steps, k)
      {
        if k < |before| {
          assert StepFollows(s0, o0, oracle, before, k);
          assert steps[..k] == before[..k];
        } else {
          assert steps[..k] == before;
        }
      }
      if out.done || out.truncated {
        return;
      }
      agentState, obs := out.nextAgentState, out.nextObservation;
      timestep := timestep + 1;
    }
  }

  /** The oracle and the bound determine the trajectory: two rollouts from
      the same start are the same. */
  lemma {:induction false} RolloutDeterministic<S, O, A>(maxSteps: int, s0: S, o0: O, oracle: Oracle<S, O, A>,
                                                         a: seq<Transition<S, O, A>>, b: seq<Transition<S, O, A>>)
    requires IsRollout(maxSteps, s0, o0, oracle, a) && IsRollout(maxSteps, s0, o0, oracle, b)
    ensures a == b
  {
    var n := if |a| < |b| then |a| else |b|;
    SamePrefix(s0, o0, oracle, a, b, n);
  }

  /** Two sequences that both follow the oracle from the same start agree on
      their first n steps. */
  lemma {:induction false} SamePrefix<S, O, A>(s0: S, o0: O, oracle: Oracle<S, O, A>,
                                               a: seq<Transition<S, O, A>>, b: seq<Transition<S, O, A>>, n: nat)
    requires n <= |a| && n <= |b|
    requires forall k :: 0 <= k < |a| ==> StepFollows(s0, o0, oracle, a, k)
    requires forall k :: 0 <= k < |b| ==> StepFollows(s0, o0, oracle, b, k)
    ensures a[..n] == b[..n]
  {
    if n > 0 {
      SamePrefix(s0, o0, oracle, a, b, n - 1);
      assert StepFollows(s0, o0, oracle, a, n - 1) && StepFollows(s0, o0, oracle, b, n - 1);
      assert a[..n - 1] == b[..n - 1];
      assert a[n - 1] == b[n - 1];
      assert a[..n] == a[..n - 1] + [a[n - 1]];
      assert b[..n] == b[..n - 1] + [b[n - 1]];
    }
  }

  // ---------------------------------------------------------------------
  // Batching (`run`)

  /** The batches laid end to end. */
  function Concat<T>(batches: seq<seq<T>>): seq<T> {
    if batches == [] then [] else Concat(batches[..|batches| - 1]) + batches[|batches| - 1]
  }

  /** A cut of `items` into consecutive batches of `size`, the last possibly shorter. */
  ghost predicate IsBatching<T>(items: seq<T>, batches: seq<seq<T>>, size: nat) {
    && Concat(batches) == items
    && (forall k :: 0 <= k < |batches| ==> 0 < |batches[k]| <= size)
    && (forall k :: 0 <= k < |batches| - 1 ==> |batches[k]| == size)
  }

  /** The loop state of `Batches` at offset `i`: one batch per `size` items
      before `i`, laid end to end they are the items up to `i`, and all of
      them are full except a last one that reaches the end of the items. */
  ghost predicate BatchedUpTo<T>(items: seq<T>, batches: seq<seq<T>>, i: int, size: nat) {
    && 0 <= i == |batches| * size
    && i < |items| + size
    && Concat(batches) == items[..if i < |items| then i else |items|]
    && (forall k :: 0 <= k < |batches| ==> 0 < |batches[k]| <= size)
    && (forall k :: 0 <= k < |batches| - 1 ==> |batches[k]| == size)
    && (i <= |items| ==> forall k :: 0 <= k < |batches| ==> |batches[k]| == size)
  }

  /** Taking the slice at `i` moves the loop state on by one batch. */
  lemma BatchStep<T>(items: seq<T>, batches: seq<seq<T>>, i: int, size: nat)
    requires size > 0 && i < |items| && BatchedUpTo(items, batches, i, size)
    ensures var end := if i + size < |items| then i + size else |items|;
      BatchedUpTo(items, batches + [items[i..end]], i + size, size)
  {
    var end := if i + size < |items| then i + size else |items|;
    var next := batches + [items[i..end]];
    assert next[..|batches|] == batches;
    assert Concat(next) == Concat(batches) + items[i..end];
    assert items[..i] + items[i..end] == items[..end];
    assert (|batches| + 1) * size == |batches| * size + size;
  }

  /** `for i in range(0, len(items), batch_size): batch = items[i:i + batch_size]`:
      a step of 0 raises ValueError, a negative step gives no batches. */
  method Batches<T>(items: seq<T>, batchSize: int) returns (r: Result<seq<seq<T>>>)
    ensures r.Err? <==> batchSize == 0
    ensures r.Err? ==> r.error == ValueError
    ensures batchSize < 0 ==> r == Ok([])
    ensures batchSize > 0 ==> r.Ok? && IsBatching(items, r.value, batchSize)
    ensures batchSize > 0 ==> |items| <= |r.value| * batchSize < |items| + batchSize
  {
    if batchSize == 0 {
      return Err(ValueError);
    }
    var batches: seq<seq<T>> := [];
    if batchSize < 0 {
      return Ok(batches);
    }
    var i := 0;
    while i < |items|
      invariant BatchedUpTo(items, batches, i, batchSize)
      decreases |items| - i
    {
      var end := if i + batchSize < |items| then i + batchSize else |items|;
      BatchStep(items, batches, i, batchSize);
      batches := batches + [items[i..end]];
      i := i + batchSize;
    }
    assert items[..|items|] == items;
    r := Ok(batches);
  }
}
