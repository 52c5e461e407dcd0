/** `bixbench/graders.py`: grading a multiple-choice answer, reading the
    grade an LLM judge wrote between `<grade>` tags, and the summary metrics
    over graded answers. */
module Graders {
  import opened Wrappers
  import opened Text

  // ---------------------------------------------------------------------
  // Multiple-choice answers (`grade_mcq_answer`)

  datatype McqGrade = McqGrade(grade: int, correct: bool, sure: bool)

  /** The answers are compared after upper-casing all three. */
  function GradeMcqAnswer(target: string, predicted: string, unsure: string): (r: McqGrade)
    ensures r.grade == 0 || r.grade == 1
    ensures r.grade == 1 <==> r.correct
    ensures r.correct <==> EqualIgnoringCase(predicted, target)
    ensures r.sure <==> !EqualIgnoringCase(predicted, unsure)
  {
    UpperEqualIff(predicted, target);
    UpperEqualIff(predicted, unsure);
    var p, t, u := Upper(predicted), Upper(target), Upper(unsure);
    var correct := p == t;
    McqGrade(if correct then 1 else 0, correct, p != u)
  }

  /** Changing the case of any letter of any input leaves the grade alone. */
  lemma GradeMcqIgnoresCase(target: string, predicted: string, unsure: string,
                            target': string, predicted': string, unsure': string)
    requires EqualIgnoringCase(target, target')
    requires EqualIgnoringCase(predicted, predicted')
    requires EqualIgnoringCase(unsure, unsure')
    ensures GradeMcqAnswer(target', predicted', unsure') == GradeMcqAnswer(target, predicted, unsure)
  {
    UpperEqualIff(target, target');
    UpperEqualIff(predicted, predicted');
    UpperEqualIff(unsure, unsure');
  }

  // ---------------------------------------------------------------------
  // The `<grade>` tag: re.search(r'<grade>\s*(.*?)\s*</grade>', response, re.DOTALL)

  const OpenTag := "<grade>"
  const CloseTag := "</grade>"

  /** Where the run of whitespace starting at k ends: how far a greedy `\s*` reaches. */
  function SpaceRunEnd(s: string, k: nat): (e: nat)
    requires k <= |s|
    ensures k <= e <= |s| && AllSpace(s, k, e)
    ensures e == |s| || !IsSpace(s[e])
    decreases |s| - k
  {
    if k < |s| && IsSpace(s[k]) then SpaceRunEnd(s, k + 1) else k
  }

  /** `\s*</grade>` at q, with `\s*` holding s[q..w]: the longest run first,
      then shorter ones. The result is where the whole match ends. */
  function CloseAfter(s: string, q: nat, w: nat): Option<nat>
    requires q <= w <= |s|
    decreases w - q
  {
    if OccursAt(s, CloseTag, w) then Some(w + |CloseTag|)
    else if w == q then None
    else CloseAfter(s, q, w - 1)
  }

  /** `(.*?)\s*</grade>` with the group ending at q or later: the shortest
      group is tried first. The result is where the group ends. */
  function LazyGroupEnd(s: string, q: nat): (r: Option<nat>)
    requires q <= |s|
    ensures r.Some? ==> q <= r.value <= |s|
    decreases |s| - q
  {
    if CloseAfter(s, q, SpaceRunEnd(s, q)).Some? then Some(q)
    else if q == |s| then None
    else LazyGroupEnd(s, q + 1)
  }

  /** `\s*(.*?)\s*</grade>` after the opening tag at `start`, with the
      leading `\s*` holding s[start..j]: the longest run first. The result is
      where the group starts and ends. */
  function LeadFrom(s: string, start: nat, j: nat): (r: Option<(nat, nat)>)
    requires start <= j <= |s|
    ensures r.Some? ==> start <= r.value.0 <= r.value.1 <= |s|
    decreases j - start
  {
    match LazyGroupEnd(s, j)
    case Some(q) => Some((j, q))
    case None => if j == start then None else LeadFrom(s, start, j - 1)
  }

  /** The whole pattern matched at position i. */
  function MatchAt(s: string, i: nat): (r: Option<(nat, nat)>)
    requires i <= |s|
    ensures r.Some? ==> i + |OpenTag| <= r.value.0 <= r.value.1 <= |s|
  {
    if OccursAt(s, OpenTag, i) then LeadFrom(s, i + |OpenTag|, SpaceRunEnd(s, i + |OpenTag|)) else None
  }

  /** `re.search`: the first position from i on where the pattern matches. */
  function SearchFrom(s: string, i: nat): (r: Option<(nat, nat)>)
    requires i <= |s|
    ensures r.Some? ==> r.value.0 <= r.value.1 <= |s|
    decreases |s| - i
  {
    match MatchAt(s, i)
    case Some(g) => Some(g)
    case None => if i == |s| then None else SearchFrom(s, i + 1)
  }

  /** `match.group(1) if match else None`. */
  function GradeGroup(response: string): Option<string> {
    match SearchFrom(response, 0)
    case None => None
    case Some(g) => Some(response[g.0..g.1])
  }

  /** `match.group(1).strip().lower() if match else None`. */
  function ExtractedGrade(response: string): Option<string> {
    match GradeGroup(response)
    case None => None
    case Some(g) => Some(Lower(Strip(g)))
  }

  /** The reference reading of the tag: the text between the first `<grade>`
      and the first `</grade>` after it, stripped; nothing if either is missing. */
  function TaggedText(response: string): Option<string> {
    match FindFrom(response, OpenTag, 0)
    case None => None
    case Some(i) =>
      match FindFrom(response, CloseTag, i + |OpenTag|)
      case None => None
      case Some(c) => Some(Strip(response[i + |OpenTag|..c]))
  }

  // Proof that the matcher reads the tag as `TaggedText` does.

  /** An occurrence of a tag starts with '<', which is not whitespace. */
  lemma TagStartsWithBracket(s: string, pat: string, j: nat)
    requires pat == OpenTag || pat == CloseTag
    requires OccursAt(s, pat, j)
    ensures s[j] == '<' && !IsSpace(s[j])
  {
    assert s[j..j + |pat|][0] == s[j];
  }

  /** The end of a whitespace run is determined by the run. */
  lemma SpaceRunEndIs(s: string, k: nat, e: nat)
    requires k <= e <= |s| && AllSpace(s, k, e)
    requires e == |s| || !IsSpace(s[e])
    ensures SpaceRunEnd(s, k) == e
  {
  }

  /** The search for a tag passes over whitespace. */
  lemma {:induction false} FindSkipsSpaces(s: string, pat: string, from: nat, upTo: nat)
    requires pat == OpenTag || pat == CloseTag
    requires from <= upTo <= |s| && AllSpace(s, from, upTo)
    ensures FindFrom(s, pat, from) == FindFrom(s, pat, upTo)
    decreases upTo - from
  {
    if from < upTo {
      if OccursAt(s, pat, from) {
        TagStartsWithBracket(s, pat, from);
      }
      FindSkipsSpaces(s, pat, from + 1, upTo);
    }
  }

  /** With only whitespace before w, `\s*</grade>` from q succeeds exactly
      when the closing tag stands at w: shorter runs end on whitespace. */
  lemma {:induction false} CloseAfterRun(s: string, q: nat, w: nat)
    requires q <= w <= |s| && AllSpace(s, q, w)
    ensures CloseAfter(s, q, w).Some? <==> OccursAt(s, CloseTag, w)
    decreases w - q
  {
    if !OccursAt(s, CloseTag, w) && w > q {
      CloseAfterRun(s, q, w - 1);
      if OccursAt(s, CloseTag, w - 1) {
        TagStartsWithBracket(s, CloseTag, w - 1);
      }
    }
  }

  /** s[q..c] is the whitespace left between a group that starts at q0 and
      ends at q and the closing tag at c, and the group is as short as it
      can be: it is empty or ends on a non-space. */
  predicate GroupBeforeClose(s: string, q0: nat, q: nat, c: nat) {
    q0 <= q <= c <= |s| && AllSpace(s, q, c) && (q == q0 || !IsSpace(s[q - 1]))
  }

  /** When the whitespace from q0 is followed by the closing tag, the group
      is empty and that tag is the first one from q0 on. */
  lemma LazyGroupEndHere(s: string, q0: nat)
    requires q0 <= |s| && OccursAt(s, CloseTag, SpaceRunEnd(s, q0))
    ensures LazyGroupEnd(s, q0) == Some(q0)
    ensures FindFrom(s, CloseTag, q0) == Some(SpaceRunEnd(s, q0))
  {
    var e := SpaceRunEnd(s, q0);
    CloseAfterRun(s, q0, e);
    FindSkipsSpaces(s, CloseTag, q0, e);
  }

  /** The lazy group from q0 ends where only whitespace remains before the
      first closing tag from q0 on, as early as possible; it fails exactly
      when there is no closing tag. */
  lemma {:induction false} LazyGroupEndSpec(s: string, q0: nat)
    requires q0 <= |s|
    ensures LazyGroupEnd(s, q0).Some? <==> FindFrom(s, CloseTag, q0).Some?
    ensures LazyGroupEnd(s, q0).Some? ==>
      GroupBeforeClose(s, q0, LazyGroupEnd(s, q0).value, FindFrom(s, CloseTag, q0).value)
    decreases |s| - q0, 1
  {
    var e := SpaceRunEnd(s, q0);
    if OccursAt(s, CloseTag, e) {
      LazyGroupEndHere(s, q0);
    } else {
      CloseAfterRun(s, q0, e);
      if q0 < |s| {
        LazyGroupEndStep(s, q0);
      }
    }
  }

  /** The step of `LazyGroupEndSpec` past a position where the whitespace is
      not followed by the closing tag. */
  lemma {:induction false} LazyGroupEndStep(s: string, q0: nat)
    requires q0 < |s| && !OccursAt(s, CloseTag, SpaceRunEnd(s, q0))
    ensures LazyGroupEnd(s, q0).Some? <==> FindFrom(s, CloseTag, q0).Some?
    ensures LazyGroupEnd(s, q0).Some? ==>
      GroupBeforeClose(s, q0, LazyGroupEnd(s, q0).value, FindFrom(s, CloseTag, q0).value)
    decreases |s| - q0, 0
  {
    SkipOne(s, q0);
    LazyGroupEndSpec(s, q0 + 1);
    if LazyGroupEnd(s, q0 + 1).Some? {
      WidenGroup(s, q0, LazyGroupEnd(s, q0 + 1).value, FindFrom(s, CloseTag, q0 + 1).value);
    }
  }

  /** Where the whitespace from q0 is not followed by the closing tag, both
      the lazy group and the tag search move on to q0 + 1. */
  lemma SkipOne(s: string, q0: nat)
    requires q0 < |s| && !OccursAt(s, CloseTag, SpaceRunEnd(s, q0))
    ensures LazyGroupEnd(s, q0) == LazyGroupEnd(s, q0 + 1)
    ensures FindFrom(s, CloseTag, q0) == FindFrom(s, CloseTag, q0 + 1)
  {
    CloseAfterRun(s, q0, SpaceRunEnd(s, q0));
    if OccursAt(s, CloseTag, q0) {
      TagStartsWithBracket(s, CloseTag, q0);
      SpaceRunEndIs(s, q0, q0);
    }
  }

  /** A group found from q0 + 1 is one from q0 as well: it cannot be an
      empty group after whitespace at q0, since then the whitespace from q0
      would run up to the closing tag. */
  lemma WidenGroup(s: string, q0: nat, q: nat, c: nat)
    requires q0 < |s| && !OccursAt(s, CloseTag, SpaceRunEnd(s, q0))
    requires OccursAt(s, CloseTag, c) && GroupBeforeClose(s, q0 + 1, q, c)
    ensures GroupBeforeClose(s, q0, q, c)
  {
    if q == q0 + 1 && IsSpace(s[q0]) {
      TagStartsWithBracket(s, CloseTag, c);
      SpaceRunEndIs(s, q0, c);
    }
  }

  /** After the opening tag at `start`, with whitespace up to j, the rest of
      the pattern matches from j exactly when a closing tag follows. */
  lemma {:induction false} LeadFromSpec(s: string, start: nat, j: nat)
    requires start <= j <= |s| && AllSpace(s, start, j)
    ensures LeadFrom(s, start, j).Some? <==> FindFrom(s, CloseTag, start).Some?
    ensures LeadFrom(s, start, j).Some? ==>
      LazyGroupEnd(s, j).Some? && LeadFrom(s, start, j).value == (j, LazyGroupEnd(s, j).value)
    decreases j - start
  {
    LazyGroupEndSpec(s, j);
    FindSkipsSpaces(s, CloseTag, start, j);
    if LazyGroupEnd(s, j).None? && j > start {
      LeadFromSpec(s, start, j - 1);
    }
  }

  /** The pattern matches at i exactly when the opening tag stands there and
      a closing tag follows it; the group then starts after the whitespace. */
  lemma MatchAtSpec(s: string, i: nat)
    requires i <= |s|
    ensures MatchAt(s, i).Some? <==>
      OccursAt(s, OpenTag, i) && FindFrom(s, CloseTag, i + |OpenTag|).Some?
    ensures MatchAt(s, i).Some? ==>
      var e := SpaceRunEnd(s, i + |OpenTag|);
      LazyGroupEnd(s, e).Some? && MatchAt(s, i).value == (e, LazyGroupEnd(s, e).value)
  {
    if OccursAt(s, OpenTag, i) {
      LeadFromSpec(s, i + |OpenTag|, SpaceRunEnd(s, i + |OpenTag|));
    }
  }

  /** The search succeeds at the first opening tag or not at all: a later
      opening tag has no closing tag after it either. */
  lemma {:induction false} SearchFromSpec(s: string, k: nat)
    requires k <= |s|
    ensures SearchFrom(s, k) ==
      match FindFrom(s, OpenTag, k)
      case None => None
      case Some(i) => MatchAt(s, i)
    decreases |s| - k
  {
    MatchAtSpec(s, k);
    if MatchAt(s, k).None? && k < |s| {
      SearchFromSpec(s, k + 1);
      if OccursAt(s, OpenTag, k) {
        var later := FindFrom(s, OpenTag, k + 1);
        if later.Some? {
          MatchAtSpec(s, later.value);
        }
      }
    }
  }

  /** With the closing tag at c the first one after `start`, the group
      starts after the leading whitespace and ends before the trailing
      whitespace in front of c. */
  lemma GroupBounds(s: string, start: nat, c: nat)
    requires start <= |s| && FindFrom(s, CloseTag, start) == Some(c)
    ensures SpaceRunEnd(s, start) <= c
    ensures LazyGroupEnd(s, SpaceRunEnd(s, start)).Some?
    ensures GroupBeforeClose(s, SpaceRunEnd(s, start), LazyGroupEnd(s, SpaceRunEnd(s, start)).value, c)
  {
    var e := SpaceRunEnd(s, start);
    TagStartsWithBracket(s, CloseTag, c);
    FindSkipsSpaces(s, CloseTag, start, e);
    LazyGroupEndSpec(s, e);
  }

  /** Whitespace between a and b is whitespace of any slice holding it. */
  lemma SliceAllSpace(s: string, start: nat, c: nat, a: nat, b: nat)
    requires start <= a <= b <= c <= |s| && AllSpace(s, a, b)
    ensures AllSpace(s[start..c], a - start, b - start)
  {
    forall i | a - start <= i < b - start
      ensures IsSpace(s[start..c][i])
    {
      assert s[start..c][i] == s[start + i];
    }
  }

  /** Seen from inside x = s[start..c], s[e..q] is preceded and followed by
      whitespace only and starts and ends on non-spaces. */
  lemma SlicePadding(s: string, start: nat, e: nat, q: nat, c: nat)
    requires start <= e <= c <= |s| && AllSpace(s, start, e) && (e == c || !IsSpace(s[e]))
    requires GroupBeforeClose(s, e, q, c)
    ensures var x, k, m := s[start..c], e - start, q - start;
      && k <= m <= |x|
      && AllSpace(x, 0, k) && (k == |x| || !IsSpace(x[k]))
      && AllSpace(x, m, |x|) && (m == k || !IsSpace(x[m - 1]))
  {
    SliceAllSpace(s, start, c, start, e);
    SliceAllSpace(s, start, c, q, c);
    if e < c {
      assert s[start..c][e - start] == s[e];
    }
    if q > e {
      assert s[start..c][q - start - 1] == s[q - 1];
    }
  }

  /** Stripping s[start..c] leaves s[e..q] when only whitespace lies
      outside it, and it starts and ends on non-spaces. */
  lemma SliceStrip(s: string, start: nat, e: nat, q: nat, c: nat)
    requires start <= e <= c <= |s| && AllSpace(s, start, e) && (e == c || !IsSpace(s[e]))
    requires GroupBeforeClose(s, e, q, c)
    ensures Strip(s[start..c]) == s[e..q]
  {
    SlicePadding(s, start, e, q, c);
    StripIs(s[start..c], e - start, q - start);
    SliceOfSlice(s, start, c, e, q);
  }

  /** With the closing tag at c the first one after `start`, the matcher's
      group is s[start..c] stripped. */
  lemma GroupIsStripped(s: string, start: nat, c: nat)
    requires start <= |s| && FindFrom(s, CloseTag, start) == Some(c)
    ensures LazyGroupEnd(s, SpaceRunEnd(s, start)).Some?
    ensures s[SpaceRunEnd(s, start)..LazyGroupEnd(s, SpaceRunEnd(s, start)).value] == Strip(s[start..c])
  {
    GroupBounds(s, start, c);
    var e := SpaceRunEnd(s, start);
    SliceStrip(s, start, e, LazyGroupEnd(s, e).value, c);
  }

  /** The regular expression's group is the stripped text between the first
      opening tag and the first closing tag after it. */
  lemma GradeGroupIsTaggedText(s: string)
    ensures GradeGroup(s) == TaggedText(s)
  {
    SearchFromSpec(s, 0);
    var open := FindFrom(s, OpenTag, 0);
    if open.Some? {
      var i := open.value;
      MatchAtSpec(s, i);
      var close := FindFrom(s, CloseTag, i + |OpenTag|);
      if close.Some? {
        GroupIsStripped(s, i + |OpenTag|, close.value);
      }
    }
  }

  /** The extracted grade is the lower-cased, stripped text between the first
      `<grade>` and the next `</grade>`, and nothing when either is missing. */
  lemma ExtractedGradeSpec(s: string)
    ensures ExtractedGrade(s) ==
      match TaggedText(s)
      case None => None
      case Some(t) => Some(Lower(t))
  {
    GradeGroupIsTaggedText(s);
    if TaggedText(s).Some? {
      StripUnchanged(TaggedText(s).value);
    }
  }

  /** A tag found at i is the first one from `from` on when no '<' comes between. */
  lemma FindFromIs(s: string, pat: string, from: nat, i: nat)
    requires pat == OpenTag || pat == CloseTag
    requires from <= i && OccursAt(s, pat, i)
    requires forall j :: from <= j < i ==> s[j] != '<'
    ensures FindFrom(s, pat, from) == Some(i)
  {
    var r := FindFrom(s, pat, from);
    TagStartsWithBracket(s, pat, r.value);
  }

  /** A judge reply that writes the grade inside the tags, with no '<' before
      the closing tag other than the opening tag's, yields that grade,
      stripped and lower-cased, whatever text and line breaks surround it. */
  lemma ExtractedGradeOfReply(before: string, body: string, after: string)
    requires forall j :: 0 <= j < |before| ==> before[j] != '<'
    requires forall j :: 0 <= j < |body| ==> body[j] != '<'
    ensures ExtractedGrade(before + OpenTag + body + CloseTag + after) == Some(Lower(Strip(body)))
  {
    var s := before + OpenTag + body + CloseTag + after;
    var i := |before|;
    var start := i + |OpenTag|;
    var c := start + |body|;
    assert s[i..start] == OpenTag;
    assert s[start..c] == body;
    assert s[c..c + |CloseTag|] == CloseTag;
    forall j | 0 <= j < i
      ensures s[j] != '<'
    {
      assert s[j] == before[j];
    }
    forall j | start <= j < c
      ensures s[j] != '<'
    {
      assert s[j] == body[j - start];
    }
    FindFromIs(s, OpenTag, 0, i);
    FindFromIs(s, CloseTag, start, c);
    ExtractedGradeSpec(s);
  }

  // ---------------------------------------------------------------------
  // Open-ended answers (`grade_open_ended_answer`)

  /** `(grade, correct, sure)`; the grade is None when the judge's reply
      could not be read. */
  datatype OpenGrade = OpenGrade(grade: Option<int>, correct: bool, sure: bool)

  /** The function as written: `correct` is only assigned on the two
      recognised grades, so any other reply ends in UnboundLocalError when
      the result tuple is built. */
  function GradeOpenEndedAsWritten(response: string): (r: Result<OpenGrade>) {
    var grade := ExtractedGrade(response);
    if grade == Some("correct") then Ok(OpenGrade(Some(1), true, true))
    else if grade == Some("incorrect") then Ok(OpenGrade(Some(0), false, true))
    else Err(UnboundLocalError("correct"))
  }

  /** As written, a reply without a recognised grade raises instead of
      reporting an ungraded answer, e.g. a reply with no tag at all. */
  lemma OpenEndedAsWrittenRaises(response: string)
    ensures GradeOpenEndedAsWritten(response).Err? <==>
      ExtractedGrade(response) != Some("correct") && ExtractedGrade(response) != Some("incorrect")
    ensures GradeOpenEndedAsWritten("no tag") == Err(UnboundLocalError("correct"))
  {
    ExtractedGradeSpec("no tag");
    assert FindFrom("no tag", OpenTag, 0) == None;
  }

  /** The evidently intended function: an unreadable reply gives no grade,
      is not counted correct, and is still sure. */
  function GradeOpenEnded(response: string): (r: OpenGrade)
    ensures r.sure
    ensures r.grade == Some(1) || r.grade == Some(0) || r.grade == None
    ensures r.grade == Some(1) <==> r.correct
    ensures r.correct <==>
      TaggedText(response).Some? && Lower(TaggedText(response).value) == "correct"
    ensures r.grade.Some? <==>
      TaggedText(response).Some? && Lower(TaggedText(response).value) in {"correct", "incorrect"}
  {
    ExtractedGradeSpec(response);
    var grade := ExtractedGrade(response);
    if grade == Some("correct") then OpenGrade(Some(1), true, true)
    else if grade == Some("incorrect") then OpenGrade(Some(0), false, true)
    else OpenGrade(None, false, true)
  }

  /** Wherever the function as written returns, the corrected one returns the same. */
  lemma OpenEndedAgrees(response: string)
    ensures GradeOpenEndedAsWritten(response).Ok? ==>
      GradeOpenEndedAsWritten(response).value == GradeOpenEnded(response)
  {
  }

  // ---------------------------------------------------------------------
  // Metrics (`compute_metrics`)

  /** The `correct` and `sure` columns of one graded row. */
  datatype GradedRow = GradedRow(correct: bool, sure: bool)

  datatype Metrics = Metrics(
    accuracy: real,
    precision: real,
    coverage: real,
    nTotal: nat,
    nCorrect: nat,
    nSure: nat)

  /** `df['correct'].sum()` */
  function CountCorrect(rows: seq<GradedRow>): (n: nat)
    ensures n <= |rows|
  {
    if rows == [] then 0 else (if rows[0].correct then 1 else 0) + CountCorrect(rows[1..])
  }

  /** `df['sure'].sum()` */
  function CountSure(rows: seq<GradedRow>): (n: nat)
    ensures n <= |rows|
  {
    if rows == [] then 0 else (if rows[0].sure then 1 else 0) + CountSure(rows[1..])
  }

  /** Counting a concatenation counts each part. */
  lemma {:induction false} CountsAppend(a: seq<GradedRow>, b: seq<GradedRow>)
    ensures CountCorrect(a + b) == CountCorrect(a) + CountCorrect(b)
    ensures CountSure(a + b) == CountSure(a) + CountSure(b)
  {
    if a != [] {
      assert (a + b)[1..] == a[1..] + b;
      CountsAppend(a[1..], b);
    } else {
      assert a + b == b;
    }
  }

  /** Rows that are correct only when sure have no more correct than sure rows. */
  lemma {:induction false} CorrectWithinSure(rows: seq<GradedRow>)
    requires forall k :: 0 <= k < |rows| ==> rows[k].correct ==> rows[k].sure
    ensures CountCorrect(rows) <= CountSure(rows)
  {
    if rows != [] {
      CorrectWithinSure(rows[1..]);
    }
  }

  /** `a / b` guarded against b being 0, as the ratios are. */
  function Ratio(a: nat, b: nat): (r: real)
    ensures b == 0 ==> r == 0.0
    ensures 0.0 <= r && (a <= b ==> r <= 1.0)
  {
    if b == 0 then 0.0 else a as real / b as real
  }

  /** The three ratios with the divisions by zero replaced by 0. */
  function ComputeMetrics(rows: seq<GradedRow>): (m: Metrics)
    ensures m.nTotal == |rows| && m.nCorrect == CountCorrect(rows) && m.nSure == CountSure(rows)
    ensures m.nTotal == 0 ==> m.accuracy == 0.0 && m.coverage == 0.0
    ensures m.nSure == 0 ==> m.precision == 0.0
    ensures 0.0 <= m.accuracy <= 1.0 && 0.0 <= m.coverage <= 1.0 && 0.0 <= m.precision
  {
    MetricsOf(|rows|, CountCorrect(rows), CountSure(rows))
  }

  /** The metrics of `nTotal` rows of which `nCorrect` are correct and `nSure` sure. */
  function MetricsOf(nTotal: nat, nCorrect: nat, nSure: nat): (m: Metrics)
    requires nCorrect <= nTotal && nSure <= nTotal
    ensures m.nTotal == nTotal && m.nCorrect == nCorrect && m.nSure == nSure
    ensures m.nTotal == 0 ==> m.accuracy == 0.0 && m.coverage == 0.0
    ensures m.nSure == 0 ==> m.precision == 0.0
    ensures 0.0 <= m.accuracy <= 1.0 && 0.0 <= m.coverage <= 1.0 && 0.0 <= m.precision
  {
    Metrics(Ratio(nCorrect, nTotal), Ratio(nCorrect, nSure), Ratio(nSure, nTotal), nTotal, nCorrect, nSure)
  }

  /** c/t is c/u times u/t. */
  lemma ProductOfRatios(c: real, u: real, t: real)
    requires 0.0 < u && 0.0 < t
    ensures c / t == (c / u) * (u / t)
  {
  }

  /** Each metric is its count divided by its total: accuracy and coverage
      over all rows, precision over the sure rows. */
  lemma MetricsAreRatios(rows: seq<GradedRow>)
    ensures var m := ComputeMetrics(rows);
      && (m.nTotal > 0 ==> m.accuracy * (m.nTotal as real) == m.nCorrect as real)
      && (m.nTotal > 0 ==> m.coverage * (m.nTotal as real) == m.nSure as real)
      && (m.nSure > 0 ==> m.precision * (m.nSure as real) == m.nCorrect as real)
  {
    RatiosOf(ComputeMetrics(rows));
  }

  /** Each ratio times its total gives its count. */
  lemma RatiosOf(m: Metrics)
    requires m.nCorrect <= m.nTotal && m.nSure <= m.nTotal
    requires m == MetricsOf(m.nTotal, m.nCorrect, m.nSure)
    ensures m.nTotal > 0 ==> m.accuracy * (m.nTotal as real) == m.nCorrect as real
    ensures m.nTotal > 0 ==> m.coverage * (m.nTotal as real) == m.nSure as real
    ensures m.nSure > 0 ==> m.precision * (m.nSure as real) == m.nCorrect as real
  {
  }

  /** With some sure rows, the ratios multiply as fractions do. */
  lemma RatioProduct(m: Metrics, c: nat, u: nat, t: nat)
    requires c <= t && 0 < u <= t && m == MetricsOf(t, c, u)
    ensures m.accuracy == m.precision * m.coverage
  {
    ProductOfRatios(c as real, u as real, t as real);
  }

  /** Accuracy is precision times coverage whenever some answer is sure. */
  lemma AccuracyIsPrecisionTimesCoverage(rows: seq<GradedRow>)
    requires CountSure(rows) > 0
    ensures ComputeMetrics(rows).accuracy == ComputeMetrics(rows).precision * ComputeMetrics(rows).coverage
  {
    RatioProduct(ComputeMetrics(rows), CountCorrect(rows), CountSure(rows), |rows|);
  }

  /** Precision is at most 1 when no row is correct without being sure, and
      can exceed 1 otherwise: two correct rows of which one is sure give 2. */
  lemma PrecisionBound(rows: seq<GradedRow>)
    ensures (forall k :: 0 <= k < |rows| ==> rows[k].correct ==> rows[k].sure) ==>
      ComputeMetrics(rows).precision <= 1.0
    ensures ComputeMetrics([GradedRow(true, true), GradedRow(true, false)]).precision == 2.0
  {
    if forall k :: 0 <= k < |rows| ==> rows[k].correct ==> rows[k].sure {
      CorrectWithinSure(rows);
    }
    var two := [GradedRow(true, true), GradedRow(true, false)];
    assert two[1..][1..] == [];
    assert CountCorrect(two) == 2 && CountSure(two) == 1;
  }
}
