/**
 * The `get_action_template` tool: fetch the templates of a state (falling
 * back to every state), score each by its overlap with the query's words,
 * pick the best one and list its steps in order.
 */
module ActionTemplate {
  import opened Wrappers
  import opened Text
  import opened Sorting

  /** A step of a template; `order` is absent when the row has no such key. */
  datatype Step = Step(order: Option<int>, title: Option<string>, description: Option<string>)

  /** A row of `action_templates`; absent keys are `None` (and `[]` for the two lists). */
  datatype Template = Template(
    title: Option<string>,
    description: Option<string>,
    state: Option<string>,
    category: Option<string>,
    estimatedTime: Option<string>,
    keywords: seq<string>,
    steps: seq<Step>)

  /** A step as the tool returns it: `{step, title, description}`. */
  datatype FormattedStep = FormattedStep(step: Option<int>, title: Option<string>, description: Option<string>)

  /** The one template the tool returns. */
  datatype ActionPlan = ActionPlan(
    title: Option<string>,
    description: Option<string>,
    state: Option<string>,
    category: Option<string>,
    estimatedTime: Option<string>,
    steps: seq<FormattedStep>)

  /** The tool answers with a message or with a list of plans. */
  datatype ToolOutput = Reply(message: string) | Plans(plans: seq<ActionPlan>)

  const Apology := "Sorry, I couldn't retrieve action templates at this time."

  const NoTemplatesAdvice := " I'll use lookup_law to find the relevant legislation instead."

  function NoTemplatesMessage(query: string, state: string): string {
    "No action templates found for '" + query + "' in " + state + "." + NoTemplatesAdvice
  }

  // ---------------------------------------------------------------------
  // Scoring
  // ---------------------------------------------------------------------

  /** `set(query.lower().split())`, in order of first occurrence. */
  function QueryWords(query: string): (words: seq<string>)
    ensures forall i, j :: 0 <= i < j < |words| ==> words[i] != words[j]
    ensures forall w :: w in words <==> w in Words(Lower(query))
  {
    Distinct(Words(Lower(query)))
  }

  /** `any(word in kw for kw in keywords)`: the keywords are not lower-cased. */
  predicate InSomeKeyword(word: string, keywords: seq<string>) {
    exists k :: 0 <= k < |keywords| && Contains(keywords[k], word)
  }

  /** What one query word adds: 2 for a keyword, 1 for the title, 1 for the description. */
  function WordScore(word: string, t: Template): (score: nat)
    ensures score <= 4
    ensures score > 0 <==> (InSomeKeyword(word, t.keywords)
                            || Contains(Lower(t.title.GetOr("")), word)
                            || Contains(Lower(t.description.GetOr("")), word))
  {
    (if InSomeKeyword(word, t.keywords) then 2 else 0)
    + (if Contains(Lower(t.title.GetOr("")), word) then 1 else 0)
    + (if Contains(Lower(t.description.GetOr("")), word) then 1 else 0)
  }

  /** The score of a template: the sum over the query words. */
  function Score(words: seq<string>, t: Template): nat {
    if words == [] then 0
    else
      var n := |words| - 1;
      Score(words[..n], t) + WordScore(words[n], t)
  }

  /** A score is at most 4 per word, and positive exactly when some word scores. */
  lemma {:induction false} ScoreRange(words: seq<string>, t: Template)
    ensures Score(words, t) <= 4 * |words|
    ensures Score(words, t) > 0 <==> exists k :: 0 <= k < |words| && WordScore(words[k], t) > 0
  {
    if words != [] {
      var n := |words| - 1;
      ScoreRange(words[..n], t);
      assert forall k :: 0 <= k < n ==> words[..n][k] == words[k];
    }
  }

  /** The scored templates with a positive score, in data order. */
  function Candidates(words: seq<string>, ts: seq<Template>): (r: seq<(nat, Template)>)
    ensures |r| <= |ts|
  {
    if ts == [] then []
    else
      var n := |ts| - 1;
      var rest := Candidates(words, ts[..n]);
      var s := Score(words, ts[n]);
      if s > 0 then rest + [(s, ts[n])] else rest
  }

  /** The candidates are exactly the rows that score, each with its score. */
  lemma {:induction false} CandidatesMembers(words: seq<string>, ts: seq<Template>)
    ensures forall p :: p in Candidates(words, ts) ==> p.0 > 0 && p.1 in ts && p.0 == Score(words, p.1)
    ensures forall j :: 0 <= j < |ts| && Score(words, ts[j]) > 0 ==> (Score(words, ts[j]), ts[j]) in Candidates(words, ts)
  {
    if ts != [] {
      var n := |ts| - 1;
      CandidatesMembers(words, ts[..n]);
      var rest := Candidates(words, ts[..n]);
      var r := Candidates(words, ts);
      var s := Score(words, ts[n]);
      assert r == if s > 0 then rest + [(s, ts[n])] else rest;
      forall p | p in r ensures p.0 > 0 && p.1 in ts && p.0 == Score(words, p.1) {
        if p in rest {
          assert p.1 in ts[..n];
        }
      }
      forall j | 0 <= j < |ts| && Score(words, ts[j]) > 0 ensures (Score(words, ts[j]), ts[j]) in r {
        if j < n {
          assert ts[..n][j] == ts[j];
        }
      }
    }
  }

  /** No row scores exactly when there are no candidates. */
  lemma {:induction false} NoCandidates(words: seq<string>, ts: seq<Template>)
    ensures Candidates(words, ts) == [] <==> forall j :: 0 <= j < |ts| ==> Score(words, ts[j]) == 0
  {
    if ts != [] {
      var n := |ts| - 1;
      NoCandidates(words, ts[..n]);
      assert forall j :: 0 <= j < n ==> ts[..n][j] == ts[j];
    }
  }

  /** The sort key of `scored_results.sort(key=..., reverse=True)`. */
  function ByScore(p: (nat, Template)): real {
    -(p.0 as real)
  }

  /** `sorted(steps, key=lambda s: s.get("order", 0))` sorts by this key. */
  function StepKey(s: Step): real {
    s.order.GetOr(0) as real
  }

  /** The template the tool returns: the head of the sorted candidates, else the first row. */
  function Best(words: seq<string>, ts: seq<Template>): (best: Template)
    requires ts != []
    ensures best in ts
    ensures (forall j :: 0 <= j < |ts| ==> Score(words, ts[j]) == 0) ==> best == ts[0]
  {
    var ranked := SortBy(Candidates(words, ts), ByScore);
    SortByCorrect(Candidates(words, ts), ByScore);
    NoCandidates(words, ts);
    CandidatesMembers(words, ts);
    if ranked == [] then ts[0]
    else
      assert ranked[0] in multiset(Candidates(words, ts));
      ranked[0].1
  }

  function Project(s: Step): FormattedStep {
    FormattedStep(s.order, s.title, s.description)
  }

  function FormattedSteps(steps: seq<Step>): (r: seq<FormattedStep>)
    ensures |r| == |steps|
  {
    seq(|steps|, i requires 0 <= i < |steps| => Project(steps[i]))
  }

  function PlanOf(t: Template): ActionPlan {
    ActionPlan(t.title, t.description, t.state, t.category, t.estimatedTime,
               FormattedSteps(SortBy(t.steps, StepKey)))
  }

  /** The category filter is applied only when a category is given. */
  function CategoryFilter(category: string): Option<string> {
    if category != "" then Some(category) else None
  }

  /**
   * The tool. `fetch(stateFilter, categoryFilter)` is the table query, `None`
   * when it raises; any exception ends in the apology.
   */
  function ActionTemplateResult(query: string, state: string, category: string,
                                fetch: (Option<string>, Option<string>) -> Option<seq<Template>>): ToolOutput
  {
    var filter := CategoryFilter(category);
    var first := fetch(Some(state), filter);
    var response := if first.Some? && first.value == [] then fetch(None, filter) else first;
    match response
    case None => Reply(Apology)
    case Some(data) =>
      if data == [] then Reply(NoTemplatesMessage(query, state))
      else Plans([PlanOf(Best(QueryWords(query), data))])
  }

  // ---------------------------------------------------------------------
  // The tool's loops
  // ---------------------------------------------------------------------

  /** The inner `any(...)`. */
  method AnyKeyword(word: string, keywords: seq<string>) returns (found: bool)
    ensures found <==> InSomeKeyword(word, keywords)
  {
    for k := 0 to |keywords|
      invariant forall m :: 0 <= m < k ==> !Contains(keywords[m], word)
    {
      if Contains(keywords[k], word) {
        return true;
      }
    }
    return false;
  }

  /** The score accumulated word by word. */
  method ScoreTemplate(words: seq<string>, t: Template) returns (score: nat)
    ensures score == Score(words, t)
  {
    var title := Lower(t.title.GetOr(""));
    var description := Lower(t.description.GetOr(""));
    score := 0;
    for i := 0 to |words|
      invariant score == Score(words[..i], t)
    {
      var word := words[i];
      var inKeyword := AnyKeyword(word, t.keywords);
      if inKeyword {
        score := score + 2;
      }
      if Contains(title, word) {
        score := score + 1;
      }
      if Contains(description, word) {
        score := score + 1;
      }
      assert words[..i + 1][..i] == words[..i];
    }
    assert words[..|words|] == words;
  }

  /** `scored_results`, built by appending the templates that score. */
  method ScoreTemplates(words: seq<string>, ts: seq<Template>) returns (scored: seq<(nat, Template)>)
    ensures scored == Candidates(words, ts)
  {
    scored := [];
    for i := 0 to |ts|
      invariant scored == Candidates(words, ts[..i])
    {
      var score := ScoreTemplate(words, ts[i]);
      assert ts[..i + 1][..i] == ts[..i];
      if score > 0 {
        scored := scored + [(score, ts[i])];
      }
    }
    assert ts[..|ts|] == ts;
  }

  /** `formatted_steps`, built by appending. */
  method FormatSteps(steps: seq<Step>) returns (formatted: seq<FormattedStep>)
    ensures formatted == FormattedSteps(steps)
  {
    formatted := [];
    for i := 0 to |steps|
      invariant formatted == FormattedSteps(steps[..i])
    {
      formatted := formatted + [Project(steps[i])];
    }
    assert steps[..|steps|] == steps;
  }

  method GetActionTemplate(query: string, state: string, category: string,
                           fetch: (Option<string>, Option<string>) -> Option<seq<Template>>)
    returns (out: ToolOutput)
    ensures out == ActionTemplateResult(query, state, category, fetch)
  {
    var filter := CategoryFilter(category);
    var response := fetch(Some(state), filter);
    if response.None? {
      return Reply(Apology);
    }
    if response.value == [] {
      response := fetch(None, filter);
      if response.None? {
        return Reply(Apology);
      }
    }
    var data := response.value;
    if data == [] {
      return Reply(NoTemplatesMessage(query, state));
    }
    var words := QueryWords(query);
    var scored := ScoreTemplates(words, data);
    var ranked := SortBy(scored, ByScore);
    var best := if ranked == [] then data[0] else ranked[0].1;
    var steps := FormatSteps(SortBy(best.steps, StepKey));
    return Plans([ActionPlan(best.title, best.description, best.state, best.category, best.estimatedTime, steps)]);
  }

  // ---------------------------------------------------------------------
  // Properties
  // ---------------------------------------------------------------------

  /**
   * The candidate at position `c` comes from some row `i`, and every row
   * before `i` that scores is an earlier candidate.
   */
  lemma {:induction false} CandidatePosition(words: seq<string>, ts: seq<Template>, c: nat) returns (i: nat)
    requires c < |Candidates(words, ts)|
    ensures i < |ts| && Candidates(words, ts)[c] == (Score(words, ts[i]), ts[i])
    ensures forall j :: 0 <= j < i && Score(words, ts[j]) > 0 ==>
      (Score(words, ts[j]), ts[j]) in Candidates(words, ts)[..c]
  {
    var n := |ts| - 1;
    var init := ts[..n];
    var rest := Candidates(words, init);
    var all := Candidates(words, ts);
    var last := if Score(words, ts[n]) > 0 then [(Score(words, ts[n]), ts[n])] else [];
    assert all == rest + last;
    if c < |rest| {
      var i' := CandidatePosition(words, init, c);
      i := i';
      assert init[i'] == ts[i'];
      assert all[c] == rest[c];
      assert all[..c] == rest[..c];
      forall j | 0 <= j < i && Score(words, ts[j]) > 0 ensures (Score(words, ts[j]), ts[j]) in all[..c] {
        assert init[j] == ts[j];
      }
    } else {
      i := n;
      assert all[..c] == rest;
      CandidatesMembers(words, init);
      forall j | 0 <= j < n && Score(words, ts[j]) > 0 ensures (Score(words, ts[j]), ts[j]) in rest {
        assert init[j] == ts[j];
      }
    }
  }

  /**
   * When some row scores, the tool picks a row of highest score, and the
   * earliest one among those: every row before it scores less.
   */
  lemma BestIsEarliestMaximum(words: seq<string>, ts: seq<Template>) returns (k: nat)
    requires exists j :: 0 <= j < |ts| && Score(words, ts[j]) > 0
    ensures k < |ts| && Best(words, ts) == ts[k]
    ensures Score(words, ts[k]) > 0
    ensures forall j :: 0 <= j < |ts| ==> Score(words, ts[j]) <= Score(words, ts[k])
    ensures forall j :: 0 <= j < k ==> Score(words, ts[j]) < Score(words, ts[k])
  {
    var cands := Candidates(words, ts);
    CandidatesMembers(words, ts);
    var j0 :| 0 <= j0 < |ts| && Score(words, ts[j0]) > 0;
    assert (Score(words, ts[j0]), ts[j0]) in cands;
    var c := SortByHead(cands, ByScore);
    k := CandidatePosition(words, ts, c);
    var top := cands[c];
    forall j | 0 <= j < |ts| ensures Score(words, ts[j]) <= Score(words, ts[k]) {
      if Score(words, ts[j]) > 0 {
        var p := (Score(words, ts[j]), ts[j]);
        assert p in cands;
        var m :| 0 <= m < |cands| && cands[m] == p;
        assert ByScore(top) <= ByScore(cands[m]);
      }
    }
    forall j | 0 <= j < k ensures Score(words, ts[j]) < Score(words, ts[k]) {
      if Score(words, ts[j]) > 0 {
        var p := (Score(words, ts[j]), ts[j]);
        assert p in cands[..c];
        var m :| 0 <= m < c && cands[..c][m] == p;
        assert ByScore(cands[m]) > ByScore(top);
      }
    }
  }

  /**
   * The steps come out in ascending order (a missing order counts as 0),
   * one for each step of the template, equal orders in template order.
   */
  lemma PlanSteps(t: Template)
    ensures var sorted := SortBy(t.steps, StepKey);
      var out := PlanOf(t).steps;
      && |out| == |t.steps|
      && (forall i, j :: 0 <= i < j < |out| ==> out[i].step.GetOr(0) <= out[j].step.GetOr(0))
      && (forall i :: 0 <= i < |out| ==> out[i] == Project(sorted[i]))
      && multiset(sorted) == multiset(t.steps)
      && (forall v :: WithKey(sorted, StepKey, v) == WithKey(t.steps, StepKey, v))
  {
    var sorted := SortBy(t.steps, StepKey);
    SortByCorrect(t.steps, StepKey);
    var out := PlanOf(t).steps;
    forall i, j | 0 <= i < j < |out| ensures out[i].step.GetOr(0) <= out[j].step.GetOr(0) {
      assert StepKey(sorted[i]) <= StepKey(sorted[j]);
    }
  }

  /**
   * The outcomes of the tool: an exception gives the apology, two empty
   * queries give the no-templates message, and data gives exactly one plan,
   * of a fetched row.
   */
  lemma ActionTemplateOutcome(query: string, state: string, category: string,
                              fetch: (Option<string>, Option<string>) -> Option<seq<Template>>)
    ensures var filter := CategoryFilter(category);
      fetch(Some(state), filter).None? ==> ActionTemplateResult(query, state, category, fetch) == Reply(Apology)
    ensures var filter := CategoryFilter(category);
      fetch(Some(state), filter) == Some([]) && fetch(None, filter) == Some([]) ==>
        ActionTemplateResult(query, state, category, fetch) == Reply(NoTemplatesMessage(query, state))
    ensures var out := ActionTemplateResult(query, state, category, fetch);
      out.Plans? ==> |out.plans| == 1
    ensures var filter := CategoryFilter(category);
      var first := fetch(Some(state), filter);
      var response := if first == Some([]) then fetch(None, filter) else first;
      var out := ActionTemplateResult(query, state, category, fetch);
      (out.Plans? <==> response.Some? && response.value != [])
      && (out.Plans? ==> out.plans[0] == PlanOf(Best(QueryWords(query), response.value))
                         && Best(QueryWords(query), response.value) in response.value)
  {
  }

  /** The query without the state filter runs only when the state's query returned no rows. */
  lemma FallbackOnlyWhenEmpty(query: string, state: string, category: string,
                              fetch1: (Option<string>, Option<string>) -> Option<seq<Template>>,
                              fetch2: (Option<string>, Option<string>) -> Option<seq<Template>>)
    requires fetch1(Some(state), CategoryFilter(category)) == fetch2(Some(state), CategoryFilter(category))
    requires fetch1(Some(state), CategoryFilter(category)) != Some([])
    ensures ActionTemplateResult(query, state, category, fetch1) == ActionTemplateResult(query, state, category, fetch2)
  {
  }

  /** The no-templates message names the query and the state. */
  lemma NoTemplatesMessageShape(query: string, state: string)
    ensures StartsWith(NoTemplatesMessage(query, state), "No action templates found for '" + query + "' in " + state + ".")
  {
    var m := NoTemplatesMessage(query, state);
    var p := "No action templates found for '" + query + "' in " + state + ".";
    assert m == p + NoTemplatesAdvice;
    assert (p + NoTemplatesAdvice)[..|p|] == p;
  }
}
