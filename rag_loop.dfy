/** The iterative question loop `rag` of the iterative agent: it picks the
    aspects a question is about, walks them as a worklist that can grow while
    it is walked, accumulates one labelled section per aspect that yielded
    usable results, and asks the model for a final answer only when something
    was accumulated. */
module RagLoop {
  import opened Text
  import opened Values
  import opened Oracles
  import opened Operations
  import opened Render
  import opened RagAgent
  import opened Session

  const IncidentDetails := "incident_details"
  const ResponsePlans := "response_plans"
  const VmsDetails := "vms_details"
  const RoadNetwork := "road_network"

  /** One row of the `strategies` table: an aspect and the keywords that
      select it. */
  datatype Strategy = Strategy(aspect: string, keywords: seq<string>)

  /** The `strategies` table, in its declared order. */
  const Strategies: seq<Strategy> := [
    Strategy(IncidentDetails, ["incident", "event", "accident", "emergency"]),
    Strategy(ResponsePlans, ["response", "plan", "action", "command"]),
    Strategy(VmsDetails, ["vms", "sign", "message", "display"]),
    Strategy(RoadNetwork, ["road", "junction", "link", "route", "path"])
  ]

  /** `any(keyword in lowered for keyword in keywords)`. */
  predicate MatchesAny(lowered: string, keywords: seq<string>)
  {
    exists k :: k in keywords && Contains(lowered, k)
  }

  /** The aspects of the rows of `table` that match `lowered`, in table order. */
  function Select(table: seq<Strategy>, lowered: string): seq<string>
  {
    if table == [] then []
    else
      var last := table[|table| - 1];
      Select(table[..|table| - 1], lowered) + (if MatchesAny(lowered, last.keywords) then [last.aspect] else [])
  }

  /** `relevant_aspects` before the loop starts: the matching aspects, or
      `["incident_details"]` when nothing matches. */
  function InitialPlan(question: string): seq<string>
  {
    var selected := Select(Strategies, Lower(question));
    if selected == [] then [IncidentDetails] else selected
  }

  /** The loop that fills `relevant_aspects`, followed by the fallback. */
  method PlanAspects(question: string) returns (plan: seq<string>)
    ensures plan == InitialPlan(question)
  {
    var lowered := Lower(question);
    plan := [];
    var i := 0;
    while i < |Strategies|
      invariant 0 <= i <= |Strategies|
      invariant plan == Select(Strategies[..i], lowered)
    {
      var strategy := Strategies[i];
      assert Strategies[..i + 1][..i] == Strategies[..i];
      if MatchesAny(lowered, strategy.keywords) {
        plan := plan + [strategy.aspect];
      }
      i := i + 1;
    }
    assert Strategies[..i] == Strategies;
    if plan == [] {
      plan := [IncidentDetails];
    }
  }

  /** An aspect is selected exactly when some row of the table names it and
      one of that row's keywords occurs in the lowered question. */
  lemma {:induction false} SelectMembership(table: seq<Strategy>, lowered: string, a: string)
    ensures a in Select(table, lowered) <==>
      exists i :: 0 <= i < |table| && table[i].aspect == a && MatchesAny(lowered, table[i].keywords)
  {
    if table != [] {
      var init := table[..|table| - 1];
      SelectMembership(init, lowered, a);
      if exists i :: 0 <= i < |table| && table[i].aspect == a && MatchesAny(lowered, table[i].keywords) {
        var i :| 0 <= i < |table| && table[i].aspect == a && MatchesAny(lowered, table[i].keywords);
        if i < |init| {
          assert init[i] == table[i];
        }
      }
      if a in Select(init, lowered) {
        var i :| 0 <= i < |init| && init[i].aspect == a && MatchesAny(lowered, init[i].keywords);
        assert table[i] == init[i];
      }
    }
  }

  /** The position of an aspect in the table (4 for any other name). */
  function TableRank(a: string): nat
  {
    if a == IncidentDetails then 0
    else if a == ResponsePlans then 1
    else if a == VmsDetails then 2
    else if a == RoadNetwork then 3
    else 4
  }

  /** The aspects of `s` appear in strictly increasing table order. */
  predicate RankSorted(s: seq<string>)
  {
    forall i, j :: 0 <= i < j < |s| ==> TableRank(s[i]) < TableRank(s[j])
  }

  lemma TableRanks(k: nat)
    requires k < |Strategies|
    ensures TableRank(Strategies[k].aspect) == k
  {
  }

  /** Selecting from the first `k` rows yields aspects of rank below `k`, in
      strictly increasing rank. */
  lemma {:induction false} SelectRanked(k: nat, lowered: string)
    requires k <= |Strategies|
    ensures forall x :: x in Select(Strategies[..k], lowered) ==> TableRank(x) < k
    ensures RankSorted(Select(Strategies[..k], lowered))
  {
    if k > 0 {
      var table := Strategies[..k];
      assert table[..|table| - 1] == Strategies[..k - 1];
      SelectRanked(k - 1, lowered);
      TableRanks(k - 1);
      var prev := Select(Strategies[..k - 1], lowered);
      var sel := Select(table, lowered);
      var last := Strategies[k - 1];
      assert sel == prev + (if MatchesAny(lowered, last.keywords) then [last.aspect] else []);
      forall i, j | 0 <= i < j < |sel| ensures TableRank(sel[i]) < TableRank(sel[j]) {
        if j >= |prev| {
          assert |sel| == |prev| + 1;
          assert sel[j] == last.aspect;
          assert TableRank(last.aspect) == k - 1;
          assert sel[i] == prev[i] && prev[i] in prev;
          assert TableRank(prev[i]) < k - 1;
        } else {
          assert sel[i] == prev[i] && sel[j] == prev[j];
        }
      }
    }
  }

  /** The initial plan: it contains an aspect exactly when one of that
      aspect's keywords occurs in the lowered question, or, when no keyword
      occurs at all, exactly `incident_details`. Its aspects appear in table
      order, each at most once, so there are between one and four. */
  lemma InitialPlanFacts(question: string)
    ensures forall a :: a in InitialPlan(question) <==>
      (exists i :: 0 <= i < |Strategies| && Strategies[i].aspect == a && MatchesAny(Lower(question), Strategies[i].keywords))
      || (Select(Strategies, Lower(question)) == [] && a == IncidentDetails)
    ensures RankSorted(InitialPlan(question))
    ensures 1 <= |InitialPlan(question)| <= 4
  {
    var lowered := Lower(question);
    forall a
      ensures a in InitialPlan(question) <==>
        (exists i :: 0 <= i < |Strategies| && Strategies[i].aspect == a && MatchesAny(lowered, Strategies[i].keywords))
        || (Select(Strategies, lowered) == [] && a == IncidentDetails)
    {
      PlanMembership(question, a);
    }
    SelectRanked(4, lowered);
    assert Strategies[..4] == Strategies;
    RanksBound(Select(Strategies, lowered));
  }

  lemma PlanMembership(question: string, a: string)
    ensures a in InitialPlan(question) <==>
      (exists i :: 0 <= i < |Strategies| && Strategies[i].aspect == a && MatchesAny(Lower(question), Strategies[i].keywords))
      || (Select(Strategies, Lower(question)) == [] && a == IncidentDetails)
  {
    var sel := Select(Strategies, Lower(question));
    SelectMembership(Strategies, Lower(question), a);
    if sel == [] {
      assert InitialPlan(question) == [IncidentDetails];
    } else {
      assert InitialPlan(question) == sel;
    }
  }

  /** Strictly increasing ranks below four leave room for four entries at
      most. */
  lemma RanksBound(s: seq<string>)
    requires forall x :: x in s ==> TableRank(x) < 4
    requires RankSorted(s)
    ensures |s| <= 4
  {
    if s != [] {
      RankAtLeastPosition(s, |s| - 1);
      assert s[|s| - 1] in s;
    }
  }

  lemma {:induction false} RankAtLeastPosition(s: seq<string>, k: nat)
    requires k < |s|
    requires RankSorted(s)
    ensures TableRank(s[k]) >= k
  {
    if k > 0 {
      RankAtLeastPosition(s, k - 1);
    }
  }

  /** No keyword matches exactly when the plan is the fallback alone. */
  lemma FallbackPlan(question: string)
    ensures (forall i :: 0 <= i < |Strategies| ==> !MatchesAny(Lower(question), Strategies[i].keywords))
      <==> Select(Strategies, Lower(question)) == []
    ensures Select(Strategies, Lower(question)) == [] ==> InitialPlan(question) == [IncidentDetails]
  {
    var lowered := Lower(question);
    var sel := Select(Strategies, lowered);
    if sel != [] {
      SelectMembership(Strategies, lowered, sel[0]);
    } else {
      forall i | 0 <= i < |Strategies| ensures !MatchesAny(lowered, Strategies[i].keywords) {
        SelectMembership(Strategies, lowered, Strategies[i].aspect);
      }
    }
  }

  /** The `extra_context` that `rag` passes to `generate_cypher`. */
  function ExtraContext(accumulated: string, aspect: string): string
  {
    "Previous findings:\n" + accumulated + "\nNext focus: " + aspect
  }

  /** `rag` always passes non-empty extra context, so every query is
      generated from the follow-up template, never from the first one. */
  lemma AlwaysFollowUpTemplate(question: string, accumulated: string, aspect: string)
    ensures CypherPrompt(question, ExtraContext(accumulated, aspect))
      == RagFollowUpPrompt(question, ExtraContext(accumulated, aspect))
  {
    assert ExtraContext(accumulated, aspect)[0] == 'P';
  }

  /** One aspect's query: generate the operation, print its "query" and
      "params" (a missing key raises there, before `execute_operation` could
      default the parameters), execute it and format the result. None is an
      exception, which ends the turn. */
  function Fetch(env: Env, question: string, accumulated: string, aspect: string): Option<string>
  {
    var op :- GenerateCypher(env, question, ExtraContext(accumulated, aspect));
    if !HasKey(op, "query") || !HasKey(op, ParamsKey) then None
    else
      var raw :- ExecuteOperation(env, op);
      match FormatSpec(raw, env.decode, env.dump)
      case Text(s) => Some(s)
      case Raised => None
  }

  method FetchAspect(env: Env, question: string, accumulated: string, aspect: string)
    returns (context: Option<string>)
    ensures context == Fetch(env, question, accumulated, aspect)
  {
    var op := GenerateCypher(env, question, ExtraContext(accumulated, aspect));
    if op.None? || !HasKey(op.value, "query") || !HasKey(op.value, ParamsKey) {
      return None;
    }
    var raw := ExecuteOperation(env, op.value);
    if raw.None? {
      return None;
    }
    var formatted := FormatContext(raw.value, env.decode, env.dump);
    context := if formatted.Text? then Some(formatted.s) else None;
  }

  /** Whether the loop keeps a formatted result:
      `"No results found" not in new_context and new_context.strip()`. */
  predicate Accepted(context: string)
  {
    !Contains(context, "No results found") && Strip(context) != ""
  }

  /** The processing-error sentinel is kept as if it were data. */
  lemma ErrorSentinelKept()
    ensures Accepted(ProcessingError)
  {
    ErrorSentinelNotBlank();
    assert 'l' !in ProcessingError;
    MissingCharRulesOut(ProcessingError, "No results found", 'l');
  }

  lemma ErrorSentinelNotBlank()
    ensures Strip(ProcessingError) != ""
  {
    StripEmptyIffBlank(ProcessingError);
    assert !IsSpace(ProcessingError[0]);
  }

  /** The no-results sentinel is dropped. */
  lemma NoResultsDropped()
    ensures !Accepted(NoResults)
  {
    assert NoResults[0..16] == "No results found";
    ContainsAt(NoResults, "No results found", 0);
  }

  function SectionHeader(aspect: string): string
  {
    "\n=== " + Upper(aspect) + " ===\n"
  }

  /** The aspects appended after `aspect` yielded `context`. */
  function FollowUps(aspect: string, context: string): seq<string>
  {
    if aspect == IncidentDetails && Contains(context, "road_name") then [ResponsePlans, VmsDetails]
    else if aspect == ResponsePlans && Contains(context, "plan_type") then [VmsDetails]
    else []
  }

  /** One labelled section of the accumulated context. */
  datatype Section = Section(aspect: string, text: string)

  /** The loop's variables: `relevant_aspects`, the position of the `for`
      loop in it, `queried_aspects` and `accumulated_context`; `sections`
      records which aspect contributed which part of the context. */
  datatype LoopState = LoopState(
    relevant: seq<string>,
    next: nat,
    queried: set<string>,
    acc: string,
    sections: seq<Section>)

  function Init(plan: seq<string>): LoopState
  {
    LoopState(plan, 0, {}, "", [])
  }

  /** The extensions still possible: two for `incident_details`, one for
      `response_plans`, until each is queried. */
  function Pending(queried: set<string>): nat
  {
    (if IncidentDetails in queried then 0 else 2) + (if ResponsePlans in queried then 0 else 1)
  }

  /** One pass of the loop body; None when it raises. The position always
      advances by one. */
  function Step(env: Env, question: string, st: LoopState): (r: Option<LoopState>)
    requires st.next < |st.relevant|
    ensures r.Some? ==> r.value.next == st.next + 1
  {
    var aspect := st.relevant[st.next];
    if aspect in st.queried then Some(st.(next := st.next + 1))
    else Advance(st, aspect, Fetch(env, question, st.acc, aspect))
  }

  /** The rest of a pass over the unvisited `aspect` once its query has run:
      an exception ends the loop, a usable result is recorded, anything else
      is dropped. */
  function Advance(st: LoopState, aspect: string, fetched: Option<string>): (r: Option<LoopState>)
    ensures r.Some? ==> r.value.next == st.next + 1
  {
    match fetched
    case None => None
    case Some(context) =>
      if Accepted(context) then Some(Recorded(st, aspect, context))
      else Some(st.(next := st.next + 1))
  }

  /** The worklist, the visited set and the context only grow, and the
      worklist grows by no more than the extensions the pass uses up. */
  lemma StepGrows(env: Env, question: string, st: LoopState)
    requires st.next < |st.relevant|
    ensures var r := Step(env, question, st);
      r.Some? ==> (st.relevant <= r.value.relevant && st.acc <= r.value.acc && st.queried <= r.value.queried
                   && |r.value.relevant| + Pending(r.value.queried) <= |st.relevant| + Pending(st.queried))
  {
    var aspect := st.relevant[st.next];
    if aspect !in st.queried {
      var fetched := Fetch(env, question, st.acc, aspect);
      if fetched.Some? && Accepted(fetched.value) {
        PendingDrop(st.queried, aspect, fetched.value);
      }
    }
  }

  /** An aspect's first success uses up its extensions: the aspects it
      appends are paid for by what `Pending` loses. */
  lemma PendingDrop(queried: set<string>, aspect: string, context: string)
    requires aspect !in queried
    ensures |FollowUps(aspect, context)| + Pending(queried + {aspect}) <= Pending(queried)
  {
    var extended := queried + {aspect};
    if aspect == IncidentDetails {
      assert ResponsePlans in extended <==> ResponsePlans in queried;
    } else if aspect == ResponsePlans {
      assert IncidentDetails in extended <==> IncidentDetails in queried;
    } else {
      assert FollowUps(aspect, context) == [];
      assert IncidentDetails in extended <==> IncidentDetails in queried;
      assert ResponsePlans in extended <==> ResponsePlans in queried;
    }
  }

  /** The loop run to completion from `st`; None when a pass raises. */
  function Run(env: Env, question: string, st: LoopState): Option<LoopState>
    decreases |st.relevant| - st.next + Pending(st.queried)
  {
    if st.next >= |st.relevant| then Some(st)
    else match Step(env, question, st)
      case None => None
      case Some(st') =>
        StepGrows(env, question, st);
        Run(env, question, st')
  }

  /** `rag` for one input line, as a function. */
  function Turn(env: Env, line: string): TurnOutcome
  {
    var question := Strip(line);
    if IsExitCommand(question) then Quit
    else match Run(env, question, Init(InitialPlan(question)))
      case None => Failed
      case Some(st) =>
        if st.acc == "" then NoInformation
        else match env.complete(RagAnswerPrompt(question, st.acc))
          case None => Failed
          case Some(answer) => Answered(st.acc, answer)
  }

  /** A pass that raises ends the loop with the exception. */
  lemma RunAborts(env: Env, question: string, st: LoopState)
    requires st.next < |st.relevant| && Step(env, question, st).None?
    ensures Run(env, question, st).None?
  {
  }

  /** A pass that completes leaves the rest of the loop to run. */
  lemma RunContinues(env: Env, question: string, st: LoopState)
    requires st.next < |st.relevant| && Step(env, question, st).Some?
    ensures Run(env, question, st) == Run(env, question, Step(env, question, st).value)
  {
  }

  /** The state after `aspect` yielded the usable `context`. */
  function Recorded(st: LoopState, aspect: string, context: string): LoopState
  {
    LoopState(st.relevant + FollowUps(aspect, context), st.next + 1, st.queried + {aspect},
              st.acc + SectionHeader(aspect) + context, st.sections + [Section(aspect, context)])
  }

  /** The pass over an aspect that is not yet visited, by what its query
      yielded. */
  lemma StepVisits(env: Env, question: string, st: LoopState, context: string)
    requires st.next < |st.relevant| && st.relevant[st.next] !in st.queried
    requires Fetch(env, question, st.acc, st.relevant[st.next]) == Some(context)
    ensures Accepted(context) ==> Step(env, question, st) == Some(Recorded(st, st.relevant[st.next], context))
    ensures !Accepted(context) ==> Step(env, question, st) == Some(st.(next := st.next + 1))
  {
  }

  /** One pass of the body of the `for aspect in relevant_aspects` loop, on
      the aspect at position `i`. `completed` is false when the pass raised. */
  method VisitAspect(env: Env, question: string, relevant: seq<string>, i: nat, queried: set<string>,
                     accumulated: string, ghost sections: seq<Section>)
    returns (completed: bool, relevant': seq<string>, queried': set<string>, accumulated': string,
             ghost sections': seq<Section>)
    requires i < |relevant|
    ensures var r := Step(env, question, LoopState(relevant, i, queried, accumulated, sections));
      && (completed <==> r.Some?)
      && (completed ==> r.value == LoopState(relevant', i + 1, queried', accumulated', sections'))
  {
    ghost var current := LoopState(relevant, i, queried, accumulated, sections);
    relevant', queried', accumulated', sections' := relevant, queried, accumulated, sections;
    var aspect := relevant[i];
    if aspect in queried {
      return true, relevant', queried', accumulated', sections';
    }
    var fetched := FetchAspect(env, question, accumulated, aspect);
    assert Step(env, question, current) == Advance(current, aspect, fetched);
    completed, relevant', queried', accumulated', sections' :=
      Absorb(relevant, i, queried, accumulated, sections, aspect, fetched);
  }

  /** The rest of the loop body once the aspect's query has run (lines
      316-324), proved to compute `Advance`: a usable context is appended
      under the aspect's header, marks the aspect visited and queues its
      follow-ups; a dropped one changes nothing but the position. */
  method Absorb(relevant: seq<string>, i: nat, queried: set<string>, accumulated: string,
                ghost sections: seq<Section>, aspect: string, fetched: Option<string>)
    returns (completed: bool, relevant': seq<string>, queried': set<string>, accumulated': string,
             ghost sections': seq<Section>)
    ensures var r := Advance(LoopState(relevant, i, queried, accumulated, sections), aspect, fetched);
      && (completed <==> r.Some?)
      && (completed ==> r.value == LoopState(relevant', i + 1, queried', accumulated', sections'))
  {
    relevant', queried', accumulated', sections' := relevant, queried, accumulated, sections;
    if fetched.None? {
      return false, relevant', queried', accumulated', sections';
    }
    var context := fetched.value;
    if Accepted(context) {
      accumulated' := accumulated + SectionHeader(aspect) + context;
      queried' := queried + {aspect};
      relevant' := relevant + FollowUps(aspect, context);
      sections' := sections + [Section(aspect, context)];
    }
    completed := true;
  }

  /** The `for aspect in relevant_aspects` loop of `rag`, walking the
      worklist from `plan`. `completed` is false when a pass raised. */
  method WalkAspects(env: Env, question: string, plan: seq<string>)
    returns (completed: bool, accumulated: string)
    ensures completed <==> Run(env, question, Init(plan)).Some?
    ensures completed ==> accumulated == Run(env, question, Init(plan)).value.acc
  {
    var queried: set<string> := {};
    accumulated := "";
    var relevant := plan;
    ghost var sections: seq<Section> := [];
    var i := 0;
    while i < |relevant|
      invariant i <= |relevant|
      invariant Run(env, question, LoopState(relevant, i, queried, accumulated, sections))
        == Run(env, question, Init(plan))
      decreases |relevant| - i + Pending(queried)
    {
      ghost var current := LoopState(relevant, i, queried, accumulated, sections);
      StepGrows(env, question, current);
      var ok;
      ok, relevant, queried, accumulated, sections := VisitAspect(env, question, relevant, i, queried, accumulated, sections);
      if !ok {
        RunAborts(env, question, current);
        return false, accumulated;
      }
      RunContinues(env, question, current);
      i := i + 1;
    }
    completed := true;
  }

  /** `rag`: read a question, walk the aspects, and answer from what was
      accumulated. */
  method Rag(env: Env, line: string) returns (outcome: TurnOutcome)
    ensures outcome == Turn(env, line)
  {
    var question := Strip(line);
    if IsExitCommand(question) {
      return Quit;
    }
    var plan := PlanAspects(question);
    var completed, accumulated := WalkAspects(env, question, plan);
    if !completed {
      return Failed;
    }
    if accumulated == "" {
      return NoInformation;
    }
    var answer := env.complete(RagAnswerPrompt(question, accumulated));
    if answer.None? {
      return Failed;
    }
    outcome := Answered(accumulated, answer.value);
  }
}
