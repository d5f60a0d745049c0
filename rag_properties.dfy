/** What the loop of `rag` keeps true while it walks the worklist, and what
    that means for a whole turn: each aspect contributes at most one section,
    the context is exactly the sections in the order they were found, the
    worklist grows by at most three entries, and the final answer is asked
    for only when some section was found. */
module RagProperties {
  import opened Text
  import opened Values
  import opened Oracles
  import opened RagAgent
  import opened RagLoop
  import opened Session

  /** The text the sections spell out, one labelled block each, in order. */
  function SectionsText(sections: seq<Section>): string
  {
    if sections == [] then ""
    else
      var last := sections[|sections| - 1];
      SectionsText(sections[..|sections| - 1]) + SectionHeader(last.aspect) + last.text
  }

  /** The aspects that contributed a section. */
  function SectionAspects(sections: seq<Section>): set<string>
  {
    if sections == [] then {}
    else SectionAspects(sections[..|sections| - 1]) + {sections[|sections| - 1].aspect}
  }

  /** No aspect contributed two sections. */
  predicate DistinctAspects(sections: seq<Section>)
  {
    sections == []
    || (DistinctAspects(sections[..|sections| - 1])
        && sections[|sections| - 1].aspect !in SectionAspects(sections[..|sections| - 1]))
  }

  /** The invariant of the loop: the context is the sections' text, the
      visited set is the set of aspects with a section, each aspect has at
      most one section, and each section passed the filter. */
  predicate Inv(st: LoopState)
  {
    && st.next <= |st.relevant|
    && st.acc == SectionsText(st.sections)
    && st.queried == SectionAspects(st.sections)
    && DistinctAspects(st.sections)
    && forall k :: 0 <= k < |st.sections| ==> Accepted(st.sections[k].text)
  }

  /** An aspect is in the sections exactly when one of them names it. */
  lemma {:induction false} SectionAspectsMembers(sections: seq<Section>, a: string)
    ensures a in SectionAspects(sections) <==> exists k :: 0 <= k < |sections| && sections[k].aspect == a
  {
    if sections != [] {
      var init := sections[..|sections| - 1];
      SectionAspectsMembers(init, a);
      if exists k :: 0 <= k < |init| && init[k].aspect == a {
        var k :| 0 <= k < |init| && init[k].aspect == a;
        assert sections[k] == init[k];
      }
      if exists k :: 0 <= k < |sections| && sections[k].aspect == a {
        var k :| 0 <= k < |sections| && sections[k].aspect == a;
        if k < |init| {
          assert init[k] == sections[k];
        }
      }
    }
  }

  /** Distinct aspects: no two sections share an aspect, so each
      `=== ASPECT ===` block appears at most once. */
  lemma {:induction false} DistinctAspectsOnce(sections: seq<Section>, i: nat, j: nat)
    requires DistinctAspects(sections)
    requires i < j < |sections|
    ensures sections[i].aspect != sections[j].aspect
  {
    var init := sections[..|sections| - 1];
    if j < |sections| - 1 {
      assert init[i] == sections[i] && init[j] == sections[j];
      DistinctAspectsOnce(init, i, j);
    } else {
      SectionAspectsMembers(init, sections[j].aspect);
      assert init[i] == sections[i];
    }
  }

  /** The context is empty exactly when no section was found. */
  lemma SectionsTextEmpty(sections: seq<Section>)
    ensures SectionsText(sections) == "" <==> sections == []
  {
    if sections != [] {
      var last := sections[|sections| - 1];
      assert |SectionHeader(last.aspect)| > 0;
    }
  }

  /** The loop starts in a state that satisfies the invariant. */
  lemma InitKeepsInv(plan: seq<string>)
    ensures Inv(Init(plan))
  {
  }

  /** Recording a usable result for an aspect not yet visited keeps the
      invariant and adds exactly one section at the end. */
  lemma RecordedKeepsInv(st: LoopState, aspect: string, context: string)
    requires Inv(st) && st.next < |st.relevant|
    requires aspect !in st.queried && Accepted(context)
    ensures Inv(Recorded(st, aspect, context))
    ensures Recorded(st, aspect, context).sections == st.sections + [Section(aspect, context)]
  {
    var sections := st.sections + [Section(aspect, context)];
    assert sections[..|sections| - 1] == st.sections;
  }

  /** One pass keeps the invariant, and keeps the earlier sections as a
      prefix. */
  lemma StepKeepsInv(env: Env, question: string, st: LoopState)
    requires st.next < |st.relevant| && Inv(st)
    ensures var r := Step(env, question, st);
      r.Some? ==> Inv(r.value) && st.sections <= r.value.sections
  {
    var aspect := st.relevant[st.next];
    if aspect !in st.queried {
      var fetched := Fetch(env, question, st.acc, aspect);
      if fetched.Some? {
        StepVisits(env, question, st, fetched.value);
        if Accepted(fetched.value) {
          RecordedKeepsInv(st, aspect, fetched.value);
        }
      }
    }
  }

  /** A visited aspect is skipped: the pass completes without generating or
      executing a query and only moves on. Otherwise a pass either leaves the
      context, the visited set and the worklist as they were, or, for an aspect not visited before whose query yielded a
      usable result, appends exactly that result under the aspect's header,
      marks the aspect visited and appends the aspect's follow-ups. A result
      the filter drops leaves the aspect unvisited, so it is queried again if
      it comes up again. */
  lemma StepAppendOnly(env: Env, question: string, st: LoopState)
    requires st.next < |st.relevant|
    ensures st.relevant[st.next] in st.queried ==> Step(env, question, st) == Some(st.(next := st.next + 1))
    ensures var r := Step(env, question, st);
      var aspect := st.relevant[st.next];
      var fetched := Fetch(env, question, st.acc, aspect);
      r.Some? ==>
        if aspect !in st.queried && fetched.Some? && Accepted(fetched.value) then
          && r.value.acc == st.acc + SectionHeader(aspect) + fetched.value
          && r.value.queried == st.queried + {aspect}
          && r.value.relevant == st.relevant + FollowUps(aspect, fetched.value)
        else
          r.value.acc == st.acc && r.value.queried == st.queried && r.value.relevant == st.relevant
  {
    var aspect := st.relevant[st.next];
    var fetched := Fetch(env, question, st.acc, aspect);
    if aspect !in st.queried && fetched.Some? {
      StepVisits(env, question, st, fetched.value);
    }
  }

  /** The follow-up rules: a usable `incident_details` result mentioning
      `road_name` queues `response_plans` and `vms_details`, a usable
      `response_plans` result mentioning `plan_type` queues `vms_details`,
      and nothing else is ever queued. */
  lemma FollowUpRules(aspect: string, context: string)
    ensures FollowUps(aspect, context) == [ResponsePlans, VmsDetails] <==>
      aspect == IncidentDetails && Contains(context, "road_name")
    ensures FollowUps(aspect, context) == [VmsDetails] <==>
      aspect == ResponsePlans && Contains(context, "plan_type")
    ensures FollowUps(aspect, context) == [] <==>
      !(aspect == IncidentDetails && Contains(context, "road_name"))
      && !(aspect == ResponsePlans && Contains(context, "plan_type"))
  {
    assert [ResponsePlans, VmsDetails] != [VmsDetails];
    assert IncidentDetails != ResponsePlans by {
      assert IncidentDetails[0] != ResponsePlans[0];
    }
  }

  /** The rest of the loop from a state satisfying the invariant: when it
      completes, the invariant still holds, every entry of the worklist was
      passed over, the worklist, the sections and the context only grew, and
      the worklist grew by no more than the extensions still pending. */
  lemma {:induction false} RunKeepsInv(env: Env, question: string, st: LoopState)
    requires Inv(st)
    ensures var r := Run(env, question, st);
      r.Some? ==>
        && Inv(r.value)
        && r.value.next == |r.value.relevant|
        && st.relevant <= r.value.relevant
        && st.sections <= r.value.sections
        && st.acc <= r.value.acc
        && |r.value.relevant| + Pending(r.value.queried) <= |st.relevant| + Pending(st.queried)
    decreases |st.relevant| - st.next + Pending(st.queried)
  {
    if st.next < |st.relevant| {
      var s := Step(env, question, st);
      if s.Some? {
        StepGrows(env, question, st);
        StepKeepsInv(env, question, st);
        RunContinues(env, question, st);
        RunKeepsInv(env, question, s.value);
      }
    }
  }

  /** A completed loop over `plan`: the worklist starts with `plan` and
      holds at most three more entries, so the loop body ran at most
      `|plan| + 3` times; the context is exactly the usable sections in the
      order they were found, no aspect has two of them, and the visited set
      is the set of aspects that have one. */
  lemma LoopFacts(env: Env, question: string, plan: seq<string>)
    ensures var r := Run(env, question, Init(plan));
      r.Some? ==>
        && plan <= r.value.relevant
        && r.value.next == |r.value.relevant| <= |plan| + 3
        && r.value.acc == SectionsText(r.value.sections)
        && r.value.queried == SectionAspects(r.value.sections)
        && DistinctAspects(r.value.sections)
        && (forall k :: 0 <= k < |r.value.sections| ==> Accepted(r.value.sections[k].text))
  {
    InitKeepsInv(plan);
    RunKeepsInv(env, question, Init(plan));
  }

  /** A turn walks at most seven entries: four aspects at most in the plan
      and three follow-ups at most. */
  lemma AtMostSevenPasses(env: Env, question: string)
    ensures var r := Run(env, question, Init(InitialPlan(question)));
      r.Some? ==> r.value.next <= 7
  {
    InitialPlanFacts(question);
    LoopFacts(env, question, InitialPlan(question));
  }

  /** `rag` ends the session exactly on `exit` or `quit`, in any case,
      around any surrounding whitespace. */
  lemma RagExit(env: Env, line: string)
    ensures Turn(env, line) == Quit <==> IsExitCommand(Strip(line))
  {
  }

  /** The synthesis gate: the answer is asked for, with the accumulated
      context, exactly when the loop completed and found some section; a
      completed loop that found none ends the turn with "no information". */
  lemma AnswerGate(env: Env, line: string)
    ensures var question := Strip(line);
      var r := Run(env, question, Init(InitialPlan(question)));
      && (Turn(env, line) == NoInformation <==>
            !IsExitCommand(question) && r.Some? && r.value.sections == [])
      && (Turn(env, line).Answered? <==>
            !IsExitCommand(question) && r.Some? && r.value.sections != []
            && env.complete(RagAnswerPrompt(question, r.value.acc)).Some?)
      && (Turn(env, line).Answered? ==>
            Turn(env, line) == Answered(r.value.acc, env.complete(RagAnswerPrompt(question, r.value.acc)).value))
  {
    var question := Strip(line);
    var r := Run(env, question, Init(InitialPlan(question)));
    LoopFacts(env, question, InitialPlan(question));
    if r.Some? {
      SectionsTextEmpty(r.value.sections);
    }
  }

  /** From an empty context, when every aspect's query completes but yields
      nothing usable, the loop passes over the whole worklist and leaves the
      context empty. */
  lemma {:induction false} NothingUsableRun(env: Env, question: string, st: LoopState)
    requires st.next <= |st.relevant| && st.acc == "" && st.queried == {} && st.sections == []
    requires forall a :: Fetch(env, question, "", a).Some? && !Accepted(Fetch(env, question, "", a).value)
    ensures Run(env, question, st) == Some(st.(next := |st.relevant|))
    decreases |st.relevant| - st.next
  {
    if st.next < |st.relevant| {
      var aspect := st.relevant[st.next];
      StepVisits(env, question, st, Fetch(env, question, "", aspect).value);
      RunContinues(env, question, st);
      NothingUsableRun(env, question, st.(next := st.next + 1));
    } else {
      assert st.(next := |st.relevant|) == st;
    }
  }

  /** When no query yields anything usable, the turn says there is no
      information and never asks for an answer. */
  lemma NothingUsableMeansNoInformation(env: Env, line: string)
    requires !IsExitCommand(Strip(line))
    requires forall a :: Fetch(env, Strip(line), "", a).Some? && !Accepted(Fetch(env, Strip(line), "", a).value)
    ensures Turn(env, line) == NoInformation
  {
    NothingUsableRun(env, Strip(line), Init(InitialPlan(Strip(line))));
  }

  /** An exception in the first aspect's query ends the turn as a failure:
      no other aspect is tried and no answer is asked for. */
  lemma FirstFailureAbortsTurn(env: Env, line: string)
    requires !IsExitCommand(Strip(line))
    requires Fetch(env, Strip(line), "", InitialPlan(Strip(line))[0]).None?
    ensures Turn(env, line) == Failed
  {
    var question := Strip(line);
    var st := Init(InitialPlan(question));
    InitialPlanFacts(question);
    RunAborts(env, question, st);
  }
}
