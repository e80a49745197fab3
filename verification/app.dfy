/**
 * The page component's orchestration logic: the state it keeps, the run it drives
 * through the generation service, and `reset`.
 */
module App {
  import opened Blog
  import opened Text
  import opened Pipeline
  import Stages
  import Properties

  /** The `parallelResults.forEach` loop: one feedback section per response, in array order. */
  method AppendFeedback(reg: Registry, context: string, results: seq<AgentResponse>) returns (ctx: string)
    ensures ctx == context + Feedback(reg, results)
  {
    ctx := context;
    for i := 0 to |results|
      invariant ctx == context + Feedback(reg, results[..i])
    {
      var agentName := Label(reg, results[i].agentId);
      ConcatAssoc(context, Feedback(reg, results[..i]), FeedbackSection(reg, results[i]));
      ctx := ctx + ("\n\n[FEEDBACK FROM " + Upper(agentName) + "]\n" + results[i].content);
      assert results[..i + 1][..i] == results[..i];
    }
    assert results[..|results|] == results;
  }

  /** How a run ended: the calls, history and post it produced, and the error it reported, if any. */
  ghost predicate Outcome(run: Run, log: seq<Call>, history: seq<AgentResponse>, finalPost: Option<string>,
                          thrown: Option<string>) {
    && run.calls == log && run.history == history && run.finalPost == finalPost
    && (thrown.None? <==> run.errors == {})
    && (thrown.Some? ==> ErrorText(thrown.value) in run.errors)
  }

  /** The state while a run is in progress, whatever the active agents and the history. */
  predicate Generating(s: BlogState, keyword: string) {
    s == Running(keyword, s.activeAgents, s.history)
  }

  /**
   * The page's state. Every `setState(prev => ({ ...prev, ... }))` is an immediate
   * record update of `state`. `calls` records each call of the generation service
   * together with the state observers saw when it was made.
   */
  class Orchestrator {
    var state: BlogState
    ghost var calls: seq<Call>

    constructor ()
      ensures state == Initial && calls == []
    {
      state := BlogState("", [], [], None, false, None);
      calls := [];
    }

    /** Back to the initial state, whatever the state was. */
    method Reset()
      modifies this
      ensures state == Initial && calls == old(calls)
    {
      state := BlogState("", [], [], None, false, None);
    }

    /**
     * The Researcher stage: it becomes the only active agent and is called on the empty
     * context; on success its report is appended to the history and to the context.
     */
    method Research(reg: Registry, keyword: string, service: Service, context: string, ghost run: Run)
      returns (researchResult: Reply, next: string, ghost log: seq<Call>)
      requires Generating(state, keyword) && state.history == [] && context == ""
      requires WellFormed(Ranks) && run == RunRanks(reg, keyword, service, Ranks, context, [], [])
      modifies this`state
      ensures researchResult == service(Researcher, keyword, "")
      ensures log == [Call(Researcher, keyword, "", Running(keyword, [Researcher], []))]
      ensures researchResult.Err? ==>
        state == Running(keyword, [Researcher], []) && Outcome(run, log, [], None, Some(researchResult.message))
      ensures researchResult.Ok? ==>
        && next == "\n\n[RESEARCH REPORT]\n" + researchResult.text
        && state == Running(keyword, [Researcher], [AgentResponse(Researcher, researchResult.text)])
        && run == RunRanks(reg, keyword, service, Stages.AfterResearch, next, state.history, log)
    {
      state := state.(activeAgents := [Researcher]);
      researchResult := service(Researcher, keyword, "");
      log := [Call(Researcher, keyword, "", state)];
      next := context;
      assert [] + log == log;
      if researchResult.Err? {
        SingleRankFails(reg, keyword, service, Ranks, "", [], [], Researcher);
        return;
      }
      SingleRankCompletes(reg, keyword, service, Ranks, "", [], [], Researcher);
      var researchResponse := AgentResponse(Researcher, researchResult.text);
      next := next + ("\n\n[RESEARCH REPORT]\n" + researchResult.text);
      state := state.(history := [researchResponse]);
      assert Ranks[1..] == Stages.AfterResearch && [] + [researchResponse] == [researchResponse];
    }

    /**
     * The Writer stage: it becomes the only active agent and is called on the research
     * context; on success its draft is appended to the history and to the context.
     */
    method Draft(reg: Registry, keyword: string, service: Service, context: string, ghost run: Run,
                 ghost log: seq<Call>)
      returns (draftResult: Reply, next: string, ghost log': seq<Call>)
      requires Generating(state, keyword)
      requires WellFormed(Stages.AfterResearch)
      requires run == RunRanks(reg, keyword, service, Stages.AfterResearch, context, state.history, log)
      modifies this`state
      ensures draftResult == service(Writer, keyword, context)
      ensures log' == log + [Call(Writer, keyword, context, Running(keyword, [Writer], old(state.history)))]
      ensures draftResult.Err? ==>
        state == Running(keyword, [Writer], old(state.history))
        && Outcome(run, log', state.history, None, Some(draftResult.message))
      ensures draftResult.Ok? ==>
        && next == context + ("\n\n[INITIAL DRAFT]\n" + draftResult.text)
        && state == Running(keyword, [Writer], old(state.history) + [AgentResponse(Writer, draftResult.text)])
        && run == RunRanks(reg, keyword, service, Stages.AfterDraft, next, state.history, log')
    {
      state := state.(activeAgents := [Writer]);
      draftResult := service(Writer, keyword, context);
      log' := log + [Call(Writer, keyword, context, state)];
      next := context;
      assert Stages.AfterResearch[0] == [Writer];
      if draftResult.Err? {
        SingleRankFails(reg, keyword, service, Stages.AfterResearch, context, state.history, log, Writer);
        return;
      }
      SingleRankCompletes(reg, keyword, service, Stages.AfterResearch, context, state.history, log, Writer);
      var draftResponse := AgentResponse(Writer, draftResult.text);
      next := next + ("\n\n[INITIAL DRAFT]\n" + draftResult.text);
      state := state.(history := state.history + [draftResponse]);
      assert Stages.AfterResearch[1..] == Stages.AfterDraft;
    }

    /**
     * The Compliance, Enhancer and SEO stage: all three are active and called on the same
     * context. If any call fails, the stage fails with one of the failed calls' messages and
     * nothing is appended; otherwise the three responses, in array order, are appended to
     * the history and their feedback sections to the context.
     */
    method Review(reg: Registry, keyword: string, service: Service, context: string, ghost run: Run,
                  ghost log: seq<Call>)
      returns (failure: Option<string>, next: string, ghost log': seq<Call>)
      requires Generating(state, keyword)
      requires run == RunRanks(reg, keyword, service, Stages.AfterDraft, context, state.history, log)
      modifies this`state
      ensures var seen := Running(keyword, Stages.Group, old(state.history));
        log' == log + [Call(Compliance, keyword, context, seen)] + [Call(Enhancer, keyword, context, seen)]
                + [Call(SEO, keyword, context, seen)]
      ensures var replies := [service(Compliance, keyword, context), service(Enhancer, keyword, context),
                              service(SEO, keyword, context)];
        && (failure.Some? ==>
              && state == Running(keyword, Stages.Group, old(state.history))
              && Outcome(run, log', state.history, None, failure))
        && (failure.None? ==>
              && AllOk(replies)
              && var feedback := [AgentResponse(Compliance, replies[0].text), AgentResponse(Enhancer, replies[1].text),
                                  AgentResponse(SEO, replies[2].text)];
              && next == context + Feedback(reg, feedback)
              && state == Running(keyword, Stages.Group, old(state.history) + feedback)
              && run == RunRanks(reg, keyword, service, [[Editor]], next, state.history, log'))
    {
      state := state.(activeAgents := [Compliance, Enhancer, SEO]);
      assert state == Running(keyword, Stages.Group, state.history);
      var complianceResult := service(Compliance, keyword, context);
      var enhancerResult := service(Enhancer, keyword, context);
      var seoResult := service(SEO, keyword, context);
      log' := log + [Call(Compliance, keyword, context, state)] + [Call(Enhancer, keyword, context, state)]
              + [Call(SEO, keyword, context, state)];
      Stages.GroupRun(reg, keyword, service, context, state.history, log);
      next := context;
      var settled := [complianceResult, enhancerResult, seoResult];
      if !AllOk(settled) {
        // Promise.all rejects with whichever failing call settles first; any of them may.
        var k :| 0 <= k < 3 && settled[k].Err?;
        failure := Some(settled[k].message);
        return;
      }
      failure := None;
      var parallelResults := [AgentResponse(Compliance, complianceResult.text),
                              AgentResponse(Enhancer, enhancerResult.text),
                              AgentResponse(SEO, seoResult.text)];
      var updatedHistory := state.history + parallelResults;
      state := state.(history := updatedHistory);
      next := AppendFeedback(reg, next, parallelResults);
    }

    /**
     * The Editor stage: it becomes the only active agent and is called on the full context;
     * on success its text is appended to the history and becomes the post.
     */
    method Edit(reg: Registry, keyword: string, service: Service, context: string, ghost run: Run,
                ghost log: seq<Call>)
      returns (finalResult: Reply, ghost log': seq<Call>)
      requires Generating(state, keyword)
      requires run == RunRanks(reg, keyword, service, [[Editor]], context, state.history, log)
      modifies this`state
      ensures finalResult == service(Editor, keyword, context)
      ensures log' == log + [Call(Editor, keyword, context, Running(keyword, [Editor], old(state.history)))]
      ensures finalResult.Err? ==>
        state == Running(keyword, [Editor], old(state.history))
        && Outcome(run, log', state.history, None, Some(finalResult.message))
      ensures finalResult.Ok? ==>
        && state == BlogState(keyword, [Editor], old(state.history) + [AgentResponse(Editor, finalResult.text)],
                              Some(finalResult.text), true, None)
        && Outcome(run, log', state.history, state.finalPost, None)
    {
      state := state.(activeAgents := [Editor]);
      finalResult := service(Editor, keyword, context);
      log' := log + [Call(Editor, keyword, context, state)];
      if finalResult.Err? {
        SingleRankFails(reg, keyword, service, [[Editor]], context, state.history, log, Editor);
        return;
      }
      SingleLastRankCompletes(reg, keyword, service, context, state.history, log, Editor);
      var finalResponse := AgentResponse(Editor, finalResult.text);
      state := state.(history := state.history + [finalResponse], finalPost := Some(finalResult.text));
    }

    /**
     * The body of the `try` block: the four stages in order, stopping at the first that
     * fails. `thrown` is the message of that failure, which the catch block receives.
     */
    method RunStages(reg: Registry, keyword: string, service: Service, ghost run: Run)
      returns (thrown: Option<string>, ghost log: seq<Call>)
      requires state == Running(keyword, [], [])
      requires WellFormed(Ranks) && run == RunRanks(reg, keyword, service, Ranks, "", [], [])
      modifies this`state
      ensures state.keyword == keyword && state.error == None
      ensures Outcome(run, log, state.history, state.finalPost, thrown)
    {
      var currentContext := "";
      var researchResult, draftResult, finalResult;
      var failure;
      researchResult, currentContext, log := Research(reg, keyword, service, currentContext, run);
      if researchResult.Err? {
        return Some(researchResult.message), log;
      }
      assert WellFormed(Stages.AfterResearch) by {
        assert forall i | 0 <= i < |Stages.AfterResearch| :: Stages.AfterResearch[i] != [];
      }
      draftResult, currentContext, log := Draft(reg, keyword, service, currentContext, run, log);
      if draftResult.Err? {
        return Some(draftResult.message), log;
      }
      failure, currentContext, log := Review(reg, keyword, service, currentContext, run, log);
      if failure.Some? {
        return failure, log;
      }
      finalResult, log := Edit(reg, keyword, service, currentContext, run, log);
      if finalResult.Err? {
        return Some(finalResult.message), log;
      }
      thrown := None;
    }

    /**
     * Runs the pipeline for a keyword. A blank keyword changes nothing. Otherwise the
     * calls made and the final history and post are those of the reference run, the
     * run is over (not generating, no active agent), and the error is set exactly when
     * the reference run failed, to one of the error texts it allows.
     */
    method RunOrchestrator(reg: Registry, keyword: string, service: Service)
      modifies this
      ensures IsBlank(keyword) ==> state == old(state) && calls == old(calls)
      ensures !IsBlank(keyword) ==>
        var run := Expected(reg, keyword, service);
        && calls == old(calls) + run.calls
        && state.keyword == keyword
        && state.history == run.history
        && state.finalPost == run.finalPost
        && (state.error.None? <==> run.errors == {})
        && (state.error.Some? ==> state.error.value in run.errors)
        && !state.isGenerating
        && state.activeAgents == []
      ensures !IsBlank(keyword) ==> (state.finalPost.Some? <==> state.error.None?)
      ensures !IsBlank(keyword) && state.error.Some? ==> state.error.value != ""
    {
      TrimEmptyIffBlank(keyword);
      if Trim(keyword) == [] {
        return;
      }

      state := state.(keyword := keyword, isGenerating := true, error := None,
                      history := [], finalPost := None, activeAgents := []);
      ghost var run := Expected(reg, keyword, service);
      Properties.ExpectedUnfolds(reg, keyword, service);
      Properties.RunSettles(reg, keyword, service);
      // try
      var thrown, log := RunStages(reg, keyword, service, run);
      // catch
      if thrown.Some? {
        state := state.(error := Some(ErrorText(thrown.value)));
      }
      // finally
      state := state.(isGenerating := false, activeAgents := []);
      calls := calls + log;
    }
  }
}
