/**
 * The reference run of the six-agent pipeline, rank by rank: the exact call each
 * stage receives (context and observed state), and where the run goes from there.
 * Each lemma takes the replies of the earlier stages as given.
 */
module Stages {
  import opened Blog
  import opened Text
  import opened Pipeline

  const AfterResearch: seq<seq<AgentId>> := [[Writer], [Compliance, Enhancer, SEO], [Editor]]
  const AfterDraft: seq<seq<AgentId>> := [[Compliance, Enhancer, SEO], [Editor]]
  const Group: seq<AgentId> := [Compliance, Enhancer, SEO]

  /** The Researcher is called first, on the empty context; its failure ends the run with nothing done. */
  lemma ResearcherStage(reg: Registry, keyword: string, service: Service)
    ensures var reply := service(Researcher, keyword, "");
      var c0 := Call(Researcher, keyword, "", Running(keyword, [Researcher], []));
      && (reply.Err? ==> Expected(reg, keyword, service) == Run([c0], [], None, {ErrorText(reply.message)}))
      && (reply.Ok? ==>
            Expected(reg, keyword, service)
            == RunRanks(reg, keyword, service, AfterResearch, "\n\n[RESEARCH REPORT]\n" + reply.text,
                        [AgentResponse(Researcher, reply.text)], [c0]))
  {
    var reply := service(Researcher, keyword, "");
    assert WellFormed(Ranks) by {
      forall i | 0 <= i < |Ranks| ensures Ranks[i] != [] { }
    }
    assert Ranks[0] == [Researcher];
    assert Expected(reg, keyword, service) == RunRanks(reg, keyword, service, Ranks, "", [], []);
    var c0 := Call(Researcher, keyword, "", Running(keyword, [Researcher], []));
    var nil: seq<Call> := [];
    assert nil + [c0] == [c0];
    if reply.Err? {
      SingleRankFails(reg, keyword, service, Ranks, "", [], nil, Researcher);
    } else {
      SingleRankCompletes(reg, keyword, service, Ranks, "", [], nil, Researcher);
      var r := AgentResponse(Researcher, reply.text);
      assert Ranks[1..] == AfterResearch;
      assert "" + Section(reg, r) == "\n\n[RESEARCH REPORT]\n" + reply.text;
      assert [] + [r] == [r];
    }
  }

  /** The Writer receives the research report section and, while it runs, only the Researcher is done. */
  lemma WriterStage(reg: Registry, keyword: string, service: Service, research: string)
    requires service(Researcher, keyword, "") == Ok(research)
    ensures var context := "\n\n[RESEARCH REPORT]\n" + research;
      var reply := service(Writer, keyword, context);
      var h1 := [AgentResponse(Researcher, research)];
      var c1 := [Call(Researcher, keyword, "", Running(keyword, [Researcher], []))]
                + [Call(Writer, keyword, context, Running(keyword, [Writer], h1))];
      && (reply.Err? ==> Expected(reg, keyword, service) == Run(c1, h1, None, {ErrorText(reply.message)}))
      && (reply.Ok? ==>
            Expected(reg, keyword, service)
            == RunRanks(reg, keyword, service, AfterDraft, context + "\n\n[INITIAL DRAFT]\n" + reply.text,
                        h1 + [AgentResponse(Writer, reply.text)], c1))
  {
    ResearcherStage(reg, keyword, service);
    var context := "\n\n[RESEARCH REPORT]\n" + research;
    var reply := service(Writer, keyword, context);
    var h1 := [AgentResponse(Researcher, research)];
    var c0 := [Call(Researcher, keyword, "", Running(keyword, [Researcher], []))];
    assert WellFormed(AfterResearch) by {
      forall i | 0 <= i < |AfterResearch| ensures AfterResearch[i] != [] { }
    }
    assert AfterResearch[0] == [Writer];
    if reply.Err? {
      SingleRankFails(reg, keyword, service, AfterResearch, context, h1, c0, Writer);
    } else {
      SingleRankCompletes(reg, keyword, service, AfterResearch, context, h1, c0, Writer);
      assert AfterResearch[1..] == AfterDraft;
      ConcatAssoc(context, "\n\n[INITIAL DRAFT]\n", reply.text);
    }
  }

  /** The three-agent rank: three calls on one context and snapshot, and its responses in array order. */
  lemma GroupRank(reg: Registry, keyword: string, context: string, seen: BlogState, service: Service)
    ensures Dispatch(Group, keyword, context, seen)
            == [Call(Compliance, keyword, context, seen), Call(Enhancer, keyword, context, seen),
                Call(SEO, keyword, context, seen)]
    ensures var replies := [service(Compliance, keyword, context), service(Enhancer, keyword, context),
                            service(SEO, keyword, context)];
      && Replies(service, Group, keyword, context) == replies
      && (AllOk(replies) ==>
            var feedback := [AgentResponse(Compliance, replies[0].text), AgentResponse(Enhancer, replies[1].text),
                             AgentResponse(SEO, replies[2].text)];
            Responses(Group, replies) == feedback && Render(reg, feedback) == Feedback(reg, feedback))
  {
    var replies := [service(Compliance, keyword, context), service(Enhancer, keyword, context),
                    service(SEO, keyword, context)];
    if AllOk(replies) {
      var feedback := [AgentResponse(Compliance, replies[0].text), AgentResponse(Enhancer, replies[1].text),
                       AgentResponse(SEO, replies[2].text)];
      RenderFeedback(reg, feedback);
    }
  }

  /** The three-agent rank run from a given context, history and calls. */
  lemma GroupRun(reg: Registry, keyword: string, service: Service, context: string,
                 history: seq<AgentResponse>, calls: seq<Call>)
    ensures WellFormed(AfterDraft)
    ensures var replies := [service(Compliance, keyword, context), service(Enhancer, keyword, context),
                            service(SEO, keyword, context)];
      var seen := Running(keyword, Group, history);
      var issued := calls + [Call(Compliance, keyword, context, seen)] + [Call(Enhancer, keyword, context, seen)]
                     + [Call(SEO, keyword, context, seen)];
      var run := RunRanks(reg, keyword, service, AfterDraft, context, history, calls);
      && (!AllOk(replies) ==> run == Run(issued, history, None, Failures(replies)))
      && (AllOk(replies) ==>
            var feedback := [AgentResponse(Compliance, replies[0].text), AgentResponse(Enhancer, replies[1].text),
                             AgentResponse(SEO, replies[2].text)];
            run == RunRanks(reg, keyword, service, [[Editor]], context + Feedback(reg, feedback),
                            history + feedback, issued))
  {
    assert WellFormed(AfterDraft) by {
      forall i | 0 <= i < |AfterDraft| ensures AfterDraft[i] != [] { }
    }
    assert AfterDraft[0] == Group;
    var replies := [service(Compliance, keyword, context), service(Enhancer, keyword, context),
                    service(SEO, keyword, context)];
    var seen := Running(keyword, Group, history);
    GroupRank(reg, keyword, context, seen, service);
    assert calls + [Call(Compliance, keyword, context, seen)] + [Call(Enhancer, keyword, context, seen)]
                 + [Call(SEO, keyword, context, seen)]
           == calls + [Call(Compliance, keyword, context, seen), Call(Enhancer, keyword, context, seen),
                       Call(SEO, keyword, context, seen)];
    if !AllOk(replies) {
      RankFails(reg, keyword, service, AfterDraft, context, history, calls);
    } else {
      RankCompletes(reg, keyword, service, AfterDraft, context, history, calls);
      assert AfterDraft[1..] == [[Editor]];
    }
  }

  /**
   * Compliance, Enhancer and SEO are called in that order, all on the research and draft
   * sections, while all three are active. If any of them fails, the run ends with the
   * history of the first two stages only; otherwise their three feedback sections, in
   * array order, are appended for the Editor.
   */
  lemma GroupStage(reg: Registry, keyword: string, service: Service, research: string, draft: string)
    requires service(Researcher, keyword, "") == Ok(research)
    requires service(Writer, keyword, "\n\n[RESEARCH REPORT]\n" + research) == Ok(draft)
    ensures var context := "\n\n[RESEARCH REPORT]\n" + research + "\n\n[INITIAL DRAFT]\n" + draft;
      var replies := [service(Compliance, keyword, context), service(Enhancer, keyword, context),
                      service(SEO, keyword, context)];
      var h1 := [AgentResponse(Researcher, research)];
      var h2 := h1 + [AgentResponse(Writer, draft)];
      var seen := Running(keyword, Group, h2);
      var c2 := [Call(Researcher, keyword, "", Running(keyword, [Researcher], []))]
                + [Call(Writer, keyword, "\n\n[RESEARCH REPORT]\n" + research, Running(keyword, [Writer], h1))]
                + [Call(Compliance, keyword, context, seen)] + [Call(Enhancer, keyword, context, seen)]
                + [Call(SEO, keyword, context, seen)];
      && (!AllOk(replies) ==> Expected(reg, keyword, service) == Run(c2, h2, None, Failures(replies)))
      && (AllOk(replies) ==>
            var feedback := [AgentResponse(Compliance, replies[0].text), AgentResponse(Enhancer, replies[1].text),
                             AgentResponse(SEO, replies[2].text)];
            Expected(reg, keyword, service)
            == RunRanks(reg, keyword, service, [[Editor]], context + Feedback(reg, feedback), h2 + feedback, c2))
  {
    WriterStage(reg, keyword, service, research);
    var context := "\n\n[RESEARCH REPORT]\n" + research + "\n\n[INITIAL DRAFT]\n" + draft;
    var h1 := [AgentResponse(Researcher, research)];
    var c1 := [Call(Researcher, keyword, "", Running(keyword, [Researcher], []))]
              + [Call(Writer, keyword, "\n\n[RESEARCH REPORT]\n" + research, Running(keyword, [Writer], h1))];
    GroupRun(reg, keyword, service, context, h1 + [AgentResponse(Writer, draft)], c1);
  }

  /** Appending one response appends its feedback section. */
  lemma FeedbackSnoc(reg: Registry, rs: seq<AgentResponse>, r: AgentResponse)
    ensures Feedback(reg, rs + [r]) == Feedback(reg, rs) + FeedbackSection(reg, r)
  {
    assert (rs + [r])[..|rs|] == rs;
  }

  /** The context after the three feedback sections are appended one by one. */
  lemma FeedbackOfThree(reg: Registry, context: string, a: AgentResponse, b: AgentResponse, c: AgentResponse)
    ensures context + Feedback(reg, [a, b, c])
            == context + FeedbackSection(reg, a) + FeedbackSection(reg, b) + FeedbackSection(reg, c)
  {
    var fa, fb, fc := FeedbackSection(reg, a), FeedbackSection(reg, b), FeedbackSection(reg, c);
    assert Feedback(reg, [a]) == fa by {
      FeedbackSnoc(reg, [], a);
      assert [] + [a] == [a];
    }
    assert Feedback(reg, [a, b]) == fa + fb by {
      FeedbackSnoc(reg, [a], b);
      assert [a] + [b] == [a, b];
    }
    assert Feedback(reg, [a, b, c]) == (fa + fb) + fc by {
      FeedbackSnoc(reg, [a, b], c);
      assert [a, b] + [c] == [a, b, c];
    }
    calc {
      context + ((fa + fb) + fc);
      { ConcatAssoc(context, fa + fb, fc); }
      (context + (fa + fb)) + fc;
      { ConcatAssoc(context, fa, fb); }
      ((context + fa) + fb) + fc;
    }
  }

  /** After the group completes, the run is the Editor's rank on the full context. */
  lemma EditorContinues(reg: Registry, keyword: string, service: Service, research: string, draft: string,
                        compliance: string, enhancer: string, seo: string)
    requires service(Researcher, keyword, "") == Ok(research)
    requires service(Writer, keyword, "\n\n[RESEARCH REPORT]\n" + research) == Ok(draft)
    requires var context := "\n\n[RESEARCH REPORT]\n" + research + "\n\n[INITIAL DRAFT]\n" + draft;
      && service(Compliance, keyword, context) == Ok(compliance)
      && service(Enhancer, keyword, context) == Ok(enhancer)
      && service(SEO, keyword, context) == Ok(seo)
    ensures var context := "\n\n[RESEARCH REPORT]\n" + research + "\n\n[INITIAL DRAFT]\n" + draft;
      var feedback := [AgentResponse(Compliance, compliance), AgentResponse(Enhancer, enhancer), AgentResponse(SEO, seo)];
      var h1 := [AgentResponse(Researcher, research)];
      var h2 := h1 + [AgentResponse(Writer, draft)];
      var seen := Running(keyword, Group, h2);
      var c2 := [Call(Researcher, keyword, "", Running(keyword, [Researcher], []))]
                + [Call(Writer, keyword, "\n\n[RESEARCH REPORT]\n" + research, Running(keyword, [Writer], h1))]
                + [Call(Compliance, keyword, context, seen)] + [Call(Enhancer, keyword, context, seen)]
                + [Call(SEO, keyword, context, seen)];
      Expected(reg, keyword, service)
      == RunRanks(reg, keyword, service, [[Editor]],
                  context + FeedbackSection(reg, feedback[0]) + FeedbackSection(reg, feedback[1])
                  + FeedbackSection(reg, feedback[2]), h2 + feedback, c2)
  {
    var context := "\n\n[RESEARCH REPORT]\n" + research + "\n\n[INITIAL DRAFT]\n" + draft;
    var feedback := [AgentResponse(Compliance, compliance), AgentResponse(Enhancer, enhancer), AgentResponse(SEO, seo)];
    GroupStage(reg, keyword, service, research, draft);
    var replies := [service(Compliance, keyword, context), service(Enhancer, keyword, context),
                    service(SEO, keyword, context)];
    assert AllOk(replies);
    FeedbackOfThree(reg, context, feedback[0], feedback[1], feedback[2]);
  }

  /**
   * The Editor receives the group's context followed by the feedback of Compliance,
   * Enhancer and SEO, in that order, each under its upper-cased label. Its reply ends the
   * run: its text is the post and the last history entry, or its failure is the error.
   */
  lemma EditorStage(reg: Registry, keyword: string, service: Service, research: string, draft: string,
                    compliance: string, enhancer: string, seo: string)
    requires service(Researcher, keyword, "") == Ok(research)
    requires service(Writer, keyword, "\n\n[RESEARCH REPORT]\n" + research) == Ok(draft)
    requires var context := "\n\n[RESEARCH REPORT]\n" + research + "\n\n[INITIAL DRAFT]\n" + draft;
      && service(Compliance, keyword, context) == Ok(compliance)
      && service(Enhancer, keyword, context) == Ok(enhancer)
      && service(SEO, keyword, context) == Ok(seo)
    ensures var context := "\n\n[RESEARCH REPORT]\n" + research + "\n\n[INITIAL DRAFT]\n" + draft;
      var editorContext := context
        + ("\n\n[FEEDBACK FROM " + Upper(Label(reg, Compliance)) + "]\n" + compliance)
        + ("\n\n[FEEDBACK FROM " + Upper(Label(reg, Enhancer)) + "]\n" + enhancer)
        + ("\n\n[FEEDBACK FROM " + Upper(Label(reg, SEO)) + "]\n" + seo);
      var reply := service(Editor, keyword, editorContext);
      var h1 := [AgentResponse(Researcher, research)];
      var h2 := h1 + [AgentResponse(Writer, draft)];
      var h5 := h2 + [AgentResponse(Compliance, compliance), AgentResponse(Enhancer, enhancer),
                      AgentResponse(SEO, seo)];
      var seen := Running(keyword, Group, h2);
      var c2 := [Call(Researcher, keyword, "", Running(keyword, [Researcher], []))]
                + [Call(Writer, keyword, "\n\n[RESEARCH REPORT]\n" + research, Running(keyword, [Writer], h1))]
                + [Call(Compliance, keyword, context, seen)] + [Call(Enhancer, keyword, context, seen)]
                + [Call(SEO, keyword, context, seen)];
      var run := Expected(reg, keyword, service);
      && run.calls == c2 + [Call(Editor, keyword, editorContext, Running(keyword, [Editor], h5))]
      && (reply.Err? ==> run.history == h5 && run.finalPost == None && run.errors == {ErrorText(reply.message)})
      && (reply.Ok? ==>
            && run.history == h5 + [AgentResponse(Editor, reply.text)]
            && run.finalPost == Some(reply.text)
            && run.errors == {})
  {
    var context := "\n\n[RESEARCH REPORT]\n" + research + "\n\n[INITIAL DRAFT]\n" + draft;
    var feedback := [AgentResponse(Compliance, compliance), AgentResponse(Enhancer, enhancer), AgentResponse(SEO, seo)];
    var editorContext := context + FeedbackSection(reg, feedback[0]) + FeedbackSection(reg, feedback[1])
                         + FeedbackSection(reg, feedback[2]);
    var h1 := [AgentResponse(Researcher, research)];
    var h2 := h1 + [AgentResponse(Writer, draft)];
    var h5 := h2 + feedback;
    var seen := Running(keyword, Group, h2);
    var c2 := [Call(Researcher, keyword, "", Running(keyword, [Researcher], []))]
              + [Call(Writer, keyword, "\n\n[RESEARCH REPORT]\n" + research, Running(keyword, [Writer], h1))]
              + [Call(Compliance, keyword, context, seen)] + [Call(Enhancer, keyword, context, seen)]
              + [Call(SEO, keyword, context, seen)];
    EditorContinues(reg, keyword, service, research, draft, compliance, enhancer, seo);
    if service(Editor, keyword, editorContext).Err? {
      SingleRankFails(reg, keyword, service, [[Editor]], editorContext, h5, c2, Editor);
    } else {
      SingleLastRankCompletes(reg, keyword, service, editorContext, h5, c2, Editor);
    }
  }
}
