/**
 * What the reference run promises as a whole: the order of the history on success,
 * where a failed run stops, that a run ends with exactly one of a post and an error,
 * and what the agent cards show while each call is in progress.
 */
module Properties {
  import opened Blog
  import opened Pipeline

  /** The agents in pipeline order, as the AGENTS table lists them. */
  const Order: seq<AgentId> := [Researcher, Writer, Compliance, Enhancer, SEO, Editor]

  predicate NoDuplicates<T(==)>(s: seq<T>) {
    forall i, j :: 0 <= i < j < |s| ==> s[i] != s[j]
  }

  lemma OrderDistinct()
    ensures NoDuplicates(Order)
  {
    forall i, j | 0 <= i < j < |Order| ensures Order[i] != Order[j] {
      assert i == 0 || i == 1 || i == 2 || i == 3 || i == 4;
    }
  }

  /** The agents of the first k ranks, for each k. */
  lemma RankPrefixes()
    ensures Flatten(Ranks[..0]) == []
    ensures Flatten(Ranks[..1]) == [Researcher]
    ensures Flatten(Ranks[..2]) == [Researcher, Writer]
    ensures Flatten(Ranks[..3]) == [Researcher, Writer, Compliance, Enhancer, SEO]
    ensures Flatten(Ranks[..4]) == Order && Flatten(Ranks) == Order
  {
    var r, w, g, e := [Researcher], [Writer], [Compliance, Enhancer, SEO], [Editor];
    assert Ranks[..0] == [];
    assert Ranks[..1] == [r] && [r][1..] == [];
    assert Flatten([r]) == r + [];
    assert Ranks[..2] == [r, w] && [r, w][1..] == [w] && [w][1..] == [];
    assert Flatten([w]) == w + [];
    assert Flatten([r, w]) == r + w;
    assert Ranks[..3] == [r, w, g] && [r, w, g][1..] == [w, g] && [w, g][1..] == [g] && [g][1..] == [];
    assert Flatten([g]) == g + [];
    assert Flatten([w, g]) == w + g;
    assert Flatten([r, w, g]) == r + (w + g);
    assert Ranks[..4] == Ranks;
    assert Ranks[1..] == [w, g, e] && [w, g, e][1..] == [g, e] && [g, e][1..] == [e] && [e][1..] == [];
    assert Flatten([e]) == e + [];
    assert Flatten([g, e]) == g + e;
    assert Flatten([w, g, e]) == w + (g + e);
    assert Flatten(Ranks) == r + (w + (g + e));
  }

  lemma ExpectedUnfolds(reg: Registry, keyword: string, service: Service)
    ensures WellFormed(Ranks)
    ensures Expected(reg, keyword, service) == RunRanks(reg, keyword, service, Ranks, "", [], [])
  {
    assert forall i | 0 <= i < |Ranks| :: Ranks[i] != [];
  }

  /**
   * A run ends with a post exactly when it ends without an error, and every error text
   * it may report is non-empty.
   */
  lemma RunSettles(reg: Registry, keyword: string, service: Service)
    ensures var run := Expected(reg, keyword, service);
      && (run.finalPost.Some? <==> run.errors == {})
      && (forall e :: e in run.errors ==> e != "")
  {
    ExpectedUnfolds(reg, keyword, service);
    RunRanksSettles(reg, keyword, service, Ranks, "", [], []);
  }

  /**
   * When every call succeeds, the history holds one response from each agent, in
   * pipeline order (not in the order the group's calls settle), every agent was called
   * once in that order, and the post is the Editor's text.
   */
  lemma SuccessfulRun(reg: Registry, keyword: string, service: Service)
    ensures var run := Expected(reg, keyword, service);
      run.errors == {} ==>
        && Ids(run.history) == Order
        && NoDuplicates(Ids(run.history))
        && Agents(run.calls) == Order
        && run.history[5].agentId == Editor
        && run.finalPost == Some(run.history[5].content)
  {
    var run := Expected(reg, keyword, service);
    if run.errors == {} {
      ExpectedUnfolds(reg, keyword, service);
      RunRanksSuccess(reg, keyword, service, Ranks, "", [], []);
      RankPrefixes();
      OrderDistinct();
      assert Ids([]) == [] && Agents([]) == [];
      assert Ids(run.history) == Order;
      assert |run.history| == 6;
      assert run.history[5].agentId == Ids(run.history)[5];
    }
  }

  /**
   * When a call fails, the run stopped at the rank k of that call: the history holds
   * exactly the agents of the ranks before k, the calls stop with rank k (no later agent
   * was called), and there is no post.
   */
  lemma FailedRun(reg: Registry, keyword: string, service: Service) returns (k: nat)
    ensures var run := Expected(reg, keyword, service);
      run.errors != {} ==>
        && k < |Ranks|
        && Ids(run.history) == Flatten(Ranks[..k])
        && Agents(run.calls) == Flatten(Ranks[..k + 1])
        && run.finalPost == None
  {
    ExpectedUnfolds(reg, keyword, service);
    RunSettles(reg, keyword, service);
    k := RunRanksFailure(reg, keyword, service, Ranks, "", [], []);
    assert Ids([]) == [] && Agents([]) == [];
  }

  /**
   * The three-agent rank is all or nothing: a failed run's history is one of the four
   * prefixes that end with a whole rank, and the Editor is called only if the run got
   * past the group.
   */
  lemma AllOrNothing(reg: Registry, keyword: string, service: Service)
    ensures var run := Expected(reg, keyword, service);
      var ids := Ids(run.history);
      run.errors != {} ==>
        && (ids == [] || ids == [Researcher] || ids == [Researcher, Writer]
            || ids == [Researcher, Writer, Compliance, Enhancer, SEO])
        && (Editor in Agents(run.calls) <==> ids == [Researcher, Writer, Compliance, Enhancer, SEO])
  {
    var run := Expected(reg, keyword, service);
    var k := FailedRun(reg, keyword, service);
    RankPrefixes();
    if run.errors != {} {
      assert k == 0 || k == 1 || k == 2 || k == 3;
    }
  }

  /** The state observers see while a call is made: its agent is active and not yet completed. */
  predicate InProgress(c: Call) {
    && c.seen.isGenerating
    && IsActive(c.seen, c.agent)
    && !IsCompleted(c.seen, c.agent)
  }

  /** In a list without duplicates, no agent of the middle part occurs in the first part. */
  lemma GroupNotCompleted(done: seq<AgentId>, group: seq<AgentId>, rest: seq<AgentId>)
    requires NoDuplicates(done + (group + rest))
    ensures forall j :: 0 <= j < |group| ==> group[j] !in done
  {
    var all := done + (group + rest);
    forall j | 0 <= j < |group| ensures group[j] !in done {
      assert all[|done| + j] == group[j];
      forall m | 0 <= m < |done| ensures done[m] != group[j] {
        assert all[m] == done[m];
      }
    }
  }

  /**
   * Every call of a run is made while its agent is shown active and not completed,
   * provided no agent occurs twice in the history and the remaining ranks.
   */
  lemma {:induction false} RunRanksInProgress(reg: Registry, keyword: string, service: Service,
                                              ranks: seq<seq<AgentId>>, context: string,
                                              history: seq<AgentResponse>, calls: seq<Call>)
    requires WellFormed(ranks)
    requires NoDuplicates(Ids(history) + Flatten(ranks))
    requires forall i :: 0 <= i < |calls| ==> InProgress(calls[i])
    ensures var run := RunRanks(reg, keyword, service, ranks, context, history, calls);
      forall i :: 0 <= i < |run.calls| ==> InProgress(run.calls[i])
    decreases |ranks|
  {
    var group := ranks[0];
    var seen := Running(keyword, group, history);
    var issued := calls + Dispatch(group, keyword, context, seen);
    var replies := Replies(service, group, keyword, context);
    assert Flatten(ranks) == group + Flatten(ranks[1..]);
    GroupNotCompleted(Ids(history), group, Flatten(ranks[1..]));
    forall i | 0 <= i < |issued| ensures InProgress(issued[i]) {
      if i >= |calls| {
        var j := i - |calls|;
        assert issued[i] == Call(group[j], keyword, context, seen);
        CompletedIffInIds(seen, group[j]);
      }
    }
    if AllOk(replies) && |ranks| > 1 {
      var done := Responses(group, replies);
      WellFormedTail(ranks);
      IdsAppend(history, done);
      ConcatAssoc(Ids(history), group, Flatten(ranks[1..]));
      var next := context + Render(reg, done);
      assert RunRanks(reg, keyword, service, ranks, context, history, calls)
             == RunRanks(reg, keyword, service, ranks[1..], next, history + done, issued);
      RunRanksInProgress(reg, keyword, service, ranks[1..], next, history + done, issued);
      assert var run := RunRanks(reg, keyword, service, ranks[1..], next, history + done, issued);
        forall i :: 0 <= i < |run.calls| ==> InProgress(run.calls[i]);
    } else {
      assert RunRanks(reg, keyword, service, ranks, context, history, calls).calls == issued;
    }
  }

  /**
   * Every call of the pipeline is made while the page shows a run in progress with that
   * agent active and not completed: no agent is called twice.
   */
  lemma CallsInProgress(reg: Registry, keyword: string, service: Service)
    ensures var run := Expected(reg, keyword, service);
      forall i :: 0 <= i < |run.calls| ==> InProgress(run.calls[i])
  {
    ExpectedUnfolds(reg, keyword, service);
    RankPrefixes();
    OrderDistinct();
    assert Ids([]) + Flatten(Ranks) == Order;
    RunRanksInProgress(reg, keyword, service, Ranks, "", [], []);
  }

  /**
   * Once a successful run is over (no agent active), every agent card shows completed;
   * once a failed run is over, exactly the agents without a response show waiting.
   */
  lemma FinalStatus(reg: Registry, keyword: string, service: Service, s: BlogState)
    requires s.activeAgents == [] && s.history == Expected(reg, keyword, service).history
    ensures Expected(reg, keyword, service).errors == {} ==> forall id :: IsCompleted(s, id) && !IsWaiting(s, id)
    ensures forall id :: IsWaiting(s, id) <==> id !in Ids(s.history)
  {
    SuccessfulRun(reg, keyword, service);
    forall id ensures IsCompleted(s, id) <==> id in Ids(s.history) {
      CompletedIffInIds(s, id);
    }
    if Expected(reg, keyword, service).errors == {} {
      forall id ensures id in Ids(s.history) {
        assert id == Order[0] || id == Order[1] || id == Order[2] || id == Order[3] || id == Order[4]
               || id == Order[5];
      }
    }
  }
}
