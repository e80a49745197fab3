/**
 * The reference definition of one orchestration run.
 *
 * The pipeline is a list of ranks; the agents of a rank are dispatched together,
 * all on the same context, and the run waits for all of them. A rank completes
 * only when every one of its calls succeeded; its responses are then appended
 * to the history in rank order and rendered into the context the next rank
 * receives. The first failing rank ends the run. The generation service is a
 * parameter: a function from (agent, keyword, context) to a reply.
 */
module Pipeline {
  import opened Blog
  import opened Text

  /** What one call of the generation service settles with. */
  datatype Reply = Ok(text: string) | Err(message: string)

  type Service = (AgentId, string, string) -> Reply

  /** One call of the service: its arguments, and the state observers saw when it was made. */
  datatype Call = Call(agent: AgentId, keyword: string, context: string, seen: BlogState)

  /**
   * The observable result of a run: the calls made, the final history and post,
   * and the error texts the run may end with (empty exactly when it succeeded;
   * when several calls of one rank fail, any one of them may be reported).
   */
  datatype Run = Run(calls: seq<Call>, history: seq<AgentResponse>, finalPost: Option<string>, errors: set<string>)

  /** Researcher, then Writer, then Compliance, Enhancer and SEO together, then Editor. */
  const Ranks: seq<seq<AgentId>> := [[Researcher], [Writer], [Compliance, Enhancer, SEO], [Editor]]

  /**
   * The position of the first entry of the agent table with this id,
   * or the table's length when there is none.
   */
  function FindIndex(agents: seq<AgentDef>, id: AgentId): (i: nat)
    ensures i <= |agents|
    ensures i < |agents| ==> agents[i].id == id
    ensures forall j :: 0 <= j < i ==> agents[j].id != id
  {
    if agents == [] then 0
    else if agents[0].id == id then 0
    else 1 + FindIndex(agents[1..], id)
  }

  /** The first entry of the agent table with this id, as `Array.prototype.find` returns it. */
  function FindAgent(agents: seq<AgentDef>, id: AgentId): Option<AgentDef> {
    var i := FindIndex(agents, id);
    if i < |agents| then Some(agents[i]) else None
  }

  /** The agent's display name, or its id when the table has no entry or an empty name. */
  function Label(reg: Registry, id: AgentId): string {
    match FindAgent(reg.agents, id)
    case Some(a) => if a.name != "" then a.name else reg.idText(id)
    case None => reg.idText(id)
  }

  function FeedbackSection(reg: Registry, r: AgentResponse): string {
    "\n\n[FEEDBACK FROM " + Upper(Label(reg, r.agentId)) + "]\n" + r.content
  }

  /** The feedback sections of a list of responses, in list order. */
  function Feedback(reg: Registry, rs: seq<AgentResponse>): string {
    if rs == [] then "" else Feedback(reg, rs[..|rs| - 1]) + FeedbackSection(reg, rs[|rs| - 1])
  }

  /** The labelled section a finished stage adds to the context. */
  function Section(reg: Registry, r: AgentResponse): string {
    match r.agentId
    case Researcher => "\n\n[RESEARCH REPORT]\n" + r.content
    case Writer => "\n\n[INITIAL DRAFT]\n" + r.content
    case _ => FeedbackSection(reg, r)
  }

  /** The sections of a completed rank, in rank order. */
  function Render(reg: Registry, rs: seq<AgentResponse>): string {
    if rs == [] then "" else Render(reg, rs[..|rs| - 1]) + Section(reg, rs[|rs| - 1])
  }

  /** The rendering of the three-agent rank is its feedback. */
  lemma {:induction false} RenderFeedback(reg: Registry, rs: seq<AgentResponse>)
    requires forall i :: 0 <= i < |rs| ==> rs[i].agentId in {Compliance, Enhancer, SEO}
    ensures Render(reg, rs) == Feedback(reg, rs)
  {
    if rs != [] {
      RenderFeedback(reg, rs[..|rs| - 1]);
    }
  }

  /** The text a failure leaves in `error`: its message, or a fixed text when that is empty. */
  function ErrorText(message: string): (e: string)
    ensures e != ""
    ensures message != "" ==> e == message
    ensures message == "" ==> e == "System failure."
  {
    if message != "" then message else "System failure."
  }

  /** The state while a rank is running: everything but the active agents and the history is fixed. */
  function Running(keyword: string, active: seq<AgentId>, history: seq<AgentResponse>): BlogState {
    BlogState(keyword, active, history, None, true, None)
  }

  /** The calls of one rank, made in rank order, all with the same context and snapshot. */
  function Dispatch(group: seq<AgentId>, keyword: string, context: string, seen: BlogState): (cs: seq<Call>)
    ensures |cs| == |group|
    ensures forall i :: 0 <= i < |group| ==> cs[i] == Call(group[i], keyword, context, seen)
  {
    seq(|group|, i requires 0 <= i < |group| => Call(group[i], keyword, context, seen))
  }

  /** The replies of one rank, in rank order (not in the order they settle). */
  function Replies(service: Service, group: seq<AgentId>, keyword: string, context: string): (rs: seq<Reply>)
    ensures |rs| == |group|
    ensures forall i :: 0 <= i < |group| ==> rs[i] == service(group[i], keyword, context)
  {
    seq(|group|, i requires 0 <= i < |group| => service(group[i], keyword, context))
  }

  predicate AllOk(replies: seq<Reply>) {
    forall i :: 0 <= i < |replies| ==> replies[i].Ok?
  }

  /** The error texts a rank with these replies may end the run with. */
  function Failures(replies: seq<Reply>): (es: set<string>)
    ensures es == {} <==> AllOk(replies)
    ensures forall e :: e in es ==> e != ""
    ensures forall i :: 0 <= i < |replies| && replies[i].Err? ==> ErrorText(replies[i].message) in es
  {
    var es := set i | 0 <= i < |replies| && replies[i].Err? :: ErrorText(replies[i].message);
    assert !AllOk(replies) ==> es != {} by {
      if !AllOk(replies) {
        var i :| 0 <= i < |replies| && replies[i].Err?;
        assert ErrorText(replies[i].message) in es;
      }
    }
    es
  }

  /** Every error text a rank may report is that of one of its failed calls. */
  lemma FailureHasCause(replies: seq<Reply>, e: string) returns (i: nat)
    requires e in Failures(replies)
    ensures i < |replies| && replies[i].Err? && e == ErrorText(replies[i].message)
  {
    i :| 0 <= i < |replies| && replies[i].Err? && e == ErrorText(replies[i].message);
  }

  /** A rank of one failed call reports exactly that call's error text. */
  lemma SingleFailure(reply: Reply)
    requires reply.Err?
    ensures Failures([reply]) == {ErrorText(reply.message)}
  {
    forall e | e in Failures([reply]) ensures e == ErrorText(reply.message) {
      var i := FailureHasCause([reply], e);
    }
    assert [reply][0] == reply;
  }

  function Responses(group: seq<AgentId>, replies: seq<Reply>): (rs: seq<AgentResponse>)
    requires |replies| == |group| && AllOk(replies)
    ensures |rs| == |group|
    ensures Ids(rs) == group
  {
    seq(|group|, i requires 0 <= i < |group| => AgentResponse(group[i], replies[i].text))
  }

  /** A pipeline has at least one rank and no empty rank. */
  predicate WellFormed(ranks: seq<seq<AgentId>>) {
    ranks != [] && forall i :: 0 <= i < |ranks| ==> ranks[i] != []
  }

  /** All agents of a list of ranks, rank after rank. */
  function Flatten(ranks: seq<seq<AgentId>>): seq<AgentId> {
    if ranks == [] then [] else ranks[0] + Flatten(ranks[1..])
  }

  function Agents(calls: seq<Call>): (ids: seq<AgentId>)
    ensures |ids| == |calls|
    ensures forall i :: 0 <= i < |calls| ==> ids[i] == calls[i].agent
  {
    seq(|calls|, i requires 0 <= i < |calls| => calls[i].agent)
  }

  /**
   * Runs the remaining ranks, given the context, history and calls so far.
   * The post is the content of the last response of the last rank.
   */
  function RunRanks(reg: Registry, keyword: string, service: Service, ranks: seq<seq<AgentId>>,
                    context: string, history: seq<AgentResponse>, calls: seq<Call>): Run
    requires WellFormed(ranks)
    decreases |ranks|
  {
    var group := ranks[0];
    var issued := calls + Dispatch(group, keyword, context, Running(keyword, group, history));
    var replies := Replies(service, group, keyword, context);
    if !AllOk(replies) then Run(issued, history, None, Failures(replies))
    else
      var done := Responses(group, replies);
      if |ranks| == 1 then Run(issued, history + done, Some(done[|done| - 1].content), {})
      else
        WellFormedTail(ranks);
        RunRanks(reg, keyword, service, ranks[1..], context + Render(reg, done), history + done, issued)
  }

  /** The run that a non-blank keyword starts, from an empty context and history. */
  function Expected(reg: Registry, keyword: string, service: Service): Run {
    assert WellFormed(Ranks) by {
      forall i | 0 <= i < |Ranks| ensures Ranks[i] != [] { }
    }
    RunRanks(reg, keyword, service, Ranks, "", [], [])
  }

  /** Stays within WellFormed when the first rank is dropped. */
  lemma WellFormedTail(ranks: seq<seq<AgentId>>)
    requires WellFormed(ranks) && |ranks| > 1
    ensures WellFormed(ranks[1..])
  {
    forall i | 0 <= i < |ranks[1..]| ensures ranks[1..][i] != [] {
      assert ranks[1..][i] == ranks[i + 1];
    }
  }

  /** A rank whose calls all succeeded hands its context, history and calls on to the next rank. */
  lemma RankCompletes(reg: Registry, keyword: string, service: Service, ranks: seq<seq<AgentId>>,
                      context: string, history: seq<AgentResponse>, calls: seq<Call>)
    requires WellFormed(ranks) && |ranks| > 1
    requires AllOk(Replies(service, ranks[0], keyword, context))
    ensures WellFormed(ranks[1..])
    ensures var done := Responses(ranks[0], Replies(service, ranks[0], keyword, context));
      RunRanks(reg, keyword, service, ranks, context, history, calls)
      == RunRanks(reg, keyword, service, ranks[1..], context + Render(reg, done), history + done,
                  calls + Dispatch(ranks[0], keyword, context, Running(keyword, ranks[0], history)))
  {
    WellFormedTail(ranks);
  }

  /** A rank with a failed call ends the run where it stands. */
  lemma RankFails(reg: Registry, keyword: string, service: Service, ranks: seq<seq<AgentId>>,
                  context: string, history: seq<AgentResponse>, calls: seq<Call>)
    requires WellFormed(ranks)
    requires !AllOk(Replies(service, ranks[0], keyword, context))
    ensures RunRanks(reg, keyword, service, ranks, context, history, calls)
      == Run(calls + Dispatch(ranks[0], keyword, context, Running(keyword, ranks[0], history)),
             history, None, Failures(Replies(service, ranks[0], keyword, context)))
  {
  }

  /** The last rank, when all its calls succeed, ends the run with its last response as the post. */
  lemma LastRankCompletes(reg: Registry, keyword: string, service: Service, ranks: seq<seq<AgentId>>,
                          context: string, history: seq<AgentResponse>, calls: seq<Call>)
    requires WellFormed(ranks) && |ranks| == 1
    requires AllOk(Replies(service, ranks[0], keyword, context))
    ensures var done := Responses(ranks[0], Replies(service, ranks[0], keyword, context));
      RunRanks(reg, keyword, service, ranks, context, history, calls)
      == Run(calls + Dispatch(ranks[0], keyword, context, Running(keyword, ranks[0], history)),
             history + done, Some(done[|done| - 1].content), {})
  {
  }

  /** A rank of one agent makes one call and, when it succeeds, one response. */
  lemma SingleRank(reg: Registry, agent: AgentId, keyword: string, context: string, seen: BlogState, service: Service)
    ensures Dispatch([agent], keyword, context, seen) == [Call(agent, keyword, context, seen)]
    ensures Replies(service, [agent], keyword, context) == [service(agent, keyword, context)]
    ensures service(agent, keyword, context).Ok? ==>
      var done := Responses([agent], [service(agent, keyword, context)]);
      done == [AgentResponse(agent, service(agent, keyword, context).text)]
      && Render(reg, done) == Section(reg, done[0])
  {
  }

  /** A rank of one agent whose call succeeds appends that agent's response and section. */
  lemma SingleRankCompletes(reg: Registry, keyword: string, service: Service, ranks: seq<seq<AgentId>>,
                            context: string, history: seq<AgentResponse>, calls: seq<Call>, agent: AgentId)
    requires WellFormed(ranks) && |ranks| > 1 && ranks[0] == [agent]
    requires service(agent, keyword, context).Ok?
    ensures WellFormed(ranks[1..])
    ensures var r := AgentResponse(agent, service(agent, keyword, context).text);
      RunRanks(reg, keyword, service, ranks, context, history, calls)
      == RunRanks(reg, keyword, service, ranks[1..], context + Section(reg, r), history + [r],
                  calls + [Call(agent, keyword, context, Running(keyword, [agent], history))])
  {
    SingleRank(reg, agent, keyword, context, Running(keyword, [agent], history), service);
    assert Replies(service, ranks[0], keyword, context) == [service(agent, keyword, context)];
    RankCompletes(reg, keyword, service, ranks, context, history, calls);
  }

  /** A last rank of one agent whose call succeeds ends the run with that agent's reply as the post. */
  lemma SingleLastRankCompletes(reg: Registry, keyword: string, service: Service, context: string,
                                history: seq<AgentResponse>, calls: seq<Call>, agent: AgentId)
    requires service(agent, keyword, context).Ok?
    ensures WellFormed([[agent]])
    ensures var text := service(agent, keyword, context).text;
      RunRanks(reg, keyword, service, [[agent]], context, history, calls)
      == Run(calls + [Call(agent, keyword, context, Running(keyword, [agent], history))],
             history + [AgentResponse(agent, text)], Some(text), {})
  {
    SingleRank(reg, agent, keyword, context, Running(keyword, [agent], history), service);
    assert Replies(service, [[agent]][0], keyword, context) == [service(agent, keyword, context)];
    LastRankCompletes(reg, keyword, service, [[agent]], context, history, calls);
  }

  /** A rank of one agent whose call fails ends the run with that call's error text. */
  lemma SingleRankFails(reg: Registry, keyword: string, service: Service, ranks: seq<seq<AgentId>>,
                        context: string, history: seq<AgentResponse>, calls: seq<Call>, agent: AgentId)
    requires WellFormed(ranks) && ranks[0] == [agent]
    requires service(agent, keyword, context).Err?
    ensures RunRanks(reg, keyword, service, ranks, context, history, calls)
      == Run(calls + [Call(agent, keyword, context, Running(keyword, [agent], history))], history, None,
             {ErrorText(service(agent, keyword, context).message)})
  {
    var reply := service(agent, keyword, context);
    SingleRank(reg, agent, keyword, context, Running(keyword, [agent], history), service);
    assert Replies(service, ranks[0], keyword, context) == [reply];
    assert [reply][0] == reply;
    RankFails(reg, keyword, service, ranks, context, history, calls);
    SingleFailure(reply);
  }

  /**
   * A run ends with a post exactly when it ends without an error, every error text
   * is non-empty, and the history and the calls only grow.
   */
  lemma {:induction false} RunRanksSettles(reg: Registry, keyword: string, service: Service,
                                           ranks: seq<seq<AgentId>>, context: string,
                                           history: seq<AgentResponse>, calls: seq<Call>)
    requires WellFormed(ranks)
    ensures var run := RunRanks(reg, keyword, service, ranks, context, history, calls);
      && (run.finalPost.Some? <==> run.errors == {})
      && (forall e :: e in run.errors ==> e != "")
      && |history| <= |run.history| && run.history[..|history|] == history
      && |calls| <= |run.calls| && run.calls[..|calls|] == calls
    decreases |ranks|
  {
    var group := ranks[0];
    var issued := calls + Dispatch(group, keyword, context, Running(keyword, group, history));
    var replies := Replies(service, group, keyword, context);
    assert issued[..|calls|] == calls;
    if AllOk(replies) {
      var done := Responses(group, replies);
      assert (history + done)[..|history|] == history;
      if |ranks| > 1 {
        WellFormedTail(ranks);
        RunRanksSettles(reg, keyword, service, ranks[1..], context + Render(reg, done), history + done, issued);
        var run := RunRanks(reg, keyword, service, ranks[1..], context + Render(reg, done), history + done, issued);
        assert run.history[..|history|] == run.history[..|history + done|][..|history|];
        assert run.calls[..|calls|] == run.calls[..|issued|][..|calls|];
      }
    }
  }

  /** What a successful run from the given history and calls has done with the given agents. */
  ghost predicate CompletedAll(run: Run, history: seq<AgentResponse>, calls: seq<Call>, agents: seq<AgentId>) {
    run.errors == {} ==>
      && Ids(run.history) == Ids(history) + agents
      && Agents(run.calls) == Agents(calls) + agents
      && |run.history| > 0
      && run.finalPost == Some(run.history[|run.history| - 1].content)
  }

  /** The last rank, when it completes, leaves its agents in the history and the calls. */
  lemma LastRankSuccess(reg: Registry, keyword: string, service: Service, ranks: seq<seq<AgentId>>,
                        context: string, history: seq<AgentResponse>, calls: seq<Call>)
    requires WellFormed(ranks) && |ranks| == 1
    requires AllOk(Replies(service, ranks[0], keyword, context))
    ensures CompletedAll(RunRanks(reg, keyword, service, ranks, context, history, calls), history, calls, Flatten(ranks))
  {
    var group := ranks[0];
    var done := Responses(group, Replies(service, group, keyword, context));
    AgentsDispatch(calls, group, keyword, context, Running(keyword, group, history));
    IdsAppend(history, done);
    LastRankCompletes(reg, keyword, service, ranks, context, history, calls);
    assert Flatten(ranks) == group + [] by {
      assert ranks[1..] == [];
    }
    assert (history + done)[|history + done| - 1] == done[|done| - 1];
  }

  /** A completed rank followed by a successful rest of the run: its agents come first. */
  lemma RankSuccessStep(reg: Registry, keyword: string, service: Service, ranks: seq<seq<AgentId>>,
                        context: string, history: seq<AgentResponse>, calls: seq<Call>)
    requires WellFormed(ranks) && |ranks| > 1
    requires AllOk(Replies(service, ranks[0], keyword, context))
    requires var group := ranks[0];
      var done := Responses(group, Replies(service, group, keyword, context));
      var issued := calls + Dispatch(group, keyword, context, Running(keyword, group, history));
      WellFormed(ranks[1..])
      && CompletedAll(RunRanks(reg, keyword, service, ranks[1..], context + Render(reg, done), history + done, issued),
                      history + done, issued, Flatten(ranks[1..]))
    ensures CompletedAll(RunRanks(reg, keyword, service, ranks, context, history, calls), history, calls, Flatten(ranks))
  {
    var group := ranks[0];
    var done := Responses(group, Replies(service, group, keyword, context));
    AgentsDispatch(calls, group, keyword, context, Running(keyword, group, history));
    IdsAppend(history, done);
    RankCompletes(reg, keyword, service, ranks, context, history, calls);
    assert Flatten(ranks) == group + Flatten(ranks[1..]);
    ConcatAssoc(Ids(history), group, Flatten(ranks[1..]));
    ConcatAssoc(Agents(calls), group, Flatten(ranks[1..]));
  }

  /** A successful run has a response from every agent and called every agent, in rank order. */
  lemma {:induction false} RunRanksSuccess(reg: Registry, keyword: string, service: Service,
                                           ranks: seq<seq<AgentId>>, context: string,
                                           history: seq<AgentResponse>, calls: seq<Call>)
    requires WellFormed(ranks)
    ensures CompletedAll(RunRanks(reg, keyword, service, ranks, context, history, calls), history, calls, Flatten(ranks))
    decreases |ranks|
  {
    var group := ranks[0];
    var replies := Replies(service, group, keyword, context);
    if !AllOk(replies) {
      RankFails(reg, keyword, service, ranks, context, history, calls);
    } else if |ranks| == 1 {
      LastRankSuccess(reg, keyword, service, ranks, context, history, calls);
    } else {
      var done := Responses(group, replies);
      var issued := calls + Dispatch(group, keyword, context, Running(keyword, group, history));
      WellFormedTail(ranks);
      RunRanksSuccess(reg, keyword, service, ranks[1..], context + Render(reg, done), history + done, issued);
      RankSuccessStep(reg, keyword, service, ranks, context, history, calls);
    }
  }

  /** A failed run stopped at rank k: the ranks before k completed, and rank k was the last one called. */
  ghost predicate StoppedAt(run: Run, history: seq<AgentResponse>, calls: seq<Call>, ranks: seq<seq<AgentId>>, k: nat) {
    run.errors != {} ==>
      && k < |ranks|
      && Ids(run.history) == Ids(history) + Flatten(ranks[..k])
      && Agents(run.calls) == Agents(calls) + Flatten(ranks[..k + 1])
  }

  /** A first rank with a failed call stops the run at rank 0. */
  lemma FirstRankStops(reg: Registry, keyword: string, service: Service, ranks: seq<seq<AgentId>>,
                       context: string, history: seq<AgentResponse>, calls: seq<Call>)
    requires WellFormed(ranks)
    requires !AllOk(Replies(service, ranks[0], keyword, context))
    ensures StoppedAt(RunRanks(reg, keyword, service, ranks, context, history, calls), history, calls, ranks, 0)
  {
    AgentsDispatch(calls, ranks[0], keyword, context, Running(keyword, ranks[0], history));
    RankFails(reg, keyword, service, ranks, context, history, calls);
    assert ranks[..0] == [];
    FlattenCons(ranks, 0);
  }

  /** A completed rank followed by a run that stops at rank j of the rest: the whole run stops at j + 1. */
  lemma RankStopStep(reg: Registry, keyword: string, service: Service, ranks: seq<seq<AgentId>>,
                     context: string, history: seq<AgentResponse>, calls: seq<Call>, j: nat)
    requires WellFormed(ranks) && |ranks| > 1
    requires AllOk(Replies(service, ranks[0], keyword, context))
    requires var group := ranks[0];
      var done := Responses(group, Replies(service, group, keyword, context));
      var issued := calls + Dispatch(group, keyword, context, Running(keyword, group, history));
      WellFormed(ranks[1..])
      && StoppedAt(RunRanks(reg, keyword, service, ranks[1..], context + Render(reg, done), history + done, issued),
                   history + done, issued, ranks[1..], j)
    ensures StoppedAt(RunRanks(reg, keyword, service, ranks, context, history, calls), history, calls, ranks, j + 1)
  {
    var group := ranks[0];
    var done := Responses(group, Replies(service, group, keyword, context));
    AgentsDispatch(calls, group, keyword, context, Running(keyword, group, history));
    IdsAppend(history, done);
    RankCompletes(reg, keyword, service, ranks, context, history, calls);
    if RunRanks(reg, keyword, service, ranks, context, history, calls).errors != {} {
      FlattenCons(ranks, j);
      FlattenCons(ranks, j + 1);
      ConcatAssoc(Ids(history), group, Flatten(ranks[1..][..j]));
      ConcatAssoc(Agents(calls), group, Flatten(ranks[1..][..j + 1]));
    }
  }

  /**
   * A failed run stopped at some rank k: its history holds exactly the ranks before k
   * and its calls end with the calls of rank k.
   */
  lemma {:induction false} RunRanksFailure(reg: Registry, keyword: string, service: Service,
                                           ranks: seq<seq<AgentId>>, context: string,
                                           history: seq<AgentResponse>, calls: seq<Call>)
    returns (k: nat)
    requires WellFormed(ranks)
    ensures StoppedAt(RunRanks(reg, keyword, service, ranks, context, history, calls), history, calls, ranks, k)
    decreases |ranks|
  {
    var group := ranks[0];
    var replies := Replies(service, group, keyword, context);
    k := 0;
    if !AllOk(replies) {
      FirstRankStops(reg, keyword, service, ranks, context, history, calls);
    } else if |ranks| == 1 {
      LastRankCompletes(reg, keyword, service, ranks, context, history, calls);
    } else {
      var done := Responses(group, replies);
      var issued := calls + Dispatch(group, keyword, context, Running(keyword, group, history));
      WellFormedTail(ranks);
      var j := RunRanksFailure(reg, keyword, service, ranks[1..], context + Render(reg, done), history + done, issued);
      RankStopStep(reg, keyword, service, ranks, context, history, calls, j);
      k := j + 1;
    }
  }

  lemma ConcatAssoc<T>(a: seq<T>, b: seq<T>, c: seq<T>)
    ensures (a + b) + c == a + (b + c)
  {
  }

  lemma IdsAppend(a: seq<AgentResponse>, b: seq<AgentResponse>)
    ensures Ids(a + b) == Ids(a) + Ids(b)
  {
  }

  lemma AgentsDispatch(calls: seq<Call>, group: seq<AgentId>, keyword: string, context: string, seen: BlogState)
    ensures Agents(calls + Dispatch(group, keyword, context, seen)) == Agents(calls) + group
  {
  }

  /** Flattening a prefix of ranks: the first rank, then a prefix of the rest. */
  lemma FlattenCons(ranks: seq<seq<AgentId>>, k: nat)
    requires 0 <= k < |ranks|
    ensures Flatten(ranks[..k + 1]) == ranks[0] + Flatten(ranks[1..][..k])
  {
    assert ranks[..k + 1][1..] == ranks[1..][..k];
  }
}
