/** What holds of every turn of an agent, whatever the model and the tools do. */
module AgentLaws {
  import opened Wrappers
  import opened AgentSkills
  import opened AgentTurn

  /** The skills activated in a log. */
  function ActivatedIn(log: seq<Event>): set<string> {
    if log == [] then {}
    else (if log[0].Activated? then {log[0].skill} else {}) + ActivatedIn(log[1..])
  }

  lemma {:induction false} ActivatedInAppend(a: seq<Event>, b: seq<Event>)
    ensures ActivatedIn(a + b) == ActivatedIn(a) + ActivatedIn(b)
  {
    if a == [] {
      assert a + b == b;
    } else {
      assert (a + b)[1..] == a[1..] + b;
      ActivatedInAppend(a[1..], b);
    }
  }

  lemma {:induction false} ActivatedInMeans(log: seq<Event>, skill: string)
    ensures skill in ActivatedIn(log) <==> exists j :: 0 <= j < |log| && log[j] == Activated(skill)
  {
    if log != [] {
      ActivatedInMeans(log[1..], skill);
      if j :| 0 <= j < |log[1..]| && log[1..][j] == Activated(skill) {
        assert log[j + 1] == Activated(skill);
      }
      if j :| 0 <= j < |log| && log[j] == Activated(skill) {
        assert j > 0 ==> log[1..][j - 1] == Activated(skill);
      }
    }
  }

  /** An event fits the skills that are active when it happens. */
  ghost predicate Fits(env: Env, active: set<string>, e: Event) {
    match e
    case Requested(_, tools) => tools == ComposedTools(env.base, env.skills, active)
    case Activated(skill) => skill in env.skills.skills
    case Refused(call) => Locked(env.skills, active, call.name)
    case Executed(call) => !Locked(env.skills, active, call.name) && env.hasTools
  }

  /** Each event of a log fits the skills active before the log and those activated in it before. */
  ghost predicate FitsAll(env: Env, active: set<string>, log: seq<Event>)
    decreases log
  {
    log != [] ==> Fits(env, active, log[0]) && FitsAll(env, active + ActivatedIn([log[0]]), log[1..])
  }

  lemma OneActivated(e: Event)
    ensures ActivatedIn([e]) == if e.Activated? then {e.skill} else {}
  {
    assert [e][1..] == [];
  }

  lemma {:induction false} FitsAt(env: Env, active: set<string>, log: seq<Event>, i: nat)
    requires FitsAll(env, active, log) && i < |log|
    ensures Fits(env, active + ActivatedIn(log[..i]), log[i])
    decreases i
  {
    if i == 0 {
      assert active + {} == active;
    } else {
      FitsAt(env, active + ActivatedIn([log[0]]), log[1..], i - 1);
      assert log[..i] == [log[0]] + log[1..][..i - 1];
      ActivatedInAppend([log[0]], log[1..][..i - 1]);
      Unite(active, ActivatedIn([log[0]]), ActivatedIn(log[1..][..i - 1]));
    }
  }

  lemma Unite<T>(a: set<T>, b: set<T>, c: set<T>)
    ensures a + b + c == a + (b + c)
  {
  }

  lemma {:induction false} FitsAppend(env: Env, active: set<string>, a: seq<Event>, b: seq<Event>)
    requires FitsAll(env, active, a) && FitsAll(env, active + ActivatedIn(a), b)
    ensures FitsAll(env, active, a + b)
    decreases |a|
  {
    if a == [] {
      assert a + b == b;
      assert active + {} == active;
    } else {
      assert (a + b)[1..] == a[1..] + b;
      assert a == [a[0]] + a[1..];
      ActivatedInAppend([a[0]], a[1..]);
      Unite(active, ActivatedIn([a[0]]), ActivatedIn(a[1..]));
      FitsAppend(env, active + ActivatedIn([a[0]]), a[1..], b);
    }
  }

  lemma FitsOne(env: Env, active: set<string>, e: Event)
    requires Fits(env, active, e)
    ensures FitsAll(env, active, [e])
    ensures ActivatedIn([e]) == if e.Activated? then {e.skill} else {}
  {
    OneActivated(e);
    assert [e][1..] == [];
  }

  lemma HandleFits(env: Env, active: set<string>, call: ToolCall, result: Result<Message>)
    ensures var h := Handle(env, active, call, result);
            FitsAll(env, active, h.events) && h.active == active + ActivatedIn(h.events)
  {
    var h := Handle(env, active, call, result);
    if h.events != [] {
      FitsOne(env, active, h.events[0]);
    }
  }

  lemma {:induction false} HandleAllFits(env: Env, k: nat, i: nat, calls: seq<ToolCall>, active: set<string>)
    requires i <= |calls|
    ensures var r := HandleAll(env, k, i, calls, active);
            FitsAll(env, active, r.events) && r.active == active + ActivatedIn(r.events) && |r.replies| == |calls| - i
    decreases |calls| - i
  {
    if i < |calls| {
      var h := Handle(env, active, calls[i], env.tool(k, i));
      var r := HandleAll(env, k, i + 1, calls, h.active);
      HandleFits(env, active, calls[i], env.tool(k, i));
      HandleAllFits(env, k, i + 1, calls, h.active);
      FitsAppend(env, active, h.events, r.events);
      ActivatedInAppend(h.events, r.events);
    }
  }

  lemma RoundFits(env: Env, k: nat, active: set<string>, newMessages: seq<Message>, calls: seq<ToolCall>)
    ensures var log := [Request(env, k, active, newMessages)] + HandleAll(env, k, 0, calls, active).events;
            FitsAll(env, active, log) && HandleAll(env, k, 0, calls, active).active == active + ActivatedIn(log)
  {
    var asked := Request(env, k, active, newMessages);
    FitsOne(env, active, asked);
    HandleAllFits(env, k, 0, calls, active);
    assert active + {} == active;
    FitsAppend(env, active, [asked], HandleAll(env, k, 0, calls, active).events);
    ActivatedInAppend([asked], HandleAll(env, k, 0, calls, active).events);
  }

  lemma {:induction false} IterateFits(env: Env, k: nat, active: set<string>, newMessages: seq<Message>)
    requires k <= env.maxIterations
    ensures FitsAll(env, active, Iterate(env, k, active, newMessages).1)
    decreases env.maxIterations - k
  {
    if k < env.maxIterations {
      FitsOne(env, active, Request(env, k, active, newMessages));
      if env.model(k).Reply? && env.model(k).response.toolCalls != [] {
        var resp := env.model(k).response;
        RoundFits(env, k, active, newMessages, resp.toolCalls);
        if k < env.maxIterations - 1 {
          var r := HandleAll(env, k, 0, resp.toolCalls, active);
          var more := newMessages + [AssistantMessage(resp)] + r.replies;
          IterateFits(env, k + 1, r.active, more);
          FitsAppend(env, active, [Request(env, k, active, newMessages)] + r.events, Iterate(env, k + 1, r.active, more).1);
        }
      }
    }
  }

  /** A tool that belongs to a skill is executed only after that skill was activated in the turn. */
  lemma GatedToolsWaitForActivation(env: Env, i: nat)
    requires i < |Turn(env).1| && Turn(env).1[i].Executed? && Turn(env).1[i].call.name in env.skills.gated
    ensures exists j :: 0 <= j < i && Turn(env).1[j] == Activated(env.skills.gated[Turn(env).1[i].call.name])
  {
    var log := Turn(env).1;
    IterateFits(env, 0, {}, [env.user]);
    FitsAt(env, {}, log, i);
    var owner := env.skills.gated[log[i].call.name];
    ActivatedInMeans(log[..i], owner);
    var j :| 0 <= j < i && log[..i][j] == Activated(owner);
    assert log[j] == Activated(owner);
  }

  /** A call is refused only while the owning skill has not been activated. */
  lemma RefusalsPrecedeActivation(env: Env, i: nat, j: nat)
    requires j < i < |Turn(env).1| && Turn(env).1[i].Refused?
    ensures Turn(env).1[i].call.name in env.skills.gated
    ensures Turn(env).1[j] != Activated(env.skills.gated[Turn(env).1[i].call.name])
  {
    var log := Turn(env).1;
    IterateFits(env, 0, {}, [env.user]);
    FitsAt(env, {}, log, i);
    var owner := env.skills.gated[log[i].call.name];
    ActivatedInMeans(log[..i], owner);
    assert log[..i][j] == log[j];
  }

  /** Each request offers activate_skill and, of the base tools that no two skills share, exactly
      those whose skill, if any, was activated before it. */
  lemma RequestsOfferTheUnlockedTools(env: Env, registry: Option<Registry>, i: nat, tool: string)
    requires Loaded(env.skills, env.base, registry) && Enabled(env.skills)
    requires i < |Turn(env).1| && Turn(env).1[i].Requested?
    requires tool in env.skills.defByName && !Shared(env.skills, tool)
    ensures ActivateSkill(CardNames(env.skills.cards)) in Turn(env).1[i].tools
    ensures (exists d :: d in Turn(env).1[i].tools && d.Base? && d.name == tool) <==>
            (tool in env.skills.gated ==> exists j :: 0 <= j < i && Turn(env).1[j] == Activated(env.skills.gated[tool]))
  {
    var log := Turn(env).1;
    IterateFits(env, 0, {}, [env.user]);
    var active := {} + ActivatedIn(log[..i]);
    FitsAt(env, {}, log, i);
    forall a | a in active ensures a in env.skills.skills {
      ActivatedInMeans(log[..i], a);
      var j :| 0 <= j < i && log[..i][j] == Activated(a);
      FitsAt(env, {}, log, j);
    }
    OfferedUnlessLocked(env.skills, env.base, registry, active, tool);
    OfferedIsUnlockedIffNotShared(env.skills, env.base, registry, tool);
    assert ToolOffered(env.skills, active, tool) <==> !Locked(env.skills, active, tool);
    assert ToolOffered(env.skills, active, tool) <==> exists d :: d in log[i].tools && d.Base? && d.name == tool;
    if tool in env.skills.gated {
      var owner := env.skills.gated[tool];
      ActivatedInMeans(log[..i], owner);
      if j :| 0 <= j < i && log[j] == Activated(owner) {
        assert log[..i][j] == Activated(owner);
      }
      if j :| 0 <= j < |log[..i]| && log[..i][j] == Activated(owner) {
        assert log[j] == Activated(owner);
      }
    }
  }

  // The transcript.

  /** A call is passed on to the tools: it neither activates a skill nor is it locked. */
  predicate Executes(env: Env, active: set<string>, call: ToolCall) {
    && env.hasTools
    && !(Enabled(env.skills) && call.name == ACTIVATE_SKILL_TOOL)
    && !Locked(env.skills, active, call.name)
  }

  /** What a reply says that no tool has written: the instructions of the skill it activates, what
      is wrong with the call, which skill unlocks the tool, or why executing it failed. */
  predicate Says(env: Env, k: nat, i: nat, active: set<string>, call: ToolCall, part: Part) {
    if Enabled(env.skills) && call.name == ACTIVATE_SKILL_TOOL then
      match call.arguments
      case NoArguments => part.ErrorText? && part.error.Unsupported?
      case Malformed(e) => part == ErrorText(e)
      case Named(name) =>
        if name == "" then part.ErrorText? && part.error.Unsupported?
        else if name in env.skills.skills then part == Text(env.skills.skills[name].instructions)
        else part == ErrorText(AgentSkills.SkillNotFound(name))
    else if Locked(env.skills, active, call.name) then
      var owner := env.skills.gated[call.name];
      && part.LockedNotice? && part.tool == call.name && part.skill == owner
      && (owner in env.skills.skills ==> part.description == env.skills.skills[owner].description)
    else if !env.hasTools then part == ErrorText(AgentSkills.ToolNotFound(call.name))
    else env.tool(k, i).Err? && part == ErrorText(env.tool(k, i).error)
  }

  /** A reply answers call i of iteration k. It carries the call's identifier and name, unless the
      call was executed and the tool's own message set others. */
  predicate Answers(env: Env, k: nat, i: nat, active: set<string>, call: ToolCall, reply: Message) {
    if Executes(env, active, call) && env.tool(k, i).Ok? then
      var own := env.tool(k, i).value;
      && reply.toolCallID == (if own.toolCallID == "" then call.id else own.toolCallID)
      && reply.toolName == (if own.toolName == "" then call.name else own.toolName)
      && reply.(toolCallID := own.toolCallID, toolName := own.toolName) == own
    else
      && reply.role == Tool && reply.toolCallID == call.id && reply.toolName == call.name && reply.toolCalls == []
      && |reply.parts| == 1 && Says(env, k, i, active, call, reply.parts[0])
  }

  /** The skill that a call activates, if any. */
  function ActiveAfter(env: Env, active: set<string>, call: ToolCall): set<string> {
    if Enabled(env.skills) && call.name == ACTIVATE_SKILL_TOOL && call.arguments.Named? &&
       call.arguments.name != "" && call.arguments.name in env.skills.skills
    then active + {call.arguments.name}
    else active
  }

  /** The replies answer the calls from the i-th on, one each, in order. */
  predicate AnswersAll(env: Env, k: nat, i: nat, active: set<string>, calls: seq<ToolCall>, replies: seq<Message>)
    requires i <= |calls|
    decreases |calls| - i
  {
    && |replies| == |calls| - i
    && (i < |calls| ==>
          && Answers(env, k, i, active, calls[i], replies[0])
          && AnswersAll(env, k, i + 1, ActiveAfter(env, active, calls[i]), calls, replies[1..]))
  }

  function ActiveAfterAll(env: Env, i: nat, active: set<string>, calls: seq<ToolCall>): set<string>
    requires i <= |calls|
    decreases |calls| - i
  {
    if i == |calls| then active else ActiveAfterAll(env, i + 1, ActiveAfter(env, active, calls[i]), calls)
  }

  /** A message says what the model generated, and makes the calls it asked for. */
  predicate SaidByModel(m: Message, resp: Response) {
    m == Message(AI, [Text(resp.content)], resp.toolCalls, "", "")
  }

  /** Messages are n rounds with calls, from iteration k on: each the assistant message of what the
      model generated and one answer to each of its calls in order. */
  predicate CallRounds(env: Env, k: nat, active: set<string>, ms: seq<Message>, n: nat)
    decreases n
  {
    if n == 0 then ms == []
    else
      && ms != [] && env.model(k).Reply? && env.model(k).response.toolCalls != []
      && SaidByModel(ms[0], env.model(k).response)
      && var calls := env.model(k).response.toolCalls;
         && |ms| > |calls|
         && AnswersAll(env, k, 0, active, calls, ms[1..|calls| + 1])
         && CallRounds(env, k + 1, ActiveAfterAll(env, 0, active, calls), ms[|calls| + 1..], n - 1)
  }

  /** Messages are the rounds of the first n iterations of a turn, of which exactly the last has no
      calls. */
  predicate Rounds(env: Env, ms: seq<Message>, n: nat) {
    && n > 0 && ms != [] && env.model(n - 1).Reply? && env.model(n - 1).response.toolCalls == []
    && CallRounds(env, 0, {}, ms[..|ms| - 1], n - 1)
    && SaidByModel(ms[|ms| - 1], env.model(n - 1).response)
  }

  lemma HandleAnswers(env: Env, k: nat, i: nat, active: set<string>, call: ToolCall)
    ensures var h := Handle(env, active, call, env.tool(k, i));
            Answers(env, k, i, active, call, h.reply) && h.active == ActiveAfter(env, active, call)
  {
    if !(Executes(env, active, call) && env.tool(k, i).Ok?) {
      HandleSays(env, k, i, active, call);
    }
  }

  lemma HandleSays(env: Env, k: nat, i: nat, active: set<string>, call: ToolCall)
    requires !(Executes(env, active, call) && env.tool(k, i).Ok?)
    ensures var reply := Handle(env, active, call, env.tool(k, i)).reply;
            && reply.role == Tool && reply.toolCallID == call.id && reply.toolName == call.name && reply.toolCalls == []
            && |reply.parts| == 1 && Says(env, k, i, active, call, reply.parts[0])
  {
  }

  lemma {:induction false} HandleAllAnswers(env: Env, k: nat, i: nat, calls: seq<ToolCall>, active: set<string>)
    requires i <= |calls|
    ensures var r := HandleAll(env, k, i, calls, active);
            AnswersAll(env, k, i, active, calls, r.replies) && r.active == ActiveAfterAll(env, i, active, calls)
    decreases |calls| - i
  {
    if i < |calls| {
      var h := Handle(env, active, calls[i], env.tool(k, i));
      HandleAnswers(env, k, i, active, calls[i]);
      HandleAllAnswers(env, k, i + 1, calls, h.active);
      var r := HandleAll(env, k, i + 1, calls, h.active);
      assert ([h.reply] + r.replies)[1..] == r.replies;
    }
  }

  /** Which iteration ends a turn: the first whose generation fails or calls no tool. */
  function Stop(env: Env, k: nat): nat
    requires k <= env.maxIterations
    decreases env.maxIterations - k
  {
    if k == env.maxIterations || env.model(k).ModelFailed? || env.model(k).response.toolCalls == [] then k
    else Stop(env, k + 1)
  }

  lemma {:induction false} IterateStops(env: Env, k: nat, active: set<string>, newMessages: seq<Message>)
    requires k < env.maxIterations
    ensures var o, s := Iterate(env, k, active, newMessages).0, Stop(env, k);
            && k <= s <= env.maxIterations
            && (o == Failed(Limit) <==> s == env.maxIterations)
            && (o.Done? <==> s < env.maxIterations && env.model(s).Reply?)
            && (o.Done? ==> o.result.response == env.model(s).response)
    decreases env.maxIterations - k
  {
    if env.model(k).Reply? && env.model(k).response.toolCalls != [] && k < env.maxIterations - 1 {
      var resp := env.model(k).response;
      var r := HandleAll(env, k, 0, resp.toolCalls, active);
      IterateStops(env, k + 1, r.active, newMessages + [AssistantMessage(resp)] + r.replies);
    }
  }

  lemma {:induction false} IterateRequests(env: Env, k: nat, active: set<string>, newMessages: seq<Message>)
    requires k <= env.maxIterations
    ensures Requests(Iterate(env, k, active, newMessages).1) <= env.maxIterations - k
    decreases env.maxIterations - k
  {
    if k < env.maxIterations && env.model(k).Reply? && env.model(k).response.toolCalls != [] {
      var resp := env.model(k).response;
      var r := HandleAll(env, k, 0, resp.toolCalls, active);
      HandleAllRequests(env, k, 0, resp.toolCalls, active);
      RequestsAppend([Request(env, k, active, newMessages)], r.events);
      if k < env.maxIterations - 1 {
        var more := newMessages + [AssistantMessage(resp)] + r.replies;
        IterateRequests(env, k + 1, r.active, more);
        RequestsAppend([Request(env, k, active, newMessages)] + r.events, Iterate(env, k + 1, r.active, more).1);
      }
    }
  }

  /** The messages that iterations k and on add. */
  function Added(env: Env, k: nat, active: set<string>): seq<Message>
    requires k <= env.maxIterations
    decreases env.maxIterations - k
  {
    if k == env.maxIterations || env.model(k).ModelFailed? then []
    else
      var resp := env.model(k).response;
      var r := HandleAll(env, k, 0, resp.toolCalls, active);
      [AssistantMessage(resp)] + if resp.toolCalls == [] then [] else r.replies + Added(env, k + 1, r.active)
  }

  lemma {:induction false} IterateAdds(env: Env, k: nat, active: set<string>, newMessages: seq<Message>)
    requires k < env.maxIterations && Iterate(env, k, active, newMessages).0.Done?
    ensures Iterate(env, k, active, newMessages).0.result.messages == newMessages + Added(env, k, active)
    decreases env.maxIterations - k
  {
    var resp := env.model(k).response;
    if resp.toolCalls != [] {
      var r := HandleAll(env, k, 0, resp.toolCalls, active);
      IterateAdds(env, k + 1, r.active, newMessages + [AssistantMessage(resp)] + r.replies);
      Regroup(newMessages, [AssistantMessage(resp)], r.replies, Added(env, k + 1, r.active));
    }
  }

  /** The transcript of n iterations from the k-th on that reply with calls. */
  function Taken(env: Env, k: nat, active: set<string>, n: nat): seq<Message>
    decreases n
  {
    if n == 0 || env.model(k).ModelFailed? then []
    else
      var resp := env.model(k).response;
      var r := HandleAll(env, k, 0, resp.toolCalls, active);
      [AssistantMessage(resp)] + r.replies + Taken(env, k + 1, r.active, n - 1)
  }

  lemma {:induction false} TakenAreCallRounds(env: Env, k: nat, active: set<string>, n: nat)
    requires k + n <= env.maxIterations && n <= Stop(env, k) - k
    ensures CallRounds(env, k, active, Taken(env, k, active, n), n)
    decreases n
  {
    if n > 0 {
      var resp := env.model(k).response;
      var r := HandleAll(env, k, 0, resp.toolCalls, active);
      HandleAllAnswers(env, k, 0, resp.toolCalls, active);
      TakenAreCallRounds(env, k + 1, r.active, n - 1);
      OneMoreCallRound(env, k, active, r.replies, Taken(env, k + 1, r.active, n - 1), n - 1);
    }
  }

  lemma OneMoreCallRound(env: Env, k: nat, active: set<string>, replies: seq<Message>, rest: seq<Message>, n: nat)
    requires env.model(k).Reply? && env.model(k).response.toolCalls != []
    requires AnswersAll(env, k, 0, active, env.model(k).response.toolCalls, replies)
    requires CallRounds(env, k + 1, ActiveAfterAll(env, 0, active, env.model(k).response.toolCalls), rest, n)
    ensures CallRounds(env, k, active, [AssistantMessage(env.model(k).response)] + replies + rest, n + 1)
  {
    var ms := [AssistantMessage(env.model(k).response)] + replies + rest;
    assert ms[1..|replies| + 1] == replies;
    assert ms[|replies| + 1..] == rest;
  }

  /** What a turn that succeeds adds: its rounds with calls, and the last reply. */
  lemma {:induction false} AddedIsTaken(env: Env, k: nat, active: set<string>)
    requires k < env.maxIterations && Stop(env, k) < env.maxIterations && env.model(Stop(env, k)).Reply?
    ensures k <= Stop(env, k)
    ensures Added(env, k, active)
         == Taken(env, k, active, Stop(env, k) - k) + [AssistantMessage(env.model(Stop(env, k)).response)]
    decreases env.maxIterations - k
  {
    if env.model(k).response.toolCalls == [] {
      assert [] + [AssistantMessage(env.model(k).response)] == [AssistantMessage(env.model(k).response)] + [];
    } else {
      var r := HandleAll(env, k, 0, env.model(k).response.toolCalls, active);
      AddedIsTaken(env, k + 1, r.active);
      Regroup([AssistantMessage(env.model(k).response)], r.replies, Taken(env, k + 1, r.active, Stop(env, k) - k - 1),
              [AssistantMessage(env.model(Stop(env, k)).response)]);
    }
  }

  /** A shorter transcript of the same rounds is how the longer one begins. */
  lemma {:induction false} TakenGrows(env: Env, k: nat, active: set<string>, m: nat, n: nat)
    requires m <= n
    ensures Taken(env, k, active, m) <= Taken(env, k, active, n)
    decreases m
  {
    if m > 0 && env.model(k).Reply? {
      var r := HandleAll(env, k, 0, env.model(k).response.toolCalls, active);
      TakenGrows(env, k + 1, r.active, m - 1, n - 1);
      SamePrefix([AssistantMessage(env.model(k).response)] + r.replies,
                 Taken(env, k + 1, r.active, m - 1), Taken(env, k + 1, r.active, n - 1));
    }
  }

  lemma SamePrefix<T>(a: seq<T>, b: seq<T>, c: seq<T>)
    requires b <= c
    ensures a + b <= a + c
  {
  }

  /** How often the model is asked. */
  function Requests(log: seq<Event>): nat {
    if log == [] then 0 else (if log[0].Requested? then 1 else 0) + Requests(log[1..])
  }

  lemma {:induction false} RequestsAppend(a: seq<Event>, b: seq<Event>)
    ensures Requests(a + b) == Requests(a) + Requests(b)
  {
    if a == [] {
      assert a + b == b;
    } else {
      assert (a + b)[1..] == a[1..] + b;
      RequestsAppend(a[1..], b);
    }
  }

  lemma {:induction false} HandleAllRequests(env: Env, k: nat, i: nat, calls: seq<ToolCall>, active: set<string>)
    requires i <= |calls|
    ensures Requests(HandleAll(env, k, i, calls, active).events) == 0
    decreases |calls| - i
  {
    if i < |calls| {
      var h := Handle(env, active, calls[i], env.tool(k, i));
      HandleAllRequests(env, k, i + 1, calls, h.active);
      RequestsAppend(h.events, HandleAll(env, k, i + 1, calls, h.active).events);
    }
  }

  /** A turn succeeds exactly when some iteration within the limit generates a reply without tool
      calls and all before it generate replies with calls. Its messages are then the user's own
      message and one round for each iteration; its response is the last reply. It hits the limit
      exactly when every iteration calls tools. The model is asked at most once an iteration. */
  lemma TurnsAreRounds(env: Env)
    requires env.maxIterations > 0
    ensures var (o, log) := Turn(env);
            var s := Stop(env, 0);
            && (o.Done? <==> s < env.maxIterations && env.model(s).Reply?)
            && (o.Done? ==> o.result.messages != [] && o.result.messages[0] == env.user &&
                            Rounds(env, o.result.messages[1..], s + 1) && o.result.response == env.model(s).response)
            && (o == Failed(Limit) <==> s == env.maxIterations)
            && Requests(log) <= env.maxIterations
  {
    IterateStops(env, 0, {}, [env.user]);
    IterateRequests(env, 0, {}, [env.user]);
    var o := Turn(env).0;
    if o.Done? {
      IterateAdds(env, 0, {}, [env.user]);
      AddedAreRounds(env);
      HeadAndTail(env.user, Added(env, 0, {}));
    }
  }

  lemma AddedAreRounds(env: Env)
    requires 0 < env.maxIterations && Stop(env, 0) < env.maxIterations && env.model(Stop(env, 0)).Reply?
    ensures Rounds(env, Added(env, 0, {}), Stop(env, 0) + 1)
  {
    var s := Stop(env, 0);
    AddedIsTaken(env, 0, {});
    TakenAreCallRounds(env, 0, {}, s);
    StopsWithoutCalls(env, 0);
    var ms := Added(env, 0, {});
    assert ms[..|ms| - 1] == Taken(env, 0, {}, s);
  }

  lemma {:induction false} StopsWithoutCalls(env: Env, k: nat)
    requires k <= env.maxIterations
    ensures k <= Stop(env, k) <= env.maxIterations
    ensures Stop(env, k) < env.maxIterations && env.model(Stop(env, k)).Reply? ==> env.model(Stop(env, k)).response.toolCalls == []
    decreases env.maxIterations - k
  {
    if k < env.maxIterations && env.model(k).Reply? && env.model(k).response.toolCalls != [] {
      StopsWithoutCalls(env, k + 1);
    }
  }

  lemma HeadAndTail(m: Message, rest: seq<Message>)
    ensures ([m] + rest)[0] == m && ([m] + rest)[1..] == rest
  {
  }

  // What the model is sent.

  /** The messages of the requests of a log, in order. */
  function AskedIn(log: seq<Event>): seq<seq<Message>> {
    if log == [] then []
    else (if log[0].Requested? then [log[0].messages] else []) + AskedIn(log[1..])
  }

  lemma {:induction false} AskedInAppend(a: seq<Event>, b: seq<Event>)
    ensures AskedIn(a + b) == AskedIn(a) + AskedIn(b)
  {
    if a == [] {
      assert a + b == b;
    } else {
      assert (a + b)[1..] == a[1..] + b;
      AskedInAppend(a[1..], b);
    }
  }

  lemma {:induction false} HandlingAsksNothing(env: Env, k: nat, i: nat, calls: seq<ToolCall>, active: set<string>)
    requires i <= |calls|
    ensures AskedIn(HandleAll(env, k, i, calls, active).events) == []
    decreases |calls| - i
  {
    if i < |calls| {
      var h := Handle(env, active, calls[i], env.tool(k, i));
      HandlingAsksNothing(env, k, i + 1, calls, h.active);
      AskedInAppend(h.events, HandleAll(env, k, i + 1, calls, h.active).events);
    }
  }

  /** The messages before those of the turn's iterations. */
  ghost predicate AsksFrom(env: Env, k: nat, active: set<string>, newMessages: seq<Message>, asked: seq<seq<Message>>) {
    && (asked != [] && (k > 0 || !Enabled(env.skills)) ==> asked[0] == env.context + newMessages)
    && (asked != [] && k == 0 && Enabled(env.skills) ==>
          asked[0] == env.context + [Message(env.user.role, [WithCatalog(env.user.parts, env.skills.cards)], [], "", "")])
    && (forall j :: 0 < j < |asked| ==> asked[j] == env.context + (newMessages + Taken(env, k, active, j)))
  }

  lemma {:induction false} IterateAsks(env: Env, k: nat, active: set<string>, newMessages: seq<Message>)
    requires k < env.maxIterations
    ensures var asked := AskedIn(Iterate(env, k, active, newMessages).1);
            && |asked| == Stop(env, k) - k + (if Stop(env, k) < env.maxIterations then 1 else 0)
            && AsksFrom(env, k, active, newMessages, asked)
    decreases env.maxIterations - k
  {
    var asked := Request(env, k, active, newMessages);
    assert [asked][1..] == [] && AskedIn([asked]) == [asked.messages];
    if env.model(k).Reply? && env.model(k).response.toolCalls != [] {
      var resp := env.model(k).response;
      var r := HandleAll(env, k, 0, resp.toolCalls, active);
      HandlingAsksNothing(env, k, 0, resp.toolCalls, active);
      AskedInAppend([asked], r.events);
      if k < env.maxIterations - 1 {
        var more := newMessages + [AssistantMessage(resp)] + r.replies;
        var rest := Iterate(env, k + 1, r.active, more).1;
        IterateAsks(env, k + 1, r.active, more);
        AskedInAppend([asked] + r.events, rest);
        AsksOneMore(env, k, active, newMessages, r, asked.messages, AskedIn(rest));
      }
    }
  }

  lemma AsksOneMore(env: Env, k: nat, active: set<string>, newMessages: seq<Message>, r: Replied, first: seq<Message>,
                    asked: seq<seq<Message>>)
    requires env.model(k).Reply? && r == HandleAll(env, k, 0, env.model(k).response.toolCalls, active)
    requires AsksFrom(env, k, active, newMessages, [first])
    requires AsksFrom(env, k + 1, r.active, newMessages + [AssistantMessage(env.model(k).response)] + r.replies, asked)
    ensures AsksFrom(env, k, active, newMessages, [first] + asked)
  {
    var a := [AssistantMessage(env.model(k).response)];
    var whole := [first] + asked;
    forall j | 0 < j < |whole| ensures whole[j] == env.context + (newMessages + Taken(env, k, active, j)) {
      assert whole[j] == asked[j - 1];
      assert Taken(env, k, active, j) == a + r.replies + Taken(env, k + 1, r.active, j - 1);
      RegroupFive(newMessages, a, r.replies, Taken(env, k + 1, r.active, j - 1), []);
      Regroup(newMessages, a, r.replies, []);
      Regroup(newMessages, a, r.replies, Taken(env, k + 1, r.active, j - 1));
      assert j == 1 ==> Taken(env, k + 1, r.active, j - 1) == [] && a + r.replies + [] == a + r.replies;
    }
  }

  /** What the model is sent in iteration k, whatever happens: the context, and after it the user's
      message, with the catalog of skills in the first iteration if there are skills, and the rounds
      of exactly the iterations before. Of a turn that succeeds this is how the transcript begins. */
  lemma RequestsHoldTheTranscript(env: Env, k: nat) returns (rest: seq<Message>)
    requires env.maxIterations > 0 && k < |AskedIn(Turn(env).1)|
    ensures |AskedIn(Turn(env).1)| == Stop(env, 0) + (if Stop(env, 0) < env.maxIterations then 1 else 0)
    ensures AskedIn(Turn(env).1)[k] == env.context + rest
    ensures k == 0 && Enabled(env.skills) ==>
              rest == [Message(env.user.role, [WithCatalog(env.user.parts, env.skills.cards)], [], "", "")]
    ensures k > 0 || !Enabled(env.skills) ==>
              && rest != [] && rest[0] == env.user && CallRounds(env, 0, {}, rest[1..], k)
              && (Turn(env).0.Done? ==> rest <= Turn(env).0.result.messages)
  {
    StopsWithoutCalls(env, 0);
    IterateAsks(env, 0, {}, [env.user]);
    if k == 0 && Enabled(env.skills) {
      rest := [Message(env.user.role, [WithCatalog(env.user.parts, env.skills.cards)], [], "", "")];
    } else {
      rest := [env.user] + Taken(env, 0, {}, k);
      assert k == 0 ==> rest == [env.user];
      HowTheTranscriptBegins(env, k);
    }
  }

  lemma HowTheTranscriptBegins(env: Env, k: nat)
    requires env.maxIterations > 0 && k <= Stop(env, 0) <= env.maxIterations
    ensures var ms := [env.user] + Taken(env, 0, {}, k);
            && ms[0] == env.user && CallRounds(env, 0, {}, ms[1..], k)
            && (Turn(env).0.Done? ==> ms <= Turn(env).0.result.messages)
  {
    TakenAreCallRounds(env, 0, {}, k);
    HeadAndTail(env.user, Taken(env, 0, {}, k));
    if Turn(env).0.Done? {
      IterateStops(env, 0, {}, [env.user]);
      IterateAdds(env, 0, {}, [env.user]);
      TakenIsAdded(env, k);
      SamePrefix([env.user], Taken(env, 0, {}, k), Added(env, 0, {}));
    }
  }

  lemma TakenIsAdded(env: Env, k: nat)
    requires env.maxIterations > 0 && k <= Stop(env, 0) < env.maxIterations && env.model(Stop(env, 0)).Reply?
    ensures Taken(env, 0, {}, k) <= Added(env, 0, {})
  {
    AddedIsTaken(env, 0, {});
    TakenGrows(env, 0, {}, k, Stop(env, 0));
  }

  // What happens.

  /** What a call makes happen: the activation of the skill it names, if there is one; a refusal, if
      its tool is locked; its execution, if there are tools; else nothing. */
  function EventsOf(env: Env, active: set<string>, call: ToolCall): seq<Event> {
    if Enabled(env.skills) && call.name == ACTIVATE_SKILL_TOOL then
      if call.arguments.Named? && call.arguments.name != "" && call.arguments.name in env.skills.skills
      then [Activated(call.arguments.name)] else []
    else if call.name in env.skills.gated && env.skills.gated[call.name] !in active then [Refused(call)]
    else if env.hasTools then [Executed(call)]
    else []
  }

  function EventsOfAll(env: Env, i: nat, active: set<string>, calls: seq<ToolCall>): seq<Event>
    requires i <= |calls|
    decreases |calls| - i
  {
    if i == |calls| then []
    else EventsOf(env, active, calls[i]) + EventsOfAll(env, i + 1, ActiveAfter(env, active, calls[i]), calls)
  }

  /** A log is n rounds from iteration k on: a request, and then what the calls of the reply make
      happen, one after the other. */
  predicate EventRounds(env: Env, k: nat, active: set<string>, log: seq<Event>, n: nat)
    decreases n
  {
    if n == 0 then log == []
    else
      && log != [] && log[0].Requested? && env.model(k).Reply?
      && var calls := env.model(k).response.toolCalls;
         var events := EventsOfAll(env, 0, active, calls);
         && events <= log[1..]
         && EventRounds(env, k + 1, ActiveAfterAll(env, 0, active, calls), log[|events| + 1..], n - 1)
  }

  lemma HandleHappens(env: Env, k: nat, i: nat, active: set<string>, call: ToolCall)
    ensures var h := Handle(env, active, call, env.tool(k, i));
            h.events == EventsOf(env, active, call) && h.active == ActiveAfter(env, active, call)
  {
    HandleAnswers(env, k, i, active, call);
  }

  lemma {:induction false} HandleAllHappens(env: Env, k: nat, i: nat, calls: seq<ToolCall>, active: set<string>)
    requires i <= |calls|
    ensures var r := HandleAll(env, k, i, calls, active);
            r.events == EventsOfAll(env, i, active, calls) && r.active == ActiveAfterAll(env, i, active, calls)
    decreases |calls| - i
  {
    if i < |calls| {
      HandleHappens(env, k, i, active, calls[i]);
      HandleAllHappens(env, k, i + 1, calls, ActiveAfter(env, active, calls[i]));
    }
  }

  lemma OneMoreEventRound(env: Env, k: nat, active: set<string>, asked: Event, events: seq<Event>, rest: seq<Event>, n: nat)
    requires asked.Requested? && env.model(k).Reply?
    requires events == EventsOfAll(env, 0, active, env.model(k).response.toolCalls)
    requires EventRounds(env, k + 1, ActiveAfterAll(env, 0, active, env.model(k).response.toolCalls), rest, n)
    ensures EventRounds(env, k, active, [asked] + events + rest, n + 1)
  {
    var log := [asked] + events + rest;
    assert log[1..] == events + rest;
    assert log[|events| + 1..] == rest;
  }

  /** A log is all that happens from iteration k to iteration `stop`, which asks for the last time,
      unless the limit is reached before. */
  predicate HappensUntil(env: Env, k: nat, active: set<string>, log: seq<Event>, stop: nat)
    requires k <= stop <= env.maxIterations
  {
    if stop == env.maxIterations then EventRounds(env, k, active, log, stop - k)
    else log != [] && log[|log| - 1].Requested? && EventRounds(env, k, active, log[..|log| - 1], stop - k)
  }

  lemma OneMoreIteration(env: Env, k: nat, active: set<string>, asked: Event, events: seq<Event>, rest: seq<Event>, stop: nat)
    requires k < stop <= env.maxIterations && asked.Requested? && env.model(k).Reply?
    requires events == EventsOfAll(env, 0, active, env.model(k).response.toolCalls)
    requires HappensUntil(env, k + 1, ActiveAfterAll(env, 0, active, env.model(k).response.toolCalls), rest, stop)
    ensures HappensUntil(env, k, active, [asked] + events + rest, stop)
  {
    if stop == env.maxIterations {
      OneMoreEventRound(env, k, active, asked, events, rest, stop - k - 1);
    } else {
      OneMoreEventRound(env, k, active, asked, events, rest[..|rest| - 1], stop - k - 1);
      LastOfBoth([asked] + events, rest);
    }
  }

  lemma {:induction false} IterateHappens(env: Env, k: nat, active: set<string>, newMessages: seq<Message>)
    requires k < env.maxIterations
    ensures k <= Stop(env, k) <= env.maxIterations
    ensures HappensUntil(env, k, active, Iterate(env, k, active, newMessages).1, Stop(env, k))
    decreases env.maxIterations - k
  {
    StopsWithoutCalls(env, k);
    var asked := Request(env, k, active, newMessages);
    if env.model(k).Reply? && env.model(k).response.toolCalls != [] {
      var r := HandleAll(env, k, 0, env.model(k).response.toolCalls, active);
      HandleAllHappens(env, k, 0, env.model(k).response.toolCalls, active);
      var more := newMessages + [AssistantMessage(env.model(k).response)] + r.replies;
      var rest := if k == env.maxIterations - 1 then [] else Iterate(env, k + 1, r.active, more).1;
      StopsWithoutCalls(env, k + 1);
      if k < env.maxIterations - 1 {
        IterateHappens(env, k + 1, r.active, more);
      }
      OneMoreIteration(env, k, active, asked, r.events, rest, Stop(env, k));
      assert [asked] + r.events + [] == [asked] + r.events;
    }
  }

  lemma LastOfBoth<T>(a: seq<T>, b: seq<T>)
    requires b != []
    ensures (a + b)[..|a + b| - 1] == a + b[..|b| - 1] && (a + b)[|a + b| - 1] == b[|b| - 1]
  {
  }

  /** Everything that happens in a turn: in each iteration a request and then, for each call of its
      reply in order, exactly what the call makes happen; and a last request, unless every iteration
      calls tools. */
  lemma EveryCallHasItsEvent(env: Env)
    requires env.maxIterations > 0
    ensures Stop(env, 0) <= env.maxIterations && HappensUntil(env, 0, {}, Turn(env).1, Stop(env, 0))
  {
    IterateHappens(env, 0, {}, [env.user]);
  }

  /** Without skills each request offers exactly the base tools. */
  lemma RequestsOfferTheBaseTools(env: Env, i: nat, d: Definition)
    requires !Enabled(env.skills) && i < |Turn(env).1| && Turn(env).1[i].Requested?
    ensures d in Turn(env).1[i].tools <==> d in env.base
  {
    IterateFits(env, 0, {}, [env.user]);
    FitsAt(env, {}, Turn(env).1, i);
  }
}
