/** The turn loop of an agent (intent/runtime.go), against any model and any tools. */
module AgentTurn {
  import opened Wrappers
  import opened AgentSkills
  import opened SessionHistory

  const DEFAULT_MAX_TOOL_ITERATIONS := 8

  datatype Response = Response(content: string, toolCalls: seq<ToolCall>)

  /** What generating yields: a response or an error of the model's. */
  datatype Generated = Reply(response: Response) | ModelFailed(text: string)

  /** What happens in a turn, in order. A request tells which definitions it offers. */
  datatype Event =
    | Requested(messages: seq<Message>, tools: iset<Definition>)
    | Activated(skill: string)
    | Refused(call: ToolCall)
    | Executed(call: ToolCall)

  /** A turn's surroundings: what does not change during the turn, what the model answers in each
      iteration, and what each executed call of an iteration yields. */
  datatype Env = Env(
    maxIterations: nat,
    context: seq<Message>,
    user: Message,
    base: seq<Definition>,
    skills: Skills,
    hasTools: bool,
    model: nat -> Generated,
    tool: (nat, nat) -> Result<Message>)

  function AssistantMessage(r: Response): Message {
    Message(AI, [Text(r.content)], r.toolCalls, "", "")
  }

  function UserMessageWithCatalog(m: Message, cards: seq<SkillCard>): Message {
    Message(m.role, [WithCatalog(m.parts, cards)], [], "", "")
  }

  function ToolErrorMessage(call: ToolCall, e: Error): Message {
    Message(Tool, [ErrorText(e)], [], call.id, call.name)
  }

  function EnrichToolMessage(m: Message, call: ToolCall): Message {
    var n := if m.toolCallID == "" then m.(toolCallID := call.id) else m;
    if n.toolName == "" then n.(toolName := call.name) else n
  }

  function ParseSkillName(a: Arguments): Result<string> {
    match a
    case NoArguments => Err(Unsupported("activate_skill requires a name argument"))
    case Malformed(e) => Err(e)
    case Named(name) => if name == "" then Err(Unsupported("activate_skill name is required")) else Ok(name)
  }

  /** The definitions a request offers. */
  ghost function ComposedTools(base: seq<Definition>, s: Skills, active: set<string>): iset<Definition> {
    if Enabled(s) then iset d | Offered(s, active, d) else iset d | d in base
  }

  // The meaning of a turn.

  /** What a tool call comes to: its reply, the active skills after it, and what happened. */
  datatype Handled = Handled(reply: Message, active: set<string>, events: seq<Event>)

  function Handle(env: Env, active: set<string>, call: ToolCall, result: Result<Message>): Handled {
    if Enabled(env.skills) && call.name == ACTIVATE_SKILL_TOOL then
      var name := ParseSkillName(call.arguments);
      if name.Err? then Handled(ToolErrorMessage(call, name.error), active, [])
      else if name.value !in env.skills.skills then
        Handled(ToolErrorMessage(call, AgentSkills.SkillNotFound(name.value)), active, [])
      else
        Handled(Message(Tool, [Text(env.skills.skills[name.value].instructions)], [], call.id, call.name),
                active + {name.value}, [Activated(name.value)])
    else if Locked(env.skills, active, call.name) then
      Handled(LockedMessage(env.skills, call), active, [Refused(call)])
    else if !env.hasTools then
      Handled(ToolErrorMessage(call, AgentSkills.ToolNotFound(call.name)), active, [])
    else
      Handled(if result.Err? then ToolErrorMessage(call, result.error) else EnrichToolMessage(result.value, call),
              active, [Executed(call)])
  }

  function LockedMessage(s: Skills, call: ToolCall): Message
    requires call.name in s.gated
  {
    var owner := s.gated[call.name];
    Message(Tool, [LockedNotice(call.name, owner, if owner in s.skills then s.skills[owner].description else "")],
            [], call.id, call.name)
  }

  /** The replies to the calls of iteration k from the i-th on. */
  datatype Replied = Replied(replies: seq<Message>, active: set<string>, events: seq<Event>)

  function HandleAll(env: Env, k: nat, i: nat, calls: seq<ToolCall>, active: set<string>): Replied
    requires i <= |calls|
    decreases |calls| - i
  {
    if i == |calls| then Replied([], active, [])
    else
      var h := Handle(env, active, calls[i], env.tool(k, i));
      var r := HandleAll(env, k, i + 1, calls, h.active);
      Replied([h.reply] + r.replies, r.active, h.events + r.events)
  }

  datatype TurnResult = TurnResult(response: Response, messages: seq<Message>)

  datatype Failure = Limit | Model(text: string)

  datatype Outcome = Done(result: TurnResult) | Failed(failure: Failure)

  ghost function Request(env: Env, k: nat, active: set<string>, newMessages: seq<Message>): Event {
    Requested(
      env.context +
      if k == 0 && Enabled(env.skills) then [UserMessageWithCatalog(env.user, env.skills.cards)] else newMessages,
      ComposedTools(env.base, env.skills, active))
  }

  /** The turn from iteration k on: its outcome and what happens. */
  ghost function Iterate(env: Env, k: nat, active: set<string>, newMessages: seq<Message>): (Outcome, seq<Event>)
    requires k <= env.maxIterations
    decreases env.maxIterations - k
  {
    if k == env.maxIterations then (Done(TurnResult(Response("", []), newMessages)), [])
    else
      var asked := Request(env, k, active, newMessages);
      match env.model(k)
      case ModelFailed(text) => (Failed(Model(text)), [asked])
      case Reply(resp) =>
        if resp.toolCalls == [] then (Done(TurnResult(resp, newMessages + [AssistantMessage(resp)])), [asked])
        else
          var r := HandleAll(env, k, 0, resp.toolCalls, active);
          if k == env.maxIterations - 1 then (Failed(Limit), [asked] + r.events)
          else
            var rest := Iterate(env, k + 1, r.active, newMessages + [AssistantMessage(resp)] + r.replies);
            (rest.0, [asked] + r.events + rest.1)
  }

  ghost function Turn(env: Env): (Outcome, seq<Event>) {
    Iterate(env, 0, {}, [env.user])
  }

  // The runtime.

  class Runtime {
    const maxToolIterations: nat
    const knowledge: Option<Result<seq<Message>>>    // the static store's entries, as messages
    const retrieved: Option<Result<seq<Message>>>    // what the retriever finds, as messages
    const tools: Option<Result<seq<Definition>>>     // the tool executor's definitions
    const skills: Option<Registry>
    const pool: Result<bool>                         // whether a model is selected
    ghost var log: seq<Event>

    constructor (maxToolIterations: int, knowledge: Option<Result<seq<Message>>>, retrieved: Option<Result<seq<Message>>>,
                 tools: Option<Result<seq<Definition>>>, skills: Option<Registry>, pool: Result<bool>)
      ensures this.maxToolIterations == if maxToolIterations <= 0 then DEFAULT_MAX_TOOL_ITERATIONS else maxToolIterations
      ensures this.knowledge == knowledge && this.retrieved == retrieved && this.tools == tools
      ensures this.skills == skills && this.pool == pool && log == []
    {
      this.maxToolIterations := if maxToolIterations <= 0 then DEFAULT_MAX_TOOL_ITERATIONS else maxToolIterations;
      this.knowledge, this.retrieved, this.tools, this.skills, this.pool := knowledge, retrieved, tools, skills, pool;
      log := [];
    }

    /** What precedes the turn in a request: knowledge, retrieved entries, history. */
    function Context(query: string, history: Result<seq<Message>>): Result<seq<Message>> {
      var k := if knowledge == None then Ok([]) else knowledge.value;
      var r := if query == "" || retrieved == None then Ok([]) else retrieved.value;
      if history.Err? then history
      else if k.Err? then k
      else if r.Err? then r
      else Ok(k.value + r.value + history.value)
    }

    /** The history as the first call to the memory finds it. */
    ghost function Past(memory: Option<Memory>): Result<seq<Message>>
      reads if memory.Some? then {memory.value} else {}
    {
      if memory == None then Ok([]) else LoadedHistory(memory.value.records, FaultAt(memory.value.faults, 0))
    }

    method BuildContext(memory: Option<Memory>, query: string) returns (r: Result<seq<Message>>)
      modifies if memory.Some? then {memory.value} else {}
      ensures r == Context(query, old(Past(memory)))
      ensures r.Ok? ==>
                var entries := if knowledge.Some? && knowledge.value.Ok? then knowledge.value.value else [];
                var found := if query != "" && retrieved.Some? && retrieved.value.Ok? then retrieved.value.value else [];
                old(Past(memory)).Ok? && r.value == entries + found + old(Past(memory)).value
      ensures r.Err? <==>
                || old(Past(memory)).Err?
                || (knowledge.Some? && knowledge.value.Err?)
                || (query != "" && retrieved.Some? && retrieved.value.Err?)
      ensures memory.Some? ==> memory.value.records == old(memory.value.records) && memory.value.nextId == old(memory.value.nextId)
      ensures memory.Some? ==> memory.value.faults == Later(old(memory.value.faults), 1)
    {
      var history := [];
      if memory.Some? {
        var loaded := LoadHistory(memory.value);
        if loaded.Err? {
          return Err(loaded.error);
        }
        history := loaded.value;
      }
      var messages: seq<Message> := [];
      if knowledge.Some? {
        if knowledge.value.Err? {
          return Err(knowledge.value.error);
        }
        messages := messages + knowledge.value.value;
      }
      if query != "" && retrieved.Some? {
        if retrieved.value.Err? {
          return Err(retrieved.value.error);
        }
        messages := messages + retrieved.value.value;
      }
      assert messages == (if knowledge == None then [] else knowledge.value.value) +
                         (if query == "" || retrieved == None then [] else retrieved.value.value);
      return Ok(messages + history);
    }

    function Definitions(): Result<seq<Definition>> {
      if tools == None then Ok([]) else tools.value
    }

    method HandleToolCall(st: SkillState, call: ToolCall, result: Result<Message>, ghost env: Env) returns (reply: Message)
      requires env.skills == st.View() && env.hasTools == tools.Some? && st.active <= st.skills.Keys
      modifies this`log, st`active
      ensures st.active <= st.skills.Keys
      ensures var h := Handle(env, old(st.active), call, result);
              reply == h.reply && st.active == h.active && log == old(log) + h.events
    {
      if |st.cards| > 0 && call.name == ACTIVATE_SKILL_TOOL {
        var name := ParseSkillName(call.arguments);
        if name.Err? {
          return ToolErrorMessage(call, name.error);
        }
        if name.value !in st.skills {
          return ToolErrorMessage(call, AgentSkills.SkillNotFound(name.value));
        }
        st.active := st.active + {name.value};
        log := log + [Activated(name.value)];
        return Message(Tool, [Text(st.skills[name.value].instructions)], [], call.id, call.name);
      }
      if call.name in st.gated && st.gated[call.name] !in st.active {
        var owner, description := st.gated[call.name], "";
        if owner in st.skills {
          description := st.skills[owner].description;
        }
        log := log + [Refused(call)];
        return Message(Tool, [LockedNotice(call.name, owner, description)], [], call.id, call.name);
      }
      if tools == None {
        return ToolErrorMessage(call, AgentSkills.ToolNotFound(call.name));
      }
      log := log + [Executed(call)];
      if result.Err? {
        return ToolErrorMessage(call, result.error);
      }
      return EnrichToolMessage(result.value, call);
    }

    /** Handles the calls of one iteration in order. */
    method HandleToolCalls(st: SkillState, k: nat, calls: seq<ToolCall>, tool: (nat, nat) -> Result<Message>, ghost env: Env)
      returns (replies: seq<Message>)
      requires env.skills == st.View() && env.hasTools == tools.Some? && env.tool == tool && st.active <= st.skills.Keys
      modifies this`log, st`active
      ensures st.active <= st.skills.Keys
      ensures var all := HandleAll(env, k, 0, calls, old(st.active));
              replies == all.replies && st.active == all.active && log == old(log) + all.events
    {
      replies := [];
      ghost var all := HandleAll(env, k, 0, calls, st.active);
      var i := 0;
      while i < |calls|
        invariant 0 <= i <= |calls| && st.active <= st.skills.Keys && st.View() == env.skills
        invariant var rest := HandleAll(env, k, i, calls, st.active);
                  all.replies == replies + rest.replies && all.active == rest.active &&
                  old(log) + all.events == log + rest.events
      {
        ghost var logged, answered := log, replies;
        ghost var h := Handle(env, st.active, calls[i], tool(k, i));
        var reply := HandleToolCall(st, calls[i], tool(k, i), env);
        replies := replies + [reply];
        Regroup(logged, h.events, HandleAll(env, k, i + 1, calls, st.active).events, []);
        Regroup(answered, [reply], HandleAll(env, k, i + 1, calls, st.active).replies, []);
        i := i + 1;
      }
    }

    method ComposeTools(base: seq<Definition>, st: SkillState) returns (defs: seq<Definition>)
      requires st.active <= st.skills.Keys
      ensures (iset d | d in defs) == ComposedTools(base, st.View(), st.active)
    {
      if |st.cards| == 0 {
        return base;
      }
      defs := st.Tools();
    }

    /** The request of an iteration; the first one carries the catalog of skills. */
    method SendRequest(st: SkillState, ghost env: Env, iteration: nat, context: seq<Message>, user: Message,
                       newMessages: seq<Message>, base: seq<Definition>)
      requires st.active <= st.skills.Keys && st.View() == env.skills
      requires env.context == context && env.user == user && env.base == base
      modifies this`log
      ensures log == old(log) + [Request(env, iteration, st.active, newMessages)]
    {
      var reqMessages := context;
      if iteration == 0 && |st.cards| > 0 {
        reqMessages := reqMessages + [UserMessageWithCatalog(user, st.cards)];
      } else {
        reqMessages := reqMessages + newMessages;
      }
      var defs := ComposeTools(base, st);
      log := log + [Requested(reqMessages, iset d | d in defs)];
    }

    /** The loop over the iterations. */
    method Loop(st: SkillState, ghost env: Env, context: seq<Message>, user: Message, base: seq<Definition>,
                model: nat -> Generated, tool: (nat, nat) -> Result<Message>)
      returns (r: Outcome)
      requires st.active == {} && env == Env(maxToolIterations, context, user, base, st.View(), tools.Some?, model, tool)
      modifies this`log, st`active
      ensures r == Turn(env).0 && log == old(log) + Turn(env).1
    {
      var newMessages, final := [user], Response("", []);
      var iteration, done := 0, false;
      while !done && iteration < maxToolIterations
        invariant 0 <= iteration <= maxToolIterations && st.active <= st.skills.Keys && st.View() == env.skills
        invariant !done ==> final == Response("", []) && Turn(env).0 == Iterate(env, iteration, st.active, newMessages).0
        invariant !done ==> old(log) + Turn(env).1 == log + Iterate(env, iteration, st.active, newMessages).1
        invariant done ==> Turn(env).0 == Done(TurnResult(final, newMessages)) && log == old(log) + Turn(env).1
        decreases !done, maxToolIterations - iteration
      {
        ghost var logged, asked := log, Request(env, iteration, st.active, newMessages);
        SendRequest(st, env, iteration, context, user, newMessages, base);
        var generated := model(iteration);
        if generated.ModelFailed? {
          return Failed(Model(generated.text));
        }
        var resp := generated.response;
        newMessages := newMessages + [AssistantMessage(resp)];
        if |resp.toolCalls| == 0 {
          final, done := resp, true;
        } else {
          ghost var all := HandleAll(env, iteration, 0, resp.toolCalls, st.active);
          var replies := HandleToolCalls(st, iteration, resp.toolCalls, tool, env);
          newMessages := newMessages + replies;
          Regroup(logged, [asked], all.events,
                  if iteration + 1 < maxToolIterations then Iterate(env, iteration + 1, st.active, newMessages).1 else []);
          if iteration == maxToolIterations - 1 {
            return Failed(Limit);
          }
          iteration := iteration + 1;
        }
      }
      return Done(TurnResult(final, newMessages));
    }

    /** What has to succeed before the model is first asked: the history, the knowledge, the
        retriever, the tools' definitions, the skills and the selection of a model. */
    ghost predicate CanStart(memory: Option<Memory>, query: string)
      reads if memory.Some? then {memory.value} else {}
    {
      && Context(query, Past(memory)).Ok?
      && Definitions().Ok?
      && (skills.Some? ==> Readable(skills.value))
      && pool.Ok?
    }

    /** One turn. The environment is none exactly if the turn fails before the model is first asked. */
    method RunTurn(memory: Option<Memory>, user: Message, query: string,
                   model: nat -> Generated, tool: (nat, nat) -> Result<Message>)
      returns (r: Result<TurnResult>, ghost env: Option<Env>)
      requires memory.Some? ==> memory.value.Valid()
      requires tools.Some? && tools.value.Ok? ==> AllBase(tools.value.value)
      modifies this`log, if memory.Some? then {memory.value} else {}
      ensures env.Some? <==> old(CanStart(memory, query))
      ensures env == None ==> r.Err? && log == old(log)
      ensures env.Some? ==> EnvOf(env.value, query, user, model, tool)
      ensures env.Some? ==> Ok(env.value.context) == Context(query, old(Past(memory)))
      ensures env.Some? ==> log == old(log) + Turn(env.value).1
      ensures r.Ok? <==>
                env.Some? && Turn(env.value).0.Done? &&
                (memory.Some? ==> AppendSucceeds(old(memory.value.records), old(memory.value.faults), 1, Turn(env.value).0.result.messages))
      ensures r.Ok? ==> Turn(env.value).0 == Done(r.value)
      ensures r.Ok? && memory.Some? ==>
                old(History(memory.value.records)).Ok? &&
                History(memory.value.records) == Ok(old(History(memory.value.records)).value + r.value.messages)
      ensures env.Some? && Turn(env.value).0 == Failed(Limit) ==> r == Err(MaxToolIterations)
      ensures memory.Some? && (env == None || Turn(env.value).0.Failed?) ==> memory.value.records == old(memory.value.records)
      ensures memory.Some? && r.Err? && memory.value.records != old(memory.value.records) ==>
                env.Some? && Turn(env.value).0.Done? && old(History(memory.value.records)).Ok? &&
                History(memory.value.records) == Ok(old(History(memory.value.records)).value + Turn(env.value).0.result.messages)
    {
      env := None;
      var context := BuildContext(memory, query);
      if context.Err? {
        return Err(context.error), None;
      }
      var toolDefs := Definitions();
      if toolDefs.Err? {
        return Err(toolDefs.error), None;
      }
      var st := SkillState.Load(toolDefs.value, skills);
      if st.Err? {
        return Err(st.error), None;
      }
      if pool.Err? {
        return Err(pool.error), None;
      }
      env := Some(Env(maxToolIterations, context.value, user, toolDefs.value, st.value.View(), tools.Some?, model, tool));
      var outcome := Loop(st.value, env.value, context.value, user, toolDefs.value, model, tool);
      if outcome == Failed(Limit) {
        return Err(MaxToolIterations), env;
      }
      if outcome.Failed? {
        return Err(Other(outcome.failure.text)), env;
      }
      if memory.Some? {
        EndsWithMessages(env.value);
        AppendLater(memory.value.records, old(memory.value.faults), memory.value.faults, outcome.result.messages);
        var failure := AppendHistory(memory.value, outcome.result.messages);
        if failure.Some? {
          return Err(failure.value), env;
        }
      }
      return Ok(outcome.result), env;
    }

    ghost predicate EnvOf(env: Env, query: string, user: Message, model: nat -> Generated, tool: (nat, nat) -> Result<Message>) {
      && env.maxIterations == maxToolIterations
      && env.user == user
      && Definitions() == Ok(env.base)
      && Loaded(env.skills, env.base, skills)
      && env.hasTools == tools.Some?
      && env.model == model
      && env.tool == tool
    }
  }

  lemma {:induction false} MessagesGrow(env: Env, k: nat, active: set<string>, newMessages: seq<Message>)
    requires k <= env.maxIterations
    ensures var o := Iterate(env, k, active, newMessages).0; o.Done? ==> |newMessages| <= |o.result.messages|
    decreases env.maxIterations - k
  {
    if k < env.maxIterations && env.model(k).Reply? {
      var resp := env.model(k).response;
      if resp.toolCalls != [] && k < env.maxIterations - 1 {
        var r := HandleAll(env, k, 0, resp.toolCalls, active);
        MessagesGrow(env, k + 1, r.active, newMessages + [AssistantMessage(resp)] + r.replies);
      }
    }
  }

  lemma AppendLater(records: seq<Record>, faults: seq<Fault>, left: seq<Fault>, msgs: seq<Message>)
    requires left == Later(faults, 1)
    ensures AppendSucceeds(records, left, 0, msgs) <==> AppendSucceeds(records, faults, 1, msgs)
  {
    assert forall i: nat :: FaultAt(left, i) == FaultAt(faults, i + 1);
  }

  lemma EndsWithMessages(env: Env)
    ensures Turn(env).0.Done? ==> Turn(env).0.result.messages != []
  {
    MessagesGrow(env, 0, {}, [env.user]);
  }
}
