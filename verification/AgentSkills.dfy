/** Skills of an agent turn: activation and the tools it unlocks (intent/runtime.go). */
module AgentSkills {

  import opened Wrappers

  datatype Error = MaxToolIterations | SessionNotFound | Unsupported(text: string) | SkillNotFound(name: string)
                 | ToolNotFound(name: string) | Other(text: string)

  datatype Result<T> = Ok(value: T) | Err(error: Error)

  const ACTIVATE_SKILL_TOOL := "activate_skill"

  datatype Role = System | Human | AI | Tool

  /** A part of a message; rendered prompts appear as what they are rendered from. */
  datatype Part =
    | Text(text: string)
    | ErrorText(error: Error)
    | LockedNotice(tool: string, skill: string, description: string)
    | WithCatalog(original: seq<Part>, cards: seq<SkillCard>)

  /** The arguments of a call to activate a skill, as far as decoding them gets. */
  datatype Arguments = NoArguments | Malformed(error: Error) | Named(name: string)

  datatype ToolCall = ToolCall(id: string, name: string, arguments: Arguments)

  datatype Message = Message(role: Role, parts: seq<Part>, toolCalls: seq<ToolCall>, toolCallID: string, toolName: string)

  datatype Definition = Base(name: string, body: string) | ActivateSkill(names: seq<string>)

  datatype Skill = Skill(description: string, instructions: string, tools: seq<string>)

  datatype SkillCard = SkillCard(name: string, description: string)

  /** A registry that does not change while it is being read. */
  datatype Registry = Registry(list: Result<seq<SkillCard>>, get: string -> Result<Skill>)

  /** Everything about the skills of a turn that activation does not change. */
  datatype Skills = Skills(
    skills: map<string, Skill>,
    cards: seq<SkillCard>,
    defByName: map<string, Definition>,
    gated: map<string, string>,
    alwaysOn: seq<Definition>)

  predicate Enabled(s: Skills) {
    |s.cards| > 0
  }

  /** A call of this tool is refused: a skill owns it, and that skill is not active. */
  predicate Locked(s: Skills, active: set<string>, tool: string) {
    tool in s.gated && s.gated[tool] !in active
  }

  /** A definition is sent to the model, with skills enabled. */
  predicate Offered(s: Skills, active: set<string>, d: Definition) {
    || d in s.alwaysOn
    || d == ActivateSkill(CardNames(s.cards))
    || OfferedBySkill(s, active, d)
  }

  predicate OfferedBySkill(s: Skills, active: set<string>, d: Definition) {
    exists a :: a in active && a in s.skills && OfferedBy(s, s.skills[a].tools, d)
  }

  predicate OfferedBy(s: Skills, tools: seq<string>, d: Definition) {
    exists t :: t in tools && t in s.defByName && s.defByName[t] == d
  }

  function CardNames(cards: seq<SkillCard>): seq<string> {
    seq(|cards|, i requires 0 <= i < |cards| => cards[i].name)
  }

  /** The definition of the tool that activates a skill, with the names of the catalog in order. */
  predicate NamesSkills(d: Definition, cards: seq<SkillCard>) {
    d.ActivateSkill? && |d.names| == |cards| && forall i :: 0 <= i < |cards| ==> d.names[i] == cards[i].name
  }

  /** The last skill in the catalog that lists a tool. */
  function Owner(cards: seq<SkillCard>, get: string -> Result<Skill>, tool: string): Option<string> {
    if cards == [] then None
    else
      var last := cards[|cards| - 1];
      if get(last.name).Ok? && tool in get(last.name).value.tools then Some(last.name)
      else Owner(cards[..|cards| - 1], get, tool)
  }

  /** The base definition of a name is the last one of that name. */
  function DefOf(base: seq<Definition>, name: string): Option<Definition> {
    if base == [] then None
    else if base[|base| - 1].Base? && base[|base| - 1].name == name then Some(base[|base| - 1])
    else DefOf(base[..|base| - 1], name)
  }

  predicate AllBase(base: seq<Definition>) {
    forall d :: d in base ==> d.Base?
  }

  /** What loading the skills yields. */
  ghost predicate Loaded(s: Skills, base: seq<Definition>, registry: Option<Registry>) {
    && (forall n :: n in s.defByName <==> DefOf(base, n).Some?)
    && (forall n :: n in s.defByName ==> Some(s.defByName[n]) == DefOf(base, n))
    && (if registry == None || registry.value.list == Ok([]) then s.cards == [] && s.skills == map[] && s.gated == map[]
        else registry.value.list.Ok? && s.cards == registry.value.list.value && CatalogLoaded(s, base, registry.value.get))
  }

  ghost predicate CatalogLoaded(s: Skills, base: seq<Definition>, get: string -> Result<Skill>) {
    && SkillsOf(s.skills, s.cards, get)
    && GatedBy(s.gated, s.cards, get)
    && (forall d :: d in s.alwaysOn <==> d in base && d.Base? && d.name !in s.gated)
  }

  ghost predicate SkillsOf(skills: map<string, Skill>, cards: seq<SkillCard>, get: string -> Result<Skill>) {
    && (forall n :: n in skills <==> exists c :: c in cards && c.name == n)
    && (forall n :: n in skills ==> get(n) == Ok(skills[n]))
  }

  ghost predicate GatedBy(gated: map<string, string>, cards: seq<SkillCard>, get: string -> Result<Skill>) {
    && (forall t :: t in gated <==> Owner(cards, get, t).Some?)
    && (forall t :: t in gated ==> Owner(cards, get, t) == Some(gated[t]))
  }

  lemma OneMoreSkill(skills: map<string, Skill>, cards: seq<SkillCard>, card: SkillCard, get: string -> Result<Skill>)
    requires SkillsOf(skills, cards, get) && get(card.name).Ok?
    ensures SkillsOf(skills[card.name := get(card.name).value], cards + [card], get)
  {
    forall c | c in cards || c == card ensures c in cards + [card] {
    }
  }

  lemma OneMoreGated(gated: map<string, string>, more: map<string, string>, cards: seq<SkillCard>, card: SkillCard,
                     get: string -> Result<Skill>)
    requires GatedBy(gated, cards, get) && get(card.name).Ok?
    requires forall t :: t in more <==> t in gated || t in get(card.name).value.tools
    requires forall t :: t in more ==> more[t] == if t in get(card.name).value.tools then card.name else gated[t]
    ensures GatedBy(more, cards + [card], get)
  {
    assert (cards + [card])[..|cards|] == cards;
  }

  class SkillState {
    var skills: map<string, Skill>
    var cards: seq<SkillCard>
    var defByName: map<string, Definition>
    var gated: map<string, string>
    var alwaysOn: seq<Definition>
    var active: set<string>

    function View(): Skills
      reads this
    {
      Skills(skills, cards, defByName, gated, alwaysOn)
    }

    constructor ()
      ensures View() == Skills(map[], [], map[], map[], []) && active == {}
    {
      skills, cards, defByName, gated, alwaysOn, active := map[], [], map[], map[], [], {};
    }

    /** Builds the state of a turn. Only a failing registry fails it. */
    static method Load(base: seq<Definition>, registry: Option<Registry>) returns (r: Result<SkillState>)
      requires AllBase(base)
      ensures r.Err? <==> registry.Some? && !Readable(registry.value)
      ensures r.Ok? ==> fresh(r.value) && r.value.active == {} && Loaded(r.value.View(), base, registry)
    {
      var st := new SkillState();
      st.IndexDefinitions(base);
      if registry == None {
        return Ok(st);
      }
      var reg := registry.value;
      if reg.list.Err? {
        return Err(reg.list.error);
      }
      if |reg.list.value| == 0 {
        return Ok(st);
      }
      st.cards := reg.list.value;
      var failure := st.LoadCatalog(reg);
      if failure.Some? {
        return Err(failure.value);
      }
      st.KeepUngated(base);
      return Ok(st);
    }

    method IndexDefinitions(base: seq<Definition>)
      requires AllBase(base) && defByName == map[]
      modifies this`defByName
      ensures forall n :: n in defByName <==> DefOf(base, n).Some?
      ensures forall n :: n in defByName ==> Some(defByName[n]) == DefOf(base, n)
    {
      var i := 0;
      while i < |base|
        invariant 0 <= i <= |base|
        invariant forall n :: n in defByName <==> DefOf(base[..i], n).Some?
        invariant forall n :: n in defByName ==> Some(defByName[n]) == DefOf(base[..i], n)
      {
        assert base[..i + 1][..i] == base[..i];
        defByName := defByName[base[i].name := base[i]];
        i := i + 1;
      }
      assert base[..i] == base;
    }

    /** Reads every advertised skill; a tool listed by several belongs to the last. */
    method LoadCatalog(reg: Registry) returns (failure: Option<Error>)
      requires reg.list == Ok(cards) && skills == map[] && gated == map[]
      modifies this`skills, this`gated
      ensures failure.Some? <==> !Readable(reg)
      ensures failure == None ==> SkillsOf(skills, cards, reg.get) && GatedBy(gated, cards, reg.get)
    {
      var i := 0;
      while i < |cards|
        invariant 0 <= i <= |cards|
        invariant AllReadable(cards, i, reg.get)
        invariant SkillsOf(skills, cards[..i], reg.get)
        invariant GatedBy(gated, cards[..i], reg.get)
      {
        failure := LoadSkill(i, reg.get);
        if failure != None {
          return;
        }
        i := i + 1;
      }
      assert cards[..i] == cards;
      return None;
    }

    /** Reads one advertised skill. */
    method LoadSkill(i: nat, get: string -> Result<Skill>) returns (failure: Option<Error>)
      requires i < |cards| && AllReadable(cards, i, get)
      requires SkillsOf(skills, cards[..i], get) && GatedBy(gated, cards[..i], get)
      modifies this`skills, this`gated
      ensures if failure == None then AllReadable(cards, i + 1, get) else !AllReadable(cards, |cards|, get)
      ensures failure == None ==> SkillsOf(skills, cards[..i + 1], get) && GatedBy(gated, cards[..i + 1], get)
    {
      var skill := get(cards[i].name);
      assert AllReadable(cards, |cards|, get) ==> get(cards[i].name).Ok?;
      if skill.Err? {
        return Some(skill.error);
      }
      AddSkill(i, skill.value, get);
      return None;
    }

    method AddSkill(i: nat, skill: Skill, ghost get: string -> Result<Skill>)
      requires i < |cards| && get(cards[i].name) == Ok(skill)
      requires SkillsOf(skills, cards[..i], get) && GatedBy(gated, cards[..i], get)
      modifies this`skills, this`gated
      ensures SkillsOf(skills, cards[..i + 1], get) && GatedBy(gated, cards[..i + 1], get)
    {
      ghost var done := cards[..i];
      assert cards[..i + 1] == done + [cards[i]];
      OneMoreSkill(skills, done, cards[i], get);
      skills := skills[cards[i].name := skill];
      var more := GateAll(gated, skill.tools, cards[i].name);
      OneMoreGated(gated, more, done, cards[i], get);
      gated := more;
    }

    static method GateAll(before: map<string, string>, tools: seq<string>, owner: string) returns (gated: map<string, string>)
      ensures forall t :: t in gated <==> t in before || t in tools
      ensures forall t :: t in gated ==> gated[t] == if t in tools then owner else before[t]
    {
      gated := before;
      var i := 0;
      while i < |tools|
        invariant 0 <= i <= |tools|
        invariant forall t :: t in gated <==> t in before || t in tools[..i]
        invariant forall t :: t in gated ==> gated[t] == if t in tools[..i] then owner else before[t]
      {
        gated := gated[tools[i] := owner];
        i := i + 1;
      }
    }

    method KeepUngated(base: seq<Definition>)
      requires AllBase(base) && alwaysOn == []
      modifies this`alwaysOn
      ensures forall d :: d in alwaysOn <==> d in base && d.name !in gated
    {
      var i := 0;
      while i < |base|
        invariant 0 <= i <= |base|
        invariant forall d :: d in alwaysOn <==> d in base[..i] && d.name !in gated
      {
        if base[i].name !in gated {
          alwaysOn := alwaysOn + [base[i]];
        }
        i := i + 1;
      }
    }

    /** The definitions for a request; the tools of active skills follow in no particular order. */
    method Tools() returns (out: seq<Definition>)
      requires active <= skills.Keys
      ensures |alwaysOn| < |out| && out[..|alwaysOn|] == alwaysOn && NamesSkills(out[|alwaysOn|], cards)
      ensures forall d :: d in out <==> Offered(View(), active, d)
    {
      out := alwaysOn + [ActivateSkill(CardNames(cards))];
      ghost var start := out;
      var todo := active;
      while todo != {}
        invariant todo <= active && start <= out
        invariant forall d :: d in out <==> d in start || OfferedBySkill(View(), active - todo, d)
        decreases |todo|
      {
        var name :| name in todo;
        var more := Definitions(skills[name].tools);
        out := out + more;
        assert active - (todo - {name}) == (active - todo) + {name};
        todo := todo - {name};
      }
      assert active - todo == active;
    }

    method Definitions(tools: seq<string>) returns (out: seq<Definition>)
      ensures forall d :: d in out <==> OfferedBy(View(), tools, d)
    {
      out := [];
      var i := 0;
      while i < |tools|
        invariant 0 <= i <= |tools|
        invariant forall d :: d in out <==> OfferedBy(View(), tools[..i], d)
      {
        if tools[i] in defByName {
          out := out + [defByName[tools[i]]];
        }
        assert tools[..i + 1] == tools[..i] + [tools[i]];
        i := i + 1;
      }
      assert tools[..i] == tools;
    }
  }

  predicate AllReadable(cards: seq<SkillCard>, n: nat, get: string -> Result<Skill>)
    requires n <= |cards|
  {
    forall k {:trigger cards[k]} :: 0 <= k < n ==> get(cards[k].name).Ok?
  }

  /** The registry answers every read. */
  predicate Readable(reg: Registry) {
    reg.list.Ok? && AllReadable(reg.list.value, |reg.list.value|, reg.get)
  }

  // Offered and unlocked.

  /** A tool is listed by two different skills. */
  ghost predicate Shared(s: Skills, tool: string) {
    exists a, b :: a in s.skills && b in s.skills && a != b && tool in s.skills[a].tools && tool in s.skills[b].tools
  }

  /** Some base definition of that name is sent to the model. */
  ghost predicate ToolOffered(s: Skills, active: set<string>, tool: string) {
    exists d :: Offered(s, active, d) && d.Base? && d.name == tool
  }

  lemma {:induction false} OwnerLists(cards: seq<SkillCard>, get: string -> Result<Skill>, tool: string)
    ensures Owner(cards, get, tool).Some? ==>
              var o := Owner(cards, get, tool).value;
              (exists c :: c in cards && c.name == o) && get(o).Ok? && tool in get(o).value.tools
    ensures Owner(cards, get, tool) == None ==> forall c :: c in cards && get(c.name).Ok? ==> tool !in get(c.name).value.tools
  {
    if cards != [] {
      OwnerLists(cards[..|cards| - 1], get, tool);
      assert cards[|cards| - 1] in cards;
      assert cards == cards[..|cards| - 1] + [cards[|cards| - 1]];
    }
  }

  lemma {:induction false} DefIsBase(base: seq<Definition>, name: string)
    ensures DefOf(base, name).Some? ==>
              var d := DefOf(base, name).value; d in base && d.Base? && d.name == name
  {
    if base != [] {
      DefIsBase(base[..|base| - 1], name);
    }
  }

  predicate Lists(card: SkillCard, get: string -> Result<Skill>, tool: string) {
    get(card.name).Ok? && tool in get(card.name).value.tools
  }

  lemma {:induction false} LastListerOwns(cards: seq<SkillCard>, get: string -> Result<Skill>, tool: string, i: nat)
    requires i < |cards| && Lists(cards[i], get, tool)
    requires forall j {:trigger cards[j]} :: i < j < |cards| ==> !Lists(cards[j], get, tool)
    ensures Owner(cards, get, tool) == Some(cards[i].name)
  {
    if i < |cards| - 1 {
      var fewer := cards[..|cards| - 1];
      assert forall j {:trigger fewer[j]} :: i < j < |fewer| ==> fewer[j] == cards[j];
      LastListerOwns(fewer, get, tool, i);
    }
  }

  lemma {:induction false} LastOfItsName(base: seq<Definition>, name: string, i: nat)
    requires AllBase(base) && i < |base| && base[i].name == name
    requires forall j {:trigger base[j]} :: i < j < |base| ==> base[j].name != name
    ensures DefOf(base, name) == Some(base[i])
  {
    if i < |base| - 1 {
      var fewer := base[..|base| - 1];
      assert forall j {:trigger fewer[j]} :: i < j < |fewer| ==> fewer[j] == base[j];
      LastOfItsName(fewer, name, i);
    }
  }

  /** After loading, a tool that skills list belongs to the last of them in the catalog, and what is
      sent for it is the last base definition of its name. */
  lemma TheLastOneCounts(s: Skills, base: seq<Definition>, registry: Option<Registry>, tool: string, i: nat, k: nat)
    requires AllBase(base) && Loaded(s, base, registry) && Enabled(s)
    requires i < |s.cards| && Lists(s.cards[i], registry.value.get, tool)
    requires forall j {:trigger s.cards[j]} :: i < j < |s.cards| ==> !Lists(s.cards[j], registry.value.get, tool)
    requires k < |base| && base[k].name == tool && forall j {:trigger base[j]} :: k < j < |base| ==> base[j].name != tool
    ensures tool in s.gated && s.gated[tool] == s.cards[i].name
    ensures tool in s.defByName && s.defByName[tool] == base[k]
  {
    LastListerOwns(s.cards, registry.value.get, tool, i);
    LastOfItsName(base, tool, k);
  }

  /** A base tool that is not locked is offered; one that is locked is offered at most if another,
      active skill lists it too. */
  lemma OfferedUnlessLocked(s: Skills, base: seq<Definition>, registry: Option<Registry>, active: set<string>, tool: string)
    requires Loaded(s, base, registry) && Enabled(s) && tool in s.defByName && active <= s.skills.Keys
    ensures !Locked(s, active, tool) ==> ToolOffered(s, active, tool)
    ensures Locked(s, active, tool) ==>
              (ToolOffered(s, active, tool) <==> exists a :: a in active && tool in s.skills[a].tools)
    ensures Locked(s, active, tool) ==> s.gated[tool] in s.skills && tool in s.skills[s.gated[tool]].tools
  {
    var get := registry.value.get;
    OwnerLists(s.cards, get, tool);
    DefIsBase(base, tool);
    var d := s.defByName[tool];
    if tool in s.gated {
      var o := s.gated[tool];
      assert get(o) == Ok(s.skills[o]);
      if a :| a in active && tool in s.skills[a].tools {
        assert OfferedBy(s, s.skills[a].tools, d);
        assert OfferedBySkill(s, active, d);
      }
      if ToolOffered(s, active, tool) {
        var e :| Offered(s, active, e) && e.Base? && e.name == tool;
        assert OfferedBySkill(s, active, e);
        var a :| a in active && a in s.skills && OfferedBy(s, s.skills[a].tools, e);
        var n :| n in s.skills[a].tools && n in s.defByName && s.defByName[n] == e;
        DefIsBase(base, n);
      }
    } else {
      assert d in s.alwaysOn;
    }
  }

  /** Offered and unlocked are the same for every set of active skills exactly for the base tools
      that no two skills share. */
  lemma OfferedIsUnlockedIffNotShared(s: Skills, base: seq<Definition>, registry: Option<Registry>, tool: string)
    requires Loaded(s, base, registry) && Enabled(s) && tool in s.defByName
    ensures !Shared(s, tool) <==>
            forall active {:trigger ToolOffered(s, active, tool)} :: active <= s.skills.Keys ==>
              (ToolOffered(s, active, tool) <==> !Locked(s, active, tool))
  {
    forall active {:trigger ToolOffered(s, active, tool)} | active <= s.skills.Keys && !Shared(s, tool)
      ensures ToolOffered(s, active, tool) <==> !Locked(s, active, tool)
    {
      OfferedUnlessLocked(s, base, registry, active, tool);
    }
    if Shared(s, tool) {
      SharedToolIsOfferedLocked(s, base, registry, tool);
    }
  }

  lemma SharedToolIsOfferedLocked(s: Skills, base: seq<Definition>, registry: Option<Registry>, tool: string)
    requires Loaded(s, base, registry) && Enabled(s) && tool in s.defByName && Shared(s, tool)
    ensures exists active :: active <= s.skills.Keys && ToolOffered(s, active, tool) && Locked(s, active, tool)
  {
    OwnerLists(s.cards, registry.value.get, tool);
    var a, b :| a in s.skills && b in s.skills && a != b && tool in s.skills[a].tools && tool in s.skills[b].tools;
    assert tool in s.gated;
    var other := if a == s.gated[tool] then b else a;
    OfferedUnlessLocked(s, base, registry, {other}, tool);
    assert {other} <= s.skills.Keys && Locked(s, {other}, tool);
  }

  /** Activating a skill never takes a definition away or locks a tool again. */
  lemma ActivationIsMonotone(s: Skills, active: set<string>, more: set<string>, d: Definition, tool: string)
    requires active <= more
    ensures Offered(s, active, d) ==> Offered(s, more, d)
    ensures Locked(s, more, tool) ==> Locked(s, active, tool)
  {
    if OfferedBySkill(s, active, d) {
      var a :| a in active && a in s.skills && OfferedBy(s, s.skills[a].tools, d);
      assert a in more;
    }
  }
}
