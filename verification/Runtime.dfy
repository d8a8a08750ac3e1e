/**
  The runtime's life: connecting skills, building the agent, reloading it, and
  closing every resource that was opened.
 */
module Runtime {
  import opened Llm
  import opened Models

  /** The parts of an Agentfile that an agent is built from. */
  datatype Agentfile = Agentfile(name: string, description: string, prompt: string, brain: Brain)

  datatype Agent = Agent(name: string, description: string, instruction: string, model: string, toolsets: seq<nat>)

  function BuildAgent(af: Agentfile, model: string, toolsets: seq<nat>): Agent {
    Agent(af.name, af.description, af.prompt, model, toolsets)
  }

  /** The agent says of itself what the Agentfile says: its prompt is the instruction. */
  predicate Describes(af: Agentfile, agent: Agent) {
    agent.name == af.name && agent.description == af.description && agent.instruction == af.prompt
  }

  /** What becomes of one skill: a stdio skill has a closer, the others do not. */
  datatype Skill = MissingEnv | ConnectFails | Connects(toolset: nat, closer: Option<nat>, preloads: bool)

  /** What Init meets: which models can be created, what becomes of the skills, whether an agent can be built. */
  datatype World = World(create: Create, skills: seq<Skill>, agentBuilds: bool)

  datatype Error = NoModels | Env(skill: nat) | Connect(skill: nat) | Preload(skill: nat) | NoDefault | NoAgent

  predicate Ready(s: Skill) {
    s.Connects? && s.preloads
  }

  function CloserOf(s: Skill): seq<nat> {
    if s.Connects? && s.closer.Some? then [s.closer.value] else []
  }

  /** The closers of the first n skills that were connected, in order. */
  function ClosersOf(skills: seq<Skill>, n: nat): seq<nat>
    requires n <= |skills|
  {
    if n == 0 then [] else ClosersOf(skills, n - 1) + CloserOf(skills[n - 1])
  }

  function ToolsetsOf(skills: seq<Skill>, n: nat): seq<nat>
    requires n <= |skills|
  {
    if n == 0 then []
    else ToolsetsOf(skills, n - 1) + if skills[n - 1].Connects? then [skills[n - 1].toolset] else []
  }

  /** The first skill from the given one on that is not ready; the number of skills if all are. */
  function FirstUnready(skills: seq<Skill>, from: nat): (k: nat)
    requires from <= |skills|
    ensures from <= k <= |skills|
    ensures forall i :: from <= i < k ==> Ready(skills[i])
    ensures k < |skills| ==> !Ready(skills[k])
    decreases |skills| - from
  {
    if from == |skills| || !Ready(skills[from]) then from else FirstUnready(skills, from + 1)
  }

  /** How many skills are tried: up to and including the first that is not ready. */
  function Tried(skills: seq<Skill>): (n: nat)
    ensures n <= |skills|
  {
    var k := FirstUnready(skills, 0);
    if k < |skills| then k + 1 else k
  }

  /** The toolsets are those of the skills, one for each and in order. */
  ghost predicate ToolsetsFit(skills: seq<Skill>, toolsets: seq<nat>) {
    |toolsets| == |skills| &&
    forall i :: 0 <= i < |skills| ==> skills[i].Connects? && toolsets[i] == skills[i].toolset
  }

  lemma {:induction false} ReadyToolsets(skills: seq<Skill>, n: nat)
    requires n <= |skills| && forall i :: 0 <= i < n ==> Ready(skills[i])
    ensures ToolsetsFit(skills[..n], ToolsetsOf(skills, n))
  {
    if n > 0 {
      ReadyToolsets(skills, n - 1);
      assert Ready(skills[n - 1]);
      assert forall i :: 0 <= i < n - 1 ==> skills[..n][i] == skills[..n - 1][i];
    }
  }

  lemma AllToolsets(skills: seq<Skill>)
    requires SkillError(skills).None?
    ensures ToolsetsFit(skills, ToolsetsOf(skills, |skills|))
  {
    ReadyToolsets(skills, |skills|);
    assert skills[..|skills|] == skills;
  }

  function ErrorAt(s: Skill, k: nat): Error {
    if s.MissingEnv? then Env(k) else if s.ConnectFails? then Connect(k) else Preload(k)
  }

  /** The errors after which everything has been closed. */
  predicate Closes(err: Option<Error>) {
    err.Some? && !err.value.Env? && !err.value.NoModels?
  }

  function SkillError(skills: seq<Skill>): Option<Error> {
    var k := FirstUnready(skills, 0);
    if k == |skills| then None else Some(ErrorAt(skills[k], k))
  }

  lemma UnreadyAt(skills: seq<Skill>, i: nat)
    requires i <= |skills| && (i < |skills| ==> !Ready(skills[i])) && forall j :: 0 <= j < i ==> Ready(skills[j])
    ensures SkillError(skills) == if i < |skills| then Some(ErrorAt(skills[i], i)) else None
    ensures Tried(skills) == if i < |skills| then i + 1 else i
  {
    assert FirstUnready(skills, 0) == i;
  }

  /** The model that the brain names for the world's providers. */
  function ModelOf(w: World, brain: Brain): Option<string> {
    Named(w.create, brain.models, brain.default)
  }

  /** How Init ends: the first thing that fails, in the order in which things are tried. */
  ghost function ErrorOf(w: World, brain: Brain): Option<Error> {
    if DefaultFails(w.create, brain) then Some(NoModels)
    else if SkillError(w.skills).Some? then SkillError(w.skills)
    else if ModelOf(w, brain).None? then Some(NoDefault)
    else if !w.agentBuilds then Some(NoAgent)
    else None
  }

  /** The closers that Init obtains before it ends. */
  ghost function Obtained(w: World, brain: Brain): seq<nat> {
    if DefaultFails(w.create, brain) then [] else ClosersOf(w.skills, Tried(w.skills))
  }

  class Runtime {
    var af: Agentfile
    var agent: Option<Agent>
    var models: Option<Registry>
    var toolsets: seq<nat>
    var closers: seq<nat>
    /** The once-guard of Close. */
    var closed: bool
    /** The closers that have been run, in order. */
    var ran: seq<nat>
    /** The closers that were ever obtained. */
    ghost var obtained: seq<nat>

    /** Every closer obtained has been run once, or is still to be run by Close. */
    ghost predicate Conserved()
      reads this
    {
      ran + closers == obtained && if closed then closers == [] else ran == []
    }

    /** The agent is the one built from the current Agentfile. */
    predicate Current()
      reads this
    {
      agent.Some? ==>
        && models.Some? && models.value.Default().Some?
        && agent.value == BuildAgent(af, models.value.Default().value, toolsets)
    }

    constructor (af: Agentfile)
      ensures Conserved() && Current() && this.af == af && !closed && obtained == [] && agent == None
      ensures models == None && toolsets == []
    {
      this.af, agent, models := af, None, None;
      toolsets, closers, closed, ran, obtained := [], [], false, [], [];
    }

    /** Runs every closer, the first time it is called. */
    method Close()
      requires Conserved()
      modifies this`closers, this`closed, this`ran
      ensures Conserved() && closed && ran == obtained
    {
      if closed {
        return;
      }
      for i := 0 to |closers|
        invariant !closed && closers == obtained && ran == closers[..i]
      {
        ran := ran + [closers[i]];
      }
      closed := true;
      closers := [];
    }

    /** One skill: the check of its environment, the connection, the preload. */
    method ConnectSkill(s: Skill, k: nat) returns (err: Option<Error>)
      requires Conserved() && !closed
      modifies this`toolsets, this`closers, this`closed, this`ran, this`obtained
      ensures Conserved() && obtained == old(obtained) + CloserOf(s)
      ensures err.None? <==> Ready(s)
      ensures closed <==> s.ConnectFails? || (s.Connects? && !s.preloads)
      ensures err.Some? ==> err.value == ErrorAt(s, k)
      ensures toolsets == old(toolsets) + if s.Connects? then [s.toolset] else []
    {
      match s {
        case MissingEnv =>
          return Some(Env(k));
        case ConnectFails =>
          Close();
          return Some(Connect(k));
        case Connects(toolset, closer, preloads) =>
          toolsets := toolsets + [toolset];
          if closer.Some? {
            closers := closers + [closer.value];
            obtained := obtained + [closer.value];
          }
          if !preloads {
            Close();
            return Some(Preload(k));
          }
      }
      err := None;
    }

    /** The first n skills have been connected, and nothing else. */
    ghost predicate Gathered(skills: seq<Skill>, n: nat)
      requires n <= |skills|
      reads this
    {
      Conserved() && obtained == ClosersOf(skills, n) && toolsets == ToolsetsOf(skills, n)
    }

    /** The body of the loop over the skills. */
    method ConnectNext(skills: seq<Skill>, i: nat) returns (err: Option<Error>)
      requires i < |skills| && Gathered(skills, i) && !closed
      modifies this`toolsets, this`closers, this`closed, this`ran, this`obtained
      ensures Gathered(skills, i + 1)
      ensures err == if Ready(skills[i]) then None else Some(ErrorAt(skills[i], i))
      ensures closed <==> Closes(err)
    {
      err := ConnectSkill(skills[i], i);
    }

    /** The loop over the skills: it ends at the first that is not ready. */
    method ConnectSkills(skills: seq<Skill>) returns (err: Option<Error>)
      requires Gathered(skills, 0) && !closed
      modifies this`toolsets, this`closers, this`closed, this`ran, this`obtained
      ensures Gathered(skills, Tried(skills))
      ensures err == SkillError(skills)
      ensures closed <==> Closes(err)
    {
      for i := 0 to |skills|
        invariant Gathered(skills, i) && !closed && FirstUnready(skills, i) == FirstUnready(skills, 0)
      {
        err := ConnectNext(skills, i);
        if err.Some? {
          return;
        }
      }
      err := None;
    }

    method Init(w: World) returns (err: Option<Error>)
      requires Conserved() && !closed && obtained == [] && agent == None && toolsets == []
      modifies this
      ensures err == ErrorOf(w, af.brain)
      ensures Conserved() && obtained == Obtained(w, af.brain)
      ensures af == old(af) && Current() && (agent.Some? <==> err.None?)
      ensures err.None? ==> !closed && toolsets == ToolsetsOf(w.skills, |w.skills|)
      ensures agent.Some? ==> Describes(af, agent.value) && ToolsetsFit(w.skills, agent.value.toolsets)
      ensures err.None? ==> models.Some? && models.value.Default() == ModelOf(w, af.brain)
      ensures closed <==> Closes(err)
    {
      var registry, _ := NewModelRegistry(w.create, af.brain);
      if registry.None? {
        return Some(NoModels);
      }
      DefaultIsNamed(w.create, af.brain);
      models := registry;
      err := ConnectSkills(w.skills);
      if err.Some? {
        return;
      }
      var defaultModel := models.value.Default();
      if defaultModel.None? {
        Close();
        return Some(NoDefault);
      }
      if !w.agentBuilds {
        Close();
        return Some(NoAgent);
      }
      AllToolsets(w.skills);
      agent := Some(BuildAgent(af, defaultModel.value, toolsets));
      err := None;
    }

    /** A new agent over the same models and skills; a failure changes nothing. */
    method Reload(newAF: Agentfile, builds: bool) returns (ok: bool)
      requires Conserved() && Current() && models.Some?
      modifies this`agent, this`af
      ensures Conserved() && Current()
      ensures ok <==> models.value.Default().Some? && builds
      ensures ok ==> af == newAF && agent == Some(BuildAgent(newAF, models.value.Default().value, toolsets))
      ensures ok ==> Describes(newAF, agent.value) && agent.value.toolsets == toolsets
      ensures ok ==> models.value.Default() == Some(agent.value.model)
      ensures !ok ==> af == old(af) && agent == old(agent)
    {
      var defaultModel := models.value.Default();
      if defaultModel.None? || !builds {
        return false;
      }
      agent := Some(BuildAgent(newAF, defaultModel.value, toolsets));
      af := newAF;
      ok := true;
    }
  }

  // ---- Init alone ----

  /**
    A failed Init has run every closer it obtained, unless a missing environment variable
    ended it after a closer had been obtained: then all are left to the caller's Close.
   */
  method InitAlone(af: Agentfile, w: World) returns (ran: seq<nat>, left: seq<nat>)
    requires ErrorOf(w, af.brain).Some?
    ensures ran + left == Obtained(w, af.brain)
    ensures left == [] <==> !ErrorOf(w, af.brain).value.Env? || Obtained(w, af.brain) == []
    ensures left != [] ==> ran == []
  {
    var r := new Runtime(af);
    var _ := r.Init(w);
    ran, left := r.ran, r.closers;
  }

  lemma EnvFailure(c: nat)
    ensures var skills := [Connects(0, Some(c), true), MissingEnv];
            SkillError(skills) == Some(Env(1)) && ClosersOf(skills, Tried(skills)) == [c]
  {
    var skills := [Connects(0, Some(c), true), MissingEnv];
    UnreadyAt(skills, 1);
    assert ClosersOf(skills, 1) == [] + [c];
    assert ClosersOf(skills, 2) == ClosersOf(skills, 1) + [];
  }

  /** A missing variable after a stdio skill: Init fails, its closer was obtained and has not been run. */
  method EnvFailureLeaves(af: Agentfile, c: nat) returns (ran: seq<nat>, left: seq<nat>)
    requires af.brain.models == []
    ensures ran == [] && left == [c]
  {
    EnvFailure(c);
    ran, left := InitAlone(af, World(_ => None, [Connects(0, Some(c), true), MissingEnv], true));
  }

  // ---- The whole life ----

  /** The last Agentfile whose reload succeeded. */
  function LastLoaded(af: Agentfile, reloads: seq<(Agentfile, bool)>): Agentfile {
    if reloads == [] then af
    else if reloads[|reloads| - 1].1 then reloads[|reloads| - 1].0
    else LastLoaded(af, reloads[..|reloads| - 1])
  }

  /**
    The daemon's use of a runtime: Init, reloads while it serves, other closes, and the
    deferred Close. Whatever happens, each closer obtained has been run exactly once, in
    order, and the agent is built from the Agentfile that was last loaded, with the model
    that the first one named. So it runs the model that its own Agentfile names exactly
    if both Agentfiles name the same.
   */
  method Serve(af: Agentfile, w: World, reloads: seq<(Agentfile, bool)>, closes: nat)
    returns (ran: seq<nat>, left: seq<nat>, current: Agentfile, agent: Option<Agent>)
    ensures ran == Obtained(w, af.brain) && left == []
    ensures agent.Some? <==> ErrorOf(w, af.brain).None?
    ensures current == if agent.None? then af else LastLoaded(af, reloads)
    ensures agent.Some? ==> ModelOf(w, af.brain) == Some(agent.value.model)
    ensures agent.Some? ==> Describes(current, agent.value) && ToolsetsFit(w.skills, agent.value.toolsets)
    ensures agent.Some? ==>
              (ModelOf(w, current.brain) == Some(agent.value.model) <==>
               ModelOf(w, current.brain) == ModelOf(w, af.brain))
  {
    var r := new Runtime(af);
    var err := r.Init(w);
    if err.None? {
      for i := 0 to |reloads|
        invariant r.Conserved() && r.Current() && r.toolsets == ToolsetsOf(w.skills, |w.skills|)
        invariant r.models.Some? && r.models.value.Default() == ModelOf(w, af.brain)
        invariant r.obtained == Obtained(w, af.brain) && r.agent.Some?
        invariant r.af == LastLoaded(af, reloads[..i])
      {
        assert reloads[..i + 1][..i] == reloads[..i];
        var _ := r.Reload(reloads[i].0, reloads[i].1);
      }
      assert reloads[..|reloads|] == reloads;
      for i := 0 to closes
        invariant r.Conserved() && r.Current() && r.toolsets == ToolsetsOf(w.skills, |w.skills|)
        invariant r.models.Some? && r.models.value.Default() == ModelOf(w, af.brain)
        invariant r.obtained == Obtained(w, af.brain) && r.agent.Some?
        invariant r.af == LastLoaded(af, reloads)
      {
        r.Close();
      }
    }
    r.Close();
    if err.None? {
      AllToolsets(w.skills);
    }
    ran, left, current, agent := r.ran, r.closers, r.af, r.agent;
  }

  function OneModel(model: string): Agentfile {
    Agentfile("", "", "", Brain("main", [ModelConfig("main", model)]))
  }

  lemma OneModelNamed(w: World, model: string)
    requires w.create == ((mc: ModelConfig) => Some(mc.model))
    ensures !DefaultFails(w.create, OneModel(model).brain)
    ensures ModelOf(w, OneModel(model).brain) == Some(model)
  {
  }

  /** A reload that names another model: it succeeds, and the agent goes on with the first one. */
  method ReloadKeepsModel(before: string, after: string) returns (current: Agentfile, agent: Option<Agent>)
    ensures current == OneModel(after)
    ensures agent.Some? && agent.value.model == before
  {
    var w := World((mc: ModelConfig) => Some(mc.model), [], true);
    OneModelNamed(w, before);
    assert SkillError([]) == None;
    var _, _, af, a := Serve(OneModel(before), w, [(OneModel(after), true)], 0);
    current, agent := af, a;
  }
}
