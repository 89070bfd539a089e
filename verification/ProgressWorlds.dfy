/** The situations of the progress modules exist, for every length of script: what their lemmas say
    is said of something. */
module ProgressWorlds {
  import opened Records
  import opened Kernel
  import opened ProcessGroup
  import opened ProcessIdentity
  import opened ProcessCleanup
  import opened ManagedProcesses
  import opened SupervisorState
  import opened ProcessExit
  import opened Reattach
  import opened Agent
  import opened AgentProgress
  import opened AgentResumption
  import opened ReattachProgress
  import opened GroupProgress
  import opened HealthProgress
  import opened TickProgress

  const CONFIG := Config(3, 4)

  /** Everything succeeds; a fork gives the child (2, `start`). */
  function Succeeds(start: nat): Choice {
    QUIET.(outcome := Durable, config := Some(CONFIG), executable := 3, credential := Available, endpoint := Free,
           child := 2, start := start)
  }

  function Script(c: Choice, n: nat): seq<Choice> {
    seq(n, i => c)
  }

  /** An agent whose process group is 1, with these processes and children. */
  function WorldOf(c: Choice, n: nat, procs: map<nat, Proc>, children: set<nat>, image: Runtime): World {
    World(0, false, true, 1, procs, set p | p in procs :: (p, procs[p].start), children, {}, {}, {}, {}, {}, {image},
          Script(c, n), 0, 0, None, None, {}, {}, {}, {})
  }

  function Alone(n: nat): Sup {
    FreshMemory(WorldOf(Succeeds(1), n, map[], {}, DefaultRuntime), DefaultRuntime, true, Succeeds(1))
  }

  /** An agent that runs nothing: free to start, waiting for its recovery timer, or unsure of a
      save that is due again. */
  lemma IdleAgents(n: nat)
    ensures Idle(Alone(n), Succeeds(1), n)
    ensures Waits(Alone(n).(nextRestart := Some(0), server := WaitingToRestart), Succeeds(1), n)
    ensures UnsureIdle(Alone(n).(retryPending := true, retryAt := Some(0), reliable := false, stateError := true), Succeeds(1), n, 0)
  {
  }

  const OPENCODE := Record(2, 2, 1, 3, None, 4, false)

  function Running(n: nat, alive: bool): Sup {
    var image := Runtime(DesiredState.Running, Some(OPENCODE), None, None);
    var procs := map[2 := Proc(1, true, 2, Some(3), alive)];
    FreshMemory(WorldOf(Succeeds(2), n, procs, {2}, image), image, true, Succeeds(2))
      .(process := Some(Managed.Child(Owned(2, OPENCODE, None, false))), active := Some(CONFIG), server := ServerHealthy)
  }

  /** An agent that runs OpenCode, also one that is not sure of a save, or whose child was not
      identified yet; and one whose child has exited. */
  lemma RunningAgents(n: nat)
    ensures Serves(Running(n, true), Succeeds(2), n, OPENCODE, CONFIG)
    ensures Watched(Running(n, true), Succeeds(2), n, OPENCODE, CONFIG)
    ensures UnsureServing(Running(n, true).(retryPending := true, retryAt := Some(0), reliable := false, stateError := true),
                          Succeeds(2), n, OPENCODE, CONFIG, 0)
    ensures var s := Running(n, true);
            Unsettled(s.(process := Some(Managed.Child(Owned(2, Unread(OPENCODE), None, false))),
                         runtime := s.runtime.(process := Some(Unread(OPENCODE)))),
                      Succeeds(2), n, OPENCODE, CONFIG)
    ensures AgentProgress.Exited(Running(n, false), Succeeds(2), n, OPENCODE)
  {
  }

  /** The process table of a boot, and its choice. */
  function Table(alive: bool): map<nat, Proc> {
    map[2 := Proc(1, true, 2, Some(3), alive)]
  }

  function Boots(alive: bool): Choice {
    Succeeds(2).(procs := Table(alive), health := Healthy(5))
  }

  function Found(n: nat, alive: bool): Sup {
    var image := Runtime(DesiredState.Running, Some(OPENCODE), None, None);
    FreshMemory(WorldOf(Boots(alive), n, Table(alive), {}, image), image, true, Boots(alive))
  }

  /** A new agent that finds the record of an earlier one, with its process alive or gone, or as one
      of another configuration. */
  lemma BootingAgents(n: nat, alive: bool)
    ensures Looks(Found(n, alive), Boots(alive), n, OPENCODE)
    ensures ReattachProgress.Gone(Boots(alive).procs, OPENCODE) <==> !alive
    ensures Stale(Found(n, alive).(process := Some(Attached(OPENCODE)), stale := true, server := ServerUnhealthy),
                  Boots(alive), n, OPENCODE)
  {
    var w := Found(n, alive).os;
    assert EnvironmentMay(w, Table(alive));
  }

  /** The leader has exited, and the member 6 of its group lives or not. */
  function Left(alive: bool): map<nat, Proc> {
    map[2 := Proc(1, true, 2, Some(3), false), 6 := Proc(1, true, 2, None, alive)]
  }

  function Lists(alive: bool): Choice {
    Succeeds(2).(procs := Left(alive), members := [2, 6])
  }

  function Leaderless(n: nat, alive: bool): Sup {
    Running(n, false).(os := WorldOf(Lists(alive), n, Left(alive), {2}, Running(n, false).runtime))
  }

  /** A group that outlives its leader, or does not. */
  lemma LeaderlessGroups(n: nat, alive: bool)
    ensures Supervises(Leaderless(n, alive), Lists(alive), n, OPENCODE, Owned(2, OPENCODE, None, false))
    ensures Outlives(Lists(alive), Lists(alive).members, 2) <==> alive
  {
    var c := Lists(alive);
    assert c.members[1] == 6;
    assert 6 in c.members;
    assert EnvironmentMay(Leaderless(n, alive).os, c.procs);
  }
}
