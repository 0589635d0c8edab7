/** One sandbox execution as the code runs it: the shared counters and registry, the reservation, and
    the try / except / finally around the container. Run alone, it makes exactly the moves of the
    protocol in SandboxSlots. */
module SandboxExecution {
  import opened SandboxSlots

  /** What the outside world does to an execution. */
  datatype Trouble =
    | NoTrouble
    | GovernanceDenies
    | ShutdownRequested
    | InputInvalid
    | PreparationFails
    | ContainerFailsToStart
    | SessionCannotBeMarked
    | RunFails

  datatype Weather = Weather(trouble: Trouble, handlerRaises: bool, fileRemoved: bool, containerRemoved: bool)

  datatype Reply = Succeeded | Denied | Failed | Raised

  /** The moves of an execution that gets its slot and whose container runs. */
  function Course(r: Run): seq<Move> {
    [Check(r), Increment(r), Prepare(r), Launch(r), Register(r), Return(r)]
  }

  /** How many of them happen before the trouble. */
  function Progress(trouble: Trouble): nat {
    match trouble
    case PreparationFails => 2
    case ContainerFailsToStart => 3
    case SessionCannotBeMarked => 5
    case _ => 6
  }

  /** The moves of an execution that runs by itself, up to its `finally`. */
  function Attempt(r: Run, hasRoom: bool, trouble: Trouble): seq<Move> {
    match trouble
    case GovernanceDenies | ShutdownRequested | InputInvalid => [Refuse(r)]
    case _ => if hasRoom then Course(r)[..Progress(trouble)] + [Stop(r)] else [Check(r)]
  }

  function Script(r: Run, hasRoom: bool, weather: Weather): seq<Move> {
    Attempt(r, hasRoom, weather.trouble) + [Cleanup(r, weather.fileRemoved, weather.containerRemoved)] + [Unregister(r)] + [Release(r)]
  }

  function ReplyOf(hasRoom: bool, weather: Weather): Reply {
    if weather.trouble.GovernanceDenies? then Denied
    else if weather.trouble.NoTrouble? && hasRoom then Succeeded
    else if weather.handlerRaises then Raised
    else Failed
  }

  lemma {:induction false} ThenMove(setup: Setup, s: State, moves: seq<Move>, m: Move)
    requires Legal(setup, s, moves) && Enabled(Play(setup, s, moves), m)
    ensures Legal(setup, s, moves + [m])
    ensures Play(setup, s, moves + [m]) == Do(setup, Play(setup, s, moves), m)
    decreases |moves|
  {
    hide Do;
    if moves == [] {
      assert [] + [m] == [m];
    } else {
      assert (moves + [m])[1..] == moves[1..] + [m];
      ThenMove(setup, Do(setup, s, moves[0]), moves[1..], m);
    }
  }

  function StageAfter(n: nat): Stage {
    match n
    case 0 => Arrived
    case 1 => Checked
    case 2 => Reserved
    case 3 => Prepared
    case 4 => Launched
    case 5 => Registered
    case _ => Running
  }

  function After(setup: Setup, s: State, r: Run, n: nat): State {
    State(s.stages[r := StageAfter(n)],
          if n >= 2 then Incremented(s.counts, setup.tenantOf(r)) else s.counts,
          if n >= 5 then s.containers[r := r] else s.containers,
          if n >= 4 then s.live + {r} else s.live,
          if n >= 3 then s.files + {r} else s.files)
  }

  lemma {:induction false} CoursePlays(setup: Setup, s: State, r: Run, n: nat)
    requires n <= 6 && r in s.stages && s.stages[r].Arrived? && Count(s.counts, setup.tenantOf(r)) < setup.limit
    ensures Legal(setup, s, Course(r)[..n])
    ensures Play(setup, s, Course(r)[..n]) == After(setup, s, r, n)
    decreases n
  {
    hide Legal, Play;
    if n == 0 {
      NothingPlayed(setup, s);
      assert s.stages[r := Arrived] == s.stages;
    } else {
      CoursePlays(setup, s, r, n - 1);
      ThenMove(setup, s, Course(r)[..n - 1], Course(r)[n - 1]);
      assert Course(r)[..n] == Course(r)[..n - 1] + [Course(r)[n - 1]];
    }
  }

  lemma NothingPlayed(setup: Setup, s: State)
    ensures Legal(setup, s, []) && Play(setup, s, []) == s
  {
  }

  predicate Refused(trouble: Trouble) {
    trouble.GovernanceDenies? || trouble.ShutdownRequested? || trouble.InputInvalid?
  }

  function Attempted(setup: Setup, s: State, r: Run, hasRoom: bool, trouble: Trouble): State {
    if !hasRoom || Refused(trouble) then At(s, r, Closing(false, false))
    else At(After(setup, s, r, Progress(trouble)), r, Closing(true, Progress(trouble) == 6))
  }

  lemma AttemptPlays(setup: Setup, s: State, r: Run, hasRoom: bool, trouble: Trouble)
    requires r in s.stages && s.stages[r].Arrived? && (hasRoom <==> Count(s.counts, setup.tenantOf(r)) < setup.limit)
    ensures Legal(setup, s, Attempt(r, hasRoom, trouble))
    ensures Play(setup, s, Attempt(r, hasRoom, trouble)) == Attempted(setup, s, r, hasRoom, trouble)
  {
    hide Legal, Play, After;
    NothingPlayed(setup, s);
    if Refused(trouble) {
      assert [] + [Refuse(r)] == [Refuse(r)];
      ThenMove(setup, s, [], Refuse(r));
    } else if !hasRoom {
      assert [] + [Check(r)] == [Check(r)];
      ThenMove(setup, s, [], Check(r));
    } else {
      CoursePlays(setup, s, r, Progress(trouble));
      AfterStage(setup, s, r, Progress(trouble));
      ThenMove(setup, s, Course(r)[..Progress(trouble)], Stop(r));
    }
  }

  lemma AfterStage(setup: Setup, s: State, r: Run, n: nat)
    ensures After(setup, s, r, n).stages == s.stages[r := StageAfter(n)]
  {
  }

  /** What the `finally` makes of the shared state. */
  function Finished(setup: Setup, s: State, r: Run, weather: Weather): State
    requires r in s.stages && s.stages[r].Closing?
  {
    var stage := s.stages[r];
    State(s.stages[r := Done],
          if stage.slot then Decremented(s.counts, setup.tenantOf(r)) else s.counts,
          s.containers - {r},
          if stage.owned && weather.containerRemoved then s.live - {r} else s.live,
          if stage.owned && weather.fileRemoved then s.files - {r} else s.files)
  }

  lemma FinishedByThreeMoves(setup: Setup, s: State, r: Run, weather: Weather)
    requires r in s.stages && s.stages[r].Closing?
    ensures var cleaned := Do(setup, s, Cleanup(r, weather.fileRemoved, weather.containerRemoved));
            Finished(setup, s, r, weather) == Do(setup, Do(setup, cleaned, Unregister(r)), Release(r))
  {
    hide Decremented;
  }

  /** A lone execution plays its script to the end, and leaves this behind. */
  lemma ScriptPlays(setup: Setup, s: State, r: Run, hasRoom: bool, weather: Weather)
    requires r in s.stages && s.stages[r].Arrived? && (hasRoom <==> Count(s.counts, setup.tenantOf(r)) < setup.limit)
    ensures Legal(setup, s, Script(r, hasRoom, weather))
    ensures Play(setup, s, Script(r, hasRoom, weather)) ==
            Finished(setup, Attempted(setup, s, r, hasRoom, weather.trouble), r, weather)
  {
    hide Legal, Play, Attempt, Attempted;
    var moves := Attempt(r, hasRoom, weather.trouble);
    var attempted := Attempted(setup, s, r, hasRoom, weather.trouble);
    AttemptPlays(setup, s, r, hasRoom, weather.trouble);
    AttemptedCloses(setup, s, r, hasRoom, weather.trouble);
    var cleanup := Cleanup(r, weather.fileRemoved, weather.containerRemoved);
    ThenMove(setup, s, moves, cleanup);
    ThenMove(setup, s, moves + [cleanup], Unregister(r));
    ThenMove(setup, s, moves + [cleanup] + [Unregister(r)], Release(r));
    FinishedByThreeMoves(setup, attempted, r, weather);
  }

  lemma AttemptedCloses(setup: Setup, s: State, r: Run, hasRoom: bool, trouble: Trouble)
    ensures var a := Attempted(setup, s, r, hasRoom, trouble); r in a.stages && a.stages[r].Closing?
  {
  }

  /** The reply says what became of the execution: it succeeded exactly if its start returned and the run
      did not fail; it was denied exactly if governance said so, and then nothing but the `finally` is left;
      for the rest the handler decides whether a failure is returned or raised. */
  lemma ReplyMeans(r: Run, hasRoom: bool, weather: Weather)
    ensures var reply, moves := ReplyOf(hasRoom, weather), Script(r, hasRoom, weather);
            && (reply == Succeeded <==> Return(r) in moves && weather.trouble != RunFails)
            && (reply == Denied <==> weather.trouble == GovernanceDenies)
            && (reply == Denied ==> Refuse(r) in moves)
            && (reply == Raised <==> reply != Succeeded && reply != Denied && weather.handlerRaises)
  {
    hide Progress;
    var trouble, moves := weather.trouble, Script(r, hasRoom, weather);
    ProgressMeans(trouble);
    var attempt := Attempt(r, hasRoom, trouble);
    assert Return(r) in moves <==> Return(r) in attempt;
    if !Refused(trouble) && hasRoom {
      var n := Progress(trouble);
      assert attempt == Course(r)[..n] + [Stop(r)];
      assert n == 6 ==> Course(r)[..n][5] == Return(r);
      assert forall i :: 0 <= i < n && i < 5 ==> Course(r)[i] != Return(r);
    }
    if trouble == GovernanceDenies { assert moves[0] == Refuse(r); }
  }

  lemma ProgressMeans(trouble: Trouble)
    ensures Progress(trouble) <= 6
    ensures Progress(trouble) == 6 <==> !trouble.PreparationFails? && !trouble.ContainerFailsToStart? && !trouble.SessionCannotBeMarked?
  {
  }

  /** What a lone execution leaves behind: its slot is given back and it is not registered any more; its file
      and its container are left if they came to be and the start did not return, or could not be removed. */
  lemma LeftBehind(setup: Setup, s: State, r: Run, hasRoom: bool, weather: Weather)
    requires r in s.stages && s.stages[r].Arrived? && (hasRoom <==> Count(s.counts, setup.tenantOf(r)) < setup.limit)
    requires forall t :: t in s.counts ==> s.counts[t] > 0
    ensures Legal(setup, s, Script(r, hasRoom, weather))
    ensures var end, trouble := Play(setup, s, Script(r, hasRoom, weather)), weather.trouble;
            var starts := hasRoom && trouble !in {GovernanceDenies, ShutdownRequested, InputInvalid};
            var written := starts && trouble != PreparationFails;
            var launched := written && trouble != ContainerFailsToStart;
            var returned := launched && trouble != SessionCannotBeMarked;
            && end.stages == s.stages[r := Done] && end.counts == s.counts && end.containers == s.containers - {r}
            && end.files == s.files + (if written then {r} else {}) - (if returned && weather.fileRemoved then {r} else {})
            && end.live == s.live + (if launched then {r} else {}) - (if returned && weather.containerRemoved then {r} else {})
  {
    hide Legal, Play, Script;
    ScriptPlays(setup, s, r, hasRoom, weather);
    var t := setup.tenantOf(r);
    SlotGivenBack(s.counts, t);
    AttemptedMeans(setup, s, r, hasRoom, weather.trouble);
  }

  lemma SlotGivenBack(counts: map<Tenant, int>, t: Tenant)
    requires t in counts ==> counts[t] > 0
    ensures Decremented(Incremented(counts, t), t) == counts
  {
    if t !in counts { assert counts[t := 1] - {t} == counts; }
  }

  lemma AttemptedMeans(setup: Setup, s: State, r: Run, hasRoom: bool, trouble: Trouble)
    ensures var end := Attempted(setup, s, r, hasRoom, trouble);
            var starts := hasRoom && trouble !in {GovernanceDenies, ShutdownRequested, InputInvalid};
            var written := starts && trouble != PreparationFails;
            var launched := written && trouble != ContainerFailsToStart;
            var returned := launched && trouble != SessionCannotBeMarked;
            && end.stages == s.stages[r := Closing(starts, returned)]
            && end.counts == (if starts then Incremented(s.counts, setup.tenantOf(r)) else s.counts)
            && end.containers == (if launched then s.containers[r := r] else s.containers)
            && end.files == (if written then s.files + {r} else s.files)
            && end.live == (if launched then s.live + {r} else s.live)
  {
    hide Incremented;
  }

  class RuntimeState {
    const limit: int
    var counts: map<Tenant, int>
    var containers: map<Run, Run>
    var live: set<Run>
    var files: set<Run>

    constructor (limit: int)
      ensures this.limit == limit && counts == map[] && containers == map[] && live == {} && files == {}
    {
      this.limit := limit;
      counts, containers, live, files := map[], map[], {}, {};
    }

    /** The shared state, with one execution of interest at the given stage. */
    ghost function Now(r: Run, stage: Stage): State
      reads this
    {
      State(map[r := stage], counts, containers, live, files)
    }

    method CurrentTenantConcurrency(t: Tenant) returns (n: int)
      ensures n == Count(counts, t)
    {
      n := if t in counts then counts[t] else 0;
    }

    method IncrementTenantConcurrency(t: Tenant)
      modifies `counts
      ensures counts == Incremented(old(counts), t)
    {
      var n := CurrentTenantConcurrency(t);
      counts := counts[t := n + 1];
    }

    method DecrementTenantConcurrency(t: Tenant)
      modifies `counts
      ensures counts == Decremented(old(counts), t)
    {
      if t !in counts { return; }
      var next := counts[t] - 1;
      if next <= 0 {
        counts := counts - {t};
        return;
      }
      counts := counts[t := next];
    }

    method RegisterRunningContainer(r: Run, container: Run)
      modifies `containers
      ensures containers == old(containers)[r := container]
    {
      containers := containers[r := container];
    }

    method UnregisterRunningContainer(r: Run)
      modifies `containers
      ensures containers == old(containers) - {r}
    {
      containers := containers - {r};
    }

    /** Check, then increment; false is the raised validation error. */
    method ReserveTenantSlot(t: Tenant) returns (reserved: bool)
      modifies `counts
      ensures reserved <==> Count(old(counts), t) < limit
      ensures counts == if reserved then Incremented(old(counts), t) else old(counts)
    {
      var current := CurrentTenantConcurrency(t);
      if current >= limit { return false; }
      IncrementTenantConcurrency(t);
      reserved := true;
    }

    /** Start a container: the code file is written, the container run, registered and its session
        marked; only then does the caller learn of either. */
    method StartSandboxContainer(r: Run, trouble: Trouble) returns (started: bool)
      requires !Refused(trouble)
      modifies this`files, this`live, this`containers
      ensures started <==> trouble.NoTrouble? || trouble.RunFails?
      ensures files == if trouble.PreparationFails? then old(files) else old(files) + {r}
      ensures trouble.PreparationFails? || trouble.ContainerFailsToStart? ==>
                live == old(live) && containers == old(containers)
      ensures !trouble.PreparationFails? && !trouble.ContainerFailsToStart? ==>
                live == old(live) + {r} && containers == old(containers)[r := r]
    {
      if trouble.PreparationFails? { return false; }
      files := files + {r};
      if trouble.ContainerFailsToStart? { return false; }
      live := live + {r};
      RegisterRunningContainer(r, r);
      started := !trouble.SessionCannotBeMarked?;
    }

    method CleanupSandboxRun(r: Run, owned: bool, fileRemoved: bool, containerRemoved: bool)
      modifies this`files, this`live
      ensures files == if owned && fileRemoved then old(files) - {r} else old(files)
      ensures live == if owned && containerRemoved then old(live) - {r} else old(live)
    {
      if owned && fileRemoved { files := files - {r}; }
      if owned && containerRemoved { live := live - {r}; }
    }

    /** The `try` with its handlers. */
    method Try(r: Run, setup: Setup, weather: Weather) returns (reply: Reply, concurrencyIncremented: bool, owned: bool)
      requires setup.limit == limit
      modifies this
      ensures var room := Count(old(counts), setup.tenantOf(r)) < limit;
              && Now(r, Closing(concurrencyIncremented, owned)) ==
                   Attempted(setup, old(Now(r, Arrived)), r, room, weather.trouble)
              && reply == ReplyOf(room, weather)
    {
      hide Incremented;
      concurrencyIncremented, owned := false, false;
      var trouble := weather.trouble;
      if trouble.GovernanceDenies? { return Denied, false, false; }
      reply := if weather.handlerRaises then Raised else Failed;
      if trouble.ShutdownRequested? || trouble.InputInvalid? { return; }
      var reserved := ReserveTenantSlot(setup.tenantOf(r));
      if !reserved { return; }
      concurrencyIncremented := true;
      owned := StartSandboxContainer(r, trouble);
      if !owned || trouble.RunFails? { return; }
      reply := Succeeded;
    }

    /** The `finally`. */
    method Finally(r: Run, setup: Setup, weather: Weather, concurrencyIncremented: bool, owned: bool)
      modifies this
      ensures Now(r, Done) == Finished(setup, old(Now(r, Closing(concurrencyIncremented, owned))), r, weather)
    {
      hide Decremented;
      CleanupSandboxRun(r, owned, weather.fileRemoved, weather.containerRemoved);
      UnregisterRunningContainer(r);
      if concurrencyIncremented { DecrementTenantConcurrency(setup.tenantOf(r)); }
    }

    /** The whole execution. Whatever happens, it plays its script to the end, so its slot is given back. */
    method ExecuteCodeInDocker(r: Run, setup: Setup, weather: Weather) returns (reply: Reply)
      requires setup.limit == limit
      modifies this
      ensures var room := Count(old(counts), setup.tenantOf(r)) < limit;
              && Legal(setup, old(Now(r, Arrived)), Script(r, room, weather))
              && Now(r, Done) == Play(setup, old(Now(r, Arrived)), Script(r, room, weather))
              && reply == ReplyOf(room, weather)
    {
      hide Legal, Play, Script, Attempted, Finished;
      ScriptPlays(setup, Now(r, Arrived), r, Count(counts, setup.tenantOf(r)) < limit, weather);
      var concurrencyIncremented, owned;
      reply, concurrencyIncremented, owned := Try(r, setup, weather);
      Finally(r, setup, weather, concurrencyIncremented, owned);
    }
  }
}
