/** Slot accounting of the sandbox. Many executions share the per-tenant counters and the registry of
    running containers; each execution checks the counter, increments it, starts a container and, in a
    `finally`, cleans up. Every access to shared state is one atomic move, and moves interleave freely. */
module SandboxSlots {

  type Tenant = string

  /** An execution, named by its trace id; its container and its code file carry the same name. */
  type Run = nat

  /** Where an execution stands. `slot` is `concurrency_incremented`; `owned` says that the start
      returned, so that `container` and `code_file_path` are set. */
  datatype Stage =
    | Arrived
    | Checked
    | Reserved
    | Prepared
    | Launched
    | Registered
    | Running
    | Closing(slot: bool, owned: bool)
    | Cleaned(slot: bool)
    | Forgotten(slot: bool)
    | Done

  /** `Refuse` is a denial or a failed validation before the check; `Stop` ends the `try`, whether the run
      succeeded or something raised. */
  datatype Move =
    | Refuse(run: Run)
    | Check(run: Run)
    | Increment(run: Run)
    | Prepare(run: Run)
    | Launch(run: Run)
    | Register(run: Run)
    | Return(run: Run)
    | Stop(run: Run)
    | Cleanup(run: Run, fileRemoved: bool, containerRemoved: bool)
    | Unregister(run: Run)
    | Release(run: Run)

  datatype Setup = Setup(limit: int, tenantOf: Run -> Tenant)

  datatype State = State(
    stages: map<Run, Stage>,
    counts: map<Tenant, int>,
    containers: map<Run, Run>,
    live: set<Run>,
    files: set<Run>)

  function Count(counts: map<Tenant, int>, t: Tenant): int {
    if t in counts then counts[t] else 0
  }

  function Incremented(counts: map<Tenant, int>, t: Tenant): map<Tenant, int> {
    counts[t := Count(counts, t) + 1]
  }

  /** An absent counter stays absent, and one that would reach zero is dropped. */
  function Decremented(counts: map<Tenant, int>, t: Tenant): map<Tenant, int> {
    if t !in counts then counts
    else if counts[t] - 1 <= 0 then counts - {t}
    else counts[t := counts[t] - 1]
  }

  predicate Enabled(s: State, m: Move) {
    m.run in s.stages &&
    var stage := s.stages[m.run];
    match m
    case Refuse(_) | Check(_) => stage.Arrived?
    case Increment(_) => stage.Checked?
    case Prepare(_) => stage.Reserved?
    case Launch(_) => stage.Prepared?
    case Register(_) => stage.Launched?
    case Return(_) => stage.Registered?
    case Stop(_) => stage.Reserved? || stage.Prepared? || stage.Registered? || stage.Running?
    case Cleanup(_, _, _) => stage.Closing?
    case Unregister(_) => stage.Cleaned?
    case Release(_) => stage.Forgotten?
  }

  function At(s: State, run: Run, stage: Stage): State {
    s.(stages := s.stages[run := stage])
  }

  function Do(setup: Setup, s: State, m: Move): State
    requires Enabled(s, m)
  {
    var t := setup.tenantOf(m.run);
    match m
    case Refuse(r) => At(s, r, Closing(false, false))
    case Check(r) => At(s, r, if Count(s.counts, t) >= setup.limit then Closing(false, false) else Checked)
    case Increment(r) => At(s, r, Reserved).(counts := Incremented(s.counts, t))
    case Prepare(r) => At(s, r, Prepared).(files := s.files + {r})
    case Launch(r) => At(s, r, Launched).(live := s.live + {r})
    case Register(r) => At(s, r, Registered).(containers := s.containers[r := r])
    case Return(r) => At(s, r, Running)
    case Stop(r) => At(s, r, Closing(true, s.stages[r].Running?))
    case Cleanup(r, fileRemoved, containerRemoved) =>
      var owned := s.stages[r].owned;
      At(s, r, Cleaned(s.stages[r].slot)).(
        files := if owned && fileRemoved then s.files - {r} else s.files,
        live := if owned && containerRemoved then s.live - {r} else s.live)
    case Unregister(r) => At(s, r, Forgotten(s.stages[r].slot)).(containers := s.containers - {r})
    case Release(r) =>
      At(s, r, Done).(counts := if s.stages[r].slot then Decremented(s.counts, t) else s.counts)
  }

  predicate Legal(setup: Setup, s: State, moves: seq<Move>)
    decreases |moves|
  {
    moves == [] || (Enabled(s, moves[0]) && Legal(setup, Do(setup, s, moves[0]), moves[1..]))
  }

  function Play(setup: Setup, s: State, moves: seq<Move>): State
    requires Legal(setup, s, moves)
    decreases |moves|
  {
    if moves == [] then s else Play(setup, Do(setup, s, moves[0]), moves[1..])
  }

  /** Before anything runs. */
  predicate Fresh(s: State) {
    && (forall r :: r in s.stages ==> s.stages[r].Arrived?)
    && s.counts == map[] && s.containers == map[] && s.live == {} && s.files == {}
  }

  // ----- Conservation -----

  predicate HoldsSlot(stage: Stage) {
    match stage
    case Reserved | Prepared | Launched | Registered | Running => true
    case Closing(slot, _) => slot
    case Cleaned(slot) => slot
    case Forgotten(slot) => slot
    case _ => false
  }

  /** The executions of a tenant between their increment and their decrement. */
  ghost function Holders(setup: Setup, s: State, t: Tenant): set<Run> {
    set r | r in s.stages && setup.tenantOf(r) == t && HoldsSlot(s.stages[r])
  }

  /** The executions of a tenant between their check and their increment. */
  ghost function Deciding(setup: Setup, s: State, t: Tenant): set<Run> {
    set r | r in s.stages && setup.tenantOf(r) == t && s.stages[r].Checked?
  }

  ghost predicate Balanced(setup: Setup, s: State, t: Tenant) {
    && Count(s.counts, t) == |Holders(setup, s, t)|
    && (t in s.counts ==> s.counts[t] > 0)
  }

  lemma MoveOfAnother(setup: Setup, s: State, m: Move, t: Tenant)
    requires Enabled(s, m) && setup.tenantOf(m.run) != t
    ensures Holders(setup, Do(setup, s, m), t) == Holders(setup, s, t)
    ensures Deciding(setup, Do(setup, s, m), t) == Deciding(setup, s, t)
    ensures Count(Do(setup, s, m).counts, t) == Count(s.counts, t)
    ensures t in Do(setup, s, m).counts <==> t in s.counts
  {
  }

  lemma MoveOfOne(setup: Setup, s: State, m: Move)
    requires Enabled(s, m)
    ensures var s', t := Do(setup, s, m), setup.tenantOf(m.run);
            && Holders(setup, s', t) == Holders(setup, s, t) - {m.run} + (if HoldsSlot(s'.stages[m.run]) then {m.run} else {})
            && Deciding(setup, s', t) == Deciding(setup, s, t) - {m.run} + (if s'.stages[m.run].Checked? then {m.run} else {})
  {
  }

  lemma Membership(setup: Setup, s: State, r: Run)
    requires r in s.stages
    ensures r in Holders(setup, s, setup.tenantOf(r)) <==> HoldsSlot(s.stages[r])
    ensures r in Deciding(setup, s, setup.tenantOf(r)) <==> s.stages[r].Checked?
  {
  }

  /** The counter moves exactly with the slot. */
  lemma CountsFollowSlots(setup: Setup, s: State, m: Move)
    requires Enabled(s, m)
    ensures var s', t := Do(setup, s, m), setup.tenantOf(m.run);
            var before, after := HoldsSlot(s.stages[m.run]), HoldsSlot(s'.stages[m.run]);
            s'.counts == if before == after then s.counts
                         else if after then Incremented(s.counts, t) else Decremented(s.counts, t)
  {
  }

  lemma DoKeepsBalance(setup: Setup, s: State, m: Move, t: Tenant)
    requires Enabled(s, m) && Balanced(setup, s, t)
    ensures Balanced(setup, Do(setup, s, m), t)
  {
    hide Holders, Deciding, Do;
    if setup.tenantOf(m.run) == t {
      Membership(setup, s, m.run);
      MoveOfOne(setup, s, m);
      CountsFollowSlots(setup, s, m);
    } else {
      MoveOfAnother(setup, s, m, t);
    }
  }

  /** Under every interleaving a tenant's counter is the number of its executions between increment
      and decrement, and it is absent exactly when there is none. */
  lemma {:induction false} CounterCountsHolders(setup: Setup, s: State, moves: seq<Move>, t: Tenant)
    requires Legal(setup, s, moves)
    requires Fresh(s) || Balanced(setup, s, t)
    ensures Balanced(setup, Play(setup, s, moves), t)
    ensures t in Play(setup, s, moves).counts <==> Holders(setup, Play(setup, s, moves), t) != {}
    decreases |moves|
  {
    assert Balanced(setup, s, t) by {
      if Fresh(s) { assert Holders(setup, s, t) == {}; }
    }
    if moves != [] {
      DoKeepsBalance(setup, s, moves[0], t);
      CounterCountsHolders(setup, Do(setup, s, moves[0]), moves[1..], t);
    }
  }

  // ----- The limit -----

  /** All along, at most `w` executions of the tenant sit between check and increment. */
  ghost predicate WindowWithin(setup: Setup, s: State, moves: seq<Move>, t: Tenant, w: nat)
    requires Legal(setup, s, moves)
    decreases |moves|
  {
    && |Deciding(setup, s, t)| <= w
    && (moves != [] ==> WindowWithin(setup, Do(setup, s, moves[0]), moves[1..], t, w))
  }

  ghost predicate Bounded(setup: Setup, s: State, t: Tenant, w: nat) {
    var load := Count(s.counts, t) + |Deciding(setup, s, t)|;
    load == 0 || load <= setup.limit - 1 + w
  }

  lemma DoKeepsBound(setup: Setup, s: State, m: Move, t: Tenant, w: nat)
    requires Enabled(s, m) && Balanced(setup, s, t) && Bounded(setup, s, t, w)
    requires |Deciding(setup, Do(setup, s, m), t)| <= w
    ensures Bounded(setup, Do(setup, s, m), t, w)
  {
    hide Holders, Deciding;
    if setup.tenantOf(m.run) == t {
      Membership(setup, s, m.run);
      MoveOfOne(setup, s, m);
    } else {
      MoveOfAnother(setup, s, m, t);
    }
  }

  /** A counter never exceeds limit - 1 + w, if at most `w` executions decide at the same time. */
  lemma {:induction false} CounterIsBounded(setup: Setup, s: State, moves: seq<Move>, t: Tenant, w: nat)
    requires Legal(setup, s, moves) && WindowWithin(setup, s, moves, t, w)
    requires Fresh(s) || (Balanced(setup, s, t) && Bounded(setup, s, t, w))
    ensures var n := Count(Play(setup, s, moves).counts, t); n == 0 || n <= setup.limit - 1 + w
    decreases |moves|
  {
    assert Balanced(setup, s, t) && Bounded(setup, s, t, w) by {
      if Fresh(s) { assert Holders(setup, s, t) == {} == Deciding(setup, s, t); }
    }
    if moves != [] {
      DoKeepsBalance(setup, s, moves[0], t);
      DoKeepsBound(setup, s, moves[0], t, w);
      CounterIsBounded(setup, Do(setup, s, moves[0]), moves[1..], t, w);
    }
  }

  /** Reservations made one at a time never exceed the limit. */
  lemma SerialReservationsKeepTheLimit(setup: Setup, s: State, moves: seq<Move>, t: Tenant)
    requires Fresh(s) && Legal(setup, s, moves) && WindowWithin(setup, s, moves, t, 1)
    ensures Count(Play(setup, s, moves).counts, t) <= if setup.limit > 0 then setup.limit else 0
  {
    CounterIsBounded(setup, s, moves, t, 1);
  }

  // ----- The bound is reached -----

  function CheckAll(lo: nat, hi: nat): seq<Move>
    requires lo <= hi
    decreases hi - lo
  {
    if lo == hi then [] else [Check(lo)] + CheckAll(lo + 1, hi)
  }

  function IncrementAll(lo: nat, hi: nat): seq<Move>
    requires lo <= hi
    decreases hi - lo
  {
    if lo == hi then [] else [Increment(lo)] + IncrementAll(lo + 1, hi)
  }

  function ReserveAll(lo: nat, hi: nat): seq<Move>
    requires lo <= hi
    decreases hi - lo
  {
    if lo == hi then [] else [Check(lo), Increment(lo)] + ReserveAll(lo + 1, hi)
  }

  /** Runs below `reserved` hold a slot, those from there to `checked` decide, the rest have not begun. */
  function StageAt(r: Run, reserved: nat, checked: nat): Stage {
    if r < reserved then Reserved else if r < checked then Checked else Arrived
  }

  function Front(n: nat, reserved: nat, checked: nat, t: Tenant): State {
    State(map r: nat | r < n :: StageAt(r, reserved, checked),
          if reserved == 0 then map[] else map[t := reserved], map[], {}, {})
  }

  lemma FrontWindow(setup: Setup, n: nat, reserved: nat, checked: nat, t: Tenant)
    requires reserved <= checked <= n && forall r :: setup.tenantOf(r) == t
    ensures |Deciding(setup, Front(n, reserved, checked, t), t)| == checked - reserved
    decreases checked
  {
    var d := Deciding(setup, Front(n, reserved, checked, t), t);
    if checked == reserved {
      assert d == {};
    } else {
      FrontWindow(setup, n, reserved, checked - 1, t);
      assert d == Deciding(setup, Front(n, reserved, checked - 1, t), t) + {checked - 1};
    }
  }

  ghost predicate Reaches(setup: Setup, s: State, moves: seq<Move>, t: Tenant, w: nat, goal: int) {
    Legal(setup, s, moves) && WindowWithin(setup, s, moves, t, w) && Count(Play(setup, s, moves).counts, t) == goal
  }

  lemma ReachOn(setup: Setup, s: State, m: Move, rest: seq<Move>, t: Tenant, w: nat, goal: int)
    requires Enabled(s, m) && |Deciding(setup, s, t)| <= w && Reaches(setup, Do(setup, s, m), rest, t, w, goal)
    ensures Reaches(setup, s, [m] + rest, t, w, goal)
  {
    hide Do, Deciding;
    assert ([m] + rest)[1..] == rest;
  }

  lemma FrontMoves(setup: Setup, n: nat, reserved: nat, checked: nat, t: Tenant)
    requires reserved <= checked <= n && forall r :: setup.tenantOf(r) == t
    ensures var s := Front(n, reserved, checked, t);
            && (checked < n && reserved < setup.limit ==>
                  Enabled(s, Check(checked)) && Do(setup, s, Check(checked)) == Front(n, reserved, checked + 1, t))
            && (reserved < checked ==>
                  Enabled(s, Increment(reserved)) && Do(setup, s, Increment(reserved)) == Front(n, reserved + 1, checked, t))
  {
  }

  lemma {:induction false} IncrementsReach(setup: Setup, n: nat, reserved: nat, t: Tenant, w: nat)
    requires reserved <= n <= reserved + w && forall r :: setup.tenantOf(r) == t
    ensures Reaches(setup, Front(n, reserved, n, t), IncrementAll(reserved, n), t, w, n)
    decreases n - reserved
  {
    hide Do, Deciding, Legal, Play, WindowWithin, Front;
    var s := Front(n, reserved, n, t);
    FrontWindow(setup, n, reserved, n, t);
    if reserved < n {
      hide Reaches;
      FrontMoves(setup, n, reserved, n, t);
      IncrementsReach(setup, n, reserved + 1, t, w);
      ReachOn(setup, s, Increment(reserved), IncrementAll(reserved + 1, n), t, w, n);
    } else {
      AllReserved(setup, n, t, w);
    }
  }

  lemma AllReserved(setup: Setup, n: nat, t: Tenant, w: nat)
    requires forall r :: setup.tenantOf(r) == t
    ensures Reaches(setup, Front(n, n, n, t), [], t, w, n)
  {
    FrontWindow(setup, n, n, n, t);
  }

  lemma {:induction false} ChecksReach(setup: Setup, n: nat, reserved: nat, checked: nat, t: Tenant, w: nat)
    requires reserved <= checked <= n <= reserved + w && reserved < setup.limit
    requires forall r :: setup.tenantOf(r) == t
    ensures Reaches(setup, Front(n, reserved, checked, t), CheckAll(checked, n) + IncrementAll(reserved, n), t, w, n)
    decreases n - checked
  {
    hide Do, Deciding, Reaches, Front, IncrementAll;
    var s := Front(n, reserved, checked, t);
    var rest := IncrementAll(reserved, n);
    if checked < n {
      FrontWindow(setup, n, reserved, checked, t);
      FrontMoves(setup, n, reserved, checked, t);
      ChecksReach(setup, n, reserved, checked + 1, t, w);
      ReachOn(setup, s, Check(checked), CheckAll(checked + 1, n) + rest, t, w, n);
      assert CheckAll(checked, n) + rest == [Check(checked)] + (CheckAll(checked + 1, n) + rest);
    } else {
      IncrementsReach(setup, n, reserved, t, w);
      assert [] + rest == rest;
    }
  }

  lemma {:induction false} ReservationsReach(setup: Setup, n: nat, reserved: nat, t: Tenant, w: nat)
    requires w > 0 && n == setup.limit - 1 + w && reserved < setup.limit
    requires forall r :: setup.tenantOf(r) == t
    ensures Reaches(setup, Front(n, reserved, reserved, t),
                    ReserveAll(reserved, setup.limit - 1) + (CheckAll(setup.limit - 1, n) + IncrementAll(setup.limit - 1, n)),
                    t, w, n)
    decreases setup.limit - reserved
  {
    hide Do, Front, Deciding, Reaches, CheckAll, IncrementAll;
    var s := Front(n, reserved, reserved, t);
    var last := setup.limit - 1;
    var rest := CheckAll(last, n) + IncrementAll(last, n);
    if reserved < last {
      var s' := Front(n, reserved, reserved + 1, t);
      FrontMoves(setup, n, reserved, reserved, t);
      FrontMoves(setup, n, reserved, reserved + 1, t);
      FrontWindow(setup, n, reserved, reserved, t);
      FrontWindow(setup, n, reserved, reserved + 1, t);
      ReservationsReach(setup, n, reserved + 1, t, w);
      var tail := ReserveAll(reserved + 1, last) + rest;
      ReachOn(setup, s', Increment(reserved), tail, t, w, n);
      ReachOn(setup, s, Check(reserved), [Increment(reserved)] + tail, t, w, n);
      assert ReserveAll(reserved, last) + rest == [Check(reserved)] + ([Increment(reserved)] + tail);
    } else {
      ChecksReach(setup, n, last, last, t, w);
      assert [] + rest == rest;
    }
  }

  /** The bound is exact: for every limit and window some interleaving reaches it. With a window of two,
      a tenant is one above its limit. */
  lemma BoundIsReached(limit: int, t: Tenant, w: nat) returns (setup: Setup, s: State, moves: seq<Move>)
    requires limit > 0 && w > 0
    ensures Fresh(s) && setup.limit == limit
    ensures Reaches(setup, s, moves, t, w, limit - 1 + w)
  {
    setup := Setup(limit, r => t);
    var n := limit - 1 + w;
    s := Front(n, 0, 0, t);
    ReservationsReach(setup, n, 0, t, w);
    moves := ReserveAll(0, limit - 1) + (CheckAll(limit - 1, n) + IncrementAll(limit - 1, n));
  }

  // ----- What executions leave behind -----

  predicate InRegistry(stage: Stage) {
    stage.Registered? || stage.Running? || stage.Closing? || stage.Cleaned?
  }

  ghost predicate RegistryFits(s: State) {
    forall r :: r in s.containers ==> r in s.stages && InRegistry(s.stages[r])
  }

  lemma {:induction false} RegistryKeepsFitting(setup: Setup, s: State, moves: seq<Move>)
    requires Legal(setup, s, moves) && RegistryFits(s)
    ensures RegistryFits(Play(setup, s, moves))
    ensures Play(setup, s, moves).stages.Keys == s.stages.Keys
    decreases |moves|
  {
    if moves != [] { RegistryKeepsFitting(setup, Do(setup, s, moves[0]), moves[1..]); }
  }

  /** Once every execution has ended, no tenant has a counter and no container is registered. */
  lemma NothingIsLeft(setup: Setup, s: State, moves: seq<Move>)
    requires Fresh(s) && Legal(setup, s, moves)
    requires forall r :: r in s.stages ==> r in Play(setup, s, moves).stages && Play(setup, s, moves).stages[r].Done?
    ensures Play(setup, s, moves).counts == map[] && Play(setup, s, moves).containers == map[]
  {
    var end := Play(setup, s, moves);
    RegistryKeepsFitting(setup, s, moves);
    forall t ensures t !in end.counts {
      CounterCountsHolders(setup, s, moves, t);
      assert Holders(setup, end, t) == {};
    }
  }

  function Rank(stage: Stage): nat {
    match stage
    case Arrived => 0
    case Checked => 1
    case Reserved => 2
    case Prepared => 3
    case Launched => 4
    case Registered => 5
    case Running => 6
    case Closing(_, _) => 7
    case Cleaned(_) => 8
    case Forgotten(_) => 9
    case Done => 10
  }

  /** An execution only moves forward, so its preparation, its launch, its return and its cleanup each come once. */
  lemma {:induction false} AheadOnly(setup: Setup, s: State, moves: seq<Move>, m: Move)
    requires Legal(setup, s, moves) && m in moves && m.run in s.stages
    ensures m.Prepare? ==> Rank(s.stages[m.run]) <= 2
    ensures m.Launch? ==> Rank(s.stages[m.run]) <= 3
    ensures m.Return? ==> Rank(s.stages[m.run]) <= 5
    ensures m.Cleanup? ==> Rank(s.stages[m.run]) <= 7
    decreases |moves|
  {
    if m != moves[0] {
      assert m in moves[1..];
      AheadOnly(setup, Do(setup, s, moves[0]), moves[1..], m);
    }
  }

  /** The start of `r` returned and its cleanup could remove the container. */
  predicate Removed(s: State, moves: seq<Move>, r: Run) {
    && r in s.stages
    && (s.stages[r].Running? || s.stages[r] == Closing(true, true) || Return(r) in moves)
    && (Cleanup(r, true, true) in moves || Cleanup(r, false, true) in moves)
  }

  lemma NothingBehind(setup: Setup, s: State, moves: seq<Move>, r: Run)
    requires Legal(setup, s, moves) && r in s.stages
    ensures Rank(s.stages[r]) >= 3 ==> Prepare(r) !in moves
    ensures Rank(s.stages[r]) >= 4 ==> Launch(r) !in moves
    ensures Rank(s.stages[r]) >= 6 ==> Return(r) !in moves
    ensures Rank(s.stages[r]) >= 8 ==> forall file, container :: Cleanup(r, file, container) !in moves
  {
    forall m | m in moves && m.run == r
      ensures m.Prepare? ==> Rank(s.stages[r]) <= 2
      ensures m.Launch? ==> Rank(s.stages[r]) <= 3
      ensures m.Return? ==> Rank(s.stages[r]) <= 5
      ensures m.Cleanup? ==> Rank(s.stages[r]) <= 7
    {
      AheadOnly(setup, s, moves, m);
    }
  }

  predicate StaysLive(s: State, moves: seq<Move>, r: Run) {
    (r in s.live || Launch(r) in moves) && !Removed(s, moves, r)
  }

  lemma MoveKeepsFate(setup: Setup, s: State, m: Move, rest: seq<Move>, r: Run)
    requires Enabled(s, m) && Legal(setup, Do(setup, s, m), rest)
    requires r in s.stages && s.stages[r] != Closing(false, true)
    ensures r in Do(setup, s, m).stages && Do(setup, s, m).stages[r] != Closing(false, true)
    ensures StaysLive(s, [m] + rest, r) <==> StaysLive(Do(setup, s, m), rest, r)
  {
    hide Legal, Play;
    if m.run == r {
      NothingBehind(setup, Do(setup, s, m), rest, r);
    }
  }

  lemma NoMovesLeft(s: State, r: Run)
    ensures StaysLive(s, [], r) <==> r in s.live
  {
  }

  lemma {:induction false} LiveFrom(setup: Setup, s: State, moves: seq<Move>, r: Run)
    requires Legal(setup, s, moves) && r in s.stages && s.stages[r] != Closing(false, true)
    ensures r in Play(setup, s, moves).live <==> StaysLive(s, moves, r)
    decreases |moves|
  {
    hide Do, StaysLive;
    if moves == [] {
      NoMovesLeft(s, r);
    } else {
      assert moves == [moves[0]] + moves[1..];
      MoveKeepsFate(setup, s, moves[0], moves[1..], r);
      LiveFrom(setup, Do(setup, s, moves[0]), moves[1..], r);
    }
  }

  /** A container outlives its execution exactly if it was launched and the start did not return or the
      removal failed: a failure between launch and return leaks it, although its slot is given back. */
  lemma ContainerOutlivesIff(setup: Setup, s: State, moves: seq<Move>, r: Run)
    requires Fresh(s) && Legal(setup, s, moves) && r in s.stages
    ensures r in Play(setup, s, moves).live <==>
            && Launch(r) in moves
            && !(Return(r) in moves && (Cleanup(r, true, true) in moves || Cleanup(r, false, true) in moves))
  {
    LiveFrom(setup, s, moves, r);
  }

  /** The start of `r` returned and its cleanup could remove the code file. */
  predicate Deleted(s: State, moves: seq<Move>, r: Run) {
    && r in s.stages
    && (s.stages[r].Running? || s.stages[r] == Closing(true, true) || Return(r) in moves)
    && (Cleanup(r, true, true) in moves || Cleanup(r, true, false) in moves)
  }

  predicate StaysOnDisk(s: State, moves: seq<Move>, r: Run) {
    (r in s.files || Prepare(r) in moves) && !Deleted(s, moves, r)
  }

  lemma MoveKeepsFile(setup: Setup, s: State, m: Move, rest: seq<Move>, r: Run)
    requires Enabled(s, m) && Legal(setup, Do(setup, s, m), rest)
    requires r in s.stages && s.stages[r] != Closing(false, true)
    ensures StaysOnDisk(s, [m] + rest, r) <==> StaysOnDisk(Do(setup, s, m), rest, r)
  {
    hide Legal, Play;
    if m.run == r {
      NothingBehind(setup, Do(setup, s, m), rest, r);
    }
  }

  lemma NoMoreMoves(s: State, r: Run)
    ensures StaysOnDisk(s, [], r) <==> r in s.files
  {
  }

  lemma {:induction false} OnDiskFrom(setup: Setup, s: State, moves: seq<Move>, r: Run)
    requires Legal(setup, s, moves) && r in s.stages && s.stages[r] != Closing(false, true)
    ensures r in Play(setup, s, moves).files <==> StaysOnDisk(s, moves, r)
    decreases |moves|
  {
    hide Do, StaysOnDisk, StaysLive;
    if moves == [] {
      NoMoreMoves(s, r);
    } else {
      assert moves == [moves[0]] + moves[1..];
      MoveKeepsFate(setup, s, moves[0], moves[1..], r);
      MoveKeepsFile(setup, s, moves[0], moves[1..], r);
      OnDiskFrom(setup, Do(setup, s, moves[0]), moves[1..], r);
    }
  }

  /** A code file outlives its execution exactly if it was written and the start did not return or the
      file could not be removed; whether the container could be is no matter. */
  lemma FileOutlivesIff(setup: Setup, s: State, moves: seq<Move>, r: Run)
    requires Fresh(s) && Legal(setup, s, moves) && r in s.stages
    ensures r in Play(setup, s, moves).files <==>
            && Prepare(r) in moves
            && !(Return(r) in moves && (Cleanup(r, true, true) in moves || Cleanup(r, true, false) in moves))
  {
    OnDiskFrom(setup, s, moves, r);
  }
}
