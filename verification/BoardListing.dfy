/** A listing shows the newest states but caches none of them: when a later read falls behind it. */
module BoardListing {
  import opened Values
  import opened GlobalBlackboard
  import opened BoardHistory

  /** What was listed is not read any more, or an older state is. */
  predicate FallsBehind(listed: Option<Task>, read: Option<Task>) {
    listed.Some? && (read.None? || read.value.updatedAt < listed.value.updatedAt)
  }

  /** A listed row that neither the cache nor the load reaches. */
  predicate OutOfReach(row: Task, id: TaskName, cached: Option<Task>, loaded: Option<Task>) {
    row.id == id && Newer(row, cached) && Newer(row, loaded)
  }

  lemma {:induction false} InRows(rows: seq<Task>, id: TaskName, row: Task)
    ensures row in RowsOf(rows, id) <==> row in rows && row.id == id
  {
    if rows != [] {
      InRows(rows[1..], id, row);
      assert rows == [rows[0]] + rows[1..];
    }
  }

  /** What is listed of a task is its cached state or a row, and nothing of it is newer. */
  lemma ListedMeans(board: seq<Task>, rows: seq<Task>, id: TaskName)
    ensures var listed, cached := Lookup(Known(board, rows), id), Lookup(board, id);
            && (listed.Some? ==> listed == cached || (listed.value in rows && listed.value.id == id))
            && (forall row :: row in rows && row.id == id ==> listed.Some? && row.updatedAt <= listed.value.updatedAt)
  {
    var listed, cached := Lookup(Known(board, rows), id), Lookup(board, id);
    var candidates := AsList(cached) + RowsOf(rows, id);
    ListingIsNewest(board, rows, id);
    if listed.Some? {
      InRows(rows, id, listed.value);
      assert listed.value in candidates;
    }
    forall row | row in rows && row.id == id ensures listed.Some? && row.updatedAt <= listed.value.updatedAt {
      InRows(rows, id, row);
      assert row in candidates;
      NewestIsNewest(candidates, listed.value, row);
    }
  }

  lemma NewestIsNewest(candidates: seq<Task>, best: Task, task: Task)
    requires FirstNewest(candidates, best) && task in candidates
    ensures task.updatedAt <= best.updatedAt
  {
  }

  /** A read by a board that has moved on from the listing one falls behind the listing if and only if
      some listed row of the task is newer than the cached state and the load fails or gives something
      older than that row. */
  lemma ReadFallsBehindIff(board: seq<Task>, rows: seq<Task>, later: seq<Task>, id: TaskName, loaded: Option<Task>)
    requires NotBefore(Lookup(board, id), Lookup(later, id))
    ensures FallsBehind(Lookup(Known(board, rows), id), GetTask(later, id, loaded).task) <==>
            exists row :: row in rows && OutOfReach(row, id, Lookup(later, id), loaded)
  {
    hide Known, Lookup;
    var listed, cached := Lookup(Known(board, rows), id), Lookup(later, id);
    ListedMeans(board, rows, id);
    if FallsBehind(listed, GetTask(later, id, loaded).task) {
      assert OutOfReach(listed.value, id, cached, loaded);
    }
  }

  lemma {:induction false} CacheMovesOn(w: World, moves: seq<Move>, p: Process, id: TaskName)
    requires InTime(w) && Legal(w, moves)
    ensures InTime(Play(w, moves))
    ensures NotBefore(Lookup(BoardOf(w, p), id), Lookup(BoardOf(Play(w, moves), p), id))
    decreases |moves|
  {
    hide Do, Enabled, Lookup, BoardOf, InTime;
    if moves != [] {
      DoKeepsTime(w, moves[0]);
      DoKeepsCache(w, moves[0], p, id);
      CacheMovesOn(Do(w, moves[0]), moves[1..], p, id);
    }
  }

  /** In every run: one process lists, any processes do anything, and the first one reads a task. */
  lemma ReadAfterListingIff(w: World, list: Move, between: seq<Move>, read: Move)
    requires InTime(w) && list.List? && read.Get? && read.process == list.process
    requires Enabled(w, list) && Legal(Do(w, list), between) && Enabled(Play(Do(w, list), between), read)
    ensures var now, p, id := Play(Do(w, list), between), list.process, read.id;
            FallsBehind(Lookup(Known(BoardOf(w, p), list.rows), id), GetTask(BoardOf(now, p), id, Load(now, id, read.loads)).task) <==>
            exists row :: row in list.rows && OutOfReach(row, id, Lookup(BoardOf(now, p), id), Load(now, id, read.loads))
  {
    hide Known, Lookup, GetTask, InTime, Enabled, Load;
    var now, p, id := Play(Do(w, list), between), list.process, read.id;
    CacheMovesOn(w, between, p, id);
    ReadFallsBehindIff(BoardOf(w, p), list.rows, BoardOf(now, p), id, Load(now, id, read.loads));
  }

  // ----- A run in which it happens -----

  function First(request: Request, id: TaskName, clock: int): Task {
    Task(id, request.tenant, request.workspace, Pending, None, Trim(request.key), Trim(request.fingerprint), clock)
  }

  function Second(request: Request, id: TaskName, clock: int): Task {
    Stamped(First(request, id, clock), InProgress, None, clock + 1)
  }

  /** One process creates a task; another reads it; the first updates it; the other lists and reads again,
      with a load that fails. */
  function Moves(request: Request, id: TaskName, clock: int): seq<Move> {
    [Create(0, request, id, []), Persist(0, true), Move.Get(1, id, true), Tick(1),
     Update(0, id, false, InProgress, None), Persist(0, true), Move.List(1, [Second(request, id, clock)]), Move.Get(1, id, false)]
  }

  /** The world before each of these moves. */
  function Before(request: Request, id: TaskName, clock: int, i: nat): World {
    var one, two := First(request, id, clock), Second(request, id, clock);
    match i
    case 0 => Beginning(clock)
    case 1 => World(map[0 := [one]], map[0 := one], map[], clock)
    case 2 => World(map[0 := [one]], map[], map[id := one], clock)
    case 3 => World(map[0 := [one], 1 := [one]], map[], map[id := one], clock)
    case 4 => World(map[0 := [one], 1 := [one]], map[], map[id := one], clock + 1)
    case 5 => World(map[0 := [two], 1 := [one]], map[0 := two], map[id := one], clock + 1)
    case _ => World(map[0 := [two], 1 := [one]], map[], map[id := two], clock + 1)
  }

  lemma OnOne(task: Task, next: Task)
    requires task.id == next.id
    ensures Lookup([], task.id) == None && Put([], task) == [task]
    ensures Lookup([task], task.id) == Some(task) && Put([task], next) == [next]
  {
    assert [next] + [task][1..] == [next];
  }

  lemma MoveLeadsOn(request: Request, id: TaskName, clock: int, i: nat)
    requires i < 8
    ensures var w, m := Before(request, id, clock, i), Moves(request, id, clock)[i];
            Enabled(w, m) && Do(w, m) == Before(request, id, clock, i + 1)
  {
    hide Trim, Lookup, Put;
    var one, two := First(request, id, clock), Second(request, id, clock);
    var w := Before(request, id, clock, i);
    OnOne(one, one);
    OnOne(one, two);
    if i == 1 || i == 5 { assert w.pending - {0} == map[]; }
  }

  lemma {:induction false} RunFrom(request: Request, id: TaskName, clock: int, i: nat)
    requires i <= 8
    ensures Legal(Before(request, id, clock, i), Moves(request, id, clock)[i..])
    decreases 8 - i
  {
    hide Before, Do, Enabled;
    if i < 8 {
      MoveLeadsOn(request, id, clock, i);
      RunFrom(request, id, clock, i + 1);
      assert Moves(request, id, clock)[i..][1..] == Moves(request, id, clock)[i + 1..];
    }
  }

  lemma {:induction false} PlayUpTo(request: Request, id: TaskName, clock: int, i: nat, k: nat)
    requires i <= k <= 8
    ensures var moves := Moves(request, id, clock)[i..k];
            && Legal(Before(request, id, clock, i), moves)
            && Play(Before(request, id, clock, i), moves) == Before(request, id, clock, k)
    decreases k - i
  {
    hide Before, Do, Enabled;
    if i < k {
      MoveLeadsOn(request, id, clock, i);
      PlayUpTo(request, id, clock, i + 1, k);
      assert Moves(request, id, clock)[i..k][1..] == Moves(request, id, clock)[i + 1..k];
    }
  }

  /** A run from the beginning in which a process lists a newer state of a task than it reads next. */
  lemma ListingRunsAhead(request: Request, id: TaskName, clock: int)
    ensures var moves := Moves(request, id, clock);
            && Legal(Beginning(clock), moves) && Legal(Beginning(clock), moves[..6]) && moves[6].List? && moves[7].Get?
            && var w := Play(Beginning(clock), moves[..6]);
               FallsBehind(Lookup(Known(BoardOf(w, 1), moves[6].rows), id), GetTask(BoardOf(w, 1), id, Load(w, id, moves[7].loads)).task)
  {
    hide Do, Enabled, Trim;
    var moves, one, two := Moves(request, id, clock), First(request, id, clock), Second(request, id, clock);
    assert moves[0..6] == moves[..6] && moves[0..] == moves;
    RunFrom(request, id, clock, 0);
    PlayUpTo(request, id, clock, 0, 6);
    var w := Play(Beginning(clock), moves[..6]);
    assert w == Before(request, id, clock, 6) && BoardOf(w, 1) == [one];
    OnOne(one, two);
    ReadFallsBehindIff([one], [two], [one], id, None);
    assert OutOfReach(two, id, Some(one), None) && two in [two];
  }
}
