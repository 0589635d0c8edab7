/** Runs of several board processes over one store: reads never go back, and creation is idempotent. */
module BoardHistory {
  import opened Values
  import opened GlobalBlackboard

  /** A process holding `pending` has stamped a state and still has to write it. */
  datatype World = World(
    boards: map<Process, seq<Task>>,
    pending: map<Process, Task>,
    store: map<TaskName, Task>,
    clock: int)

  /** `loads` says whether the store answers, `rows` what a listing returns, `kept` whether a write lands. */
  datatype Move =
    | Get(process: Process, id: TaskName, loads: bool)
    | Create(process: Process, request: Request, id: TaskName, rows: seq<Task>)
    | List(process: Process, rows: seq<Task>)
    | Update(process: Process, id: TaskName, loads: bool, status: Status, subStatus: Option<string>)
    | Persist(process: Process, kept: bool)
    | Tick(seconds: nat)

  function BoardOf(w: World, p: Process): seq<Task> {
    if p in w.boards then w.boards[p] else []
  }

  function Load(w: World, id: TaskName, loads: bool): Option<Task> {
    if loads && id in w.store then Some(w.store[id]) else None
  }

  /** No process knows the name: what a generated identifier guarantees. */
  ghost predicate Unused(w: World, id: TaskName) {
    && id !in w.store
    && (forall p :: p in w.boards ==> Lookup(w.boards[p], id).None?)
    && (forall p :: p in w.pending ==> w.pending[p].id != id)
  }

  /** The rows of a listing come from the store; a store that fails gives none. */
  ghost predicate FromStore(w: World, rows: seq<Task>) {
    forall row :: row in rows ==> row.id in w.store && w.store[row.id] == row
  }

  /** A process does one thing at a time. */
  ghost predicate Enabled(w: World, m: Move) {
    match m
    case Get(p, _, _) => p !in w.pending
    case Create(p, _, id, rows) =>
      p !in w.pending && Unused(w, id) && FromStore(w, rows)
    case List(p, rows) => p !in w.pending && FromStore(w, rows)
    case Update(p, _, _, _, _) => p !in w.pending
    case Persist(p, _) => p in w.pending
    case Tick(_) => true
  }

  function Answer(w: World, m: Move): Creation
    requires m.Create?
  {
    CreateTask(BoardOf(w, m.process), m.rows, m.request, m.id, w.clock)
  }

  ghost function Do(w: World, m: Move): World
    requires Enabled(w, m)
  {
    match m
    case Get(p, id, loads) => w.(boards := w.boards[p := GetTask(BoardOf(w, p), id, Load(w, id, loads)).board])
    case Create(p, _, _, _) =>
      (match Answer(w, m)
       case Created(task) => w.(boards := w.boards[p := Put(BoardOf(w, p), task)], pending := w.pending[p := task])
       case _ => w)
    case List(_, _) => w
    case Update(p, id, loads, status, subStatus) =>
      var found := GetTask(BoardOf(w, p), id, Load(w, id, loads));
      if found.task.None? then w.(boards := w.boards[p := found.board])
      else
        var task := Stamped(found.task.value, status, subStatus, w.clock);
        w.(boards := w.boards[p := Put(found.board, task)], pending := w.pending[p := task])
    case Persist(p, kept) =>
      var task := w.pending[p];
      w.(pending := w.pending - {p}, store := if kept then w.store[task.id := task] else w.store)
    case Tick(seconds) => w.(clock := w.clock + seconds)
  }

  ghost predicate Legal(w: World, moves: seq<Move>)
    decreases |moves|
  {
    moves == [] || (Enabled(w, moves[0]) && Legal(Do(w, moves[0]), moves[1..]))
  }

  ghost function Play(w: World, moves: seq<Move>): World
    requires Legal(w, moves)
    decreases |moves|
  {
    if moves == [] then w else Play(Do(w, moves[0]), moves[1..])
  }

  function Beginning(clock: int): World {
    World(map[], map[], map[], clock)
  }

  // ----- Reads never go back -----

  /** Every state was stamped by the shared clock, and every row is filed under its own name. */
  ghost predicate InTime(w: World) {
    && (forall p, id :: p in w.boards && Lookup(w.boards[p], id).Some? ==> Lookup(w.boards[p], id).value.updatedAt <= w.clock)
    && (forall p :: p in w.pending ==> w.pending[p].updatedAt <= w.clock)
    && (forall id :: id in w.store ==> w.store[id].updatedAt <= w.clock && w.store[id].id == id)
  }

  datatype Reading = Reading(process: Process, id: TaskName, at: int)

  ghost function ReadingOf(w: World, m: Move): seq<Reading>
    requires Enabled(w, m)
  {
    if !m.Get? then []
    else
      var found := GetTask(BoardOf(w, m.process), m.id, Load(w, m.id, m.loads)).task;
      if found.None? then [] else [Reading(m.process, m.id, found.value.updatedAt)]
  }

  ghost function Readings(w: World, moves: seq<Move>): seq<Reading>
    requires Legal(w, moves)
    decreases |moves|
  {
    if moves == [] then [] else ReadingOf(w, moves[0]) + Readings(Do(w, moves[0]), moves[1..])
  }

  ghost predicate NotBefore(earlier: Option<Task>, later: Option<Task>) {
    earlier.Some? ==> later.Some? && earlier.value.updatedAt <= later.value.updatedAt
  }

  /** What reading one task does to the cache. */
  lemma GetTaskEffect(board: seq<Task>, id: TaskName, loaded: Option<Task>, other: TaskName)
    requires loaded.Some? ==> loaded.value.id == id
    ensures var found := GetTask(board, id, loaded);
            && Lookup(found.board, id) == found.task
            && NotBefore(Lookup(board, other), Lookup(found.board, other))
            && (other != id ==> Lookup(found.board, other) == Lookup(board, other))
            && (found.task == Lookup(board, id) || found.task == loaded)
            && (loaded.Some? ==> found.task.Some?)
  {
    if loaded.Some? {
      LookupOfPut(board, loaded.value, id);
      LookupOfPut(board, loaded.value, other);
    }
  }

  lemma DoKeepsTime(w: World, m: Move)
    requires InTime(w) && Enabled(w, m)
    ensures InTime(Do(w, m))
  {
    hide Lookup, Put, GetTask, FindByKey, Known;
    var w' := Do(w, m);
    forall p, id | p in w'.boards && Lookup(w'.boards[p], id).Some?
      ensures Lookup(w'.boards[p], id).value.updatedAt <= w'.clock
    {
      BoardTime(w, m, p, id);
    }
    if m.Update? { GetTaskEffect(BoardOf(w, m.process), m.id, Load(w, m.id, m.loads), m.id); }
  }

  lemma BoardTime(w: World, m: Move, p: Process, id: TaskName)
    requires InTime(w) && Enabled(w, m)
    requires p in Do(w, m).boards && Lookup(Do(w, m).boards[p], id).Some?
    ensures Lookup(Do(w, m).boards[p], id).value.updatedAt <= Do(w, m).clock
  {
    hide Lookup, Put, GetTask, FindByKey, Known;
    var board := BoardOf(w, p);
    assert p !in w.boards ==> Lookup(board, id).None? by { EmptyLookup(id); }
    if m.Get? || m.Update? {
      GetTaskEffect(BoardOf(w, m.process), m.id, Load(w, m.id, m.loads), id);
      var found := GetTask(BoardOf(w, m.process), m.id, Load(w, m.id, m.loads));
      if m.Update? && found.task.Some? {
        LookupOfPut(found.board, Stamped(found.task.value, m.status, m.subStatus, w.clock), id);
      }
    } else if m.Create? && Answer(w, m).Created? {
      LookupOfPut(BoardOf(w, m.process), Answer(w, m).task, id);
    }
  }

  lemma EmptyLookup(id: TaskName)
    ensures Lookup([], id).None?
  {
  }

  /** A cached state is only ever replaced by one at least as new. */
  lemma DoKeepsCache(w: World, m: Move, p: Process, id: TaskName)
    requires InTime(w) && Enabled(w, m)
    ensures NotBefore(Lookup(BoardOf(w, p), id), Lookup(BoardOf(Do(w, m), p), id))
    ensures ReadingOf(w, m) != [] && m.process == p && m.id == id ==>
              && Lookup(BoardOf(Do(w, m), p), id).Some?
              && ReadingOf(w, m) == [Reading(p, id, Lookup(BoardOf(Do(w, m), p), id).value.updatedAt)]
  {
    hide Lookup, Put, GetTask, FindByKey, Known;
    if !m.Tick? && m.process == p {
      var board := BoardOf(w, p);
      if m.Get? || m.Update? {
        GetTaskEffect(board, m.id, Load(w, m.id, m.loads), id);
        var found := GetTask(board, m.id, Load(w, m.id, m.loads));
        if m.Update? && found.task.Some? {
          UpdateKeepsCache(w, m, id);
        }
      } else if m.Create? && Answer(w, m).Created? {
        LookupOfPut(board, Answer(w, m).task, id);
        assert p in w.boards || Lookup(board, id).None? by { EmptyLookup(id); }
      }
    }
  }

  lemma UpdateKeepsCache(w: World, m: Move, id: TaskName)
    requires InTime(w) && Enabled(w, m) && m.Update?
    ensures NotBefore(Lookup(BoardOf(w, m.process), id), Lookup(BoardOf(Do(w, m), m.process), id))
  {
    hide Lookup, Put, GetTask;
    var board, p := BoardOf(w, m.process), m.process;
    var found := GetTask(board, m.id, Load(w, m.id, m.loads));
    GetTaskEffect(board, m.id, Load(w, m.id, m.loads), id);
    if found.task.Some? {
      LookupHasName(found.board, m.id);
      GetTaskEffect(board, m.id, Load(w, m.id, m.loads), m.id);
      LookupOfPut(found.board, Stamped(found.task.value, m.status, m.subStatus, w.clock), id);
      assert p in w.boards || Lookup(board, id).None? by { EmptyLookup(id); }
    }
  }

  lemma {:induction false} LaterReadings(w: World, moves: seq<Move>, k: nat)
    requires InTime(w) && Legal(w, moves) && k < |Readings(w, moves)|
    ensures var r := Readings(w, moves)[k]; var cached := Lookup(BoardOf(w, r.process), r.id);
            cached.Some? ==> cached.value.updatedAt <= r.at
    decreases |moves|
  {
    hide Do, Enabled, Lookup, BoardOf, ReadingOf, InTime;
    var m, r := moves[0], Readings(w, moves)[k];
    var now, w' := ReadingOf(w, m), Do(w, m);
    DoKeepsTime(w, m);
    DoKeepsCache(w, m, r.process, r.id);
    AtMostOneReading(w, m);
    if k < |now| {
    } else {
      LaterReadings(w', moves[1..], k - |now|);
    }
  }

  lemma AtMostOneReading(w: World, m: Move)
    requires Enabled(w, m)
    ensures |ReadingOf(w, m)| <= 1
    ensures ReadingOf(w, m) != [] ==> m.Get? && ReadingOf(w, m)[0].process == m.process && ReadingOf(w, m)[0].id == m.id
  {
  }

  /** In every run of any number of processes, whatever the order in which states reach the store and
      whichever loads and writes fail, the states one process reads of one task never go back in time. */
  lemma {:induction false} ReadsNeverGoBack(w: World, moves: seq<Move>, i: nat, j: nat)
    requires InTime(w) && Legal(w, moves) && i < j < |Readings(w, moves)|
    requires Readings(w, moves)[i].process == Readings(w, moves)[j].process
    requires Readings(w, moves)[i].id == Readings(w, moves)[j].id
    ensures Readings(w, moves)[i].at <= Readings(w, moves)[j].at
    decreases |moves|
  {
    hide Do, Enabled, Lookup, BoardOf, ReadingOf, InTime;
    var m, r := moves[0], Readings(w, moves)[i];
    var now, w' := ReadingOf(w, m), Do(w, m);
    DoKeepsTime(w, m);
    AtMostOneReading(w, m);
    if i < |now| {
      DoKeepsCache(w, m, r.process, r.id);
      LaterReadings(w', moves[1..], j - |now|);
    } else {
      ReadsNeverGoBack(w', moves[1..], i - |now|, j - |now|);
    }
  }

  // ----- Idempotent creation -----

  predicate SameKey(a: Task, b: Task) {
    a.tenant == b.tenant && a.workspace == b.workspace && a.key == b.key
  }

  /** The parts of a task that no update touches. */
  predicate SameOrigin(a: Task, b: Task) {
    a.id == b.id && SameKey(a, b) && a.fingerprint == b.fingerprint
  }

  ghost predicate KeysDiffer(board: seq<Task>) {
    forall i, j :: 0 <= i < j < |board| ==>
      board[i].id != board[j].id && (board[i].key != "" ==> !SameKey(board[i], board[j]))
  }

  /** The board has the task, perhaps in another state. */
  ghost predicate Covers(board: seq<Task>, task: Task) {
    exists i :: 0 <= i < |board| && SameOrigin(board[i], task)
  }

  /** `next` holds the same tasks, perhaps in other states. */
  ghost predicate SameTasks(board: seq<Task>, next: seq<Task>) {
    |board| == |next| && forall i :: 0 <= i < |board| ==> SameOrigin(board[i], next[i])
  }

  /** What the only process knows: every row and every unwritten state is of a task that it caches, and
      no two of its tasks share a name or a key. */
  ghost predicate Sole(w: World, p: Process) {
    && KeysDiffer(BoardOf(w, p))
    && (forall id :: id in w.store ==> w.store[id].id == id && Covers(BoardOf(w, p), w.store[id]))
    && (p in w.pending ==> Covers(BoardOf(w, p), w.pending[p]))
  }

  lemma {:induction false} PutKnown(board: seq<Task>, task: Task, i: nat)
    requires KeysDiffer(board) && i < |board| && SameOrigin(board[i], task)
    ensures SameTasks(board, Put(board, task))
  {
    if i > 0 {
      PutKnown(board[1..], task, i - 1);
      assert board[0].id != task.id;
      var next := Put(board[1..], task);
      assert Put(board, task) == [board[0]] + next;
      forall j | 0 < j < |board| ensures SameOrigin(board[j], Put(board, task)[j]) {
        assert SameOrigin(board[1..][j - 1], next[j - 1]);
      }
    } else {
      assert Put(board, task) == [task] + board[1..];
    }
  }

  lemma CoveredPut(board: seq<Task>, task: Task)
    requires KeysDiffer(board) && Covers(board, task)
    ensures SameTasks(board, Put(board, task))
  {
    var i :| 0 <= i < |board| && SameOrigin(board[i], task);
    PutKnown(board, task, i);
  }

  lemma {:induction false} KnownIsSameTasks(board: seq<Task>, rows: seq<Task>)
    requires KeysDiffer(board) && forall row :: row in rows ==> Covers(board, row)
    ensures SameTasks(board, Known(board, rows))
    decreases |rows|
  {
    if rows != [] {
      var next := PutIfNewer(board, rows[0]);
      CoveredPut(board, rows[0]);
      assert SameTasks(board, next);
      forall row | row in rows[1..] ensures Covers(next, row) { CoversOn(board, next, row); }
      KnownIsSameTasks(next, rows[1..]);
    }
  }

  lemma CoversOn(board: seq<Task>, next: seq<Task>, row: Task)
    requires SameTasks(board, next) && Covers(board, row)
    ensures Covers(next, row)
  {
    var i :| 0 <= i < |board| && SameOrigin(board[i], row);
    assert SameOrigin(next[i], row);
  }

  ghost predicate SameAnswer(a: Option<Task>, b: Option<Task>) {
    (a.None? <==> b.None?) && (a.Some? ==> SameOrigin(a.value, b.value))
  }

  lemma {:induction false} SameFind(board: seq<Task>, next: seq<Task>, tenant: string, workspace: string, key: string)
    requires SameTasks(board, next)
    ensures SameAnswer(FindByKey(board, tenant, workspace, key), FindByKey(next, tenant, workspace, key))
  {
    if board != [] {
      assert SameOrigin(board[0], next[0]);
      forall i | 0 <= i < |board[1..]| ensures SameOrigin(board[1..][i], next[1..][i]) {
        assert SameOrigin(board[i + 1], next[i + 1]);
      }
      SameFind(board[1..], next[1..], tenant, workspace, key);
    }
  }

  lemma {:induction false} FindOnGrown(board: seq<Task>, task: Task, tenant: string, workspace: string, key: string)
    ensures var found := FindByKey(board, tenant, workspace, key);
            FindByKey(board + [task], tenant, workspace, key) ==
            if found.Some? then found
            else if Trim(key) != "" && Matches(task, tenant, workspace, key) then Some(task) else None
  {
    if board == [] {
      assert [] + [task] == [task];
    } else {
      assert (board + [task])[1..] == board[1..] + [task];
      FindOnGrown(board[1..], task, tenant, workspace, key);
    }
  }

  lemma {:induction false} NoneFound(board: seq<Task>, tenant: string, workspace: string, key: string)
    requires Trim(key) != "" && FindByKey(board, tenant, workspace, key).None?
    ensures forall i :: 0 <= i < |board| ==> !Matches(board[i], tenant, workspace, key)
  {
    if board != [] {
      NoneFound(board[1..], tenant, workspace, key);
      assert forall i :: 0 < i < |board| ==> board[i] == board[1..][i - 1];
    }
  }

  lemma {:induction false} PutUnknown(board: seq<Task>, task: Task)
    requires Lookup(board, task.id).None?
    ensures Put(board, task) == board + [task]
    ensures forall i :: 0 <= i < |board| ==> board[i].id != task.id
  {
    if board != [] {
      PutUnknown(board[1..], task);
      assert forall i :: 0 < i < |board| ==> board[i] == board[1..][i - 1];
      assert [board[0]] + (board[1..] + [task]) == board + [task];
    }
  }

  lemma LookupCovered(board: seq<Task>, id: TaskName)
    requires Lookup(board, id).Some?
    ensures Covers(board, Lookup(board, id).value)
  {
    LookupHasName(board, id);
    var i :| 0 <= i < |board| && board[i] == Lookup(board, id).value;
    assert SameOrigin(board[i], Lookup(board, id).value);
  }

  /** What a move makes of the board, apart from states. */
  lemma BoardAfter(w: World, p: Process, m: Move)
    requires Sole(w, p) && Enabled(w, m) && (m.Tick? || m.process == p)
    ensures var board, next := BoardOf(w, p), BoardOf(Do(w, m), p);
            if m.Create? && Answer(w, m).Created?
            then next == board + [Answer(w, m).task] && Answer(w, m).task.id == m.id && (forall i :: 0 <= i < |board| ==> board[i].id != m.id)
            else SameTasks(board, next)
  {
    hide Lookup, FindByKey, Known, Put, KeysDiffer, Covers, Matches;
    var board := BoardOf(w, p);
    if m.Create? && Answer(w, m).Created? {
      assert Lookup(board, m.id).None? by { EmptyLookup(m.id); }
      PutUnknown(board, Answer(w, m).task);
    } else if m.Get? || m.Update? {
      var loaded := Load(w, m.id, m.loads);
      var found := GetTask(board, m.id, loaded);
      if loaded.Some? { CoveredPut(board, loaded.value); }
      if m.Update? && found.task.Some? {
        GetTaskEffect(board, m.id, loaded, m.id);
        LookupCovered(found.board, m.id);
        UpdateIsCovered(board, found.board, Stamped(found.task.value, m.status, m.subStatus, w.clock), found.task.value);
      }
    }
  }

  lemma UpdateIsCovered(board: seq<Task>, next: seq<Task>, stamped: Task, task: Task)
    requires KeysDiffer(board) && SameTasks(board, next) && Covers(next, task) && SameOrigin(task, stamped)
    ensures SameTasks(board, Put(next, stamped))
  {
    var i :| 0 <= i < |next| && SameOrigin(next[i], task);
    assert SameOrigin(next[i], stamped);
    assert Covers(next, stamped);
    assert KeysDiffer(next) by { KeysStayApart(board, next); }
    CoveredPut(next, stamped);
  }

  lemma KeysStayApart(board: seq<Task>, next: seq<Task>)
    requires KeysDiffer(board) && SameTasks(board, next)
    ensures KeysDiffer(next)
  {
    forall i, j | 0 <= i < j < |next|
      ensures next[i].id != next[j].id && (next[i].key != "" ==> !SameKey(next[i], next[j]))
    {
      assert SameOrigin(board[i], next[i]) && SameOrigin(board[j], next[j]);
    }
  }

  /** What a listing finds is what the cache holds: rows change states, not keys. */
  lemma FoundInCache(w: World, p: Process, m: Move)
    requires Sole(w, p) && Enabled(w, m) && m.Create? && m.process == p
    ensures var r := m.request;
            SameAnswer(FindByKey(BoardOf(w, p), r.tenant, r.workspace, r.key),
                       FindByKey(Known(BoardOf(w, p), m.rows), r.tenant, r.workspace, r.key))
  {
    hide Known, FindByKey;
    KnownIsSameTasks(BoardOf(w, p), m.rows);
    SameFind(BoardOf(w, p), Known(BoardOf(w, p), m.rows), m.request.tenant, m.request.workspace, m.request.key);
  }

  lemma KeysDifferOnGrown(board: seq<Task>, task: Task)
    requires KeysDiffer(board)
    requires forall i :: 0 <= i < |board| ==> board[i].id != task.id && (task.key != "" ==> !SameKey(board[i], task))
    ensures KeysDiffer(board + [task])
  {
    forall i, j | 0 <= i < j < |board + [task]|
      ensures (board + [task])[i].id != (board + [task])[j].id
      ensures (board + [task])[i].key != "" ==> !SameKey((board + [task])[i], (board + [task])[j])
    {
      assert j < |board| || (board + [task])[j] == task;
    }
  }

  lemma CoversOnGrown(board: seq<Task>, task: Task, row: Task)
    requires Covers(board, row) || SameOrigin(task, row)
    ensures Covers(board + [task], row)
  {
    if Covers(board, row) {
      var i :| 0 <= i < |board| && SameOrigin(board[i], row);
      assert SameOrigin((board + [task])[i], row);
    } else {
      assert SameOrigin((board + [task])[|board|], row);
    }
  }

  lemma NewKey(w: World, p: Process, m: Move)
    requires Sole(w, p) && Enabled(w, m) && m.Create? && m.process == p && Answer(w, m).Created?
    requires forall i :: 0 <= i < |BoardOf(w, p)| ==> BoardOf(w, p)[i].id != m.id
    ensures KeysDiffer(BoardOf(w, p) + [Answer(w, m).task])
  {
    var board, r := BoardOf(w, p), m.request;
    FoundInCache(w, p, m);
    if Trim(r.key) != "" { NoneFound(board, r.tenant, r.workspace, r.key); }
    KeysDifferOnGrown(board, Answer(w, m).task);
  }

  lemma SoleStays(w: World, p: Process, m: Move)
    requires Sole(w, p) && Enabled(w, m) && (m.Tick? || m.process == p)
    ensures Sole(Do(w, m), p)
  {
    hide Lookup, FindByKey, Known, Put, KeysDiffer, Covers, SameTasks, GetTask;
    var board, w' := BoardOf(w, p), Do(w, m);
    var next := BoardOf(w', p);
    BoardAfter(w, p, m);
    if m.Create? && Answer(w, m).Created? {
      var task := Answer(w, m).task;
      NewKey(w, p, m);
      forall id | id in w.store ensures Covers(next, w.store[id]) { CoversOnGrown(board, task, w.store[id]); }
      CoversOnGrown(board, task, task);
    } else {
      KeysStayApart(board, next);
      forall id | id in w.store ensures Covers(next, w.store[id]) { CoversOn(board, next, w.store[id]); }
      if p in w.pending { CoversOn(board, next, w.pending[p]); }
      if m.Update? && p in w'.pending { StampedIsCovered(w, p, m); }
    }
  }

  lemma StampedIsCovered(w: World, p: Process, m: Move)
    requires Sole(w, p) && Enabled(w, m) && m.Update? && m.process == p && p in Do(w, m).pending
    ensures Covers(BoardOf(Do(w, m), p), Do(w, m).pending[p])
  {
    hide Lookup, Put, GetTask;
    var loaded := Load(w, m.id, m.loads);
    var found := GetTask(BoardOf(w, p), m.id, loaded);
    GetTaskEffect(BoardOf(w, p), m.id, loaded, m.id);
    LookupHasName(found.board, m.id);
    var task := Stamped(found.task.value, m.status, m.subStatus, w.clock);
    LookupOfPut(found.board, task, task.id);
    LookupCovered(Put(found.board, task), task.id);
  }

  predicate By(p: Process, moves: seq<Move>) {
    forall m :: m in moves ==> m.Tick? || m.process == p
  }

  /** Once a key is taken it stays with its task. */
  lemma {:induction false} KeyStaysTaken(w: World, p: Process, moves: seq<Move>, request: Request)
    requires Sole(w, p) && Legal(w, moves) && By(p, moves)
    requires FindByKey(BoardOf(w, p), request.tenant, request.workspace, request.key).Some?
    ensures Sole(Play(w, moves), p)
    ensures SameAnswer(FindByKey(BoardOf(w, p), request.tenant, request.workspace, request.key),
                       FindByKey(BoardOf(Play(w, moves), p), request.tenant, request.workspace, request.key))
    decreases |moves|
  {
    hide Do, FindByKey, Sole, SameTasks, Enabled, BoardOf;
    if moves != [] {
      var m := moves[0];
      var board, next := BoardOf(w, p), BoardOf(Do(w, m), p);
      BoardAfter(w, p, m);
      SoleStays(w, p, m);
      if m.Create? && Answer(w, m).Created? {
        FindOnGrown(board, Answer(w, m).task, request.tenant, request.workspace, request.key);
      } else {
        SameFind(board, next, request.tenant, request.workspace, request.key);
      }
      KeyStaysTaken(Do(w, m), p, moves[1..], request);
    }
  }

  /** Two requests for the same task: everything but the fingerprint agrees. */
  predicate SameRequest(a: Request, b: Request) {
    a.tenant == b.tenant && a.workspace == b.workspace && Trim(a.key) == Trim(b.key) != ""
  }

  /** In a run of one process, whatever it does in between and whichever loads, listings and writes fail,
      a second request with the same key never creates a task, and if neither is refused both name the
      same one. */
  lemma CreationIsIdempotent(w: World, p: Process, first: Move, between: seq<Move>, second: Move)
    requires Sole(w, p) && first.Create? && second.Create? && By(p, [first, second] + between)
    requires Legal(w, [first] + between) && Enabled(Play(w, [first] + between), second)
    requires SameRequest(first.request, second.request)
    ensures var one, two := Answer(w, first), Answer(Play(w, [first] + between), second);
            && !two.Created?
            && (one.Created? && two.Reused? ==> two.id == one.task.id)
            && (one.Reused? && two.Reused? ==> two.id == one.id)
  {
    hide FindByKey, Known, Sole, SameTasks, Enabled, Do, Legal, Play, BoardOf;
    var r := first.request;
    FirstTakesKey(w, p, first, between);
    KeyStaysTaken(Do(w, first), p, between, r);
    FindIgnoresBlanks(BoardOf(Play(w, [first] + between), p), r, second.request);
    FoundInCache(Play(w, [first] + between), p, second);
  }

  lemma {:induction false} FindIgnoresBlanks(board: seq<Task>, a: Request, b: Request)
    requires SameRequest(a, b)
    ensures FindByKey(board, a.tenant, a.workspace, a.key) == FindByKey(board, b.tenant, b.workspace, b.key)
  {
    if board != [] { FindIgnoresBlanks(board[1..], a, b); }
  }

  lemma FirstTakesKey(w: World, p: Process, first: Move, between: seq<Move>)
    requires Sole(w, p) && first.Create? && first.process == p && Trim(first.request.key) != ""
    requires Legal(w, [first] + between)
    ensures Enabled(w, first) && Sole(Do(w, first), p) && Legal(Do(w, first), between)
    ensures Play(w, [first] + between) == Play(Do(w, first), between)
    ensures var r, one := first.request, Answer(w, first);
            var found := FindByKey(BoardOf(Do(w, first), p), r.tenant, r.workspace, r.key);
            && found.Some?
            && (one.Created? ==> found.value == one.task)
            && (one.Reused? ==> found.value.id == one.id)
  {
    hide FindByKey, Known, SameTasks, Put, Lookup, Sole;
    var r, board, next := first.request, BoardOf(w, p), BoardOf(Do(w, first), p);
    assert ([first] + between)[1..] == between;
    SoleStays(w, p, first);
    BoardAfter(w, p, first);
    FoundInCache(w, p, first);
    if Answer(w, first).Created? {
      FindOnGrown(board, Answer(w, first).task, r.tenant, r.workspace, r.key);
    } else {
      SameFind(board, next, r.tenant, r.workspace, r.key);
    }
  }

  /** The same request again: it is given its task back exactly if its fingerprint is blank or carries
      no outer blanks, since the stored fingerprint is stripped and the incoming one is not. */
  lemma RepeatIsReusedIff(w: World, p: Process, first: Move, between: seq<Move>, again: Move)
    requires Sole(w, p) && first.Create? && again.Create? && By(p, [first, again] + between)
    requires Legal(w, [first] + between) && Enabled(Play(w, [first] + between), again)
    requires again.request == first.request && Trim(first.request.key) != "" && Answer(w, first).Created?
    ensures var sent := first.request.fingerprint;
            Answer(Play(w, [first] + between), again) == Reused(first.id) <==> Trim(sent) == "" || Trim(sent) == sent
  {
    hide FindByKey, Known, Sole, SameTasks, Enabled, Do, Legal, Play, BoardOf;
    FirstTakesKey(w, p, first, between);
    KeyStaysTaken(Do(w, first), p, between, first.request);
    FoundInCache(Play(w, [first] + between), p, again);
  }

  /** The hypothesis of both holds from the beginning on. */
  lemma {:induction false} SoleThroughout(clock: int, p: Process, moves: seq<Move>)
    requires Legal(Beginning(clock), moves) && By(p, moves)
    ensures Sole(Play(Beginning(clock), moves), p)
  {
    SoleFrom(Beginning(clock), p, moves);
  }

  lemma {:induction false} SoleFrom(w: World, p: Process, moves: seq<Move>)
    requires Sole(w, p) && Legal(w, moves) && By(p, moves)
    ensures Sole(Play(w, moves), p)
    decreases |moves|
  {
    hide Do, Sole, Enabled;
    if moves != [] {
      SoleStays(w, p, moves[0]);
      SoleFrom(Do(w, moves[0]), p, moves[1..]);
    }
  }
}
