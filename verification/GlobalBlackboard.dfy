/** The board of task states: each process caches the states it has seen, in the order it met them, and
    shares one persisted row per task with all others. Loads may fail, rows may be missing or unusable,
    writes may be lost, and a write may land long after the state it carries was stamped. */
module GlobalBlackboard {
  import opened Values

  type TaskName = string
  type Process = nat

  datatype Status = Pending | InProgress | WaitingForHuman | Succeeded | FailedForGood | Archived

  datatype Task = Task(
    id: TaskName,
    tenant: string,
    workspace: string,
    status: Status,
    subStatus: Option<string>,
    key: string,
    fingerprint: string,
    updatedAt: int)

  // ----- The cache, a dictionary in insertion order -----

  function Lookup(board: seq<Task>, id: TaskName): Option<Task> {
    if board == [] then None
    else if board[0].id == id then Some(board[0])
    else Lookup(board[1..], id)
  }

  function Put(board: seq<Task>, task: Task): seq<Task> {
    if board == [] then [task]
    else if board[0].id == task.id then [task] + board[1..]
    else [board[0]] + Put(board[1..], task)
  }

  predicate Newer(candidate: Task, current: Option<Task>) {
    current.None? || candidate.updatedAt > current.value.updatedAt
  }

  function PutIfNewer(board: seq<Task>, task: Task): seq<Task> {
    if Newer(task, Lookup(board, task.id)) then Put(board, task) else board
  }

  datatype Found = Found(board: seq<Task>, task: Option<Task>)

  /** Reading one task: the persisted row wins if it is newer than the cached state. */
  function GetTask(board: seq<Task>, id: TaskName, loaded: Option<Task>): Found {
    if loaded.Some? && Newer(loaded.value, Lookup(board, id)) then Found(Put(board, loaded.value), loaded)
    else Found(board, Lookup(board, id))
  }

  /** All known tasks: the cache, then every usable row that is newer. */
  function Known(board: seq<Task>, rows: seq<Task>): seq<Task>
    decreases |rows|
  {
    if rows == [] then board else Known(PutIfNewer(board, rows[0]), rows[1..])
  }

  predicate Matches(task: Task, tenant: string, workspace: string, key: string) {
    task.tenant == tenant && task.workspace == workspace && task.key == Trim(key)
  }

  function FindByKey(known: seq<Task>, tenant: string, workspace: string, key: string): Option<Task> {
    if Trim(key) == "" || known == [] then None
    else if Matches(known[0], tenant, workspace, key) then Some(known[0])
    else FindByKey(known[1..], tenant, workspace, key)
  }

  datatype Request = Request(tenant: string, workspace: string, key: string, fingerprint: string)

  datatype Creation = Created(task: Task) | Reused(id: TaskName) | Mismatch

  function CreateTask(board: seq<Task>, rows: seq<Task>, request: Request, id: TaskName, now: int): Creation {
    var existing := FindByKey(Known(board, rows), request.tenant, request.workspace, request.key);
    if existing.None? then
      Created(Task(id, request.tenant, request.workspace, Pending, None, Trim(request.key), Trim(request.fingerprint), now))
    else if existing.value.fingerprint != "" && request.fingerprint != "" && existing.value.fingerprint != request.fingerprint then
      Mismatch
    else
      Reused(existing.value.id)
  }

  function Stamped(task: Task, status: Status, subStatus: Option<string>, now: int): Task {
    task.(status := status, subStatus := subStatus, updatedAt := now)
  }

  /** The board of one process. Methods run under its lock; `loaded` and `rows` are what the store
      answers, `None` and `[]` standing for a failing store too. */
  class Board {
    var taskStates: seq<Task>

    constructor ()
      ensures taskStates == []
    {
      taskStates := [];
    }

    method Find(id: TaskName) returns (task: Option<Task>)
      ensures task == Lookup(taskStates, id)
    {
      var i := 0;
      while i < |taskStates|
        invariant 0 <= i <= |taskStates|
        invariant Lookup(taskStates, id) == Lookup(taskStates[i..], id)
      {
        if taskStates[i].id == id { return Some(taskStates[i]); }
        assert taskStates[i..][1..] == taskStates[i + 1..];
        i := i + 1;
      }
      task := None;
    }

    method GetTaskState(id: TaskName, loaded: Option<Task>) returns (task: Option<Task>)
      modifies this
      ensures Found(taskStates, task) == GetTask(old(taskStates), id, loaded)
    {
      var cached := Find(id);
      if loaded.Some? && (cached.None? || loaded.value.updatedAt > cached.value.updatedAt) {
        taskStates := Put(taskStates, loaded.value);
        return loaded;
      }
      task := cached;
    }

    method IterKnownGlobalStates(rows: seq<Task>) returns (known: seq<Task>)
      ensures known == Known(taskStates, rows)
    {
      known := taskStates;
      var i := 0;
      while i < |rows|
        invariant 0 <= i <= |rows|
        invariant Known(known, rows[i..]) == Known(taskStates, rows)
      {
        assert rows[i..][1..] == rows[i + 1..];
        var current := Lookup(known, rows[i].id);
        if current.None? || rows[i].updatedAt > current.value.updatedAt { known := Put(known, rows[i]); }
        i := i + 1;
      }
    }

    method FindTaskByIdempotency(rows: seq<Task>, tenant: string, workspace: string, key: string) returns (task: Option<Task>)
      ensures task == FindByKey(Known(taskStates, rows), tenant, workspace, key)
    {
      if Trim(key) == "" { return None; }
      var known := IterKnownGlobalStates(rows);
      var i := 0;
      while i < |known|
        invariant 0 <= i <= |known|
        invariant FindByKey(known, tenant, workspace, key) == FindByKey(known[i..], tenant, workspace, key)
      {
        if Matches(known[i], tenant, workspace, key) { return Some(known[i]); }
        assert known[i..][1..] == known[i + 1..];
        i := i + 1;
      }
      task := None;
    }

    /** Creating a task; a created one is what the caller then persists. */
    method Create(rows: seq<Task>, request: Request, id: TaskName, now: int) returns (creation: Creation)
      modifies this
      ensures creation == CreateTask(old(taskStates), rows, request, id, now)
      ensures taskStates == if creation.Created? then Put(old(taskStates), creation.task) else old(taskStates)
    {
      var existing := FindTaskByIdempotency(rows, request.tenant, request.workspace, request.key);
      if existing.Some? {
        var known := existing.value.fingerprint;
        if known != "" && request.fingerprint != "" && known != request.fingerprint { return Mismatch; }
        return Reused(existing.value.id);
      }
      var task := Task(id, request.tenant, request.workspace, Pending, None, Trim(request.key), Trim(request.fingerprint), now);
      taskStates := Put(taskStates, task);
      creation := Created(task);
    }

    /** A status update; the stamped task is what the caller then persists. */
    method UpdateGlobalStatus(id: TaskName, loaded: Option<Task>, status: Status, subStatus: Option<string>, now: int)
      returns (task: Option<Task>)
      requires loaded.Some? ==> loaded.value.id == id
      modifies this
      ensures var found := GetTask(old(taskStates), id, loaded);
              && task == (if found.task.None? then None else Some(Stamped(found.task.value, status, subStatus, now)))
              && taskStates == (if task.None? then found.board else Put(found.board, task.value))
    {
      task := GetTaskState(id, loaded);
      if task.None? { return; }
      task := Some(task.value.(status := status, subStatus := subStatus, updatedAt := now));
      taskStates := Put(taskStates, task.value);
    }
  }

  // ----- Listing -----

  lemma {:induction false} LookupOfPut(board: seq<Task>, task: Task, id: TaskName)
    ensures Lookup(Put(board, task), id) == if id == task.id then Some(task) else Lookup(board, id)
  {
    if board != [] {
      if board[0].id == task.id {
        assert ([task] + board[1..])[1..] == board[1..];
      } else {
        assert ([board[0]] + Put(board[1..], task))[1..] == Put(board[1..], task);
        LookupOfPut(board[1..], task, id);
      }
    }
  }

  lemma {:induction false} LookupHasName(board: seq<Task>, id: TaskName)
    ensures Lookup(board, id).Some? ==> Lookup(board, id).value.id == id && Lookup(board, id).value in board
  {
    if board != [] { LookupHasName(board[1..], id); }
  }

  /** The rows of one task. */
  function RowsOf(rows: seq<Task>, id: TaskName): seq<Task> {
    if rows == [] then []
    else (if rows[0].id == id then [rows[0]] else []) + RowsOf(rows[1..], id)
  }

  /** `best` is the newest of the candidates, and the first of the newest. */
  ghost predicate FirstNewest(candidates: seq<Task>, best: Task) {
    exists i :: 0 <= i < |candidates| && candidates[i] == best
             && (forall j :: 0 <= j < i ==> candidates[j].updatedAt < best.updatedAt)
             && (forall j :: i < j < |candidates| ==> candidates[j].updatedAt <= best.updatedAt)
  }

  function AsList(task: Option<Task>): seq<Task> {
    if task.None? then [] else [task.value]
  }

  lemma FirstNewestStep(head: seq<Task>, next: Task, tail: seq<Task>, best: Task)
    requires |head| <= 1
    requires FirstNewest((if head != [] && next.updatedAt <= head[0].updatedAt then head else [next]) + tail, best)
    ensures FirstNewest(head + [next] + tail, best)
  {
    var old' := (if head != [] && next.updatedAt <= head[0].updatedAt then head else [next]) + tail;
    var new' := head + [next] + tail;
    var i :| 0 <= i < |old'| && old'[i] == best
             && (forall j :: 0 <= j < i ==> old'[j].updatedAt < best.updatedAt)
             && (forall j :: i < j < |old'| ==> old'[j].updatedAt <= best.updatedAt);
    if head != [] {
      var keeps := next.updatedAt <= head[0].updatedAt;
      var k := if keeps && i == 0 then 0 else i + 1;
      forall j | 0 <= j < k ensures new'[j].updatedAt < best.updatedAt {
        assert old'[0].updatedAt <= best.updatedAt;
        if j >= 2 { assert new'[j] == old'[j - 1]; }
      }
      forall j | k < j < |new'| ensures new'[j].updatedAt <= best.updatedAt {
        if j >= 2 { assert new'[j] == old'[j - 1]; }
      }
      assert new'[k] == best;
    } else {
      assert new' == old';
    }
  }

  /** What reading one row does to the candidates of a task. */
  lemma ListingStep(board: seq<Task>, row: Task, tail: seq<Task>, id: TaskName)
    ensures var before := AsList(Lookup(board, id)) + RowsOf([row], id) + tail;
            var after := AsList(Lookup(PutIfNewer(board, row), id)) + tail;
            && (before == [] <==> after == [])
            && (forall best :: FirstNewest(after, best) ==> FirstNewest(before, best))
  {
    hide FirstNewest, Put;
    var mine := AsList(Lookup(board, id));
    LookupOfPut(board, row, id);
    LookupHasName(board, id);
    assert [row][1..] == [];
    if row.id == id {
      assert RowsOf([row], id) == [row];
      forall best | FirstNewest(AsList(Lookup(PutIfNewer(board, row), id)) + tail, best)
        ensures FirstNewest(mine + [row] + tail, best)
      {
        FirstNewestStep(mine, row, tail, best);
      }
    } else {
      assert mine + [] == mine;
    }
  }

  lemma RowsOfCons(rows: seq<Task>, id: TaskName)
    requires rows != []
    ensures RowsOf(rows, id) == RowsOf([rows[0]], id) + RowsOf(rows[1..], id)
  {
    assert [rows[0]][1..] == [];
  }

  /** The listing holds, for each task, the newest of its cached state and its rows, the cached or
      earlier one on a tie; and nothing else. */
  lemma {:induction false} ListingIsNewest(board: seq<Task>, rows: seq<Task>, id: TaskName)
    ensures var candidates, listed := AsList(Lookup(board, id)) + RowsOf(rows, id), Lookup(Known(board, rows), id);
            && (listed.None? <==> candidates == [])
            && (listed.Some? ==> FirstNewest(candidates, listed.value))
    decreases |rows|
  {
    hide Lookup, PutIfNewer;
    var mine := AsList(Lookup(board, id));
    if rows == [] {
      assert mine + [] == mine;
      if mine != [] { OnlyOne(mine[0]); }
    } else {
      hide FirstNewest;
      ListingIsNewest(PutIfNewer(board, rows[0]), rows[1..], id);
      ListingStep(board, rows[0], RowsOf(rows[1..], id), id);
      RowsOfCons(rows, id);
      assert mine + RowsOf(rows, id) == mine + RowsOf([rows[0]], id) + RowsOf(rows[1..], id);
    }
  }

  lemma OnlyOne(task: Task)
    ensures FirstNewest([task], task)
  {
    assert [task][0] == task;
  }
}
