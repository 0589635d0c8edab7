/** What updating and creating a task leave behind, told by the states that are read afterwards. */
module BoardUpdates {
  import opened Values
  import opened ListLaws
  import opened GlobalBlackboard
  import opened BoardHistory

  /** The newer of the cached state and the row that is loaded, the cached one on a tie. */
  ghost predicate Newest(known: Task, cached: Option<Task>, loaded: Option<Task>) {
    || (cached == Some(known) && (loaded.Some? ==> loaded.value.updatedAt <= known.updatedAt))
    || (loaded == Some(known) && (cached.Some? ==> cached.value.updatedAt < known.updatedAt))
  }

  /** In every world: a process that updates a task it knows, lets the write land or not and reads the task
      again, reads the newest state with the new status, stamped with the time of the update, and with
      nothing else changed. */
  lemma UpdateIsRead(w: World, update: Move, known: Task, kept: bool, loads: bool)
    requires InTime(w) && update.Update? && Enabled(w, update)
    requires Newest(known, Lookup(BoardOf(w, update.process), update.id), Load(w, update.id, update.loads))
    ensures var p, id := update.process, update.id;
            && known.id == id
            && Legal(w, [update, Persist(p, kept)])
            && var now := Play(w, [update, Persist(p, kept)]);
               && Enabled(now, Move.Get(p, id, loads))
               && GetTask(BoardOf(now, p), id, Load(now, id, loads)).task
                  == Some(Task(id, known.tenant, known.workspace, update.status, update.subStatus, known.key, known.fingerprint, w.clock))
  {
    hide Lookup, Put;
    var p, id := update.process, update.id;
    var board, loaded := BoardOf(w, p), Load(w, id, update.loads);
    LookupHasName(board, id);
    GetTaskEffect(board, id, loaded, id);
    var found := GetTask(board, id, loaded);
    assert found.task == Some(known);
    var task := Task(id, known.tenant, known.workspace, update.status, update.subStatus, known.key, known.fingerprint, w.clock);
    LookupOfPut(found.board, task, id);
    var w1 := Do(w, update);
    assert w1.pending[p] == task && BoardOf(w1, p) == Put(found.board, task);
    TwoMoves(w, update, Persist(p, kept));
  }

  lemma TwoMoves(w: World, a: Move, b: Move)
    requires Enabled(w, a) && Enabled(Do(w, a), b)
    ensures Legal(w, [a, b]) && Play(w, [a, b]) == Do(Do(w, a), b)
  {
    hide Do, Enabled;
    assert [a, b][1..] == [b] && [b][1..] == [];
    assert Legal(Do(w, a), [b]) && Play(Do(w, a), [b]) == Do(Do(w, a), b);
  }

  /** A known task of the tenant and workspace that carries the stripped key of the request. */
  predicate Answers(task: Task, request: Request) {
    && Trim(request.key) != "" && task.key == Trim(request.key)
    && task.tenant == request.tenant && task.workspace == request.workspace
  }

  /** Two fingerprints that are both given and differ. */
  predicate Conflicts(task: Task, request: Request) {
    task.fingerprint != "" && request.fingerprint != "" && task.fingerprint != request.fingerprint
  }

  lemma {:induction false} FirstAnswer(known: seq<Task>, request: Request)
    ensures var found := FindByKey(known, request.tenant, request.workspace, request.key);
            && (found.None? ==> forall task :: task in known ==> !Answers(task, request))
            && (found.Some? ==> exists i :: IsFirst(known, request, i) && known[i] == found.value)
  {
    hide Trim;
    if Trim(request.key) != "" && known != [] {
      FirstAnswer(known[1..], request);
      assert known == [known[0]] + known[1..];
      if Answers(known[0], request) {
        assert IsFirst(known, request, 0);
      } else if FindByKey(known[1..], request.tenant, request.workspace, request.key).Some? {
        var i :| IsFirst(known[1..], request, i) && known[1..][i] == FindByKey(known[1..], request.tenant, request.workspace, request.key).value;
        assert IsFirst(known, request, i + 1) by {
          forall j | 0 <= j < i + 1 ensures !Answers(known[j], request) { assert j > 0 ==> known[j] == known[1..][j - 1]; }
        }
      }
    }
  }

  ghost predicate IsFirst(known: seq<Task>, request: Request, i: int) {
    0 <= i < |known| && Answers(known[i], request) && forall j :: 0 <= j < i ==> !Answers(known[j], request)
  }

  /** In every world: a task is created if and only if no known task answers the request, and it is then
      pending, stamped with the time, and filed under the stripped key and fingerprint; otherwise the first
      one that answers it decides: it conflicts, or it is the answer. */
  lemma CreationMeans(w: World, create: Move)
    requires create.Create? && Enabled(w, create)
    ensures var r, known := create.request, Known(BoardOf(w, create.process), create.rows);
            && (Answer(w, create).Created? <==> forall task :: task in known ==> !Answers(task, r))
            && (Answer(w, create).Created? ==>
                  Answer(w, create).task ==
                    Task(create.id, r.tenant, r.workspace, Pending, None, Trim(r.key), Trim(r.fingerprint), w.clock))
            && (!Answer(w, create).Created? ==>
                  exists i :: IsFirst(known, r, i) && Answer(w, create) == if Conflicts(known[i], r) then Mismatch else Reused(known[i].id))
  {
    hide Trim, Known, FindByKey;
    FirstAnswer(Known(BoardOf(w, create.process), create.rows), create.request);
  }
}
