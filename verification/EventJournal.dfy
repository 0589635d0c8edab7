/** The append-only journal behind the event cursor: in memory, mirrored into the state store. */
module EventJournal {
  import opened Values
  import opened EventCursor

  /** The journal of one task: its events in memory, if it has an entry there, and the stored mirror. */
  datatype Journal = Journal(mem: Option<seq<Event>>, mirror: seq<Event>)

  function AppendTo(j: Journal, event: Event, saves: bool): Journal {
    var events := (if j.mem.Some? then j.mem.value else []) + [event];
    Journal(Some(events), if saves then events else j.mirror)
  }

  function Restored(j: Journal, loads: bool): Journal {
    if j.mem.None? && loads && j.mirror != [] then j.(mem := Some(j.mirror)) else j
  }

  function Records(j: Journal): seq<Event> {
    if j.mem.Some? then j.mem.value else []
  }

  class EventJournal {
    var storage: map<(string, string), seq<Event>>
    var mirrors: map<(string, string), seq<Event>>

    /** A new process finds the mirrors of the last one. */
    constructor (mirrors: map<(string, string), seq<Event>>)
      ensures storage == map[] && this.mirrors == mirrors
    {
      storage, this.mirrors := map[], mirrors;
    }

    ghost function Of(key: (string, string)): Journal
      reads this
    {
      Journal(if key in storage then Some(storage[key]) else None, if key in mirrors then mirrors[key] else [])
    }

    /** `saves` says whether the best-effort mirroring succeeds. */
    method Append(tenant: string, task: string, event: Event, saves: bool)
      modifies this
      ensures Of((tenant, task)) == AppendTo(old(Of((tenant, task))), event, saves)
      ensures storage - {(tenant, task)} == old(storage) - {(tenant, task)}
      ensures mirrors - {(tenant, task)} == old(mirrors) - {(tenant, task)}
    {
      var key := (tenant, task);
      if key !in storage { storage := storage[key := []]; }
      storage := storage[key := storage[key] + [event]];
      if saves { mirrors := mirrors[key := storage[key]]; }
    }

    /** `loads` says whether the mirror can be loaded. */
    method Read(tenant: string, task: string, workspace: string, loads: bool) returns (rows: seq<Event>)
      modifies `storage
      ensures Of((tenant, task)) == Restored(old(Of((tenant, task))), loads)
      ensures storage - {(tenant, task)} == old(storage) - {(tenant, task)}
      ensures rows == Rows(Records(Of((tenant, task))), workspace)
    {
      hide Rows;
      var key := (tenant, task);
      var records := [];
      if key in storage {
        records := storage[key];
      } else {
        records := if loads && key in mirrors then mirrors[key] else [];
        if records != [] { storage := storage[key := records]; }
      }
      rows := ReadRows(records, workspace);
    }
  }

  datatype Operation = Appends(event: Event, saves: bool) | Reads(loads: bool)

  function Perform(j: Journal, operations: seq<Operation>): Journal
    decreases |operations|
  {
    if operations == [] then j
    else
      Perform(match operations[0]
              case Appends(event, saves) => AppendTo(j, event, saves)
              case Reads(loads) => Restored(j, loads), operations[1..])
  }

  function Events(operations: seq<Operation>): seq<Event> {
    if operations == [] then []
    else (if operations[0].Appends? then [operations[0].event] else []) + Events(operations[1..])
  }

  /** Once in memory, the journal is what it was and everything appended since. */
  lemma {:induction false} MemoryGrows(j: Journal, operations: seq<Operation>)
    requires j.mem.Some?
    ensures Perform(j, operations).mem == Some(j.mem.value + Events(operations))
    decreases |operations|
  {
    if operations == [] {
      assert j.mem.value + [] == j.mem.value;
    } else if operations[0].Appends? {
      var event, rest := operations[0].event, operations[1..];
      MemoryGrows(AppendTo(j, event, operations[0].saves), rest);
      assert (j.mem.value + [event]) + Events(rest) == j.mem.value + ([event] + Events(rest));
    } else {
      MemoryGrows(j, operations[1..]);
      assert [] + Events(operations[1..]) == Events(operations[1..]);
    }
  }

  /** Within one process a read returns everything appended, in order: the log that the cursor assumes. */
  lemma {:induction false} ReadsReturnTheLog(operations: seq<Operation>)
    ensures Records(Perform(Journal(None, []), operations)) == Events(operations)
    ensures Events(operations) == [] ==> Perform(Journal(None, []), operations) == Journal(None, [])
  {
    if operations != [] {
      var j, rest := Journal(None, []), operations[1..];
      if operations[0].Appends? {
        MemoryGrows(AppendTo(j, operations[0].event, operations[0].saves), rest);
        assert [] + [operations[0].event] == [operations[0].event];
      } else {
        ReadsReturnTheLog(rest);
        assert [] + Events(rest) == Events(rest);
      }
    }
  }

  // ----- What is mirrored -----

  lemma {:induction false} PerformSplits(j: Journal, a: seq<Operation>, b: seq<Operation>)
    ensures Perform(j, a + b) == Perform(Perform(j, a), b)
    decreases |a|
  {
    if a == [] {
      assert a + b == b;
    } else {
      assert (a + b)[1..] == a[1..] + b;
      PerformSplits(match a[0] case Appends(event, saves) => AppendTo(j, event, saves) case Reads(loads) => Restored(j, loads), a[1..], b);
    }
  }

  /** The last append that was mirrored is operation `k`. */
  ghost predicate LastSaved(operations: seq<Operation>, k: nat) {
    && k < |operations| && operations[k].Appends? && operations[k].saves
    && forall i :: k < i < |operations| ==> !(operations[i].Appends? && operations[i].saves)
  }

  lemma {:induction false} UnsavedKeepsMirror(j: Journal, operations: seq<Operation>)
    requires forall i :: 0 <= i < |operations| ==> !(operations[i].Appends? && operations[i].saves)
    ensures Perform(j, operations).mirror == j.mirror
    decreases |operations|
  {
    if operations != [] {
      UnsavedKeepsMirror(match operations[0] case Appends(event, saves) => AppendTo(j, event, saves) case Reads(loads) => Restored(j, loads),
                         operations[1..]);
    }
  }

  /** The mirror is what memory was right after the last append that was mirrored. */
  lemma MirrorIsLastSaved(j: Journal, operations: seq<Operation>, k: nat)
    requires LastSaved(operations, k)
    ensures Perform(j, operations).mirror == Records(Perform(j, operations[..k + 1]))
  {
    var before, last := operations[..k], [operations[k]];
    assert operations == operations[..k + 1] + operations[k + 1..] && operations[..k + 1] == before + last;
    PerformSplits(j, operations[..k + 1], operations[k + 1..]);
    PerformSplits(j, before, last);
    assert last[1..] == [];
    UnsavedKeepsMirror(Perform(j, operations[..k + 1]), operations[k + 1..]);
  }

  /** So a restarted process that reads first, reads what its predecessor had appended up to the last append that
      was mirrored; and nothing if none was. */
  lemma RestartReadsTheMirrored(operations: seq<Operation>)
    ensures var reopened := Journal(None, Perform(Journal(None, []), operations).mirror);
            || ((forall i :: 0 <= i < |operations| ==> !(operations[i].Appends? && operations[i].saves)) && Records(Restored(reopened, true)) == [])
            || exists k :: LastSaved(operations, k) && Records(Restored(reopened, true)) == Events(operations[..k + 1])
  {
    var j := Journal(None, []);
    if forall i :: 0 <= i < |operations| ==> !(operations[i].Appends? && operations[i].saves) {
      UnsavedKeepsMirror(j, operations);
    } else {
      var k := LastSavedExists(operations);
      MirrorIsLastSaved(j, operations, k);
      ReadsReturnTheLog(operations[..k + 1]);
    }
  }

  lemma {:induction false} LastSavedExists(operations: seq<Operation>) returns (k: nat)
    requires exists i :: 0 <= i < |operations| && operations[i].Appends? && operations[i].saves
    ensures LastSaved(operations, k)
  {
    var last := |operations| - 1;
    if operations[last].Appends? && operations[last].saves {
      k := last;
    } else {
      k := LastSavedExists(operations[..last]);
      assert operations[..last][k] == operations[k];
      forall i | k < i < |operations| ensures !(operations[i].Appends? && operations[i].saves) {
        if i < last { assert operations[..last][i] == operations[i]; }
      }
    }
  }

  /** The first operation that settles what memory holds is an append. */
  predicate AppendsFirst(operations: seq<Operation>) {
    operations != [] && (operations[0].Appends? || (!operations[0].loads && AppendsFirst(operations[1..])))
  }

  /** Across a restart the old events survive, to be read again, exactly if no append comes before the
      first successful load: `append` does not restore first. */
  lemma {:induction false} HistorySurvivesRestartIff(history: seq<Event>, operations: seq<Operation>)
    requires history != [] && history[0] !in Events(operations)
    ensures history <= Records(Restored(Perform(Journal(None, history), operations), true)) <==> !AppendsFirst(operations)
  {
    var j := Journal(None, history);
    if operations != [] {
      var rest := operations[1..];
      if operations[0].Appends? {
        var next := AppendTo(j, operations[0].event, operations[0].saves);
        MemoryGrows(next, rest);
        assert next.mem.value + Events(rest) == Events(operations);
        assert Events(operations)[0] in Events(operations);
      } else if operations[0].loads {
        MemoryGrows(Restored(j, true), rest);
      } else {
        assert forall e :: e in Events(rest) ==> e in Events(operations);
        HistorySurvivesRestartIff(history, rest);
      }
    }
  }
}
