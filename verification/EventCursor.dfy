/** The event journal of tasks and the cursor with which a client polls it. */
module EventCursor {
  import opened Values

  datatype Topic = StatusUpdate | GovernanceUpdate | TraceUpdate | ArtifactReady | TaskFinished | Internal(text: string)

  datatype Event = Event(id: string, topic: Topic, workspace: string, timestamp: int, status: string)

  datatype Item = Item(eventId: string, topic: Topic, timestamp: int, status: Option<string>)

  // ----- Polling -----

  function Rows(records: seq<Event>, workspace: string): seq<Event> {
    if records == [] then []
    else (if workspace == "" || records[0].workspace == workspace then [records[0]] else []) + Rows(records[1..], workspace)
  }

  /** The records behind the one with this id; nothing if there is none. */
  function After(records: seq<Event>, id: string): seq<Event> {
    if records == [] then []
    else if records[0].id == id then records[1..]
    else After(records[1..], id)
  }

  function Present(event: Event): seq<Item> {
    match event.topic
    case Internal(_) => []
    case StatusUpdate | TaskFinished =>
      [Item(event.id, event.topic, event.timestamp, if event.status == "" then None else Some(event.status))]
    case _ => [Item(event.id, event.topic, event.timestamp, None)]
  }

  function Visible(records: seq<Event>): seq<Item> {
    if records == [] then [] else Present(records[0]) + Visible(records[1..])
  }

  function Since(rows: seq<Event>, cursor: string): seq<Event> {
    if cursor == "" then rows else After(rows, cursor)
  }

  function NextCursor(items: seq<Item>, cursor: string): string {
    if items != [] then items[|items| - 1].eventId else cursor
  }

  /** One poll as it runs. */
  method BuildAnalysisEvents(records: seq<Event>, workspace: string, after: string)
      returns (items: seq<Item>, lastEventId: string)
    ensures items == Visible(Since(Rows(records, workspace), after))
    ensures lastEventId == NextCursor(items, after)
  {
    hide Rows, Visible, After;
    var rows := ReadRows(records, workspace);
    if after != "" { rows := SkipThrough(rows, after); }
    items := PresentAll(rows);
    lastEventId := if items != [] then items[|items| - 1].eventId else after;
  }

  method SkipThrough(rows: seq<Event>, after: string) returns (filtered: seq<Event>)
    ensures filtered == After(rows, after)
  {
    filtered := [];
    var seen := false;
    var i := 0;
    while i < |rows|
      invariant 0 <= i <= |rows|
      invariant !seen ==> filtered == [] && After(rows[i..], after) == After(rows, after)
      invariant seen ==> filtered + rows[i..] == After(rows, after)
    {
      assert rows[i..] == [rows[i]] + rows[i + 1..];
      if seen {
        filtered := filtered + [rows[i]];
      } else if rows[i].id == after {
        seen := true;
      }
      i := i + 1;
    }
  }

  method PresentAll(rows: seq<Event>) returns (items: seq<Item>)
    ensures items == Visible(rows)
  {
    hide Present;
    items := [];
    var i := 0;
    while i < |rows|
      invariant 0 <= i <= |rows|
      invariant items + Visible(rows[i..]) == Visible(rows)
    {
      assert rows[i..][1..] == rows[i + 1..];
      items := items + Present(rows[i]);
      i := i + 1;
    }
  }

  method ReadRows(records: seq<Event>, workspace: string) returns (rows: seq<Event>)
    ensures rows == Rows(records, workspace)
  {
    rows := [];
    var i := 0;
    while i < |records|
      invariant 0 <= i <= |records|
      invariant rows + Rows(records[i..], workspace) == Rows(records, workspace)
    {
      assert records[i..][1..] == records[i + 1..];
      if workspace == "" || records[i].workspace == workspace { rows := rows + [records[i]]; }
      i := i + 1;
    }
  }

  // ----- Exactly once -----

  datatype Act = Append(event: Event) | Poll

  /** A client of one workspace: what it was given so far, and its cursor. */
  datatype Client = Client(log: seq<Event>, cursor: string, got: seq<Item>)

  function Step(workspace: string, c: Client, act: Act): Client {
    match act
    case Append(event) => c.(log := c.log + [event])
    case Poll =>
      var items := Visible(Since(Rows(c.log, workspace), c.cursor));
      c.(cursor := NextCursor(items, c.cursor), got := c.got + items)
  }

  function Run(workspace: string, c: Client, acts: seq<Act>): Client
    decreases |acts|
  {
    if acts == [] then c else Run(workspace, Step(workspace, c, acts[0]), acts[1..])
  }

  /** Generated ids: none is empty and none comes twice. */
  ghost predicate Identified(rows: seq<Event>) {
    && (forall i :: 0 <= i < |rows| ==> rows[i].id != "")
    && (forall i, j :: 0 <= i < j < |rows| ==> rows[i].id != rows[j].id)
  }

  ghost predicate Known(rows: seq<Event>, id: string) {
    id == "" || exists i :: 0 <= i < |rows| && rows[i].id == id
  }

  /** What was delivered and what the next poll would deliver are together all visible events. */
  ghost predicate UpToDate(workspace: string, c: Client) {
    var rows := Rows(c.log, workspace);
    Known(rows, c.cursor) && c.got + Visible(Since(rows, c.cursor)) == Visible(rows)
  }

  lemma {:induction false} RowsOfSum(a: seq<Event>, b: seq<Event>, workspace: string)
    ensures Rows(a + b, workspace) == Rows(a, workspace) + Rows(b, workspace)
  {
    if a == [] {
      assert a + b == b;
    } else {
      assert (a + b)[1..] == a[1..] + b;
      RowsOfSum(a[1..], b, workspace);
    }
  }

  lemma {:induction false} VisibleOfSum(a: seq<Event>, b: seq<Event>)
    ensures Visible(a + b) == Visible(a) + Visible(b)
  {
    if a == [] {
      assert a + b == b;
    } else {
      assert (a + b)[1..] == a[1..] + b;
      VisibleOfSum(a[1..], b);
    }
  }

  lemma {:induction false} RowsAreRecords(records: seq<Event>, workspace: string)
    requires Identified(records)
    ensures Identified(Rows(records, workspace))
    ensures forall e :: e in Rows(records, workspace) ==> e in records
  {
    if records != [] {
      RowsAreRecords(records[1..], workspace);
      forall e | e in Rows(records[1..], workspace) ensures e.id != records[0].id {
        var i :| 0 <= i < |records[1..]| && records[1..][i] == e;
        assert records[i + 1] == e;
      }
    }
  }

  lemma {:induction false} AfterOfSum(a: seq<Event>, b: seq<Event>, id: string)
    requires exists i :: 0 <= i < |a| && a[i].id == id
    ensures After(a + b, id) == After(a, id) + b
  {
    assert (a + b)[1..] == a[1..] + b;
    if a[0].id != id {
      assert exists i :: 0 <= i < |a[1..]| && a[1..][i].id == id by {
        var i :| 0 <= i < |a| && a[i].id == id;
        assert a[1..][i - 1].id == id;
      }
      AfterOfSum(a[1..], b, id);
    }
  }

  lemma AtMostOneItem(event: Event)
    ensures |Present(event)| <= 1 && (Present(event) != [] ==> Present(event)[0].eventId == event.id)
  {
  }

  /** The last visible record is followed by invisible ones only, whatever lies between the visible. */
  lemma {:induction false} NothingAfterLast(rows: seq<Event>)
    requires Identified(rows) && Visible(rows) != []
    ensures var last := NextCursor(Visible(rows), "");
            Known(rows, last) && last != "" && Visible(After(rows, last)) == []
  {
    hide Present;
    var rest := Visible(rows[1..]);
    var last := NextCursor(Visible(rows), "");
    AtMostOneItem(rows[0]);
    if rest == [] {
      assert Visible(rows) == Present(rows[0]);
      assert rows[0].id == last;
    } else {
      NothingAfterLast(rows[1..]);
      assert last == NextCursor(rest, "");
      var i :| 0 <= i < |rows[1..]| && rows[1..][i].id == last;
      assert rows[i + 1].id == last;
    }
  }

  /** The records behind a cursor end with all the records behind a later one. */
  lemma {:induction false} AfterTail(rows: seq<Event>, id: string, last: string)
    requires Identified(rows) && exists i :: 0 <= i < |After(rows, id)| && After(rows, id)[i].id == last
    ensures After(rows, last) == After(After(rows, id), last)
  {
    if rows[0].id == id {
      var i :| 0 <= i < |rows[1..]| && rows[1..][i].id == last;
      assert rows[i + 1].id == last;
    } else {
      AfterTail(rows[1..], id, last);
      LaterThanHead(rows, id, last);
    }
  }

  lemma {:induction false} AfterIsSuffix(rows: seq<Event>, id: string)
    ensures |After(rows, id)| <= |rows| && After(rows, id) == rows[|rows| - |After(rows, id)|..]
    ensures rows != [] ==> |After(rows, id)| < |rows|
  {
    if rows != [] { AfterIsSuffix(rows[1..], id); }
  }

  lemma LaterThanHead(rows: seq<Event>, id: string, last: string)
    requires rows != [] && Identified(rows) && rows[0].id != id
    requires exists i :: 0 <= i < |After(rows[1..], id)| && After(rows[1..], id)[i].id == last
    ensures rows[0].id != last
  {
    AfterIsSuffix(rows[1..], id);
    var i :| 0 <= i < |After(rows[1..], id)| && After(rows[1..], id)[i].id == last;
    assert rows[1..][|rows[1..]| - |After(rows[1..], id)| + i].id == last;
  }

  lemma KnownInSuffix(rows: seq<Event>, cursor: string, last: string)
    requires Known(rows, cursor) && Known(Since(rows, cursor), last) && last != ""
    ensures Known(rows, last)
  {
    var since := Since(rows, cursor);
    if cursor != "" { AfterIsSuffix(rows, cursor); }
    var i :| 0 <= i < |since| && since[i].id == last;
    assert rows[|rows| - |since| + i].id == last;
  }

  lemma IdentifiedSince(rows: seq<Event>, cursor: string)
    requires Identified(rows)
    ensures Identified(Since(rows, cursor))
  {
    if cursor != "" { AfterIsSuffix(rows, cursor); }
  }

  lemma PollCatchesUp(workspace: string, c: Client)
    requires UpToDate(workspace, c) && Identified(Rows(c.log, workspace))
    ensures UpToDate(workspace, Step(workspace, c, Poll))
    ensures Step(workspace, c, Poll).got == Visible(Rows(c.log, workspace))
  {
    hide Rows, Visible, After, Identified;
    var rows := Rows(c.log, workspace);
    var since := Since(rows, c.cursor);
    if Visible(since) != [] {
      var last := NextCursor(Visible(since), "");
      IdentifiedSince(rows, c.cursor);
      NothingAfterLast(since);
      if c.cursor != "" { AfterTail(rows, c.cursor, last); }
      KnownInSuffix(rows, c.cursor, last);
    }
  }

  lemma SinceOfSum(rows: seq<Event>, more: seq<Event>, cursor: string)
    requires Known(rows, cursor)
    ensures Since(rows + more, cursor) == Since(rows, cursor) + more
    ensures Known(rows + more, cursor)
  {
    if cursor != "" {
      AfterOfSum(rows, more, cursor);
      var i :| 0 <= i < |rows| && rows[i].id == cursor;
      assert (rows + more)[i].id == cursor;
    }
  }

  lemma AppendKeepsUp(workspace: string, c: Client, event: Event)
    requires UpToDate(workspace, c)
    ensures UpToDate(workspace, Step(workspace, c, Append(event)))
  {
    hide Rows, Visible, Since, Known;
    var rows, more := Rows(c.log, workspace), Rows([event], workspace);
    RowsOfSum(c.log, [event], workspace);
    SinceOfSum(rows, more, c.cursor);
    VisibleOfSum(rows, more);
    VisibleOfSum(Since(rows, c.cursor), more);
    assert c.got + (Visible(Since(rows, c.cursor)) + Visible(more)) == (c.got + Visible(Since(rows, c.cursor))) + Visible(more);
  }

  function Appended(acts: seq<Act>): seq<Event> {
    if acts == [] then []
    else (if acts[0].Append? then [acts[0].event] else []) + Appended(acts[1..])
  }

  lemma {:induction false} StaysUpToDate(workspace: string, c: Client, acts: seq<Act>)
    requires UpToDate(workspace, c) && Identified(c.log + Appended(acts))
    ensures var end := Run(workspace, c, acts);
            UpToDate(workspace, end) && end.log == c.log + Appended(acts)
    decreases |acts|
  {
    if acts == [] {
      assert c.log + [] == c.log;
    } else {
      var next := Step(workspace, c, acts[0]);
      if acts[0].Append? {
        AppendKeepsUp(workspace, c, acts[0].event);
        assert next.log + Appended(acts[1..]) == c.log + Appended(acts);
      } else {
        assert forall i :: 0 <= i < |c.log| ==> c.log[i] == (c.log + Appended(acts))[i];
        RowsAreRecords(c.log, workspace);
        PollCatchesUp(workspace, c);
        assert [] + Appended(acts[1..]) == Appended(acts[1..]);
      }
      StaysUpToDate(workspace, next, acts[1..]);
    }
  }

  /** For any interleaving of appends and polls that pass the cursor back, the results of all polls and
      one more are, in order, exactly the visible events of the workspace. */
  lemma EachEventOnce(workspace: string, acts: seq<Act>)
    requires Identified(Appended(acts))
    ensures Run(workspace, Client([], "", []), acts + [Poll]).got == Visible(Rows(Appended(acts), workspace))
  {
    var start := Client([], "", []);
    assert [] + Appended(acts) == Appended(acts);
    StaysUpToDate(workspace, start, acts);
    RunThenPoll(workspace, start, acts);
    RowsAreRecords(Appended(acts), workspace);
    PollCatchesUp(workspace, Run(workspace, start, acts));
  }

  // ----- What is delivered -----

  /** An event that a client of the workspace is shown: no internal one, and none of another workspace. */
  predicate Shown(e: Event, workspace: string) {
    !e.topic.Internal? && (workspace == "" || e.workspace == workspace)
  }

  /** What it is shown as: only a status has a status text, and only if it is not empty. */
  predicate ShownAs(e: Event, item: Item) {
    && item.eventId == e.id && item.topic == e.topic && item.timestamp == e.timestamp
    && item.status == if (e.topic.StatusUpdate? || e.topic.TaskFinished?) && e.status != "" then Some(e.status) else None
  }

  /** The items show, in order, the events at these positions, and these are all that are shown. */
  ghost predicate Shows(items: seq<Item>, events: seq<Event>, workspace: string, at: seq<nat>) {
    && |at| == |items|
    && (forall k :: 0 <= k < |at| ==> at[k] < |events| && Shown(events[at[k]], workspace) && ShownAs(events[at[k]], items[k]))
    && (forall k, l :: 0 <= k < l < |at| ==> at[k] < at[l])
    && (forall i: nat :: i < |events| && Shown(events[i], workspace) ==> i in at)
  }

  lemma ShowsOne(events: seq<Event>, e: Event, workspace: string, items: seq<Item>, at: seq<nat>)
    requires Shows(items, events, workspace, at)
    ensures !Shown(e, workspace) ==> Shows(items, events + [e], workspace, at)
    ensures forall item :: Shown(e, workspace) && ShownAs(e, item) ==> Shows(items + [item], events + [e], workspace, at + [|events|])
  {
    hide Shown, ShownAs;
    var all := events + [e];
    assert forall i: nat :: i < |events| ==> all[i] == events[i];
    var more := at + [|events|];
    assert forall i :: i in at ==> i in more;
    assert more[|at|] == |events|;
  }

  lemma {:induction false} VisibleShows(events: seq<Event>, workspace: string) returns (at: seq<nat>)
    ensures Shows(Visible(Rows(events, workspace)), events, workspace, at)
  {
    hide Shows, Present, Rows, Visible;
    if events == [] {
      at := [];
      NothingShown(workspace);
    } else {
      var init, e := events[..|events| - 1], events[|events| - 1];
      at := VisibleShows(init, workspace);
      assert events == init + [e];
      var items := Visible(Rows(init, workspace));
      RowsOfSum(init, [e], workspace);
      VisibleOfSum(Rows(init, workspace), Rows([e], workspace));
      OneShown(e, workspace);
      ShowsOne(init, e, workspace, items, at);
      if Shown(e, workspace) { at := at + [|init|]; } else { assert items + [] == items; }
    }
  }

  lemma NothingShown(workspace: string)
    ensures Shows(Visible(Rows([], workspace)), [], workspace, [])
  {
  }

  lemma OneShown(e: Event, workspace: string)
    ensures !Shown(e, workspace) ==> Visible(Rows([e], workspace)) == []
    ensures Shown(e, workspace) ==> |Visible(Rows([e], workspace))| == 1 && ShownAs(e, Visible(Rows([e], workspace))[0])
    ensures Shown(e, workspace) ==> Visible(Rows([e], workspace)) == [Visible(Rows([e], workspace))[0]]
  {
    assert [e][1..] == [];
    assert Rows([e], workspace) == if workspace == "" || e.workspace == workspace then [e] else [];
    assert Visible([e]) == Present(e);
  }

  /** So the polls of a client show it, in order, each event of its workspace that is not internal, once,
      and nothing else. */
  lemma PollsShowAll(workspace: string, acts: seq<Act>) returns (at: seq<nat>)
    requires Identified(Appended(acts))
    ensures Shows(Run(workspace, Client([], "", []), acts + [Poll]).got, Appended(acts), workspace, at)
  {
    hide Shows, Identified, Run, Visible, Rows;
    EachEventOnce(workspace, acts);
    at := VisibleShows(Appended(acts), workspace);
  }

  lemma {:induction false} RunThenPoll(workspace: string, c: Client, acts: seq<Act>)
    ensures Run(workspace, c, acts + [Poll]) == Step(workspace, Run(workspace, c, acts), Poll)
    decreases |acts|
  {
    if acts == [] {
      assert [] + [Poll] == [Poll];
    } else {
      assert (acts + [Poll])[1..] == acts[1..] + [Poll];
      RunThenPoll(workspace, Step(workspace, c, acts[0]), acts[1..]);
    }
  }
}
