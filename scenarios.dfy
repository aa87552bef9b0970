/**
  Runs of the track list window against its collaborators: the library finishing
  queries in any order, and the list widget asking for rows.
 */
module Scenarios {
  import opened Text
  import opened Wrappers
  import opened RowFormat
  import opened Window

  /**
    Staleness: the window is requeried once per entry of `results`, then the library
    finishes queries in the arrival `order` (indices into the issued queries, repeats
    allowed), query `j` with `results[j]`. Each completion is followed by the window's
    turn on the message it posted, if any. `history[k]` is the applied track list after
    the k-th arrival: it is only ever the last query's result, and it is present from
    the arrival of the last query on.
   */
  method SupersededQueriesAreIgnored(results: seq<seq<Track>>, order: seq<nat>)
    returns (history: seq<Option<seq<Track>>>)
    requires |results| > 0
    requires forall k :: 0 <= k < |order| ==> order[k] < |results|
    ensures |history| == |order|
    ensures forall k :: 0 <= k < |order| ==>
      history[k] == if |results| - 1 in order[..k + 1] then Some(results[|results| - 1]) else None
  {
    var n := |results|;
    var v := new TrackListView();
    var issued: seq<TrackListViewQuery> := [];
    while |issued| < n
      invariant |issued| <= n
      invariant fresh(v) && v.Valid() && v.metadata == None && v.posted == []
      invariant forall j :: 0 <= j < |issued| ==> fresh(issued[j]) && issued[j].status == Idle
      invariant forall j, k :: 0 <= j < k < |issued| ==> issued[j] != issued[k]
      invariant |issued| > 0 ==> v.query == issued[|issued| - 1]
    {
      v.Requery("album", |issued|);
      issued := issued + [v.query];
    }
    var last := issued[n - 1];
    history := [];
    while |history| < |order|
      invariant |history| <= |order|
      invariant fresh(v) && v.Valid()
      invariant forall j :: 0 <= j < n ==> fresh(issued[j])
      invariant forall j, k :: 0 <= j < k < n ==> issued[j] != issued[k]
      invariant n - 1 in order[..|history|] ==> v.query == null && v.metadata == Some(results[n - 1])
      invariant n - 1 !in order[..|history|] ==> v.query == last && last.status == Idle && v.metadata == None
      invariant forall k :: 0 <= k < |history| ==>
        history[k] == if n - 1 in order[..k + 1] then Some(results[n - 1]) else None
    {
      var k := |history|;
      var q := issued[order[k]];
      q.status := Finished;
      q.result := results[order[k]];
      var before := |v.posted|;
      v.OnQueryCompleted(q);
      if |v.posted| > before {
        v.ProcessMessage(v.posted[before]);
      }
      assert order[..k + 1] == order[..k] + [order[k]];
      history := history + [v.metadata];
    }
  }

  /**
    One step of a run against the window: a requery; the library completing the query
    issued `query`-th (counting from 0), successfully with `result` or not; or the
    window's turn on the oldest message it has not yet processed.
   */
  datatype Event = Requery | Complete(query: nat, ok: bool, result: seq<Track>) | Turn

  /** How the library finished a query: `Finished` with a result, or `Failed`. */
  datatype Completion = Completion(ok: bool, result: seq<Track>)

  /** The number of queries issued by the events `evs`. */
  function Issued(evs: seq<Event>): nat
    decreases |evs|
  {
    if evs == [] then 0
    else Issued(evs[..|evs| - 1]) + (if evs[|evs| - 1].Requery? then 1 else 0)
  }

  /**
    How the `j`-th issued query was finished by the events `evs`: by the first
    completion of it that arrives after it was issued; none if there is no such one.
   */
  function Finish(evs: seq<Event>, j: nat): Option<Completion>
    decreases |evs|
  {
    if evs == [] then None
    else
      var prior := evs[..|evs| - 1];
      var e := evs[|evs| - 1];
      if Finish(prior, j).Some? then Finish(prior, j)
      else if e.Complete? && e.query == j && j < Issued(prior) then Some(Completion(e.ok, e.result))
      else None
  }

  /** A query not yet issued has not been finished. */
  lemma {:induction false} NotIssuedNotFinished(evs: seq<Event>, j: nat)
    requires Issued(evs) <= j
    ensures Finish(evs, j) == None
    decreases |evs|
  {
    if evs != [] {
      NotIssuedNotFinished(evs[..|evs| - 1], j);
    }
  }

  /** One more event: it issues a query, or finishes an issued, unfinished one, or neither. */
  lemma FinishAfter(evs: seq<Event>, e: Event, j: nat)
    ensures Issued(evs + [e]) == Issued(evs) + (if e.Requery? then 1 else 0)
    ensures Finish(evs + [e], j) ==
      if Finish(evs, j).Some? then Finish(evs, j)
      else if e.Complete? && e.query == j && j < Issued(evs) then Some(Completion(e.ok, e.result))
      else None
  {
    assert (evs + [e])[..|evs|] == evs;
  }

  /** The query object `q` is in the state the completion `f` left it in. */
  ghost predicate Reflects(q: TrackListViewQuery, f: Option<Completion>)
    reads q
  {
    match f
    case None => q.status == Idle
    case Some(c) => q.status == (if c.ok then Finished else Failed) && q.result == c.result
  }

  /** How the query most recently issued by `evs` was finished, if any was issued. */
  function Latest(evs: seq<Event>): Option<Completion> {
    if Issued(evs) == 0 then None else Finish(evs, Issued(evs) - 1)
  }

  /**
    The applied track list went from `before` to `after` on the event `e` following the
    events `done` only if `e` is a turn and `after` is the successful result of the
    query most recently issued by `done`.
   */
  predicate Justified(done: seq<Event>, e: Event, before: Option<seq<Track>>, after: Option<seq<Track>>) {
    after != before ==> e.Turn? && after.Some? && Latest(done) == Some(Completion(true, after.value))
  }

  /**
    The window `v` and the queries `issued` so far (oldest first) are in the state the
    events `done` left them in: one query per requery, each in the state its completion
    left it in, and the window holding the latest one or none.
   */
  ghost predicate Tracks(v: TrackListView, issued: seq<TrackListViewQuery>, done: seq<Event>)
    reads v, issued
  {
    && v.Valid()
    && |issued| == Issued(done)
    && (forall i, j :: 0 <= i < j < |issued| ==> issued[i] != issued[j])
    && (v.query != null ==> |issued| > 0 && v.query == issued[|issued| - 1])
    && (forall j :: 0 <= j < |issued| ==> Reflects(issued[j], Finish(done, j)))
  }

  /** A requery issues a new query, which the window then holds; nothing shown changes. */
  method StepRequery(v: TrackListView, issued: seq<TrackListViewQuery>, ghost done: seq<Event>)
    returns (issued': seq<TrackListViewQuery>)
    requires Tracks(v, issued, done)
    modifies v
    ensures Tracks(v, issued', done + [Requery])
    ensures |issued'| == |issued| + 1 && issued'[..|issued|] == issued && fresh(issued'[|issued|])
    ensures v.query == issued'[|issued|]
    ensures v.metadata == old(v.metadata)
  {
    forall j | 0 <= j
      ensures Finish(done + [Requery], j) == Finish(done, j)
    {
      FinishAfter(done, Requery, j);
    }
    FinishAfter(done, Requery, 0);
    NotIssuedNotFinished(done, |issued|);
    v.Requery("album", |issued|);
    issued' := issued + [v.query];
  }

  /**
    The library completes the `j`-th issued query: if it is still idle, it is finished
    or failed with `result` and reported to the window; nothing shown changes.
   */
  method StepComplete(v: TrackListView, issued: seq<TrackListViewQuery>, ghost done: seq<Event>,
                      j: nat, ok: bool, result: seq<Track>)
    requires Tracks(v, issued, done)
    modifies v, issued
    ensures Tracks(v, issued, done + [Complete(j, ok, result)])
    ensures v.posted ==
      if j < |issued| && old(issued[j].status) == Idle && old(v.query) == issued[j]
      then old(v.posted) + [Message(WINDOW_MESSAGE_QUERY_COMPLETED)]
      else old(v.posted)
    ensures v.metadata == old(v.metadata)
  {
    var e := Complete(j, ok, result);
    forall i | 0 <= i
      ensures Finish(done + [e], i) ==
        if Finish(done, i).Some? then Finish(done, i)
        else if i == j && j < Issued(done) then Some(Completion(ok, result))
        else None
    {
      FinishAfter(done, e, i);
    }
    FinishAfter(done, e, 0);
    if j < |issued| && issued[j].status == Idle {
      issued[j].status := if ok then Finished else Failed;
      issued[j].result := result;
      v.OnQueryCompleted(issued[j]);
    }
  }

  /**
    The window's turn on the oldest message it has not processed (`posted[next]`), if
    any. The applied track list changes only to the successful result of the latest
    query issued.
   */
  method StepTurn(v: TrackListView, issued: seq<TrackListViewQuery>, next: nat, ghost done: seq<Event>)
    returns (next': nat)
    requires Tracks(v, issued, done)
    modifies v
    ensures Tracks(v, issued, done + [Turn])
    ensures Justified(done, Turn, old(v.metadata), v.metadata)
  {
    next' := next;
    forall j | 0 <= j
      ensures Finish(done + [Turn], j) == Finish(done, j)
    {
      FinishAfter(done, Turn, j);
    }
    FinishAfter(done, Turn, 0);
    if next < |v.posted| {
      ghost var held := v.query;
      v.ProcessMessage(v.posted[next]);
      next' := next + 1;
      if v.metadata != old(v.metadata) {
        assert held == issued[|issued| - 1] && held.status == Finished;
        assert Reflects(held, Finish(done, |issued| - 1));
      }
    }
  }

  /** One event of a run, dispatched to the step for its kind. */
  method Step(v: TrackListView, issued: seq<TrackListViewQuery>, next: nat, ghost done: seq<Event>, e: Event)
    returns (issued': seq<TrackListViewQuery>, next': nat)
    requires Tracks(v, issued, done)
    modifies v, issued
    ensures Tracks(v, issued', done + [e])
    ensures issued' == issued || (|issued'| == |issued| + 1 && issued'[..|issued|] == issued && fresh(issued'[|issued|]))
    ensures Justified(done, e, old(v.metadata), v.metadata)
  {
    issued', next' := issued, next;
    match e {
      case Requery =>
        issued' := StepRequery(v, issued, done);
      case Complete(j, ok, result) =>
        StepComplete(v, issued, done, j, ok, result);
      case Turn =>
        next' := StepTurn(v, issued, next, done);
    }
  }

  /**
    Staleness, for any run: the library completes issued queries in any order, each
    successfully or not, interleaved with requeries and with the window's turns on its
    queue. `history[k]` is the applied track list after the first `k` events. It
    changes only on a turn, and only to the successful result of the query most
    recently issued before that turn: a superseded or failed query never changes it.
   */
  method StaleResultsNeverApplied(events: seq<Event>) returns (history: seq<Option<seq<Track>>>)
    ensures |history| == |events| + 1 && history[0] == None
    ensures forall k :: 0 <= k < |events| ==> Justified(events[..k], events[k], history[k], history[k + 1])
  {
    var v := new TrackListView();
    var issued: seq<TrackListViewQuery> := [];
    var next := 0;
    history := [None];
    while |history| <= |events|
      invariant 1 <= |history| <= |events| + 1 && history[0] == None
      invariant fresh(v) && v.metadata == history[|history| - 1]
      invariant forall j :: 0 <= j < |issued| ==> fresh(issued[j])
      invariant Tracks(v, issued, events[..|history| - 1])
      invariant forall k :: 0 <= k < |history| - 1 ==> Justified(events[..k], events[k], history[k], history[k + 1])
    {
      var k := |history| - 1;
      assert events[..k + 1] == events[..k] + [events[k]];
      ghost var before := history;
      issued, next := Step(v, issued, next, events[..k], events[k]);
      history := history + [v.metadata];
      assert history[..k + 1] == before;
    }
  }

  /**
    A completion message that waits in the queue while the window is requeried applies
    nothing on its turn, since the held query is then the new, unfinished one. Once the
    new query finishes and posts its own message, that message applies its result.
   */
  method RequeryBeforeTurn(older: seq<Track>, newer: seq<Track>)
    returns (first: Option<seq<Track>>, second: Option<seq<Track>>)
    ensures first == None
    ensures second == Some(newer)
  {
    var v := new TrackListView();
    v.Requery("album", 1);
    var q1 := v.query;
    q1.status := Finished;
    q1.result := older;
    v.OnQueryCompleted(q1);
    v.Requery("album", 2);
    var q2 := v.query;
    v.ProcessMessage(v.posted[0]);
    first := v.metadata;
    q2.status := Finished;
    q2.result := newer;
    v.OnQueryCompleted(q2);
    v.ProcessMessage(v.posted[1]);
    second := v.metadata;
  }

  /** Three tracks: the first shares the third's track id but comes from another library. */
  const T0: Track := Track(7, 2, [49], [88], [65], [65], [57, 48])
  const T1: Track := Track(8, 1, [49], [89], [65], [66], [57, 48])
  const T2: Track := Track(7, 1, [50], [90], [65], [66], [57, 48])

  /**
    A window whose query finished with the three tracks, the second beginning a new
    album, then the third track reported playing and the cursor moved to the second row.
   */
  method ThreeRowWindow() returns (v: TrackListView)
    ensures fresh(v) && v.Valid()
    ensures v.metadata == Some([T0, T1, T2]) && v.headers == Some({1})
    ensures v.playing == Some(T2) && v.selectedIndex == 1
  {
    v := new TrackListView();
    v.Requery("artist", 1);
    var q := v.query;
    q.status := Finished;
    q.result := [T0, T1, T2];
    q.headers := {1};
    v.OnQueryCompleted(q);
    v.ProcessMessage(v.posted[0]);
    v.OnTrackChanged(2, Some(T2));
    v.selectedIndex := 1;
  }

  /**
    The rows of that window: row 1 has a header and the selection colour, row 2 the
    playing colour, row 0 no attribute, although its track shares the playing track's
    id.
   */
  method ThreeRows(h: Helpers, width: nat, index: nat) returns (e: Entry)
    requires Wellformed(h) && index < 3
    ensures index == 0 ==> e.SingleLine? && e.attrs == NoAttrs
    ensures index == 1 ==> e.WithHeader? && e.header == [66] && e.headerAttrs == GreenOnBlack && e.attrs == BlackOnGreen
    ensures index == 2 ==> e.SingleLine? && e.attrs == YellowOnBlackBold
  {
    var v := ThreeRowWindow();
    e := v.GetEntry(h, width, index);
  }
}
