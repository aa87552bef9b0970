/**
  The track list window of musikbox: it holds one outstanding library query, applies
  that query's result when the library reports it finished (through a message posted
  to the window's own queue), tracks the playing track, and serves rows to the list
  widget through its adapter.
 */
module Window {
  import opened Text
  import opened Wrappers
  import opened RowFormat

  /** `WINDOW_MESSAGE_QUERY_COMPLETED`. */
  const WINDOW_MESSAGE_QUERY_COMPLETED: int := 1002

  /** The key name of Return. */
  const ENTER_KEY: string := "^M"

  /** The status of a library query; only `Finished` lets its result be applied. */
  datatype QueryStatus = Idle | Running | Failed | Finished | Canceled

  /** A message of the window's queue, identified by its type. */
  datatype Message = Message(messageType: int)

  /** What a key press does: start playback of `tracks` at `index` and report the key handled, or hand the key to the list window. */
  datatype KeyResult = Play(tracks: seq<Track>, index: nat) | Forward

  /**
    A `TrackListViewQuery`: a fetch of the tracks whose `column` equals `id`. The library
    runs it elsewhere and sets its status, its track list and its header indices.
   */
  class TrackListViewQuery {
    const column: string
    const id: int
    var status: QueryStatus
    var result: seq<Track>
    var headers: set<nat>

    constructor (column: string, id: int)
      ensures this.column == column && this.id == id
      ensures status == Idle && result == [] && headers == {}
    {
      this.column := column;
      this.id := id;
      status := Idle;
      result := [];
      headers := {};
    }
  }

  class TrackListView {
    /** The one query whose completion the window waits for, or none. */
    var query: TrackListViewQuery?
    /** The applied track list, none before the first result is applied. */
    var metadata: Option<seq<Track>>
    /** The row indices that begin a new album group in the applied result. */
    var headers: Option<set<nat>>
    /** The track the playback service reports as playing. */
    var playing: Option<Track>
    /** The list window's selection cursor. */
    var selectedIndex: nat
    /** The messages this window has posted to its own queue, oldest first. */
    var posted: seq<Message>

    /** A track list and its header set are always applied together. */
    ghost predicate Valid()
      reads this
    {
      metadata.Some? == headers.Some?
    }

    /** A new window waits for no query and shows nothing. */
    constructor ()
      ensures Valid()
      ensures query == null && metadata == None && headers == None && playing == None
      ensures selectedIndex == 0 && posted == []
    {
      query := null;
      metadata := None;
      headers := None;
      playing := None;
      selectedIndex := 0;
      posted := [];
    }

    /**
      Replaces the held query by a new one for `column` = `id`; the previous query is
      not cancelled, only forgotten. Nothing shown changes.
     */
    method Requery(column: string, id: int)
      requires Valid()
      modifies this
      ensures Valid()
      ensures fresh(query) && query.column == column && query.id == id && query.status == Idle
      ensures metadata == old(metadata) && headers == old(headers) && playing == old(playing)
      ensures selectedIndex == old(selectedIndex) && posted == old(posted)
    {
      query := new TrackListViewQuery(column, id);
    }

    /**
      The library reports `completed` done: a completion message is posted only when it
      is the query the window holds; a superseded query changes nothing.
     */
    method OnQueryCompleted(completed: TrackListViewQuery)
      requires Valid()
      modifies this
      ensures Valid()
      ensures completed == query ==> posted == old(posted) + [Message(WINDOW_MESSAGE_QUERY_COMPLETED)]
      ensures completed != query ==> posted == old(posted)
      ensures query == old(query) && metadata == old(metadata) && headers == old(headers)
      ensures playing == old(playing) && selectedIndex == old(selectedIndex)
    {
      if completed == query {
        posted := posted + [Message(WINDOW_MESSAGE_QUERY_COMPLETED)];
      }
    }

    /**
      On a completion message, a held query that has finished has its track list and
      header set applied, is released, and the cursor returns to the first row. Any
      other message, no held query, or a held query in any other status changes nothing.
     */
    method ProcessMessage(message: Message)
      requires Valid()
      modifies this
      ensures Valid()
      ensures
        if message.messageType == WINDOW_MESSAGE_QUERY_COMPLETED && old(query) != null && old(query).status == Finished then
          && metadata == Some(old(query).result) && headers == Some(old(query).headers)
          && query == null && selectedIndex == 0
        else
          && metadata == old(metadata) && headers == old(headers)
          && query == old(query) && selectedIndex == old(selectedIndex)
      ensures playing == old(playing) && posted == old(posted)
    {
      if message.messageType == WINDOW_MESSAGE_QUERY_COMPLETED {
        if query != null && query.status == Finished {
          metadata := Some(query.result);
          headers := Some(query.headers);
          query := null;
          selectedIndex := 0;
        }
      }
    }

    /** The playback service reports `track` as playing; nothing else changes. */
    method OnTrackChanged(index: nat, track: Option<Track>)
      requires Valid()
      modifies this
      ensures Valid()
      ensures playing == track
      ensures query == old(query) && metadata == old(metadata) && headers == old(headers)
      ensures selectedIndex == old(selectedIndex) && posted == old(posted)
    {
      playing := track;
    }

    /**
      Return starts playback of the applied track list at the cursor when there is a
      track under the cursor, and reports the key handled; every other case goes to the
      list window.
     */
    method KeyPress(key: string) returns (r: KeyResult)
      ensures r.Play? <==> key == ENTER_KEY && metadata.Some? && selectedIndex < |metadata.value|
      ensures r.Play? ==> r.tracks == metadata.value && r.index == selectedIndex
    {
      if key == ENTER_KEY {
        var selected := selectedIndex;
        if metadata.Some? && |metadata.value| > selected {
          return Play(metadata.value, selected);
        }
      }
      return Forward;
    }

    /** The number of rows: none before a result is applied, else one per applied track. */
    function GetEntryCount(): (n: nat)
      reads this
      ensures metadata.None? ==> n == 0
      ensures metadata.Some? ==> n == |metadata.value|
    {
      if metadata.Some? then |metadata.value| else 0
    }

    /**
      The entry of row `index` in a list `width` cells wide: a header line with the raw
      album (green on black) exactly when the row begins a group, and a row text whose
      attribute marks the selection exactly when the row is under the cursor and marks
      playback exactly when the row's track has the playing track's id and library id.
     */
    function GetEntry(h: Helpers, width: nat, index: nat): (e: Entry)
      reads this
      requires Wellformed(h)
      requires Valid() && metadata.Some? && index < |metadata.value|
      ensures e.WithHeader? <==> index in headers.value
      ensures e.WithHeader? ==> e.header == metadata.value[index].album && e.headerAttrs == GreenOnBlack
      ensures e.text == RowText(h, width, metadata.value[index])
      ensures e.attrs == Highlight(index == selectedIndex, IsPlaying(playing, metadata.value[index]))
      ensures e.attrs.MarksSelection() <==> index == selectedIndex
      ensures e.attrs.MarksPlaying() <==>
        playing.Some? && playing.value.id == metadata.value[index].id
        && playing.value.libraryId == metadata.value[index].libraryId
    {
      var selected := index == selectedIndex;
      var track := metadata.value[index];
      var attrs := Highlight(selected, IsPlaying(playing, track));
      MakeEntry(h, width, track, attrs, index in headers.value)
    }
  }
}
