/**
 * The island handlers (src/handlers/islands.js). ISLAND_ALERT announces the day's
 * islands once in every registered islands channel and records each announcement as
 * a row `{messageId, islandName, channelId, merchantId: null}`; ISLANDS_CLEANUP
 * turns the relative start of every recorded announcement into an absolute one and,
 * when every announcement of a channel could be fetched, forgets that channel's rows.
 */
module IslandAlerts {
  import opened Wrappers
  import opened Text
  import opened Markers
  import opened Store
  import opened Chat
  import opened Bot
  import Tracker

  /** The filter for the registered islands channels (alert or not). */
  function IslandChannels(): seq<Filter> {
    [Filter("type", Eq, Str("islands"))]
  }

  function NameValues(islands: seq<Tracker.Island>): (vs: seq<Value>)
    ensures |vs| == |islands| && forall i :: 0 <= i < |islands| ==> vs[i] == Str(islands[i].name)
  {
    if islands == [] then [] else [Str(islands[0].name)] + NameValues(islands[1..])
  }

  /** The filters for announcements of any of `islands` in `channel`. */
  function AnnouncedFilter(islands: seq<Tracker.Island>, channel: string): seq<Filter> {
    [Filter("islandName", In, List(NameValues(islands))), Filter("channelId", Eq, Str(channel)), Filter("merchantId", Is, Null)]
  }

  /** The filters for every island row of `channel`. */
  function IslandRowsOf(channel: string): seq<Filter> {
    [Filter("channelId", Eq, Str(channel)), Filter("islandName", IsNot, Null)]
  }

  function IslandRow(messageId: nat, name: string, channel: string): Row {
    map["messageId" := Num(messageId), "islandName" := Str(name), "channelId" := Str(channel), "merchantId" := Null]
  }

  /** `xs.join(sep)`. */
  function Join(xs: seq<string>, sep: string): string {
    if xs == [] then "" else if |xs| == 1 then xs[0] else xs[0] + sep + Join(xs[1..], sep)
  }

  /** The announcement of `island`, starting at `upcoming` (ms); the start is shown in whole seconds. */
  function IslandText(island: Tracker.Island, upcoming: int): string {
    "\n**" + island.name + "**\nEmpieza En: <t:" + IntToString(upcoming / 1000) + ":R>\nRecompenzas: " + Join(island.rewards, ", ")
  }

  // ---------------------------------------------------------------------------
  // ISLAND_ALERT.

  /** One island announced to `channel` and recorded with the id of its message. */
  function SendIsland(w: World, channel: string, island: Tracker.Island, upcoming: int): World {
    World(Inserted(w.msgs, IslandRow(w.chat.next, island.name, channel)),
          Sent(w.chat, channel, IslandText(island, upcoming)))
  }

  /** Each island announced to `channel` and recorded, one after the other. */
  function SendIslands(w: World, channel: string, islands: seq<Tracker.Island>, upcoming: int): World {
    if islands == [] then w
    else SendIsland(SendIslands(w, channel, islands[..|islands| - 1], upcoming), channel, islands[|islands| - 1], upcoming)
  }

  /** A channel that already holds an announcement of one of the islands is skipped. */
  function AlertChannel(w: World, channel: string, islands: seq<Tracker.Island>, upcoming: int): World {
    if |Select(w.msgs.rows, AnnouncedFilter(islands, channel))| > 0 then w
    else SendIslands(w, channel, islands, upcoming)
  }

  /** The alert on each listed channel the client has cached. */
  function AlertChannels(w: World, cache: set<string>, channelRows: seq<Row>, islands: seq<Tracker.Island>, upcoming: int): World {
    if channelRows == [] then w
    else
      var before := AlertChannels(w, cache, channelRows[..|channelRows| - 1], islands, upcoming);
      match ChannelOf(channelRows[|channelRows| - 1])
      case Some(c) => if c in cache then AlertChannel(before, c, islands, upcoming) else before
      case None => before
  }

  /** The ISLAND_ALERT handler. */
  function IslandAlert(w: World, ready: bool, cache: set<string>, channelRows: seq<Row>,
                       islands: seq<Tracker.Island>, upcoming: int): World {
    if !ready then w
    else AlertChannels(w, cache, Select(channelRows, IslandChannels()), islands, upcoming)
  }

  method AlertOnChannel(chat: Client, messages: Table, channel: string, islands: seq<Tracker.Island>, upcoming: int)
    modifies chat, messages
    ensures World(messages.State(), chat.State()) == AlertChannel(old(World(messages.State(), chat.State())), channel, islands, upcoming)
    ensures chat.ready == old(chat.ready) && chat.cache == old(chat.cache)
  {
    var announced := messages.Find(AnnouncedFilter(islands, channel));
    if |announced| == 0 {
      AnnounceIslands(chat, messages, channel, islands, upcoming);
    }
  }

  method AnnounceIslands(chat: Client, messages: Table, channel: string, islands: seq<Tracker.Island>, upcoming: int)
    modifies chat, messages
    ensures World(messages.State(), chat.State()) == SendIslands(old(World(messages.State(), chat.State())), channel, islands, upcoming)
    ensures chat.ready == old(chat.ready) && chat.cache == old(chat.cache)
  {
    ghost var w0 := World(messages.State(), chat.State());
    var i := 0;
    while i < |islands|
      invariant 0 <= i <= |islands|
      invariant World(messages.State(), chat.State()) == SendIslands(w0, channel, islands[..i], upcoming)
      invariant chat.ready == old(chat.ready) && chat.cache == old(chat.cache)
    {
      assert islands[..i + 1][..i] == islands[..i];
      AnnounceIsland(chat, messages, channel, islands[i], upcoming);
      i := i + 1;
    }
    assert islands[..i] == islands;
  }

  method AnnounceIsland(chat: Client, messages: Table, channel: string, island: Tracker.Island, upcoming: int)
    modifies chat, messages
    ensures World(messages.State(), chat.State()) == SendIsland(old(World(messages.State(), chat.State())), channel, island, upcoming)
    ensures chat.ready == old(chat.ready) && chat.cache == old(chat.cache)
  {
    var id := chat.Send(channel, IslandText(island, upcoming));
    var rowId := messages.Insert(IslandRow(id, island.name, channel));
  }

  /** The ISLAND_ALERT handler; `false` when it throws because the client is not ready. */
  /** ISLAND_ALERT on each of `rows` whose channel the client has cached. */
  method AlertOnChannels(chat: Client, messages: Table, rows: seq<Row>, islands: seq<Tracker.Island>, upcoming: int)
    modifies chat, messages
    ensures World(messages.State(), chat.State())
         == AlertChannels(old(World(messages.State(), chat.State())), chat.cache, rows, islands, upcoming)
    ensures chat.ready == old(chat.ready) && chat.cache == old(chat.cache)
  {
    ghost var w0 := World(messages.State(), chat.State());
    var i := 0;
    while i < |rows|
      invariant 0 <= i <= |rows|
      invariant World(messages.State(), chat.State()) == AlertChannels(w0, chat.cache, rows[..i], islands, upcoming)
      invariant chat.ready == old(chat.ready) && chat.cache == old(chat.cache)
    {
      assert rows[..i + 1][..i] == rows[..i];
      var c := ChannelOf(rows[i]);
      if c.Some? && c.value in chat.cache {
        AlertOnChannel(chat, messages, c.value, islands, upcoming);
      }
      i := i + 1;
    }
    assert rows[..i] == rows;
  }

  method OnIslandAlert(chat: Client, messages: Table, channels: Table, islands: seq<Tracker.Island>, upcoming: int)
    returns (ok: bool)
    requires messages != channels
    modifies chat, messages
    ensures ok == old(chat.ready)
    ensures World(messages.State(), chat.State())
         == IslandAlert(old(World(messages.State(), chat.State())), ok, chat.cache, channels.rows, islands, upcoming)
    ensures chat.ready == old(chat.ready) && chat.cache == old(chat.cache)
  {
    ok := chat.ready;
    if ok {
      var rows := channels.Find(IslandChannels());
      AlertOnChannels(chat, messages, rows, islands, upcoming);
    }
  }

  // ---------------------------------------------------------------------------
  // ISLANDS_CLEANUP.

  predicate AllFetchable(c: ChatState, channel: string, rows: seq<Row>) {
    forall i :: 0 <= i < |rows| ==> Fetchable(c, channel, rows[i])
  }

  lemma AllFetchableSnoc(c: ChatState, channel: string, rows: seq<Row>, i: nat)
    requires i < |rows|
    ensures AllFetchable(c, channel, rows[..i + 1]) <==> AllFetchable(c, channel, rows[..i]) && Fetchable(c, channel, rows[i])
  {
    assert rows[..i + 1][i] == rows[i];
    assert forall j :: 0 <= j < i ==> rows[..i + 1][j] == rows[..i][j];
  }

  /** A sweep keeps what could be fetched fetchable, and nothing else becomes fetchable. */
  lemma FetchableSwept(k: Marker, a: ChatState, b: ChatState, channel: string, r: Row)
    requires SweptFrom(k, a, b)
    ensures Fetchable(b, channel, r) <==> Fetchable(a, channel, r)
  {
    if MessageOf(r).Some? {
      SweptLookup(k, a, b, channel, MessageOf(r).value);
    }
  }

  /**
   * The cleanup of one channel: every announcement is restamped, and the channel's
   * island rows are deleted unless some announcement could not be fetched.
   */
  function CleanupChannel(w: World, channel: string): World {
    var rows := Select(w.msgs.rows, IslandRowsOf(channel));
    if rows == [] then w
    else
      World(if AllFetchable(w.chat, channel, rows) then Deleted(w.msgs, IslandRowsOf(channel)) else w.msgs,
            RestampAll(StartMarker, w.chat, channel, rows))
  }

  function CleanupChannels(w: World, cache: set<string>, channelRows: seq<Row>): World {
    if channelRows == [] then w
    else
      var before := CleanupChannels(w, cache, channelRows[..|channelRows| - 1]);
      match ChannelOf(channelRows[|channelRows| - 1])
      case Some(c) => if c in cache then CleanupChannel(before, c) else before
      case None => before
  }

  /** The ISLANDS_CLEANUP handler. */
  function IslandsCleanup(w: World, ready: bool, cache: set<string>, channelRows: seq<Row>): World {
    if !ready then w
    else CleanupChannels(w, cache, Select(channelRows, IslandChannels()))
  }

  method CleanupOnChannel(chat: Client, messages: Table, channel: string)
    modifies chat, messages
    ensures World(messages.State(), chat.State()) == CleanupChannel(old(World(messages.State(), chat.State())), channel)
    ensures chat.ready == old(chat.ready) && chat.cache == old(chat.cache)
  {
    var rows := messages.Find(IslandRowsOf(channel));
    if |rows| == 0 {
      return;
    }
    ghost var c0 := chat.State();
    var fetched := true;
    var i := 0;
    while i < |rows|
      invariant 0 <= i <= |rows|
      invariant chat.State() == RestampAll(StartMarker, c0, channel, rows[..i])
      invariant fetched == AllFetchable(c0, channel, rows[..i])
      invariant messages.State() == old(messages.State())
      invariant chat.ready == old(chat.ready) && chat.cache == old(chat.cache)
    {
      assert rows[..i + 1][..i] == rows[..i];
      RestampAllSwept(StartMarker, c0, channel, rows[..i]);
      FetchableSwept(StartMarker, c0, chat.State(), channel, rows[i]);
      AllFetchableSnoc(c0, channel, rows, i);
      var ok := RestampMessage(chat, StartMarker, channel, rows[i]);
      fetched := fetched && ok;
      i := i + 1;
    }
    assert rows[..i] == rows;
    if fetched {
      var count := messages.Delete(IslandRowsOf(channel));
    }
  }

  /** The ISLANDS_CLEANUP handler; `false` when it throws because the client is not ready. */
  method OnIslandsCleanup(chat: Client, messages: Table, channels: Table) returns (ok: bool)
    requires messages != channels
    modifies chat, messages
    ensures ok == old(chat.ready)
    ensures World(messages.State(), chat.State())
         == IslandsCleanup(old(World(messages.State(), chat.State())), ok, chat.cache, channels.rows)
    ensures chat.ready == old(chat.ready) && chat.cache == old(chat.cache)
  {
    ok := chat.ready;
    if !ok {
      return;
    }
    ghost var w0 := World(messages.State(), chat.State());
    var rows := channels.Find(IslandChannels());
    var i := 0;
    while i < |rows|
      invariant 0 <= i <= |rows|
      invariant World(messages.State(), chat.State()) == CleanupChannels(w0, chat.cache, rows[..i])
      invariant chat.ready == old(chat.ready) && chat.cache == old(chat.cache)
    {
      assert rows[..i + 1][..i] == rows[..i];
      var c := ChannelOf(rows[i]);
      if c.Some? && c.value in chat.cache {
        CleanupOnChannel(chat, messages, c.value);
      }
      i := i + 1;
    }
    assert rows[..i] == rows;
  }

  // ---------------------------------------------------------------------------
  // What the handlers guarantee.

  /** `channel` needs no announcement of `islands`: there are none, or one is already recorded. */
  predicate Announced(w: World, channel: string, islands: seq<Tracker.Island>) {
    islands == [] || |Select(w.msgs.rows, AnnouncedFilter(islands, channel))| > 0
  }

  /** Announcing islands appends one row and one message per island. */
  lemma {:induction false} SendIslandsGrows(w: World, channel: string, xs: seq<Tracker.Island>, upcoming: int)
    ensures Grows(w, SendIslands(w, channel, xs, upcoming))
    ensures |SendIslands(w, channel, xs, upcoming).msgs.rows| == |w.msgs.rows| + |xs|
    ensures SendIslands(w, channel, xs, upcoming).chat.next == w.chat.next + |xs|
  {
    if xs != [] {
      SendIslandsGrows(w, channel, xs[..|xs| - 1], upcoming);
    }
  }

  /** The row recorded for the last island is found by the filters of any list holding that island. */
  lemma IslandRowMatches(serial: nat, messageId: nat, islands: seq<Tracker.Island>, i: nat, channel: string)
    requires i < |islands|
    ensures MatchesAll(NewRow(serial, IslandRow(messageId, islands[i].name, channel)), AnnouncedFilter(islands, channel))
  {
    var r := NewRow(serial, IslandRow(messageId, islands[i].name, channel));
    var fs := AnnouncedFilter(islands, channel);
    assert Get(r, "islandName") == Str(islands[i].name);
    assert NameValues(islands)[i] == Str(islands[i].name);
    assert Satisfies(r, fs[0]);
    assert Get(r, "channelId") == Str(channel);
    assert Get(r, "merchantId") == Null;
  }

  /**
   * ISLAND_ALERT leaves a channel alone exactly when it is already announced, and
   * afterwards the channel is announced.
   */
  lemma AlertChannelAnnounces(w: World, channel: string, islands: seq<Tracker.Island>, upcoming: int)
    ensures Announced(w, channel, islands) <==> AlertChannel(w, channel, islands, upcoming) == w
    ensures Announced(AlertChannel(w, channel, islands, upcoming), channel, islands)
    ensures Grows(w, AlertChannel(w, channel, islands, upcoming))
  {
    SendIslandsGrows(w, channel, islands, upcoming);
    if !Announced(w, channel, islands) {
      var n := |islands| - 1;
      var before := SendIslands(w, channel, islands[..n], upcoming);
      var r := NewRow(before.msgs.serial, IslandRow(before.chat.next, islands[n].name, channel));
      IslandRowMatches(before.msgs.serial, before.chat.next, islands, n, channel);
      SelectSnoc(before.msgs.rows, r, AnnouncedFilter(islands, channel));
    }
  }

  lemma AnnouncedGrows(w: World, w2: World, channel: string, islands: seq<Tracker.Island>)
    requires Grows(w, w2) && Announced(w, channel, islands)
    ensures Announced(w2, channel, islands)
  {
    if islands != [] {
      GrowsSelect(w, w2, AnnouncedFilter(islands, channel));
    }
  }

  /** After an alert every listed, cached channel is announced. */
  lemma {:induction false} AlertChannelsSettles(w: World, cache: set<string>, rows: seq<Row>, islands: seq<Tracker.Island>, upcoming: int)
    ensures Grows(w, AlertChannels(w, cache, rows, islands, upcoming))
    ensures forall r :: r in rows && ChannelOf(r).Some? && ChannelOf(r).value in cache ==>
              Announced(AlertChannels(w, cache, rows, islands, upcoming), ChannelOf(r).value, islands)
  {
    if rows != [] {
      var init, last := rows[..|rows| - 1], rows[|rows| - 1];
      var w1 := AlertChannels(w, cache, init, islands, upcoming);
      var w2 := AlertChannels(w, cache, rows, islands, upcoming);
      AlertChannelsSettles(w, cache, init, islands, upcoming);
      assert Grows(w1, w2) by {
        if ChannelOf(last).Some? && ChannelOf(last).value in cache {
          AlertChannelAnnounces(w1, ChannelOf(last).value, islands, upcoming);
        }
      }
      assert rows == init + [last];
      forall r | r in rows && ChannelOf(r).Some? && ChannelOf(r).value in cache
        ensures Announced(w2, ChannelOf(r).value, islands)
      {
        if r == last {
          AlertChannelAnnounces(w1, ChannelOf(last).value, islands, upcoming);
        } else {
          AnnouncedGrows(w1, w2, ChannelOf(r).value, islands);
        }
      }
    }
  }

  /** An alert over announced channels changes nothing. */
  lemma {:induction false} AlertChannelsIdle(w: World, cache: set<string>, rows: seq<Row>, islands: seq<Tracker.Island>, upcoming: int)
    requires forall r :: r in rows && ChannelOf(r).Some? && ChannelOf(r).value in cache ==>
               Announced(w, ChannelOf(r).value, islands)
    ensures AlertChannels(w, cache, rows, islands, upcoming) == w
  {
    if rows != [] {
      var init, last := rows[..|rows| - 1], rows[|rows| - 1];
      assert forall r :: r in init ==> r in rows;
      AlertChannelsIdle(w, cache, init, islands, upcoming);
      if ChannelOf(last).Some? && ChannelOf(last).value in cache {
        AlertChannelAnnounces(w, ChannelOf(last).value, islands, upcoming);
      }
    }
  }

  /** A repeated ISLAND_ALERT for the same islands posts and records nothing new. */
  lemma IslandAlertStable(w: World, ready: bool, cache: set<string>, channelRows: seq<Row>,
                          islands: seq<Tracker.Island>, upcoming: int)
    ensures IslandAlert(IslandAlert(w, ready, cache, channelRows, islands, upcoming), ready, cache, channelRows, islands, upcoming)
         == IslandAlert(w, ready, cache, channelRows, islands, upcoming)
  {
    if ready {
      var rows := Select(channelRows, IslandChannels());
      AlertChannelsSettles(w, cache, rows, islands, upcoming);
      AlertChannelsIdle(AlertChannels(w, cache, rows, islands, upcoming), cache, rows, islands, upcoming);
    }
  }

  /** Cleaning a channel deletes only its island rows, adds none, and only restamps messages. */
  lemma CleanupChannelRows(w: World, channel: string, r: Row)
    ensures r in CleanupChannel(w, channel).msgs.rows ==> r in w.msgs.rows
    ensures r in w.msgs.rows && !MatchesAll(r, IslandRowsOf(channel)) ==> r in CleanupChannel(w, channel).msgs.rows
    ensures SweptFrom(StartMarker, w.chat, CleanupChannel(w, channel).chat)
  {
    RejectSpec(w.msgs.rows, IslandRowsOf(channel), r);
    RestampAllSwept(StartMarker, w.chat, channel, Select(w.msgs.rows, IslandRowsOf(channel)));
  }

  /** When every announcement of a channel could be fetched, none of its island rows is left. */
  lemma CleanupChannelClears(w: World, channel: string)
    requires AllFetchable(w.chat, channel, Select(w.msgs.rows, IslandRowsOf(channel)))
    ensures Select(CleanupChannel(w, channel).msgs.rows, IslandRowsOf(channel)) == []
  {
    var left := Select(CleanupChannel(w, channel).msgs.rows, IslandRowsOf(channel));
    if left != [] {
      var r := left[0];
      SelectSpec(CleanupChannel(w, channel).msgs.rows, IslandRowsOf(channel), r);
      if Select(w.msgs.rows, IslandRowsOf(channel)) == [] {
        SelectSpec(w.msgs.rows, IslandRowsOf(channel), r);
      } else {
        RejectSpec(w.msgs.rows, IslandRowsOf(channel), r);
      }
    }
  }

  /** An island row belongs to one channel only. */
  lemma IslandRowsChannel(r: Row, a: string, b: string)
    requires MatchesAll(r, IslandRowsOf(a)) && MatchesAll(r, IslandRowsOf(b))
    ensures a == b
  {
    assert Satisfies(r, IslandRowsOf(a)[0]) && Satisfies(r, IslandRowsOf(b)[0]);
  }

  /** After a channel's cleanup, none of its island announcements that can be fetched has an `Empieza En:` marker. */
  lemma CleanupChannelMarks(w: World, channel: string)
    ensures forall r :: r in w.msgs.rows && MatchesAll(r, IslandRowsOf(channel))
              ==> MarkerFree(StartMarker, CleanupChannel(w, channel).chat, channel, r)
  {
    var rows := Select(w.msgs.rows, IslandRowsOf(channel));
    forall r | r in w.msgs.rows && MatchesAll(r, IslandRowsOf(channel))
      ensures r in rows
    {
      SelectSpec(w.msgs.rows, IslandRowsOf(channel), r);
    }
    RestampAllClears(StartMarker, w.chat, channel, rows);
  }

  /**
   * After ISLANDS_CLEANUP over `channelRows`, every island announcement of a cached
   * listed channel that can be fetched is restamped, with no `Empieza En:` marker
   * left; so is the message of every island row the cleanup deleted.
   */
  lemma {:induction false} CleanupChannelsMarks(w: World, cache: set<string>, channelRows: seq<Row>)
    ensures forall row, r :: row in channelRows && ChannelOf(row).Some? && ChannelOf(row).value in cache
              && r in w.msgs.rows && MatchesAll(r, IslandRowsOf(ChannelOf(row).value))
              ==> MarkerFree(StartMarker, CleanupChannels(w, cache, channelRows).chat, ChannelOf(row).value, r)
    ensures forall r, ch :: r in w.msgs.rows && MatchesAll(r, IslandRowsOf(ch))
              && r !in CleanupChannels(w, cache, channelRows).msgs.rows
              ==> MarkerFree(StartMarker, CleanupChannels(w, cache, channelRows).chat, ch, r)
  {
    if channelRows != [] {
      var init, last := channelRows[..|channelRows| - 1], channelRows[|channelRows| - 1];
      var w1 := CleanupChannels(w, cache, init);
      var w2 := CleanupChannels(w, cache, channelRows);
      CleanupChannelsMarks(w, cache, init);
      assert forall row :: row in channelRows ==> row in init || row == last by {
        assert channelRows == init + [last];
      }
      var c := ChannelOf(last);
      if c.Some? && c.value in cache {
        CleanupChannelRows(w1, c.value, map[]);
        CleanupChannelMarks(w1, c.value);
        forall r, ch | r in w.msgs.rows && MatchesAll(r, IslandRowsOf(ch))
          ensures r !in w1.msgs.rows ==> MarkerFree(StartMarker, w2.chat, ch, r)
          ensures r in w1.msgs.rows && r !in w2.msgs.rows ==> MarkerFree(StartMarker, w2.chat, ch, r)
          ensures ch == c.value ==> MarkerFree(StartMarker, w2.chat, ch, r)
        {
          if r !in w1.msgs.rows {
            MarkerFreeSwept(StartMarker, w1.chat, w2.chat, ch, r);
          } else if r !in w2.msgs.rows {
            CleanupChannelRows(w1, c.value, r);
            IslandRowsChannel(r, ch, c.value);
          }
        }
        forall row, r | row in init && ChannelOf(row).Some? && ChannelOf(row).value in cache
            && r in w.msgs.rows && MatchesAll(r, IslandRowsOf(ChannelOf(row).value))
          ensures MarkerFree(StartMarker, w2.chat, ChannelOf(row).value, r)
        {
          MarkerFreeSwept(StartMarker, w1.chat, w2.chat, ChannelOf(row).value, r);
        }
      }
    }
  }

  /**
   * ISLANDS_CLEANUP never adds a row, never removes a row that is not an island
   * announcement (the merchant rows survive), and only restamps messages.
   */
  lemma {:induction false} CleanupChannelsKeeps(w: World, cache: set<string>, channelRows: seq<Row>)
    ensures forall r :: r in CleanupChannels(w, cache, channelRows).msgs.rows ==> r in w.msgs.rows
    ensures forall r :: r in w.msgs.rows && Get(r, "islandName") == Null ==> r in CleanupChannels(w, cache, channelRows).msgs.rows
    ensures SweptFrom(StartMarker, w.chat, CleanupChannels(w, cache, channelRows).chat)
  {
    if channelRows != [] {
      var w1 := CleanupChannels(w, cache, channelRows[..|channelRows| - 1]);
      CleanupChannelsKeeps(w, cache, channelRows[..|channelRows| - 1]);
      var c := ChannelOf(channelRows[|channelRows| - 1]);
      if c.Some? && c.value in cache {
        forall r ensures r in CleanupChannel(w1, c.value).msgs.rows ==> r in w1.msgs.rows
          ensures r in w1.msgs.rows && Get(r, "islandName") == Null ==> r in CleanupChannel(w1, c.value).msgs.rows
        {
          CleanupChannelRows(w1, c.value, r);
          assert Get(r, "islandName") == Null ==> !Satisfies(r, IslandRowsOf(c.value)[1]);
        }
        CleanupChannelRows(w1, c.value, map[]);
        SweptTrans(StartMarker, w.chat, w1.chat, CleanupChannel(w1, c.value).chat);
      }
    }
  }

  lemma IslandsCleanupKeeps(w: World, ready: bool, cache: set<string>, channelRows: seq<Row>)
    ensures forall r :: r in IslandsCleanup(w, ready, cache, channelRows).msgs.rows ==> r in w.msgs.rows
    ensures forall r :: r in w.msgs.rows && Get(r, "islandName") == Null ==> r in IslandsCleanup(w, ready, cache, channelRows).msgs.rows
    ensures SweptFrom(StartMarker, w.chat, IslandsCleanup(w, ready, cache, channelRows).chat)
    ensures ready ==>
              forall row, r :: row in Select(channelRows, IslandChannels())
                && ChannelOf(row).Some? && ChannelOf(row).value in cache
                && r in w.msgs.rows && MatchesAll(r, IslandRowsOf(ChannelOf(row).value))
                ==> MarkerFree(StartMarker, IslandsCleanup(w, ready, cache, channelRows).chat, ChannelOf(row).value, r)
  {
    if ready {
      CleanupChannelsKeeps(w, cache, Select(channelRows, IslandChannels()));
      CleanupChannelsMarks(w, cache, Select(channelRows, IslandChannels()));
    }
  }
}
