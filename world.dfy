/**
 * What the event handlers share: the state they change (the messages table and the
 * chat), how a stored row names a channel or a message, and the sweep that turns a
 * relative timestamp marker into an absolute one once the thing it announced is over.
 */
module Bot {
  import opened Wrappers
  import opened Markers
  import opened Store
  import opened Chat

  /** The state the handlers change: the messages table and the chat. */
  datatype World = World(msgs: TableState, chat: ChatState)

  /** The chat channel a row names, if it names one. */
  function ChannelOf(r: Row): Option<string> {
    match Get(r, "channelId")
    case Str(c) => Some(c)
    case _ => None
  }

  /** The chat message a row points to, if it points to one. */
  function MessageOf(r: Row): Option<nat> {
    match Get(r, "messageId")
    case Num(n) => if n >= 0 then Some(n) else None
    case _ => None
  }

  /** The filter for all rows of `channel`. */
  function InChannel(channel: string): seq<Filter> {
    [Filter("channelId", Eq, Str(channel))]
  }

  /** The rows of `w` are a prefix of the rows of `w2`: rows were only appended. */
  predicate Grows(w: World, w2: World) {
    w.msgs.rows <= w2.msgs.rows
  }

  /** Appending rows never shrinks a selection. */
  lemma GrowsSelect(w: World, w2: World, fs: seq<Filter>)
    requires Grows(w, w2)
    ensures |Select(w.msgs.rows, fs)| <= |Select(w2.msgs.rows, fs)|
  {
    var rows, rows2 := w.msgs.rows, w2.msgs.rows;
    assert rows2 == rows + rows2[|rows|..];
    SelectAppend(rows, rows2[|rows|..], fs);
  }

  // ---------------------------------------------------------------------------
  // Sweeps.

  /** The merchant expiry (`Expiración`, clearMessages) or the island start (`Empieza En`, ISLANDS_CLEANUP). */
  datatype Marker = ExpiryMarker | StartMarker

  function PatternOf(k: Marker): Pattern {
    match k
    case ExpiryMarker => Expiry
    case StartMarker => IslandStart
  }

  /** The text with its relative timestamps made absolute; None when it has no marker. */
  function Restamp(k: Marker, s: string): Option<string> {
    match k
    case ExpiryMarker => RewriteExpiry(s)
    case StartMarker => RewriteIslandStart(s)
  }

  /** A text is restamped exactly when it has a marker, and a restamped text has none left. */
  lemma RestampSpec(k: Marker, s: string)
    ensures Restamp(k, s).None? <==> NoMarker(PatternOf(k), s)
    ensures Restamp(k, s).Some? ==> Restamp(k, Restamp(k, s).value).None?
  {
    match k
    case ExpiryMarker =>
      RewriteExpirySpec(s);
      if RewriteExpiry(s).Some? {
        RewriteExpirySpec(RewriteExpiry(s).value);
      }
    case StartMarker =>
      RewriteIslandStartSpec(s);
      if RewriteIslandStart(s).Some? {
        RewriteIslandStartSpec(RewriteIslandStart(s).value);
      }
  }

  /** One message of a sweep: fetched from `channel`, and edited when it has a marker. */
  function RestampOne(k: Marker, c: ChatState, channel: string, r: Row): ChatState {
    match MessageOf(r)
    case None => c
    case Some(id) =>
      match Lookup(c, channel, id)
      case None => c
      case Some(text) =>
        match Restamp(k, text)
        case None => c
        case Some(t) => Edited(c, id, t)
  }

  /** The sweep over the messages `rows` point to, one after the other. */
  function RestampAll(k: Marker, c: ChatState, channel: string, rows: seq<Row>): ChatState {
    if rows == [] then c
    else RestampOne(k, RestampAll(k, c, channel, rows[..|rows| - 1]), channel, rows[|rows| - 1])
  }

  /**
   * `after` is `before` with some messages swept: no message appears or disappears,
   * and each one is either untouched or had a marker and now reads as restamped.
   */
  predicate SweptFrom(k: Marker, before: ChatState, after: ChatState) {
    && after.next == before.next
    && after.posts.Keys == before.posts.Keys
    && forall id :: id in before.posts ==>
         || after.posts[id] == before.posts[id]
         || (after.posts[id].channel == before.posts[id].channel
             && Restamp(k, before.posts[id].text) == Some(after.posts[id].text))
  }

  /** Sweeping twice restamps no message twice, because a restamped message has no marker left. */
  lemma SweptTrans(k: Marker, a: ChatState, b: ChatState, c: ChatState)
    requires SweptFrom(k, a, b) && SweptFrom(k, b, c)
    ensures SweptFrom(k, a, c)
  {
    forall id | id in a.posts && c.posts[id] != b.posts[id] && b.posts[id] != a.posts[id]
      ensures false
    {
      RestampSpec(k, a.posts[id].text);
    }
  }

  lemma {:induction false} RestampAllSwept(k: Marker, c: ChatState, channel: string, rows: seq<Row>)
    ensures SweptFrom(k, c, RestampAll(k, c, channel, rows))
  {
    if rows != [] {
      var c1 := RestampAll(k, c, channel, rows[..|rows| - 1]);
      RestampAllSwept(k, c, channel, rows[..|rows| - 1]);
      SweptTrans(k, c, c1, RestampOne(k, c1, channel, rows[|rows| - 1]));
    }
  }

  /** A sweep moves no message to another channel, so what could be fetched still can be. */
  lemma SweptLookup(k: Marker, a: ChatState, b: ChatState, channel: string, id: nat)
    requires SweptFrom(k, a, b)
    ensures Lookup(b, channel, id).Some? <==> Lookup(a, channel, id).Some?
  {
  }

  /** The message `r` points to can be fetched from `channel`. */
  predicate Fetchable(c: ChatState, channel: string, r: Row) {
    MessageOf(r).Some? && Lookup(c, channel, MessageOf(r).value).Some?
  }

  /** The message `r` points to, when it can be fetched from `channel`, has no marker left. */
  predicate MarkerFree(k: Marker, c: ChatState, channel: string, r: Row) {
    Fetchable(c, channel, r) ==> NoMarker(PatternOf(k), c.posts[MessageOf(r).value].text)
  }

  /** A sweep keeps a cleared message cleared: it only edits messages that have a marker. */
  lemma MarkerFreeSwept(k: Marker, a: ChatState, b: ChatState, channel: string, r: Row)
    requires SweptFrom(k, a, b) && MarkerFree(k, a, channel, r)
    ensures MarkerFree(k, b, channel, r)
  {
    if Fetchable(b, channel, r) {
      var id := MessageOf(r).value;
      RestampSpec(k, a.posts[id].text);
    }
  }

  /** The message a sweep step handles is cleared afterwards, and the step is a sweep. */
  lemma RestampOneClears(k: Marker, c: ChatState, channel: string, r: Row)
    ensures SweptFrom(k, c, RestampOne(k, c, channel, r))
    ensures MarkerFree(k, RestampOne(k, c, channel, r), channel, r)
  {
    if Fetchable(c, channel, r) {
      var id := MessageOf(r).value;
      RestampSpec(k, c.posts[id].text);
      if Restamp(k, c.posts[id].text).Some? {
        RestampSpec(k, Restamp(k, c.posts[id].text).value);
      }
    }
  }

  /**
   * After the sweep of `channel` over `rows`, every message those rows point to that
   * can be fetched from the channel has no relative timestamp left.
   */
  lemma {:induction false} RestampAllClears(k: Marker, c: ChatState, channel: string, rows: seq<Row>)
    ensures forall r :: r in rows ==> MarkerFree(k, RestampAll(k, c, channel, rows), channel, r)
  {
    if rows != [] {
      var init, last := rows[..|rows| - 1], rows[|rows| - 1];
      var c1 := RestampAll(k, c, channel, init);
      var c2 := RestampOne(k, c1, channel, last);
      RestampAllClears(k, c, channel, init);
      RestampOneClears(k, c1, channel, last);
      forall r | r in rows ensures MarkerFree(k, c2, channel, r) {
        if r != last {
          assert r in init by { assert rows == init + [last]; }
          MarkerFreeSwept(k, c1, c2, channel, r);
        }
      }
    }
  }

  /** One message of a sweep; `fetched` tells whether its fetch succeeded. */
  method RestampMessage(chat: Client, k: Marker, channel: string, r: Row) returns (fetched: bool)
    modifies chat
    ensures chat.State() == RestampOne(k, old(chat.State()), channel, r)
    ensures fetched == Fetchable(old(chat.State()), channel, r)
    ensures chat.ready == old(chat.ready) && chat.cache == old(chat.cache)
  {
    var id := MessageOf(r);
    if id.None? {
      return false;
    }
    var text := chat.Fetch(channel, id.value);
    if text.None? {
      return false;
    }
    fetched := true;
    var edited := Restamp(k, text.value);
    if edited.Some? {
      chat.Edit(id.value, edited.value);
    }
  }

  /** The sweep of `channel` over the messages `rows` point to. */
  method Sweep(chat: Client, k: Marker, channel: string, rows: seq<Row>)
    modifies chat
    ensures chat.State() == RestampAll(k, old(chat.State()), channel, rows)
    ensures chat.ready == old(chat.ready) && chat.cache == old(chat.cache)
  {
    ghost var c0 := chat.State();
    var i := 0;
    while i < |rows|
      invariant 0 <= i <= |rows|
      invariant chat.State() == RestampAll(k, c0, channel, rows[..i])
      invariant chat.ready == old(chat.ready) && chat.cache == old(chat.cache)
    {
      assert rows[..i + 1][..i] == rows[..i];
      var fetched := RestampMessage(chat, k, channel, rows[i]);
      i := i + 1;
    }
    assert rows[..i] == rows;
  }
}
