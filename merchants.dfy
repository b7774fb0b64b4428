/**
 * Merchant notifications (src/handlers/merchants.js). A merchant group reports the
 * wandering merchants now active on a server; for every registered merchants
 * channel the bot announces each notable merchant once, remembers the
 * announcement as a row `{messageId, merchantId, channelId}` of the messages
 * table, keeps the vote counter of that announcement current, and, once the poll
 * reports no active merchant, turns every relative expiry into an absolute one and
 * forgets every merchant row.
 *
 * Each handler is a method over the chat client and the tables, proved equal to a
 * function over the `World` value (the messages table and the chat); the
 * properties are lemmas about those functions.
 */
module Merchants {
  import opened Wrappers
  import opened Text
  import opened Markers
  import opened Store
  import opened Chat
  import opened Bot

  const HourMs: int := 3600000
  const MinuteMs: int := 60000
  const DayMs: int := 86400000

  datatype Item = Item(name: string, rarity: int)

  datatype ActiveMerchant = ActiveMerchant(
    id: string, name: string, zone: string, cards: seq<Item>, rapports: seq<Item>, votes: int)

  datatype MerchantGroup = MerchantGroup(server: string, activeMerchants: seq<ActiveMerchant>)

  /** An entry of the merchant catalog: region and appearance hours (the `HH` of `HH:MM`). */
  datatype CatalogEntry = CatalogEntry(region: string, appearanceHours: seq<nat>)

  /**
   * The environment: CARD_RARITY_THRESHOLD, RAPPORT_RARITY_THRESHOLD,
   * CARD_RARITY_NOTIFICATION, CARD_WHITELIST and the server roles.
   */
  datatype Config = Config(
    cardThreshold: int, rapportThreshold: int, notifyRarity: int,
    whitelist: seq<string>, roles: map<string, string>)

  /** The server clock (UTC-4): local midnight in epoch milliseconds, and milliseconds since it. */
  datatype Clock = Clock(dayStart: int, msOfDay: nat)

  /** Everything the merchant handlers read besides the tables and the chat. */
  datatype Env = Env(cfg: Config, catalog: map<string, CatalogEntry>, clock: Clock)

  /** A MERCHANTS_LIST_CHECK report: the active merchant groups (if any were read) and the error flag. */
  datatype Poll = Poll(merchants: Option<seq<MerchantGroup>>, error: bool)

  // ---------------------------------------------------------------------------
  // Appearance windows (getAppearanceTime, getRemainingTime).

  function Now(c: Clock): int {
    c.dayStart + c.msOfDay
  }

  function HourOf(c: Clock): nat {
    c.msOfDay / HourMs
  }

  /** In the small hours a late appearance hour (22 or later) refers to the previous day. */
  predicate PreviousDay(c: Clock, hour: nat) {
    HourOf(c) <= 3 && hour >= 22
  }

  /** The appearance window of `hour` is [H:00, H+5:30]. */
  function WindowStart(c: Clock, hour: nat): int {
    c.dayStart - (if PreviousDay(c, hour) then DayMs else 0) + hour * HourMs
  }

  function WindowEnd(c: Clock, hour: nat): int {
    WindowStart(c, hour) + 5 * HourMs + 30 * MinuteMs
  }

  predicate InWindow(c: Clock, hour: nat) {
    WindowStart(c, hour) <= Now(c) <= WindowEnd(c, hour)
  }

  /** `getAppearanceTime`: the first appearance hour whose window holds the current time. */
  function AppearanceTime(hours: seq<nat>, c: Clock): (r: Option<nat>)
    ensures r.Some? ==> r.value in hours && InWindow(c, r.value)
    ensures r.None? <==> forall k :: 0 <= k < |hours| ==> !InWindow(c, hours[k])
  {
    if hours == [] then None
    else if InWindow(c, hours[0]) then Some(hours[0])
    else AppearanceTime(hours[1..], c)
  }

  /** `getRemainingTime`: the end of the appearance window, in whole seconds. */
  function RemainingTime(c: Clock, hour: nat): (ts: int)
    ensures ts * 1000 <= WindowEnd(c, hour) < ts * 1000 + 1000
  {
    (c.dayStart - (if PreviousDay(c, hour) then DayMs else 0) + (hour + 5) * HourMs + 30 * MinuteMs) / 1000
  }

  /** The hour found is the first one in the list whose window holds the current time. */
  lemma {:induction false} AppearanceTimeFirst(hours: seq<nat>, c: Clock, k: nat)
    requires k < |hours| && InWindow(c, hours[k])
    requires forall j :: 0 <= j < k ==> !InWindow(c, hours[j])
    ensures AppearanceTime(hours, c) == Some(hours[k])
  {
    if k > 0 {
      assert !InWindow(c, hours[0]);
      AppearanceTimeFirst(hours[1..], c, k - 1);
    }
  }

  // ---------------------------------------------------------------------------
  // Which merchants are announced, and how.

  /** Some card's lower-cased name is on the whitelist. */
  predicate Whitelisted(cfg: Config, m: ActiveMerchant) {
    exists i, j :: 0 <= i < |cfg.whitelist| && 0 <= j < |m.cards| && ToLower(m.cards[j].name) == cfg.whitelist[i]
  }

  /** Every card and every rapport below its threshold, and no whitelisted card. */
  predicate Unremarkable(cfg: Config, m: ActiveMerchant) {
    && (forall j :: 0 <= j < |m.cards| ==> m.cards[j].rarity < cfg.cardThreshold)
    && (forall j :: 0 <= j < |m.rapports| ==> m.rapports[j].rarity < cfg.rapportThreshold)
    && !Whitelisted(cfg, m)
  }

  /** The role mention that opens an announcement with a card at or above the notification rarity. */
  function Mention(cfg: Config, server: string, m: ActiveMerchant): string {
    if exists j :: 0 <= j < |m.cards| && m.cards[j].rarity >= cfg.notifyRarity then
      "<@&" + (if server in cfg.roles then cfg.roles[server] else "undefined") + ">"
    else ""
  }

  function Names(items: seq<Item>): string {
    if items == [] then ""
    else if |items| == 1 then items[0].name
    else items[0].name + " | " + Names(items[1..])
  }

  /** The announcement of `m`, expiring at `expiry` (seconds). */
  function Announcement(cfg: Config, entry: CatalogEntry, server: string, m: ActiveMerchant, expiry: int): string {
    Mention(cfg, server, m)
    + "\nExpiración: <t:" + IntToString(expiry) + ":R>\n\n**" + server + "**\n\n```\nNombre: " + m.name
    + "\nRegión: " + (if entry.region == "" then "??" else entry.region)
    + "\nZona: " + m.zone + "\nCartas: " + Names(m.cards) + "\nRapports: " + Names(m.rapports)
    + "\nVotos: " + IntToString(m.votes) + "\n```"
  }

  /** The filters for the record of `merchantId` in `channel`. */
  function RecordFilter(merchantId: string, channel: string): seq<Filter> {
    [Filter("merchantId", Eq, Str(merchantId)), Filter("channelId", Eq, Str(channel))]
  }

  /** The filters for the registered (non-alert) merchants channels. */
  function MerchantChannels(): seq<Filter> {
    [Filter("type", Eq, Str("merchants")), Filter("isAlert", Eq, Bool(false))]
  }

  /** The filter for the rows that belong to a merchant. */
  function MerchantRows(): seq<Filter> {
    [Filter("merchantId", IsNot, Null)]
  }

  /** The channels of `rows` the client has cached, in row order. */
  function Registered(rows: seq<Row>, cache: set<string>): seq<string> {
    if rows == [] then []
    else
      Registered(rows[..|rows| - 1], cache)
      + match ChannelOf(rows[|rows| - 1])
        case Some(c) => if c in cache then [c] else []
        case None => []
  }

  /** A channel is listed exactly when some row registers it and the client has it cached. */
  lemma {:induction false} RegisteredSpec(rows: seq<Row>, cache: set<string>, c: string)
    ensures c in Registered(rows, cache) <==> c in cache && exists r :: r in rows && ChannelOf(r) == Some(c)
  {
    if rows != [] {
      var init, last := rows[..|rows| - 1], rows[|rows| - 1];
      RegisteredSpec(init, cache, c);
      assert rows == init + [last];
      if c in cache && ChannelOf(last) == Some(c) {
        assert last in rows;
      }
      if r :| r in rows && ChannelOf(r) == Some(c) {
        if r != last {
          assert r in init;
        }
      }
    }
  }

  function RecordRow(messageId: nat, merchantId: string, channel: string): Row {
    map["messageId" := Num(messageId), "merchantId" := Str(merchantId), "channelId" := Str(channel)]
  }

  // ---------------------------------------------------------------------------
  // notifyMerchantFound and the MERCHANT_FOUND handler.

  /** The work for merchant `m` on `channel`: dedup, notability, catalog, window, send, record. */
  function FoundOne(w: World, env: Env, server: string, channel: string, m: ActiveMerchant): World {
    if |Select(w.msgs.rows, RecordFilter(m.id, channel))| > 0 then w
    else if Unremarkable(env.cfg, m) || m.name !in env.catalog then w
    else match AppearanceTime(env.catalog[m.name].appearanceHours, env.clock)
      case None => w
      case Some(hour) =>
        var text := Announcement(env.cfg, env.catalog[m.name], server, m, RemainingTime(env.clock, hour));
        World(Inserted(w.msgs, RecordRow(w.chat.next, m.id, channel)), Sent(w.chat, channel, text))
  }

  /** `notifyMerchantFound` for a list of merchants, one after the other. */
  function FoundAll(w: World, env: Env, server: string, channel: string, ms: seq<ActiveMerchant>): World {
    if ms == [] then w
    else FoundOne(FoundAll(w, env, server, channel, ms[..|ms| - 1]), env, server, channel, ms[|ms| - 1])
  }

  /** The group announced on each listed channel the client has cached. */
  function FoundOnChannels(w: World, env: Env, cache: set<string>, g: MerchantGroup, rows: seq<Row>): World {
    if rows == [] then w
    else
      var before := FoundOnChannels(w, env, cache, g, rows[..|rows| - 1]);
      match ChannelOf(rows[|rows| - 1])
      case Some(c) => if c in cache then FoundAll(before, env, g.server, c, g.activeMerchants) else before
      case None => before
  }

  /** The MERCHANT_FOUND handler: to the given channel, or else to every registered one. */
  function FoundEvent(w: World, env: Env, ready: bool, cache: set<string>, channelRows: seq<Row>,
                      g: MerchantGroup, channel: Option<string>): World {
    if !ready then w
    else match channel
      case Some(c) => FoundAll(w, env, g.server, c, g.activeMerchants)
      case None => FoundOnChannels(w, env, cache, g, Select(channelRows, MerchantChannels()))
  }

  /** `notifyMerchantFound` for one merchant on one channel. */
  method NotifyMerchant(chat: Client, messages: Table, env: Env, server: string, channel: string, m: ActiveMerchant)
    modifies chat, messages
    ensures World(messages.State(), chat.State())
         == FoundOne(old(World(messages.State(), chat.State())), env, server, channel, m)
    ensures chat.ready == old(chat.ready) && chat.cache == old(chat.cache)
  {
    var existing := messages.Find(RecordFilter(m.id, channel));
    if |existing| == 0 && !Unremarkable(env.cfg, m) && m.name in env.catalog {
      var hour := AppearanceTime(env.catalog[m.name].appearanceHours, env.clock);
      if hour.Some? {
        var text := Announcement(env.cfg, env.catalog[m.name], server, m, RemainingTime(env.clock, hour.value));
        var id := chat.Send(channel, text);
        var rowId := messages.Insert(RecordRow(id, m.id, channel));
      }
    }
  }

  method NotifyMerchantFound(chat: Client, messages: Table, env: Env, g: MerchantGroup, channel: string)
    modifies chat, messages
    ensures World(messages.State(), chat.State())
         == FoundAll(old(World(messages.State(), chat.State())), env, g.server, channel, g.activeMerchants)
    ensures chat.ready == old(chat.ready) && chat.cache == old(chat.cache)
  {
    ghost var w0 := World(messages.State(), chat.State());
    var ms := g.activeMerchants;
    var i := 0;
    while i < |ms|
      invariant 0 <= i <= |ms|
      invariant World(messages.State(), chat.State()) == FoundAll(w0, env, g.server, channel, ms[..i])
      invariant chat.ready == old(chat.ready) && chat.cache == old(chat.cache)
    {
      assert ms[..i + 1][..i] == ms[..i];
      NotifyMerchant(chat, messages, env, g.server, channel, ms[i]);
      i := i + 1;
    }
    assert ms[..i] == ms;
  }

  /** The MERCHANT_FOUND handler; `false` when it throws because the client is not ready. */
  method OnMerchantFound(chat: Client, messages: Table, channels: Table, env: Env, g: MerchantGroup, channel: Option<string>)
    returns (ok: bool)
    requires messages != channels
    modifies chat, messages
    ensures ok == old(chat.ready)
    ensures World(messages.State(), chat.State())
         == FoundEvent(old(World(messages.State(), chat.State())), env, old(chat.ready), old(chat.cache), channels.rows, g, channel)
    ensures chat.ready == old(chat.ready) && chat.cache == old(chat.cache)
  {
    ok := chat.ready;
    if !ok {
      return;
    }
    if channel.Some? {
      NotifyMerchantFound(chat, messages, env, g, channel.value);
      return;
    }
    ghost var w0 := World(messages.State(), chat.State());
    var rows := channels.Find(MerchantChannels());
    var i := 0;
    while i < |rows|
      invariant 0 <= i <= |rows|
      invariant World(messages.State(), chat.State()) == FoundOnChannels(w0, env, chat.cache, g, rows[..i])
      invariant chat.ready == old(chat.ready) && chat.cache == old(chat.cache)
    {
      assert rows[..i + 1][..i] == rows[..i];
      var c := ChannelOf(rows[i]);
      if c.Some? && c.value in chat.cache {
        NotifyMerchantFound(chat, messages, env, g, c.value);
      }
      i := i + 1;
    }
    assert rows[..i] == rows;
  }

  // ---------------------------------------------------------------------------
  // notifyMerchantVotesChanged and the MERCHANT_VOTES_CHANED handler.

  /** The vote update on `channel`: the recorded announcement gets `Votos: votes`. */
  function VotesOne(rows: seq<Row>, chat: ChatState, channel: string, merchantId: string, votes: int): ChatState {
    var found := Select(rows, RecordFilter(merchantId, channel));
    if |found| == 0 then chat
    else match MessageOf(found[0])
      case None => chat
      case Some(id) =>
        match Lookup(chat, channel, id)
        case None => chat
        case Some(text) => Edited(chat, id, RewriteVotes(text, votes))
  }

  function VotesOnChannels(rows: seq<Row>, chat: ChatState, cache: set<string>, channelRows: seq<Row>,
                           merchantId: string, votes: int): ChatState {
    if channelRows == [] then chat
    else
      var before := VotesOnChannels(rows, chat, cache, channelRows[..|channelRows| - 1], merchantId, votes);
      match ChannelOf(channelRows[|channelRows| - 1])
      case Some(c) => if c in cache then VotesOne(rows, before, c, merchantId, votes) else before
      case None => before
  }

  /** The message a vote update on `channel` edits: the first record's, when it can be fetched. */
  function Target(rows: seq<Row>, c: ChatState, channel: string, merchantId: string): (r: Option<nat>)
    ensures r.Some? ==> r.value in c.posts && c.posts[r.value].channel == channel
  {
    var found := Select(rows, RecordFilter(merchantId, channel));
    if |found| == 0 then None
    else match MessageOf(found[0])
      case None => None
      case Some(id) => if Lookup(c, channel, id).Some? then Some(id) else None
  }

  /** `handleVotesChanged(list)(merchantId, votes)`: the vote update on each channel of `list`. */
  function VotesOnList(rows: seq<Row>, c: ChatState, list: seq<string>, merchantId: string, votes: int): ChatState {
    if list == [] then c
    else VotesOne(rows, VotesOnList(rows, c, list[..|list| - 1], merchantId, votes), list[|list| - 1], merchantId, votes)
  }

  method NotifyMerchantVotesChanged(chat: Client, messages: Table, channel: string, merchantId: string, votes: int)
    modifies chat
    ensures chat.State() == VotesOne(messages.rows, old(chat.State()), channel, merchantId, votes)
    ensures chat.ready == old(chat.ready) && chat.cache == old(chat.cache)
  {
    var found := messages.Find(RecordFilter(merchantId, channel));
    if |found| == 0 {
      return;
    }
    var id := MessageOf(found[0]);
    if id.None? {
      return;
    }
    var text := chat.Fetch(channel, id.value);
    if text.Some? {
      chat.Edit(id.value, RewriteVotes(text.value, votes));
    }
  }

  /** The MERCHANT_VOTES_CHANED handler; `false` when it throws because the client is not ready. */
  method OnVotesChanged(chat: Client, messages: Table, channels: Table, merchantId: string, votes: int)
    returns (ok: bool)
    modifies chat
    ensures ok == old(chat.ready)
    ensures chat.State() == if !ok then old(chat.State())
      else VotesOnChannels(messages.rows, old(chat.State()), chat.cache, Select(channels.rows, MerchantChannels()), merchantId, votes)
    ensures chat.ready == old(chat.ready) && chat.cache == old(chat.cache)
  {
    ok := chat.ready;
    if !ok {
      return;
    }
    var rows := channels.Find(MerchantChannels());
    NotifyVotesOnChannels(chat, messages, rows, merchantId, votes);
  }

  /** The vote update on each listed channel the client has cached. */
  method NotifyVotesOnChannels(chat: Client, messages: Table, rows: seq<Row>, merchantId: string, votes: int)
    modifies chat
    ensures chat.State() == VotesOnChannels(messages.rows, old(chat.State()), chat.cache, rows, merchantId, votes)
    ensures chat.ready == old(chat.ready) && chat.cache == old(chat.cache)
  {
    ghost var c0 := chat.State();
    var i := 0;
    while i < |rows|
      invariant 0 <= i <= |rows|
      invariant chat.State() == VotesOnChannels(messages.rows, c0, chat.cache, rows[..i], merchantId, votes)
      invariant chat.ready == old(chat.ready) && chat.cache == old(chat.cache)
    {
      assert rows[..i + 1][..i] == rows[..i];
      var c := ChannelOf(rows[i]);
      if c.Some? && c.value in chat.cache {
        NotifyMerchantVotesChanged(chat, messages, c.value, merchantId, votes);
      }
      i := i + 1;
    }
    assert rows[..i] == rows;
  }

  // ---------------------------------------------------------------------------
  // clearMessages and the MERCHANTS_LIST_CHECK handler.

  /** The sweep over each listed channel the client has cached (an uncached one throws and is skipped). */
  function SweepChannels(chat: ChatState, msgRows: seq<Row>, cache: set<string>, channelRows: seq<Row>): ChatState {
    if channelRows == [] then chat
    else
      var before := SweepChannels(chat, msgRows, cache, channelRows[..|channelRows| - 1]);
      match ChannelOf(channelRows[|channelRows| - 1])
      case Some(c) => if c in cache then RestampAll(ExpiryMarker, before, c, Select(msgRows, InChannel(c))) else before
      case None => before
  }

  /** `clearMessages`: nothing while merchants are active or the poll failed; else sweep, then forget merchant rows. */
  function ClearMessages(w: World, cache: set<string>, channelRows: seq<Row>, hasActive: bool, error: bool): World {
    if hasActive || error then w
    else World(Deleted(w.msgs, MerchantRows()),
               SweepChannels(w.chat, w.msgs.rows, cache, Select(channelRows, MerchantChannels())))
  }

  /** The MERCHANTS_LIST_CHECK handler. */
  function ListCheck(w: World, ready: bool, cache: set<string>, channelRows: seq<Row>, poll: Poll): World {
    if !ready then w
    else ClearMessages(w, cache, channelRows, poll.merchants.Some? && |poll.merchants.value| > 0, poll.error)
  }

  method Clear(chat: Client, messages: Table, channels: Table, hasActive: bool, error: bool)
    requires messages != channels
    modifies chat, messages
    ensures World(messages.State(), chat.State())
         == ClearMessages(old(World(messages.State(), chat.State())), chat.cache, channels.rows, hasActive, error)
    ensures chat.ready == old(chat.ready) && chat.cache == old(chat.cache)
  {
    if hasActive || error {
      return;
    }
    var rows := channels.Find(MerchantChannels());
    SweepMerchantChannels(chat, messages, rows);
    var count := messages.Delete(MerchantRows());
  }

  /** The expiry sweep of each listed channel the client has cached. */
  method SweepMerchantChannels(chat: Client, messages: Table, rows: seq<Row>)
    modifies chat
    ensures chat.State() == SweepChannels(old(chat.State()), messages.rows, chat.cache, rows)
    ensures chat.ready == old(chat.ready) && chat.cache == old(chat.cache)
  {
    ghost var c0 := chat.State();
    var i := 0;
    while i < |rows|
      invariant 0 <= i <= |rows|
      invariant chat.State() == SweepChannels(c0, messages.rows, chat.cache, rows[..i])
      invariant chat.ready == old(chat.ready) && chat.cache == old(chat.cache)
    {
      assert rows[..i + 1][..i] == rows[..i];
      var c := ChannelOf(rows[i]);
      if c.Some? && c.value in chat.cache {
        var msgRows := messages.Find(InChannel(c.value));
        Sweep(chat, ExpiryMarker, c.value, msgRows);
      }
      i := i + 1;
    }
    assert rows[..i] == rows;
  }

  /** The MERCHANTS_LIST_CHECK handler; `false` when it throws because the client is not ready. */
  method OnListCheck(chat: Client, messages: Table, channels: Table, poll: Poll) returns (ok: bool)
    requires messages != channels
    modifies chat, messages
    ensures ok == old(chat.ready)
    ensures World(messages.State(), chat.State())
         == ListCheck(old(World(messages.State(), chat.State())), old(chat.ready), chat.cache, channels.rows, poll)
    ensures chat.ready == old(chat.ready) && chat.cache == old(chat.cache)
  {
    ok := chat.ready;
    if ok {
      Clear(chat, messages, channels, poll.merchants.Some? && |poll.merchants.value| > 0, poll.error);
    }
  }

  /** `checkActiveMerchants`: each reported group is handled as a MERCHANT_FOUND for `channel`. */
  function CheckActive(w: World, env: Env, ready: bool, cache: set<string>, channelRows: seq<Row>,
                       gs: seq<MerchantGroup>, channel: Option<string>): World {
    if gs == [] then w
    else FoundEvent(CheckActive(w, env, ready, cache, channelRows, gs[..|gs| - 1], channel),
                    env, ready, cache, channelRows, gs[|gs| - 1], channel)
  }

  method CheckActiveMerchants(chat: Client, messages: Table, channels: Table, env: Env, poll: Poll, channel: Option<string>)
    requires messages != channels
    modifies chat, messages
    ensures World(messages.State(), chat.State())
         == if poll.error || poll.merchants.None? then old(World(messages.State(), chat.State()))
            else CheckActive(old(World(messages.State(), chat.State())), env, chat.ready, chat.cache, channels.rows,
                             poll.merchants.value, channel)
    ensures chat.ready == old(chat.ready) && chat.cache == old(chat.cache)
  {
    if poll.error || poll.merchants.None? {
      return;
    }
    var gs := poll.merchants.value;
    ghost var w0 := World(messages.State(), chat.State());
    var i := 0;
    while i < |gs|
      invariant 0 <= i <= |gs|
      invariant World(messages.State(), chat.State()) == CheckActive(w0, env, chat.ready, chat.cache, channels.rows, gs[..i], channel)
      invariant chat.ready == old(chat.ready) && chat.cache == old(chat.cache)
    {
      assert gs[..i + 1][..i] == gs[..i];
      var ok := OnMerchantFound(chat, messages, channels, env, gs[i], channel);
      i := i + 1;
    }
    assert gs[..i] == gs;
  }

  // ---------------------------------------------------------------------------
  // What the handlers guarantee.

  /** A record row is found by the filters of its own merchant and channel, and by no others. */
  lemma RecordMatch(serial: nat, messageId: nat, merchantId: string, channel: string, id: string, ch: string)
    ensures MatchesAll(NewRow(serial, RecordRow(messageId, merchantId, channel)), RecordFilter(id, ch))
        <==> id == merchantId && ch == channel
  {
    var r := NewRow(serial, RecordRow(messageId, merchantId, channel));
    var fs := RecordFilter(id, ch);
    assert Get(r, "merchantId") == Str(merchantId);
    assert Get(r, "channelId") == Str(channel);
    if MatchesAll(r, fs) {
      assert Satisfies(r, fs[0]) && Satisfies(r, fs[1]);
    }
  }

  /** At most one announcement is recorded per merchant and channel. */
  ghost predicate UniqueRecords(rows: seq<Row>) {
    forall id, ch :: |Select(rows, RecordFilter(id, ch))| <= 1
  }

  /** Announcing a merchant never records a second announcement of it on the same channel. */
  lemma FoundOneUnique(w: World, env: Env, server: string, channel: string, m: ActiveMerchant)
    requires UniqueRecords(w.msgs.rows)
    ensures UniqueRecords(FoundOne(w, env, server, channel, m).msgs.rows)
  {
    var w2 := FoundOne(w, env, server, channel, m);
    if w2 != w {
      assert |Select(w.msgs.rows, RecordFilter(m.id, channel))| == 0;
      var r := NewRow(w.msgs.serial, RecordRow(w.chat.next, m.id, channel));
      assert w2.msgs.rows == w.msgs.rows + [r];
      forall id, ch ensures |Select(w2.msgs.rows, RecordFilter(id, ch))| <= 1 {
        SelectSnoc(w.msgs.rows, r, RecordFilter(id, ch));
        RecordMatch(w.msgs.serial, w.chat.next, m.id, channel, id, ch);
      }
    }
  }

  lemma {:induction false} FoundAllUnique(w: World, env: Env, server: string, channel: string, ms: seq<ActiveMerchant>)
    requires UniqueRecords(w.msgs.rows)
    ensures UniqueRecords(FoundAll(w, env, server, channel, ms).msgs.rows)
  {
    if ms != [] {
      FoundAllUnique(w, env, server, channel, ms[..|ms| - 1]);
      FoundOneUnique(FoundAll(w, env, server, channel, ms[..|ms| - 1]), env, server, channel, ms[|ms| - 1]);
    }
  }

  /** Nothing is left to announce for `m` on `channel`. */
  predicate Settled(w: World, env: Env, channel: string, m: ActiveMerchant) {
    || |Select(w.msgs.rows, RecordFilter(m.id, channel))| > 0
    || Unremarkable(env.cfg, m)
    || m.name !in env.catalog
    || AppearanceTime(env.catalog[m.name].appearanceHours, env.clock).None?
  }

  /**
   * `notifyMerchantFound` does nothing exactly when the merchant is settled, and
   * afterwards it is settled: it is announced at most once per channel.
   */
  lemma FoundOneSettles(w: World, env: Env, server: string, channel: string, m: ActiveMerchant)
    ensures Settled(w, env, channel, m) <==> FoundOne(w, env, server, channel, m) == w
    ensures Settled(FoundOne(w, env, server, channel, m), env, channel, m)
    ensures Grows(w, FoundOne(w, env, server, channel, m))
  {
    var w2 := FoundOne(w, env, server, channel, m);
    if !Settled(w, env, channel, m) {
      var r := NewRow(w.msgs.serial, RecordRow(w.chat.next, m.id, channel));
      assert w2.msgs.rows == w.msgs.rows + [r];
      SelectSnoc(w.msgs.rows, r, RecordFilter(m.id, channel));
      RecordMatch(w.msgs.serial, w.chat.next, m.id, channel, m.id, channel);
      assert |w2.msgs.rows| > |w.msgs.rows|;
    }
  }

  /** A settled merchant stays settled while rows are appended. */
  lemma SettledGrows(w: World, w2: World, env: Env, channel: string, m: ActiveMerchant)
    requires Grows(w, w2) && Settled(w, env, channel, m)
    ensures Settled(w2, env, channel, m)
  {
    GrowsSelect(w, w2, RecordFilter(m.id, channel));
  }

  /** Merchants settled before rows were appended stay settled, next to the one just settled. */
  lemma SettledSnoc(w1: World, w2: World, env: Env, channel: string, init: seq<ActiveMerchant>, last: ActiveMerchant)
    requires Grows(w1, w2) && Settled(w2, env, channel, last)
    requires forall m :: m in init ==> Settled(w1, env, channel, m)
    ensures forall m :: m in init + [last] ==> Settled(w2, env, channel, m)
  {
    forall m | m in init + [last] ensures Settled(w2, env, channel, m) {
      if m != last {
        SettledGrows(w1, w2, env, channel, m);
      }
    }
  }

  /** After a pass over the merchants every one of them is settled. */
  lemma {:induction false} FoundAllSettles(w: World, env: Env, server: string, channel: string, ms: seq<ActiveMerchant>)
    ensures Grows(w, FoundAll(w, env, server, channel, ms))
    ensures forall m :: m in ms ==> Settled(FoundAll(w, env, server, channel, ms), env, channel, m)
  {
    if ms != [] {
      var init, last := ms[..|ms| - 1], ms[|ms| - 1];
      var w1 := FoundAll(w, env, server, channel, init);
      var w2 := FoundOne(w1, env, server, channel, last);
      FoundAllSettles(w, env, server, channel, init);
      FoundOneSettles(w1, env, server, channel, last);
      assert ms == init + [last];
      SettledSnoc(w1, w2, env, channel, init, last);
    }
  }

  /** A pass over settled merchants changes nothing. */
  lemma {:induction false} FoundAllIdle(w: World, env: Env, server: string, channel: string, ms: seq<ActiveMerchant>)
    requires forall m :: m in ms ==> Settled(w, env, channel, m)
    ensures FoundAll(w, env, server, channel, ms) == w
  {
    if ms != [] {
      var init, last := ms[..|ms| - 1], ms[|ms| - 1];
      assert forall m :: m in init ==> m in ms;
      FoundAllIdle(w, env, server, channel, init);
      FoundOneSettles(w, env, server, channel, last);
    }
  }

  /** On one channel, announcing the same merchants again posts and records nothing new. */
  lemma FoundAllStable(w: World, env: Env, server: string, channel: string, ms: seq<ActiveMerchant>)
    ensures FoundAll(FoundAll(w, env, server, channel, ms), env, server, channel, ms)
         == FoundAll(w, env, server, channel, ms)
  {
    FoundAllSettles(w, env, server, channel, ms);
    FoundAllIdle(FoundAll(w, env, server, channel, ms), env, server, channel, ms);
  }

  lemma {:induction false} FoundOnChannelsUnique(w: World, env: Env, cache: set<string>, g: MerchantGroup, rows: seq<Row>)
    requires UniqueRecords(w.msgs.rows)
    ensures UniqueRecords(FoundOnChannels(w, env, cache, g, rows).msgs.rows)
  {
    if rows != [] {
      var before := FoundOnChannels(w, env, cache, g, rows[..|rows| - 1]);
      FoundOnChannelsUnique(w, env, cache, g, rows[..|rows| - 1]);
      var c := ChannelOf(rows[|rows| - 1]);
      if c.Some? && c.value in cache {
        FoundAllUnique(before, env, g.server, c.value, g.activeMerchants);
      }
    }
  }

  /** MERCHANT_FOUND keeps at most one record per merchant and channel, on every channel it reaches. */
  lemma FoundEventUnique(w: World, env: Env, ready: bool, cache: set<string>, channelRows: seq<Row>,
                         g: MerchantGroup, channel: Option<string>)
    requires UniqueRecords(w.msgs.rows)
    ensures UniqueRecords(FoundEvent(w, env, ready, cache, channelRows, g, channel).msgs.rows)
  {
    if ready {
      match channel
      case Some(c) => FoundAllUnique(w, env, g.server, c, g.activeMerchants);
      case None => FoundOnChannelsUnique(w, env, cache, g, Select(channelRows, MerchantChannels()));
    }
  }

  /** `checkActiveMerchants` (on MERCHANTS_READY and on reconnect) keeps records unique. */
  lemma {:induction false} CheckActiveUnique(w: World, env: Env, ready: bool, cache: set<string>, channelRows: seq<Row>,
                                             gs: seq<MerchantGroup>, channel: Option<string>)
    requires UniqueRecords(w.msgs.rows)
    ensures UniqueRecords(CheckActive(w, env, ready, cache, channelRows, gs, channel).msgs.rows)
  {
    if gs != [] {
      CheckActiveUnique(w, env, ready, cache, channelRows, gs[..|gs| - 1], channel);
      FoundEventUnique(CheckActive(w, env, ready, cache, channelRows, gs[..|gs| - 1], channel),
                       env, ready, cache, channelRows, gs[|gs| - 1], channel);
    }
  }

  /** Every merchant of `g` is settled on every cached channel of `rows`. */
  predicate SettledOnChannels(w: World, env: Env, cache: set<string>, g: MerchantGroup, rows: seq<Row>) {
    forall m, row :: m in g.activeMerchants && row in rows && ChannelOf(row).Some? && ChannelOf(row).value in cache
      ==> Settled(w, env, ChannelOf(row).value, m)
  }

  /** Nothing is left for MERCHANT_FOUND to announce for `g`. */
  predicate EventSettled(w: World, env: Env, ready: bool, cache: set<string>, channelRows: seq<Row>,
                         g: MerchantGroup, channel: Option<string>) {
    !ready ||
    match channel
    case Some(c) => forall m :: m in g.activeMerchants ==> Settled(w, env, c, m)
    case None => SettledOnChannels(w, env, cache, g, Select(channelRows, MerchantChannels()))
  }

  lemma EventSettledGrows(w: World, w2: World, env: Env, ready: bool, cache: set<string>, channelRows: seq<Row>,
                          g: MerchantGroup, channel: Option<string>)
    requires Grows(w, w2) && EventSettled(w, env, ready, cache, channelRows, g, channel)
    ensures EventSettled(w2, env, ready, cache, channelRows, g, channel)
  {
    forall m, c | Settled(w, env, c, m) ensures Settled(w2, env, c, m) {
      SettledGrows(w, w2, env, c, m);
    }
  }

  /** After the group is announced on the cached channels of `rows`, it is settled on each of them. */
  lemma {:induction false} FoundOnChannelsSettles(w: World, env: Env, cache: set<string>, g: MerchantGroup, rows: seq<Row>)
    ensures Grows(w, FoundOnChannels(w, env, cache, g, rows))
    ensures SettledOnChannels(FoundOnChannels(w, env, cache, g, rows), env, cache, g, rows)
  {
    if rows != [] {
      var init, last := rows[..|rows| - 1], rows[|rows| - 1];
      var w1 := FoundOnChannels(w, env, cache, g, init);
      var w2 := FoundOnChannels(w, env, cache, g, rows);
      FoundOnChannelsSettles(w, env, cache, g, init);
      assert forall row :: row in rows ==> row in init || row == last by {
        assert rows == init + [last];
      }
      var c := ChannelOf(last);
      if c.Some? && c.value in cache {
        FoundAllSettles(w1, env, g.server, c.value, g.activeMerchants);
        forall m, row | m in g.activeMerchants && row in rows && ChannelOf(row).Some? && ChannelOf(row).value in cache
          ensures Settled(w2, env, ChannelOf(row).value, m)
        {
          if ChannelOf(row) != c {
            SettledGrows(w1, w2, env, ChannelOf(row).value, m);
          }
        }
      }
    }
  }

  lemma {:induction false} FoundOnChannelsIdle(w: World, env: Env, cache: set<string>, g: MerchantGroup, rows: seq<Row>)
    requires SettledOnChannels(w, env, cache, g, rows)
    ensures FoundOnChannels(w, env, cache, g, rows) == w
  {
    if rows != [] {
      var init, last := rows[..|rows| - 1], rows[|rows| - 1];
      assert forall row :: row in init ==> row in rows;
      FoundOnChannelsIdle(w, env, cache, g, init);
      var c := ChannelOf(last);
      if c.Some? && c.value in cache {
        FoundAllIdle(w, env, g.server, c.value, g.activeMerchants);
      }
    }
  }

  /** After MERCHANT_FOUND nothing is left to announce for the group, and rows were only added. */
  lemma FoundEventSettles(w: World, env: Env, ready: bool, cache: set<string>, channelRows: seq<Row>,
                          g: MerchantGroup, channel: Option<string>)
    ensures Grows(w, FoundEvent(w, env, ready, cache, channelRows, g, channel))
    ensures EventSettled(FoundEvent(w, env, ready, cache, channelRows, g, channel), env, ready, cache, channelRows, g, channel)
  {
    if ready {
      match channel
      case Some(c) => FoundAllSettles(w, env, g.server, c, g.activeMerchants);
      case None => FoundOnChannelsSettles(w, env, cache, g, Select(channelRows, MerchantChannels()));
    }
  }

  lemma FoundEventIdle(w: World, env: Env, ready: bool, cache: set<string>, channelRows: seq<Row>,
                       g: MerchantGroup, channel: Option<string>)
    requires EventSettled(w, env, ready, cache, channelRows, g, channel)
    ensures FoundEvent(w, env, ready, cache, channelRows, g, channel) == w
  {
    if ready {
      match channel
      case Some(c) => FoundAllIdle(w, env, g.server, c, g.activeMerchants);
      case None => FoundOnChannelsIdle(w, env, cache, g, Select(channelRows, MerchantChannels()));
    }
  }

  /** A repeated MERCHANT_FOUND for the same group posts and records nothing new, on any channel. */
  lemma FoundEventStable(w: World, env: Env, ready: bool, cache: set<string>, channelRows: seq<Row>,
                         g: MerchantGroup, channel: Option<string>)
    ensures FoundEvent(FoundEvent(w, env, ready, cache, channelRows, g, channel), env, ready, cache, channelRows, g, channel)
         == FoundEvent(w, env, ready, cache, channelRows, g, channel)
  {
    FoundEventSettles(w, env, ready, cache, channelRows, g, channel);
    FoundEventIdle(FoundEvent(w, env, ready, cache, channelRows, g, channel), env, ready, cache, channelRows, g, channel);
  }

  /** After `checkActiveMerchants`, nothing is left to announce for any reported group. */
  lemma {:induction false} CheckActiveSettles(w: World, env: Env, ready: bool, cache: set<string>, channelRows: seq<Row>,
                                              gs: seq<MerchantGroup>, channel: Option<string>)
    ensures Grows(w, CheckActive(w, env, ready, cache, channelRows, gs, channel))
    ensures forall g :: g in gs ==>
              EventSettled(CheckActive(w, env, ready, cache, channelRows, gs, channel), env, ready, cache, channelRows, g, channel)
  {
    if gs != [] {
      var init, last := gs[..|gs| - 1], gs[|gs| - 1];
      var w1 := CheckActive(w, env, ready, cache, channelRows, init, channel);
      var w2 := FoundEvent(w1, env, ready, cache, channelRows, last, channel);
      CheckActiveSettles(w, env, ready, cache, channelRows, init, channel);
      FoundEventSettles(w1, env, ready, cache, channelRows, last, channel);
      forall g | g in gs ensures EventSettled(w2, env, ready, cache, channelRows, g, channel) {
        if g != last {
          assert g in init by { assert gs == init + [last]; }
          EventSettledGrows(w1, w2, env, ready, cache, channelRows, g, channel);
        }
      }
    }
  }

  lemma {:induction false} CheckActiveIdle(w: World, env: Env, ready: bool, cache: set<string>, channelRows: seq<Row>,
                                           gs: seq<MerchantGroup>, channel: Option<string>)
    requires forall g :: g in gs ==> EventSettled(w, env, ready, cache, channelRows, g, channel)
    ensures CheckActive(w, env, ready, cache, channelRows, gs, channel) == w
  {
    if gs != [] {
      assert forall g :: g in gs[..|gs| - 1] ==> g in gs;
      CheckActiveIdle(w, env, ready, cache, channelRows, gs[..|gs| - 1], channel);
      FoundEventIdle(w, env, ready, cache, channelRows, gs[|gs| - 1], channel);
    }
  }

  /**
   * Re-running `checkActiveMerchants` with the same report, as a reconnect does,
   * posts and records nothing new.
   */
  lemma CheckActiveStable(w: World, env: Env, ready: bool, cache: set<string>, channelRows: seq<Row>,
                          gs: seq<MerchantGroup>, channel: Option<string>)
    ensures CheckActive(CheckActive(w, env, ready, cache, channelRows, gs, channel), env, ready, cache, channelRows, gs, channel)
         == CheckActive(w, env, ready, cache, channelRows, gs, channel)
  {
    CheckActiveSettles(w, env, ready, cache, channelRows, gs, channel);
    CheckActiveIdle(CheckActive(w, env, ready, cache, channelRows, gs, channel), env, ready, cache, channelRows, gs, channel);
  }

  /** A later vote count replaces an earlier one: only the latest report shows. */
  lemma VotesOneLastWins(rows: seq<Row>, c: ChatState, channel: string, merchantId: string, first: int, second: int)
    ensures VotesOne(rows, VotesOne(rows, c, channel, merchantId, first), channel, merchantId, second)
         == VotesOne(rows, c, channel, merchantId, second)
  {
    var found := Select(rows, RecordFilter(merchantId, channel));
    if |found| > 0 && MessageOf(found[0]).Some? {
      var id := MessageOf(found[0]).value;
      var text := Lookup(c, channel, id);
      if text.Some? {
        VotesLastWins(text.value, first, second);
      }
    }
  }

  /** Reporting the same vote count twice is the same as reporting it once. */
  lemma VotesOneIdempotent(rows: seq<Row>, c: ChatState, channel: string, merchantId: string, votes: int)
    ensures VotesOne(rows, VotesOne(rows, c, channel, merchantId, votes), channel, merchantId, votes)
         == VotesOne(rows, c, channel, merchantId, votes)
  {
    VotesOneLastWins(rows, c, channel, merchantId, votes, votes);
  }

  /** Editing texts does not change which message a vote update targets. */
  lemma TargetLayout(rows: seq<Row>, a: ChatState, b: ChatState, channel: string, merchantId: string)
    requires SameLayout(a, b)
    ensures Target(rows, b, channel, merchantId) == Target(rows, a, channel, merchantId)
  {
  }

  /** Some channel of `list` has its vote update aimed at message `id`. */
  ghost predicate Targeted(rows: seq<Row>, c: ChatState, list: seq<string>, merchantId: string, id: nat) {
    exists k :: 0 <= k < |list| && Target(rows, c, list[k], merchantId) == Some(id)
  }

  /** The vote update edits the targeted message of a channel, and nothing else. */
  lemma VotesOneTarget(rows: seq<Row>, c: ChatState, channel: string, merchantId: string, votes: int)
    ensures VotesOne(rows, c, channel, merchantId, votes)
         == match Target(rows, c, channel, merchantId)
            case None => c
            case Some(id) => Edited(c, id, Markers.RewriteVotes(c.posts[id].text, votes))
  {
  }

  /** A message is targeted from a list with one more channel when that channel targets it or the rest does. */
  lemma TargetedSnoc(rows: seq<Row>, c: ChatState, init: seq<string>, last: string, merchantId: string)
    ensures forall id: nat :: (Targeted(rows, c, init + [last], merchantId, id)
      <==> Targeted(rows, c, init, merchantId, id) || Target(rows, c, last, merchantId) == Some(id))
  {
    var list := init + [last];
    forall id: nat
      ensures Targeted(rows, c, list, merchantId, id)
          <==> Targeted(rows, c, init, merchantId, id) || Target(rows, c, last, merchantId) == Some(id)
    {
      if Targeted(rows, c, list, merchantId, id) {
        var k :| 0 <= k < |list| && Target(rows, c, list[k], merchantId) == Some(id);
        if k < |init| {
          assert init[k] == list[k];
        }
      }
      if Targeted(rows, c, init, merchantId, id) {
        var k :| 0 <= k < |init| && Target(rows, c, init[k], merchantId) == Some(id);
        assert list[k] == init[k];
      }
      if Target(rows, c, last, merchantId) == Some(id) {
        assert list[|list| - 1] == last;
      }
    }
  }

  /**
   * After a vote update, every message targeted from some channel of the list reads
   * with the new count, and every other message is untouched.
   */
  lemma {:induction false} VotesOnListSpec(rows: seq<Row>, c: ChatState, list: seq<string>, merchantId: string, votes: int)
    ensures SameLayout(c, VotesOnList(rows, c, list, merchantId, votes))
    ensures forall id :: id in c.posts ==>
      VotesOnList(rows, c, list, merchantId, votes).posts[id]
        == if Targeted(rows, c, list, merchantId, id)
           then Post(c.posts[id].channel, Markers.RewriteVotes(c.posts[id].text, votes))
           else c.posts[id]
  {
    if list != [] {
      var init, last := list[..|list| - 1], list[|list| - 1];
      var c1 := VotesOnList(rows, c, init, merchantId, votes);
      var c2 := VotesOne(rows, c1, last, merchantId, votes);
      assert VotesOnList(rows, c, list, merchantId, votes) == c2;
      VotesOnListSpec(rows, c, init, merchantId, votes);
      var t := Target(rows, c, last, merchantId);
      assert c2 == match t
                   case None => c1
                   case Some(id) => Edited(c1, id, Markers.RewriteVotes(c1.posts[id].text, votes)) by {
        VotesOneTarget(rows, c1, last, merchantId, votes);
        TargetLayout(rows, c, c1, last, merchantId);
      }
      assert list == init + [last];
      TargetedSnoc(rows, c, init, last, merchantId);
      forall id | id in c.posts
        ensures c2.posts[id]
          == if Targeted(rows, c, list, merchantId, id)
             then Post(c.posts[id].channel, Markers.RewriteVotes(c.posts[id].text, votes))
             else c.posts[id]
      {
        if t == Some(id) {
          Markers.VotesIdempotent(c.posts[id].text, votes);
        }
      }
    }
  }

  /** A later vote count replaces an earlier one on every channel of the list. */
  lemma VotesOnListLastWins(rows: seq<Row>, c: ChatState, list: seq<string>, merchantId: string, first: int, second: int)
    ensures VotesOnList(rows, VotesOnList(rows, c, list, merchantId, first), list, merchantId, second)
         == VotesOnList(rows, c, list, merchantId, second)
  {
    var c1 := VotesOnList(rows, c, list, merchantId, first);
    var c2 := VotesOnList(rows, c1, list, merchantId, second);
    var c3 := VotesOnList(rows, c, list, merchantId, second);
    VotesOnListSpec(rows, c, list, merchantId, first);
    VotesOnListSpec(rows, c1, list, merchantId, second);
    VotesOnListSpec(rows, c, list, merchantId, second);
    forall id | id in c.posts
      ensures c2.posts[id] == c3.posts[id]
    {
      forall k | 0 <= k < |list|
        ensures Target(rows, c1, list[k], merchantId) == Target(rows, c, list[k], merchantId)
      {
        TargetLayout(rows, c, c1, list[k], merchantId);
      }
      assert Targeted(rows, c1, list, merchantId, id) <==> Targeted(rows, c, list, merchantId, id);
      Markers.VotesLastWins(c.posts[id].text, first, second);
    }
    assert c2.posts == c3.posts;
  }

  /** The MERCHANT_VOTES_CHANED fan-out is the vote update over the cached registered channels, in row order. */
  lemma {:induction false} VotesOnChannelsList(rows: seq<Row>, c: ChatState, cache: set<string>, channelRows: seq<Row>,
                                               merchantId: string, votes: int)
    ensures VotesOnChannels(rows, c, cache, channelRows, merchantId, votes)
         == VotesOnList(rows, c, Registered(channelRows, cache), merchantId, votes)
  {
    if channelRows != [] {
      var init := channelRows[..|channelRows| - 1];
      VotesOnChannelsList(rows, c, cache, init, merchantId, votes);
      var list := Registered(init, cache);
      match ChannelOf(channelRows[|channelRows| - 1])
      case Some(ch) =>
        if ch in cache {
          assert (list + [ch])[..|list + [ch]| - 1] == list;
        } else {
          assert list + [] == list;
        }
      case None =>
        assert list + [] == list;
    }
  }

  /**
   * A later MERCHANT_VOTES_CHANED replaces an earlier one on every channel: the
   * messages read as if only the later count had been reported.
   */
  lemma VotesOnChannelsLastWins(rows: seq<Row>, c: ChatState, cache: set<string>, channelRows: seq<Row>,
                                merchantId: string, first: int, second: int)
    ensures VotesOnChannels(rows, VotesOnChannels(rows, c, cache, channelRows, merchantId, first), cache, channelRows, merchantId, second)
         == VotesOnChannels(rows, c, cache, channelRows, merchantId, second)
  {
    var list := Registered(channelRows, cache);
    VotesOnChannelsList(rows, c, cache, channelRows, merchantId, first);
    VotesOnChannelsList(rows, VotesOnChannels(rows, c, cache, channelRows, merchantId, first), cache, channelRows, merchantId, second);
    VotesOnChannelsList(rows, c, cache, channelRows, merchantId, second);
    VotesOnListLastWins(rows, c, list, merchantId, first, second);
  }

  /** Clearing keeps exactly the rows that belong to no merchant (the island rows). */
  lemma ClearKeepsIslandRows(w: World, cache: set<string>, channelRows: seq<Row>, r: Row)
    ensures r in ClearMessages(w, cache, channelRows, false, false).msgs.rows
        <==> r in w.msgs.rows && Get(r, "merchantId") == Null
    ensures ClearMessages(w, cache, channelRows, false, false).msgs.serial == w.msgs.serial
  {
    RejectSpec(w.msgs.rows, MerchantRows(), r);
    assert MatchesAll(r, MerchantRows()) <==> Satisfies(r, MerchantRows()[0]);
  }

  lemma {:induction false} SweepChannelsSwept(c: ChatState, msgRows: seq<Row>, cache: set<string>, channelRows: seq<Row>)
    ensures SweptFrom(ExpiryMarker, c, SweepChannels(c, msgRows, cache, channelRows))
  {
    if channelRows != [] {
      var c1 := SweepChannels(c, msgRows, cache, channelRows[..|channelRows| - 1]);
      SweepChannelsSwept(c, msgRows, cache, channelRows[..|channelRows| - 1]);
      var ch := ChannelOf(channelRows[|channelRows| - 1]);
      if ch.Some? && ch.value in cache {
        RestampAllSwept(ExpiryMarker, c1, ch.value, Select(msgRows, InChannel(ch.value)));
        SweptTrans(ExpiryMarker, c, c1, RestampAll(ExpiryMarker, c1, ch.value, Select(msgRows, InChannel(ch.value))));
      }
    }
  }

  /**
   * After the sweep, every recorded message of a cached listed channel that can be
   * fetched from it has no `Expiración:` marker left.
   */
  lemma {:induction false} SweepChannelsClears(c: ChatState, msgRows: seq<Row>, cache: set<string>, channelRows: seq<Row>)
    ensures forall row, r :: row in channelRows && ChannelOf(row).Some? && ChannelOf(row).value in cache
              && r in Select(msgRows, InChannel(ChannelOf(row).value))
              ==> MarkerFree(ExpiryMarker, SweepChannels(c, msgRows, cache, channelRows), ChannelOf(row).value, r)
  {
    if channelRows != [] {
      var init, last := channelRows[..|channelRows| - 1], channelRows[|channelRows| - 1];
      var c1 := SweepChannels(c, msgRows, cache, init);
      var c2 := SweepChannels(c, msgRows, cache, channelRows);
      SweepChannelsClears(c, msgRows, cache, init);
      var ch := ChannelOf(last);
      if ch.Some? && ch.value in cache {
        var swept := Select(msgRows, InChannel(ch.value));
        RestampAllSwept(ExpiryMarker, c1, ch.value, swept);
        RestampAllClears(ExpiryMarker, c1, ch.value, swept);
        forall row, r | row in channelRows && ChannelOf(row).Some? && ChannelOf(row).value in cache
            && r in Select(msgRows, InChannel(ChannelOf(row).value))
          ensures MarkerFree(ExpiryMarker, c2, ChannelOf(row).value, r)
        {
          if ChannelOf(row) != ch {
            assert row in init by { assert channelRows == init + [last]; }
            MarkerFreeSwept(ExpiryMarker, c1, c2, ChannelOf(row).value, r);
          }
        }
      } else {
        assert forall row :: row in channelRows && ChannelOf(row) != ch ==> row in init by {
          assert channelRows == init + [last];
        }
      }
    }
  }

  /**
   * The MERCHANTS_LIST_CHECK handler posts nothing and deletes no message; it only
   * turns expiry markers into absolute times, and leaves messages without one alone.
   */
  lemma ListCheckSweeps(w: World, ready: bool, cache: set<string>, channelRows: seq<Row>, poll: Poll)
    ensures SweptFrom(ExpiryMarker, w.chat, ListCheck(w, ready, cache, channelRows, poll).chat)
    ensures forall id :: id in w.chat.posts && RewriteExpiry(w.chat.posts[id].text).None? ==>
              ListCheck(w, ready, cache, channelRows, poll).chat.posts[id] == w.chat.posts[id]
    ensures ready && !(poll.merchants.Some? && |poll.merchants.value| > 0) && !poll.error ==>
              forall row, r :: row in Select(channelRows, MerchantChannels())
                && ChannelOf(row).Some? && ChannelOf(row).value in cache
                && r in Select(w.msgs.rows, InChannel(ChannelOf(row).value))
                ==> MarkerFree(ExpiryMarker, ListCheck(w, ready, cache, channelRows, poll).chat, ChannelOf(row).value, r)
  {
    if ready && !(poll.merchants.Some? && |poll.merchants.value| > 0) && !poll.error {
      SweepChannelsSwept(w.chat, w.msgs.rows, cache, Select(channelRows, MerchantChannels()));
      SweepChannelsClears(w.chat, w.msgs.rows, cache, Select(channelRows, MerchantChannels()));
    }
  }
}
