/**
 * What the merchants hub sent to the earlier bots: merchants with a single card and
 * a single rapport, and the names of the rarities.
 */
module LegacyHub {
  import Merchants

  datatype HubMerchant = HubMerchant(id: string, name: string, zone: string,
                                     card: Merchants.Item, rapport: Merchants.Item, votes: int)

  datatype HubGroup = HubGroup(server: string, activeMerchants: seq<HubMerchant>)

  /** CARD_RARITY_THRESHOLD and RAPPORT_RARITY_THRESHOLD. */
  datatype Thresholds = Thresholds(card: int, rapport: int)

  /** The `rarities` table: 0 to 4 have names, any other rarity prints as `undefined`. */
  function RarityName(rarity: int): (s: string)
    ensures s == "undefined" <==> !(0 <= rarity <= 4)
  {
    if rarity == 0 then "Common"
    else if rarity == 1 then "Uncommon"
    else if rarity == 2 then "Rare"
    else if rarity == 3 then "Epic"
    else if rarity == 4 then "Legendary"
    else "undefined"
  }
}

/**
 * The single-table bot (src/index.js). It keeps the list of registered channels the
 * client has cached, announces each notable merchant once per channel (recording the
 * message in the messages table), rewrites the vote count of recorded announcements,
 * and deletes every record when the hub reports no active merchants.
 *
 * The handlers the hub calls were bound to the channel list of the moment the
 * client became ready (`listening`); `channels` is the list `registerChannels` keeps
 * current.
 */
module EarlyBot {
  import opened Wrappers
  import opened Text
  import opened Store
  import opened Chat
  import opened Bot
  import opened LegacyHub
  import Merchants
  import Commands
  import LegacyCommands

  // ---------------------------------------------------------------------------
  // registerChannels.

  // ---------------------------------------------------------------------------
  // handleMerchantFound.

  /** Both the card and the rapport are below their thresholds. */
  predicate Skipped(th: Thresholds, m: HubMerchant) {
    m.card.rarity < th.card && m.rapport.rarity < th.rapport
  }

  /** The merchant in a code block; it opens with a line break. */
  function Details(m: HubMerchant): (s: string)
    ensures |s| > 0 && s[0] == '\n'
  {
    "\n```\nNombre: " + m.name + "\nZona: " + m.zone + "\nCarta: " + m.card.name
    + "\nRapport: " + m.rapport.name + " (" + RarityName(m.rapport.rarity) + ")\nVotos: "
    + IntToString(m.votes) + "\n```"
  }

  /** The announcement: `@everyone` for a Wei card, then the details. */
  function FoundText(m: HubMerchant): string {
    (if ToLower(m.card.name) == "wei" then "@everyone" else "") + Details(m)
  }

  /** The announcement mentions everyone exactly when the card is Wei. */
  lemma FoundTextMention(m: HubMerchant)
    ensures "@everyone" <= FoundText(m) <==> ToLower(m.card.name) == "wei"
  {
    if ToLower(m.card.name) != "wei" {
      assert FoundText(m)[0] == '\n';
    }
  }

  /** Merchant `m` on `channel`: skipped, already recorded, or sent and recorded. */
  function FoundOne(w: World, th: Thresholds, channel: string, m: HubMerchant): World {
    if Skipped(th, m) || |Select(w.msgs.rows, Merchants.RecordFilter(m.id, channel))| > 0 then w
    else World(Inserted(w.msgs, Merchants.RecordRow(w.chat.next, m.id, channel)), Sent(w.chat, channel, FoundText(m)))
  }

  /** Merchant `m` on each channel of `list`, one after the other. */
  function FoundOnList(w: World, th: Thresholds, list: seq<string>, m: HubMerchant): World {
    if list == [] then w
    else FoundOne(FoundOnList(w, th, list[..|list| - 1], m), th, list[|list| - 1], m)
  }

  /** `handleMerchantFound(list)` for the merchants `ms` of a group. */
  function FoundGroup(w: World, th: Thresholds, list: seq<string>, ms: seq<HubMerchant>): World {
    if ms == [] then w
    else FoundOnList(FoundGroup(w, th, list, ms[..|ms| - 1]), th, list, ms[|ms| - 1])
  }

  /** `handleMerchantFound(list)` for each of `groups`. */
  function FoundGroups(w: World, th: Thresholds, list: seq<string>, groups: seq<HubGroup>): World {
    if groups == [] then w
    else FoundGroup(FoundGroups(w, th, list, groups[..|groups| - 1]), th, list, groups[|groups| - 1].activeMerchants)
  }

  /** `notifiyInitialMerchants(list)`: nothing for no channels or no hub answer. */
  function Initial(w: World, th: Thresholds, list: seq<string>, reply: Option<seq<HubGroup>>): World {
    if list == [] || reply.None? then w
    else FoundGroups(w, th, list, reply.value)
  }

  method AnnounceOnChannel(chat: Client, messages: Table, th: Thresholds, channel: string, m: HubMerchant)
    modifies chat, messages
    ensures World(messages.State(), chat.State()) == FoundOne(old(World(messages.State(), chat.State())), th, channel, m)
    ensures chat.ready == old(chat.ready) && chat.cache == old(chat.cache)
  {
    if Skipped(th, m) {
      return;
    }
    var found := messages.Find(Merchants.RecordFilter(m.id, channel));
    if |found| > 0 {
      return;
    }
    var sent := chat.Send(channel, FoundText(m));
    var id := messages.Insert(Merchants.RecordRow(sent, m.id, channel));
  }

  method AnnounceMerchant(chat: Client, messages: Table, th: Thresholds, list: seq<string>, m: HubMerchant)
    modifies chat, messages
    ensures World(messages.State(), chat.State()) == FoundOnList(old(World(messages.State(), chat.State())), th, list, m)
    ensures chat.ready == old(chat.ready) && chat.cache == old(chat.cache)
  {
    ghost var w0 := World(messages.State(), chat.State());
    var i := 0;
    while i < |list|
      invariant 0 <= i <= |list|
      invariant World(messages.State(), chat.State()) == FoundOnList(w0, th, list[..i], m)
      invariant chat.ready == old(chat.ready) && chat.cache == old(chat.cache)
    {
      assert list[..i + 1][..i] == list[..i];
      AnnounceOnChannel(chat, messages, th, list[i], m);
      i := i + 1;
    }
    assert list[..i] == list;
  }

  /** `handleMerchantFound(list)(server, group)`. */
  method HandleMerchantFound(chat: Client, messages: Table, th: Thresholds, list: seq<string>, g: HubGroup)
    modifies chat, messages
    ensures World(messages.State(), chat.State())
         == FoundGroup(old(World(messages.State(), chat.State())), th, list, g.activeMerchants)
    ensures chat.ready == old(chat.ready) && chat.cache == old(chat.cache)
  {
    ghost var w0 := World(messages.State(), chat.State());
    var ms := g.activeMerchants;
    var i := 0;
    while i < |ms|
      invariant 0 <= i <= |ms|
      invariant World(messages.State(), chat.State()) == FoundGroup(w0, th, list, ms[..i])
      invariant chat.ready == old(chat.ready) && chat.cache == old(chat.cache)
    {
      assert ms[..i + 1][..i] == ms[..i];
      AnnounceMerchant(chat, messages, th, list, ms[i]);
      i := i + 1;
    }
    assert ms[..i] == ms;
  }

  /** `notifiyInitialMerchants(list)` with the hub's answer to GetKnownActiveMerchantGroups. */
  method NotifyInitialMerchants(chat: Client, messages: Table, th: Thresholds, list: seq<string>,
                                reply: Option<seq<HubGroup>>)
    modifies chat, messages
    ensures World(messages.State(), chat.State())
         == Initial(old(World(messages.State(), chat.State())), th, list, reply)
    ensures chat.ready == old(chat.ready) && chat.cache == old(chat.cache)
  {
    if |list| == 0 || reply.None? {
      return;
    }
    ghost var w0 := World(messages.State(), chat.State());
    var groups := reply.value;
    var i := 0;
    while i < |groups|
      invariant 0 <= i <= |groups|
      invariant World(messages.State(), chat.State()) == FoundGroups(w0, th, list, groups[..i])
      invariant chat.ready == old(chat.ready) && chat.cache == old(chat.cache)
    {
      assert groups[..i + 1][..i] == groups[..i];
      HandleMerchantFound(chat, messages, th, list, groups[i]);
      i := i + 1;
    }
    assert groups[..i] == groups;
  }

  // ---------------------------------------------------------------------------
  // handleVotesChanged.

  method HandleVotesChanged(chat: Client, messages: Table, list: seq<string>, merchantId: string, votes: int)
    modifies chat
    ensures chat.State() == Merchants.VotesOnList(messages.rows, old(chat.State()), list, merchantId, votes)
    ensures chat.ready == old(chat.ready) && chat.cache == old(chat.cache)
  {
    ghost var c0 := chat.State();
    var i := 0;
    while i < |list|
      invariant 0 <= i <= |list|
      invariant chat.State() == Merchants.VotesOnList(messages.rows, c0, list[..i], merchantId, votes)
      invariant chat.ready == old(chat.ready) && chat.cache == old(chat.cache)
    {
      assert list[..i + 1][..i] == list[..i];
      Merchants.NotifyMerchantVotesChanged(chat, messages, list[i], merchantId, votes);
      i := i + 1;
    }
    assert list[..i] == list;
  }

  // ---------------------------------------------------------------------------
  // handleHasActiveMerchants.

  /**
   * `handleHasActiveMerchants` as written: every record is deleted only when the hub's
   * answer is falsy. The answer is the list of active groups, and a list, even an
   * empty one, is truthy, so only a missing answer deletes.
   */
  function ClearedAsWritten(t: TableState, reply: Option<seq<HubGroup>>): TableState {
    if reply.None? then Deleted(t, []) else t
  }

  /** The evident intent: every record is deleted once the hub reports no active merchants. */
  function Cleared(t: TableState, reply: Option<seq<HubGroup>>): TableState {
    if reply.None? || reply.value == [] then Deleted(t, []) else t
  }

  method HandleHasActiveMerchantsAsWritten(messages: Table, reply: Option<seq<HubGroup>>)
    modifies messages
    ensures messages.State() == ClearedAsWritten(old(messages.State()), reply)
  {
    if reply.Some? {
      return;
    }
    var count := messages.Delete([]);
  }

  method HandleHasActiveMerchants(messages: Table, reply: Option<seq<HubGroup>>)
    modifies messages
    ensures messages.State() == Cleared(old(messages.State()), reply)
  {
    if reply.Some? && |reply.value| > 0 {
      return;
    }
    var count := messages.Delete([]);
  }

  /**
   * Whether `notifiyInitialMerchants(list)` returns normally as written, so that
   * `handleClientReady` goes on to bind the hub handlers (src/index.js:102-114). With
   * channels to notify, a failed hub call throws, and so does a missing answer,
   * whose `length` is read before the guard that tests it.
   */
  function BindsAsWritten(list: seq<string>, rejected: bool, reply: Option<seq<HubGroup>>): bool {
    list == [] || (!rejected && reply.Some?)
  }

  /** The evident intent: the guard skips a missing answer, and only a failed call throws. */
  function BindsGuarded(list: seq<string>, rejected: bool): bool {
    list == [] || !rejected
  }

  /**
   * With channels registered and no answer from the hub, the ready handler as written
   * never binds the hub handlers, where the guard was evidently meant to let it.
   */
  lemma MissingAnswerUnbinds(list: seq<string>, reply: Option<seq<HubGroup>>)
    requires list != [] && reply.None?
    ensures !BindsAsWritten(list, false, reply) && BindsGuarded(list, false)
  {
  }

  /** The bot's channel lists. */
  class EarlyBot {
    /** The module-level `channels`, kept current by `registerChannels`. */
    var channels: seq<string>
    /** The list the hub handlers were bound to when the client became ready. */
    var listening: seq<string>

    constructor ()
      ensures channels == [] && listening == []
    {
      channels := [];
      listening := [];
    }

    /** `registerChannels`. */
    method RegisterChannels(chat: Client, table: Table)
      modifies this
      ensures channels == Merchants.Registered(table.rows, chat.cache)
      ensures listening == old(listening)
    {
      var rows := table.rows;
      var found: seq<string> := [];
      var i := 0;
      while i < |rows|
        invariant 0 <= i <= |rows|
        invariant found == Merchants.Registered(rows[..i], chat.cache)
      {
        assert rows[..i + 1][..i] == rows[..i];
        var c := ChannelOf(rows[i]);
        if c.Some? && c.value in chat.cache {
          found := found + [c.value];
        }
        i := i + 1;
      }
      assert rows[..i] == rows;
      channels := found;
    }

    /** The registration and the initial announcements that `handleClientReady` starts with. */
    method ReadyAnnounce(chat: Client, messages: Table, table: Table, th: Thresholds, reply: Option<seq<HubGroup>>)
      requires messages != table
      modifies this, chat, messages
      ensures channels == if old(channels) == [] then Merchants.Registered(table.rows, old(chat.cache)) else old(channels)
      ensures listening == old(listening)
      ensures World(messages.State(), chat.State())
           == Initial(old(World(messages.State(), chat.State())), th, channels, reply)
      ensures table.State() == old(table.State())
      ensures chat.ready == old(chat.ready) && chat.cache == old(chat.cache)
    {
      if |channels| == 0 {
        RegisterChannels(chat, table);
      }
      NotifyInitialMerchants(chat, messages, th, channels, reply);
    }

    /**
     * `handleClientReady`: register when nothing is registered, announce, then bind the
     * handlers. `rejected` says the hub call for the active groups failed, and `reply`
     * is its answer otherwise. The handlers are bound only when the announcements
     * return normally (`BindsAsWritten`).
     */
    method ClientReady(chat: Client, messages: Table, table: Table, th: Thresholds,
                       rejected: bool, reply: Option<seq<HubGroup>>)
      requires messages != table
      modifies this, chat, messages
      ensures channels == if old(channels) == [] then Merchants.Registered(table.rows, old(chat.cache)) else old(channels)
      ensures listening == if BindsAsWritten(channels, rejected, reply) then channels else old(listening)
      ensures World(messages.State(), chat.State())
           == Initial(old(World(messages.State(), chat.State())), th, channels, if rejected then None else reply)
      ensures table.State() == old(table.State())
      ensures chat.ready == old(chat.ready) && chat.cache == old(chat.cache)
    {
      ReadyAnnounce(chat, messages, table, th, if rejected then None else reply);
      if BindsAsWritten(channels, rejected, reply) {
        listening := channels;
      }
    }

    /** `handleClientReady` with a missing answer left to the guard, so only a failed call keeps the handlers unbound. */
    method ClientReadyGuarded(chat: Client, messages: Table, table: Table, th: Thresholds,
                              rejected: bool, reply: Option<seq<HubGroup>>)
      requires messages != table
      modifies this, chat, messages
      ensures channels == if old(channels) == [] then Merchants.Registered(table.rows, old(chat.cache)) else old(channels)
      ensures listening == if BindsGuarded(channels, rejected) then channels else old(listening)
      ensures World(messages.State(), chat.State())
           == Initial(old(World(messages.State(), chat.State())), th, channels, if rejected then None else reply)
      ensures table.State() == old(table.State())
      ensures chat.ready == old(chat.ready) && chat.cache == old(chat.cache)
    {
      ReadyAnnounce(chat, messages, table, th, if rejected then None else reply);
      if BindsGuarded(channels, rejected) {
        listening := channels;
      }
    }

    /**
     * The `messageCreate` handler: the two commands, a new channel list after either
     * succeeds, and the initial announcements on a newly set channel.
     */
    method OnMessage(chat: Client, messages: Table, table: Table, th: Thresholds, m: Commands.Message,
                     replyOk: bool, reply: Option<seq<HubGroup>>) returns (added: bool, removed: bool)
      requires messages != table
      modifies this, chat, messages, table
      ensures table.State() == if m.content == LegacyCommands.SetCommand
                               then LegacyCommands.SetChannel(old(table.State()), m, replyOk).0
                               else LegacyCommands.RemoveChannel(old(table.State()), m, replyOk).0
      ensures added == LegacyCommands.SetChannel(old(table.State()), m, replyOk).1
      ensures removed == LegacyCommands.RemoveChannel(old(table.State()), m, replyOk).1
      ensures channels == if added || removed then Merchants.Registered(table.rows, old(chat.cache)) else old(channels)
      ensures listening == old(listening)
      ensures World(messages.State(), chat.State())
           == if added && m.channelId in channels
              then Initial(old(World(messages.State(), chat.State())), th, [m.channelId], reply)
              else old(World(messages.State(), chat.State()))
      ensures chat.ready == old(chat.ready) && chat.cache == old(chat.cache)
    {
      if m.bot {
        return false, false;
      }
      added := LegacyCommands.SetChannelId(table, m, replyOk);
      removed := LegacyCommands.RemoveChannelId(table, m, replyOk);
      if added || removed {
        RegisterChannels(chat, table);
      }
      if added && m.channelId in channels {
        NotifyInitialMerchants(chat, messages, th, [m.channelId], reply);
      }
    }

    /** UpdateMerchantGroup as bound at start-up: announced on the channels of that moment. */
    method OnMerchantFound(chat: Client, messages: Table, th: Thresholds, g: HubGroup)
      modifies chat, messages
      ensures World(messages.State(), chat.State())
           == FoundGroup(old(World(messages.State(), chat.State())), th, listening, g.activeMerchants)
      ensures chat.ready == old(chat.ready) && chat.cache == old(chat.cache)
    {
      HandleMerchantFound(chat, messages, th, listening, g);
    }

    /** UpdateMerchantGroup on the channels registered now. */
    method OnMerchantFoundCurrent(chat: Client, messages: Table, th: Thresholds, g: HubGroup)
      modifies chat, messages
      ensures World(messages.State(), chat.State())
           == FoundGroup(old(World(messages.State(), chat.State())), th, channels, g.activeMerchants)
      ensures chat.ready == old(chat.ready) && chat.cache == old(chat.cache)
    {
      HandleMerchantFound(chat, messages, th, channels, g);
    }

    /** UpdateVoteTotal as bound at start-up. */
    method OnVotesChanged(chat: Client, messages: Table, merchantId: string, votes: int)
      modifies chat
      ensures chat.State() == Merchants.VotesOnList(messages.rows, old(chat.State()), listening, merchantId, votes)
      ensures chat.ready == old(chat.ready) && chat.cache == old(chat.cache)
    {
      HandleVotesChanged(chat, messages, listening, merchantId, votes);
    }

    /** UpdateVoteTotal on the channels registered now. */
    method OnVotesChangedCurrent(chat: Client, messages: Table, merchantId: string, votes: int)
      modifies chat
      ensures chat.State() == Merchants.VotesOnList(messages.rows, old(chat.State()), channels, merchantId, votes)
      ensures chat.ready == old(chat.ready) && chat.cache == old(chat.cache)
    {
      HandleVotesChanged(chat, messages, channels, merchantId, votes);
    }
  }

  // ---------------------------------------------------------------------------
  // What the handlers guarantee.

  /** Nothing is left to announce for `m` on `channel`. */
  predicate Settled(w: World, th: Thresholds, channel: string, m: HubMerchant) {
    Skipped(th, m) || |Select(w.msgs.rows, Merchants.RecordFilter(m.id, channel))| > 0
  }

  /** A merchant is announced on a channel exactly when it is not settled there, and then it is. */
  lemma FoundOneSettles(w: World, th: Thresholds, channel: string, m: HubMerchant)
    ensures Settled(w, th, channel, m) <==> FoundOne(w, th, channel, m) == w
    ensures Settled(FoundOne(w, th, channel, m), th, channel, m)
    ensures Grows(w, FoundOne(w, th, channel, m))
  {
    var w2 := FoundOne(w, th, channel, m);
    if !Settled(w, th, channel, m) {
      var r := NewRow(w.msgs.serial, Merchants.RecordRow(w.chat.next, m.id, channel));
      assert w2.msgs.rows == w.msgs.rows + [r];
      SelectSnoc(w.msgs.rows, r, Merchants.RecordFilter(m.id, channel));
      Merchants.RecordMatch(w.msgs.serial, w.chat.next, m.id, channel, m.id, channel);
      assert |w2.msgs.rows| > |w.msgs.rows|;
    }
  }

  lemma SettledGrows(w: World, w2: World, th: Thresholds, channel: string, m: HubMerchant)
    requires Grows(w, w2) && Settled(w, th, channel, m)
    ensures Settled(w2, th, channel, m)
  {
    GrowsSelect(w, w2, Merchants.RecordFilter(m.id, channel));
  }

  /** Channels settled before rows were appended stay settled, next to the one just settled. */
  lemma SettledSnoc(w1: World, w2: World, th: Thresholds, init: seq<string>, last: string, m: HubMerchant)
    requires Grows(w1, w2) && Settled(w2, th, last, m)
    requires forall c :: c in init ==> Settled(w1, th, c, m)
    ensures forall c :: c in init + [last] ==> Settled(w2, th, c, m)
  {
    forall c | c in init + [last] ensures Settled(w2, th, c, m) {
      if c != last {
        SettledGrows(w1, w2, th, c, m);
      }
    }
  }

  lemma {:induction false} FoundOnListSettles(w: World, th: Thresholds, list: seq<string>, m: HubMerchant)
    ensures Grows(w, FoundOnList(w, th, list, m))
    ensures forall c :: c in list ==> Settled(FoundOnList(w, th, list, m), th, c, m)
  {
    if list != [] {
      var init, last := list[..|list| - 1], list[|list| - 1];
      var w1 := FoundOnList(w, th, init, m);
      var w2 := FoundOne(w1, th, last, m);
      assert FoundOnList(w, th, list, m) == w2;
      FoundOnListSettles(w, th, init, m);
      FoundOneSettles(w1, th, last, m);
      assert Grows(w, w2) by { assert w.msgs.rows <= w1.msgs.rows <= w2.msgs.rows; }
      assert list == init + [last];
      SettledSnoc(w1, w2, th, init, last, m);
    }
  }

  /** After a group is handled, every merchant of it is settled on every channel of the list. */
  lemma {:induction false} FoundGroupSettles(w: World, th: Thresholds, list: seq<string>, ms: seq<HubMerchant>)
    ensures Grows(w, FoundGroup(w, th, list, ms))
    ensures forall m, c :: m in ms && c in list ==> Settled(FoundGroup(w, th, list, ms), th, c, m)
  {
    if ms != [] {
      var init, last := ms[..|ms| - 1], ms[|ms| - 1];
      var w1 := FoundGroup(w, th, list, init);
      var w2 := FoundOnList(w1, th, list, last);
      FoundGroupSettles(w, th, list, init);
      FoundOnListSettles(w1, th, list, last);
      forall m, c | m in ms && c in list ensures Settled(w2, th, c, m) {
        if m != last {
          assert m in init by { assert ms == init + [last]; }
          SettledGrows(w1, w2, th, c, m);
        }
      }
    }
  }

  lemma {:induction false} FoundOnListIdle(w: World, th: Thresholds, list: seq<string>, m: HubMerchant)
    requires forall c :: c in list ==> Settled(w, th, c, m)
    ensures FoundOnList(w, th, list, m) == w
  {
    if list != [] {
      var init := list[..|list| - 1];
      assert forall c :: c in init ==> c in list;
      FoundOnListIdle(w, th, init, m);
      FoundOneSettles(w, th, list[|list| - 1], m);
    }
  }

  lemma {:induction false} FoundGroupIdle(w: World, th: Thresholds, list: seq<string>, ms: seq<HubMerchant>)
    requires forall m, c :: m in ms && c in list ==> Settled(w, th, c, m)
    ensures FoundGroup(w, th, list, ms) == w
  {
    if ms != [] {
      var init := ms[..|ms| - 1];
      assert forall m :: m in init ==> m in ms;
      FoundGroupIdle(w, th, list, init);
      FoundOnListIdle(w, th, list, ms[|ms| - 1]);
    }
  }

  /** A repeated UpdateMerchantGroup for the same group posts and records nothing new. */
  lemma FoundGroupStable(w: World, th: Thresholds, list: seq<string>, ms: seq<HubMerchant>)
    ensures FoundGroup(FoundGroup(w, th, list, ms), th, list, ms) == FoundGroup(w, th, list, ms)
  {
    FoundGroupSettles(w, th, list, ms);
    FoundGroupIdle(FoundGroup(w, th, list, ms), th, list, ms);
  }

  /** After the hub's groups are handled, every merchant of every group is settled on every channel. */
  lemma {:induction false} FoundGroupsSettles(w: World, th: Thresholds, list: seq<string>, groups: seq<HubGroup>)
    ensures Grows(w, FoundGroups(w, th, list, groups))
    ensures forall g, m, c :: g in groups && m in g.activeMerchants && c in list
                ==> Settled(FoundGroups(w, th, list, groups), th, c, m)
  {
    if groups != [] {
      var init, last := groups[..|groups| - 1], groups[|groups| - 1];
      var w1 := FoundGroups(w, th, list, init);
      var w2 := FoundGroup(w1, th, list, last.activeMerchants);
      FoundGroupsSettles(w, th, list, init);
      FoundGroupSettles(w1, th, list, last.activeMerchants);
      forall g, m, c | g in groups && m in g.activeMerchants && c in list ensures Settled(w2, th, c, m) {
        if g != last {
          assert g in init by { assert groups == init + [last]; }
          SettledGrows(w1, w2, th, c, m);
        }
      }
    }
  }

  lemma {:induction false} FoundGroupsIdle(w: World, th: Thresholds, list: seq<string>, groups: seq<HubGroup>)
    requires forall g, m, c :: g in groups && m in g.activeMerchants && c in list ==> Settled(w, th, c, m)
    ensures FoundGroups(w, th, list, groups) == w
  {
    if groups != [] {
      var init, last := groups[..|groups| - 1], groups[|groups| - 1];
      assert forall g :: g in init ==> g in groups;
      FoundGroupsIdle(w, th, list, init);
      assert last in groups;
      FoundGroupIdle(w, th, list, last.activeMerchants);
    }
  }

  /** Announcing the initial merchants a second time, with the same answer, changes nothing. */
  lemma InitialStable(w: World, th: Thresholds, list: seq<string>, reply: Option<seq<HubGroup>>)
    ensures Initial(Initial(w, th, list, reply), th, list, reply) == Initial(w, th, list, reply)
  {
    if list != [] && reply.Some? {
      FoundGroupsSettles(w, th, list, reply.value);
      FoundGroupsIdle(FoundGroups(w, th, list, reply.value), th, list, reply.value);
    }
  }

  /** Announcing never records a second announcement of a merchant on the same channel. */
  lemma FoundOneUnique(w: World, th: Thresholds, channel: string, m: HubMerchant)
    requires Merchants.UniqueRecords(w.msgs.rows)
    ensures Merchants.UniqueRecords(FoundOne(w, th, channel, m).msgs.rows)
  {
    var w2 := FoundOne(w, th, channel, m);
    if w2 != w {
      var r := NewRow(w.msgs.serial, Merchants.RecordRow(w.chat.next, m.id, channel));
      assert w2.msgs.rows == w.msgs.rows + [r];
      forall id, ch ensures |Select(w2.msgs.rows, Merchants.RecordFilter(id, ch))| <= 1 {
        SelectSnoc(w.msgs.rows, r, Merchants.RecordFilter(id, ch));
        Merchants.RecordMatch(w.msgs.serial, w.chat.next, m.id, channel, id, ch);
      }
    }
  }

  lemma {:induction false} FoundOnListUnique(w: World, th: Thresholds, list: seq<string>, m: HubMerchant)
    requires Merchants.UniqueRecords(w.msgs.rows)
    ensures Merchants.UniqueRecords(FoundOnList(w, th, list, m).msgs.rows)
  {
    if list != [] {
      FoundOnListUnique(w, th, list[..|list| - 1], m);
      FoundOneUnique(FoundOnList(w, th, list[..|list| - 1], m), th, list[|list| - 1], m);
    }
  }

  lemma {:induction false} FoundGroupUnique(w: World, th: Thresholds, list: seq<string>, ms: seq<HubMerchant>)
    requires Merchants.UniqueRecords(w.msgs.rows)
    ensures Merchants.UniqueRecords(FoundGroup(w, th, list, ms).msgs.rows)
  {
    if ms != [] {
      FoundGroupUnique(w, th, list, ms[..|ms| - 1]);
      FoundOnListUnique(FoundGroup(w, th, list, ms[..|ms| - 1]), th, list, ms[|ms| - 1]);
    }
  }

  lemma {:induction false} FoundGroupsUnique(w: World, th: Thresholds, list: seq<string>, groups: seq<HubGroup>)
    requires Merchants.UniqueRecords(w.msgs.rows)
    ensures Merchants.UniqueRecords(FoundGroups(w, th, list, groups).msgs.rows)
  {
    if groups != [] {
      var init := groups[..|groups| - 1];
      FoundGroupsUnique(w, th, list, init);
      FoundGroupUnique(FoundGroups(w, th, list, init), th, list, groups[|groups| - 1].activeMerchants);
    }
  }

  /** The initial announcements keep at most one record per merchant and channel. */
  lemma InitialUnique(w: World, th: Thresholds, list: seq<string>, reply: Option<seq<HubGroup>>)
    requires Merchants.UniqueRecords(w.msgs.rows)
    ensures Merchants.UniqueRecords(Initial(w, th, list, reply).msgs.rows)
  {
    if list != [] && reply.Some? {
      FoundGroupsUnique(w, th, list, reply.value);
    }
  }

  /** A missing answer or no active merchants deletes every record; active merchants keep them. */
  lemma ClearedSpec(t: TableState, reply: Option<seq<HubGroup>>)
    ensures (reply.None? || reply.value == []) ==> Cleared(t, reply).rows == []
    ensures reply.Some? && reply.value != [] ==> Cleared(t, reply) == t
    ensures Cleared(t, reply).serial == t.serial
  {
    RejectNone(t.rows);
  }

  /**
   * As written, the hub's empty list of active groups is truthy: no record is ever
   * deleted while the hub answers, however long no merchant has been active.
   */
  lemma EmptyReplyKeepsRecords(t: TableState)
    requires t.rows != []
    ensures ClearedAsWritten(t, Some([])).rows == t.rows
    ensures Cleared(t, Some([])).rows == []
  {
    RejectNone(t.rows);
  }

  /**
   * As bound at start-up, a channel registered afterwards is never announced to: the
   * notable merchant it would get is announced on the current list only.
   */
  lemma StaleListening(w: World, th: Thresholds, channel: string, m: HubMerchant)
    requires !Skipped(th, m) && |Select(w.msgs.rows, Merchants.RecordFilter(m.id, channel))| == 0
    ensures FoundGroup(w, th, [], [m]) == w
    ensures FoundGroup(w, th, [channel], [m]).chat == Sent(w.chat, channel, FoundText(m))
  {
    assert [m][..0] == [] && [channel][..0] == [];
  }
}
