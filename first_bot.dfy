/**
 * The first bot (index.js): no database. The channels come from a fixed list of ids
 * looked up in the client's cache once it is ready, and the messages sent for each
 * merchant id are kept in memory (`sentMessagesIdsMap`) so that vote updates can be
 * written into them. Only the first merchant of a group is looked at, and nothing
 * stops a merchant reported again from being announced again.
 */
module FirstBot {
  import opened Wrappers
  import opened Markers
  import opened Chat
  import opened LegacyHub

  /** The in-memory map and the chat. */
  datatype FirstState = FirstState(sent: map<string, seq<nat>>, chat: ChatState)

  /** The channel objects: the configured ids the client has cached, None for the others. */
  function Bound(ids: seq<string>, cache: set<string>): (r: seq<Option<string>>)
    ensures |r| == |ids|
    ensures forall i :: 0 <= i < |ids| ==> (r[i].Some? <==> ids[i] in cache) && (r[i].Some? ==> r[i].value == ids[i])
  {
    seq(|ids|, i requires 0 <= i < |ids| => if ids[i] in cache then Some(ids[i]) else None)
  }

  /** The number of channels a message can be sent to. */
  function Cached(channels: seq<Option<string>>): nat {
    if channels == [] then 0
    else Cached(channels[..|channels| - 1]) + if channels[|channels| - 1].Some? then 1 else 0
  }

  /** Card or rapport exactly at its threshold. */
  predicate Notable(th: Thresholds, m: HubMerchant) {
    m.card.rarity == th.card || m.rapport.rarity == th.rapport
  }

  /** The announcement, with no votes yet. */
  function FirstText(m: HubMerchant): string {
    "\n```\nNombre: " + m.name + "\nZona: " + m.zone + "\nCarta: " + m.card.name
    + "\nRapport: " + m.rapport.name + " (" + RarityName(m.rapport.rarity) + ")\nVotos: 0\n```"
  }

  /** The messages listed for `merchantId`, none when it has no entry. */
  function Listed(sent: map<string, seq<nat>>, merchantId: string): seq<nat> {
    if merchantId in sent then sent[merchantId] else []
  }

  /** The ids `first`, `first + 1`, ..., `n` of them. */
  function Range(first: nat, n: nat): (r: seq<nat>)
    ensures |r| == n && forall i :: 0 <= i < n ==> r[i] == first + i
  {
    seq(n, i requires 0 <= i < n => first + i)
  }

  /** One channel: the announcement is sent and its id appended to the merchant's list. */
  function PostOne(s: FirstState, channel: Option<string>, m: HubMerchant): FirstState {
    match channel
    case None => s
    case Some(c) => FirstState(s.sent[m.id := Listed(s.sent, m.id) + [s.chat.next]], Sent(s.chat, c, FirstText(m)))
  }

  function PostAll(s: FirstState, channels: seq<Option<string>>, m: HubMerchant): FirstState {
    if channels == [] then s
    else PostOne(PostAll(s, channels[..|channels| - 1], m), channels[|channels| - 1], m)
  }

  /** `handleMerchantFound(channels)(server, group)`: the first merchant only, if notable. */
  function Found(s: FirstState, th: Thresholds, channels: seq<Option<string>>, g: HubGroup): FirstState {
    if g.activeMerchants == [] || !Notable(th, g.activeMerchants[0]) then s
    else PostAll(s, channels, g.activeMerchants[0])
  }

  /** The `Votos:` rewrite of each message of `ids` that still exists. */
  function EditAll(c: ChatState, ids: seq<nat>, votes: int): ChatState {
    if ids == [] then c
    else
      var before := EditAll(c, ids[..|ids| - 1], votes);
      var id := ids[|ids| - 1];
      if id in before.posts then Edited(before, id, RewriteVotes(before.posts[id].text, votes)) else before
  }

  /** `handleVotesChanged(merchantId, votes)`: nothing when no message is listed. */
  function VotesChanged(s: FirstState, merchantId: string, votes: int): ChatState {
    if merchantId !in s.sent || s.sent[merchantId] == [] then s.chat
    else EditAll(s.chat, s.sent[merchantId], votes)
  }

  /**
   * `handleHasActiveMerchants` as written: the map is cleared only when the hub's
   * answer is falsy, and the list of active groups it answers with never is.
   */
  function ForgetAsWritten(sent: map<string, seq<nat>>, reply: Option<seq<HubGroup>>): map<string, seq<nat>> {
    if reply.None? then map[] else sent
  }

  /** The evident intent: the map is cleared once the hub reports no active merchants. */
  function Forget(sent: map<string, seq<nat>>, reply: Option<seq<HubGroup>>): map<string, seq<nat>> {
    if reply.None? || reply.value == [] then map[] else sent
  }

  class FirstBot {
    /** `sentMessagesIdsMap`: merchant id to the messages sent for it. */
    var sent: map<string, seq<nat>>
    /** The channels bound when the client became ready. */
    var channels: seq<Option<string>>

    constructor ()
      ensures sent == map[] && channels == []
    {
      sent := map[];
      channels := [];
    }

    /** `handleClientReady`: the configured channel ids looked up in the cache. */
    method ClientReady(chat: Client, ids: seq<string>)
      modifies this
      ensures channels == Bound(ids, chat.cache)
      ensures sent == old(sent)
    {
      channels := Bound(ids, chat.cache);
    }

    /** UpdateMerchantGroup. */
    method OnMerchantFound(chat: Client, th: Thresholds, g: HubGroup)
      modifies this, chat
      ensures FirstState(sent, chat.State()) == Found(old(FirstState(sent, chat.State())), th, channels, g)
      ensures channels == old(channels)
      ensures chat.ready == old(chat.ready) && chat.cache == old(chat.cache)
    {
      if |g.activeMerchants| == 0 {
        return;
      }
      var m := g.activeMerchants[0];
      if m.card.rarity != th.card && m.rapport.rarity != th.rapport {
        return;
      }
      ghost var s0 := FirstState(sent, chat.State());
      var i := 0;
      while i < |channels|
        invariant 0 <= i <= |channels|
        invariant FirstState(sent, chat.State()) == PostAll(s0, channels[..i], m)
        invariant chat.ready == old(chat.ready) && chat.cache == old(chat.cache)
        invariant channels == old(channels)
      {
        assert channels[..i + 1][..i] == channels[..i];
        if channels[i].Some? {
          var id := chat.Send(channels[i].value, FirstText(m));
          if m.id in sent {
            sent := sent[m.id := sent[m.id] + [id]];
          } else {
            assert [] + [id] == [id];
            sent := sent[m.id := [id]];
          }
        }
        i := i + 1;
      }
      assert channels[..i] == channels;
    }

    /** UpdateVoteTotal. */
    method OnVotesChanged(chat: Client, merchantId: string, votes: int)
      modifies chat
      ensures chat.State() == VotesChanged(FirstState(sent, old(chat.State())), merchantId, votes)
      ensures chat.ready == old(chat.ready) && chat.cache == old(chat.cache)
    {
      if merchantId !in sent || |sent[merchantId]| == 0 {
        return;
      }
      var ids := sent[merchantId];
      ghost var c0 := chat.State();
      var i := 0;
      while i < |ids|
        invariant 0 <= i <= |ids|
        invariant chat.State() == EditAll(c0, ids[..i], votes)
        invariant chat.ready == old(chat.ready) && chat.cache == old(chat.cache)
      {
        assert ids[..i + 1][..i] == ids[..i];
        if ids[i] in chat.posts {
          chat.Edit(ids[i], RewriteVotes(chat.posts[ids[i]].text, votes));
        }
        i := i + 1;
      }
      assert ids[..i] == ids;
    }

    /** The periodic GetKnownActiveMerchantGroups check, as written. */
    method OnHasActiveMerchantsAsWritten(reply: Option<seq<HubGroup>>)
      modifies this
      ensures sent == ForgetAsWritten(old(sent), reply)
      ensures channels == old(channels)
    {
      if reply.Some? {
        return;
      }
      sent := map[];
    }

    /** The periodic GetKnownActiveMerchantGroups check, clearing once no merchant is active. */
    method OnHasActiveMerchants(reply: Option<seq<HubGroup>>)
      modifies this
      ensures sent == Forget(old(sent), reply)
      ensures channels == old(channels)
    {
      if reply.Some? && |reply.value| > 0 {
        return;
      }
      sent := map[];
    }
  }

  // ---------------------------------------------------------------------------
  // What the handlers guarantee.

  /** Every listed id is a message that was sent, and the next id is fresh. */
  ghost predicate Tracked(s: FirstState) {
    && Fresh(s.chat)
    && forall k, i :: k in s.sent && 0 <= i < |s.sent[k]| ==> s.sent[k][i] in s.chat.posts
  }

  /**
   * Announcing on the channels sends one message per cached channel and appends
   * their ids, in order, to the merchant's list; no other list changes.
   */
  lemma {:induction false} PostAllSpec(s: FirstState, channels: seq<Option<string>>, m: HubMerchant)
    ensures PostAll(s, channels, m).chat.next == s.chat.next + Cached(channels)
    ensures Listed(PostAll(s, channels, m).sent, m.id) == Listed(s.sent, m.id) + Range(s.chat.next, Cached(channels))
    ensures forall k :: k != m.id ==> Listed(PostAll(s, channels, m).sent, k) == Listed(s.sent, k)
  {
    if channels != [] {
      var init, last := channels[..|channels| - 1], channels[|channels| - 1];
      PostAllSpec(s, init, m);
      var s1 := PostAll(s, init, m);
      if last.Some? {
        assert Range(s.chat.next, Cached(init)) + [s1.chat.next] == Range(s.chat.next, Cached(channels));
        assert Listed(PostOne(s1, last, m).sent, m.id) == Listed(s1.sent, m.id) + [s1.chat.next];
      }
    }
  }

  /** Announcing keeps every listed id pointing at a sent message. */
  lemma {:induction false} PostAllTracked(s: FirstState, channels: seq<Option<string>>, m: HubMerchant)
    requires Tracked(s)
    ensures Tracked(PostAll(s, channels, m))
    ensures forall id :: id in s.chat.posts ==>
      id in PostAll(s, channels, m).chat.posts && PostAll(s, channels, m).chat.posts[id] == s.chat.posts[id]
  {
    if channels != [] {
      var init, last := channels[..|channels| - 1], channels[|channels| - 1];
      PostAllTracked(s, init, m);
      var s1 := PostAll(s, init, m);
      if last.Some? {
        SentKeeps(s1.chat, last.value, FirstText(m));
        var s2 := PostOne(s1, last, m);
        forall k, i | k in s2.sent && 0 <= i < |s2.sent[k]| ensures s2.sent[k][i] in s2.chat.posts {
          if k != m.id || i < |Listed(s1.sent, m.id)| {
            assert k in s1.sent;
            assert s2.sent[k][i] == s1.sent[k][i];
          }
        }
      }
    }
  }

  lemma FoundTracked(s: FirstState, th: Thresholds, channels: seq<Option<string>>, g: HubGroup)
    requires Tracked(s)
    ensures Tracked(Found(s, th, channels, g))
  {
    if g.activeMerchants != [] && Notable(th, g.activeMerchants[0]) {
      PostAllTracked(s, channels, g.activeMerchants[0]);
    }
  }

  /**
   * No dedup: a notable merchant reported twice is announced twice on every cached
   * channel, and its list holds both rounds of messages.
   */
  lemma FoundRepeats(s: FirstState, th: Thresholds, channels: seq<Option<string>>, g: HubGroup)
    requires g.activeMerchants != [] && Notable(th, g.activeMerchants[0])
    ensures var twice := Found(Found(s, th, channels, g), th, channels, g);
      && twice.chat.next == s.chat.next + 2 * Cached(channels)
      && |Listed(twice.sent, g.activeMerchants[0].id)| == |Listed(s.sent, g.activeMerchants[0].id)| + 2 * Cached(channels)
  {
    var m := g.activeMerchants[0];
    PostAllSpec(s, channels, m);
    PostAllSpec(Found(s, th, channels, g), channels, m);
  }

  /** The vote rewrite reaches exactly the listed messages that exist; the rest stay as they were. */
  lemma {:induction false} EditAllSpec(c: ChatState, ids: seq<nat>, votes: int)
    ensures SameLayout(c, EditAll(c, ids, votes))
    ensures forall id :: id in c.posts ==>
      EditAll(c, ids, votes).posts[id]
        == if id in ids then Post(c.posts[id].channel, RewriteVotes(c.posts[id].text, votes)) else c.posts[id]
  {
    if ids != [] {
      var init, last := ids[..|ids| - 1], ids[|ids| - 1];
      EditAllSpec(c, init, votes);
      assert ids == init + [last];
      if last in c.posts {
        VotesIdempotent(c.posts[last].text, votes);
      }
    }
  }

  /** A later vote count replaces an earlier one in every listed message. */
  lemma EditAllLastWins(c: ChatState, ids: seq<nat>, first: int, second: int)
    ensures EditAll(EditAll(c, ids, first), ids, second) == EditAll(c, ids, second)
  {
    var c1 := EditAll(c, ids, first);
    var c2 := EditAll(c1, ids, second);
    var c3 := EditAll(c, ids, second);
    EditAllSpec(c, ids, first);
    EditAllSpec(c1, ids, second);
    EditAllSpec(c, ids, second);
    forall id | id in c.posts ensures c2.posts[id] == c3.posts[id] {
      VotesLastWins(c.posts[id].text, first, second);
    }
    assert c2.posts == c3.posts;
  }

  /** A vote update edits texts only: the map is untouched and it stays tracked. */
  lemma VotesChangedTracked(s: FirstState, merchantId: string, votes: int)
    requires Tracked(s)
    ensures Tracked(FirstState(s.sent, VotesChanged(s, merchantId, votes)))
    ensures SameLayout(s.chat, VotesChanged(s, merchantId, votes))
  {
    if merchantId in s.sent && s.sent[merchantId] != [] {
      EditAllSpec(s.chat, s.sent[merchantId], votes);
    }
  }

  /**
   * As written, the hub's empty list of active groups is truthy, so the map is never
   * cleared while the hub answers; cleared as intended, it is.
   */
  lemma EmptyReplyKeepsMap(sent: map<string, seq<nat>>)
    requires sent != map[]
    ensures ForgetAsWritten(sent, Some([])) == sent
    ensures Forget(sent, Some([])) == map[]
  {
  }

  /** Clearing forgets every list exactly when no merchant is reported active. */
  lemma ForgetSpec(sent: map<string, seq<nat>>, reply: Option<seq<HubGroup>>, k: string)
    ensures Listed(Forget(sent, reply), k) == if reply.None? || reply.value == [] then [] else Listed(sent, k)
  {
  }
}
