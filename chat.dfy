/**
 * The chat service as the handlers see it: channels the client has cached, and
 * posted messages keyed by id. `Send` posts, `Fetch` is
 * `channel.messages.fetch(id)` (which fails for a message that is not in that
 * channel), and `Edit` replaces a message's text.
 */
module Chat {
  import opened Wrappers

  datatype Post = Post(channel: string, text: string)

  /** The messages posted so far and the id the next one gets. */
  datatype ChatState = ChatState(posts: map<nat, Post>, next: nat)

  /** Every posted message has an id below `next`, so `next` is fresh. */
  predicate Fresh(c: ChatState) {
    forall id :: id in c.posts ==> id < c.next
  }

  /** The state after posting `text` to `channel`; the new message gets id `c.next`. */
  function Sent(c: ChatState, channel: string, text: string): ChatState {
    ChatState(c.posts[c.next := Post(channel, text)], c.next + 1)
  }

  /** The state after editing message `id` to read `text`. */
  function Edited(c: ChatState, id: nat, text: string): ChatState
    requires id in c.posts
  {
    ChatState(c.posts[id := Post(c.posts[id].channel, text)], c.next)
  }

  /** The text of message `id` of `channel`, or None when the fetch fails. */
  function Lookup(c: ChatState, channel: string, id: nat): (r: Option<string>)
    ensures r.Some? <==> id in c.posts && c.posts[id].channel == channel
  {
    if id in c.posts && c.posts[id].channel == channel then Some(c.posts[id].text) else None
  }

  /** `b` differs from `a` at most in the texts of its messages. */
  predicate SameLayout(a: ChatState, b: ChatState) {
    && b.next == a.next && b.posts.Keys == a.posts.Keys
    && forall id :: id in a.posts ==> b.posts[id].channel == a.posts[id].channel
  }

  /** Posting keeps every earlier message and the freshness of ids. */
  lemma SentKeeps(c: ChatState, channel: string, text: string)
    requires Fresh(c)
    ensures Fresh(Sent(c, channel, text))
    ensures c.next !in c.posts
    ensures forall id :: id in c.posts ==> id in Sent(c, channel, text).posts && Sent(c, channel, text).posts[id] == c.posts[id]
  {
  }

  /** The chat client: readiness, the channel cache and the posted messages. */
  class Client {
    var ready: bool
    var cache: set<string>
    var posts: map<nat, Post>
    var next: nat

    function State(): ChatState
      reads this
    {
      ChatState(posts, next)
    }

    constructor (ready: bool, cache: set<string>)
      ensures this.ready == ready && this.cache == cache
      ensures posts == map[] && next == 0
    {
      this.ready := ready;
      this.cache := cache;
      posts := map[];
      next := 0;
    }

    /** `channel.send(text)`: returns the new message's id. */
    method Send(channel: string, text: string) returns (id: nat)
      modifies this
      ensures State() == Sent(old(State()), channel, text)
      ensures id == old(next)
      ensures ready == old(ready) && cache == old(cache)
    {
      id := next;
      posts := posts[next := Post(channel, text)];
      next := next + 1;
    }

    /** `channel.messages.fetch(id)`: the message's text, or None when it cannot be fetched. */
    method Fetch(channel: string, id: nat) returns (text: Option<string>)
      ensures text == Lookup(State(), channel, id)
    {
      if id in posts && posts[id].channel == channel {
        text := Some(posts[id].text);
      } else {
        text := None;
      }
    }

    /** `message.edit(text)`. */
    method Edit(id: nat, text: string)
      requires id in posts
      modifies this
      ensures State() == Edited(old(State()), id, text)
      ensures ready == old(ready) && cache == old(cache)
    {
      posts := posts[id := Post(posts[id].channel, text)];
    }
  }
}
