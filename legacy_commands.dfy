/**
 * The commands of the single-table bot (src/commands.js over src/database.js): the
 * exact message `/setchannel` registers the current channel (a row
 * `{id, channelId, guildId}`, with no check for an existing one) and the exact
 * message `/removechannel` deletes every row of the channel in its guild.
 */
module LegacyCommands {
  import opened Store
  import Commands

  const SetCommand := "/setchannel"
  const RemoveCommand := "/removechannel"

  /** `where({channelId, guildId})`. */
  function ChannelRows(channelId: string, guildId: string): seq<Filter> {
    [Filter("channelId", Eq, Str(channelId)), Filter("guildId", Eq, Str(guildId))]
  }

  function ChannelRow(channelId: string, guildId: string): Row {
    map["channelId" := Str(channelId), "guildId" := Str(guildId)]
  }

  /** `setChannelId`: the table after the command and the command's answer. */
  function SetChannel(t: TableState, m: Commands.Message, replyOk: bool): (TableState, bool) {
    if m.content != SetCommand || m.bot then (t, false)
    else (Inserted(t, ChannelRow(m.channelId, m.guildId)), replyOk)
  }

  /** `removeChannelId`: the table after the command and the command's answer. */
  function RemoveChannel(t: TableState, m: Commands.Message, replyOk: bool): (TableState, bool) {
    if m.content != RemoveCommand || m.bot then (t, false)
    else (Deleted(t, ChannelRows(m.channelId, m.guildId)), replyOk)
  }

  method SetChannelId(channels: Table, m: Commands.Message, replyOk: bool) returns (ok: bool)
    modifies channels
    ensures (channels.State(), ok) == SetChannel(old(channels.State()), m, replyOk)
  {
    if m.content != SetCommand || m.bot {
      return false;
    }
    var id := channels.Insert(ChannelRow(m.channelId, m.guildId));
    ok := replyOk;
  }

  method RemoveChannelId(channels: Table, m: Commands.Message, replyOk: bool) returns (ok: bool)
    modifies channels
    ensures (channels.State(), ok) == RemoveChannel(old(channels.State()), m, replyOk)
  {
    if m.content != RemoveCommand || m.bot {
      return false;
    }
    var count := channels.Delete(ChannelRows(m.channelId, m.guildId));
    ok := replyOk;
  }

  /** The row `/setchannel` writes is found by its own channel and guild, and by no others. */
  lemma ChannelRowMatches(serial: nat, c0: string, g0: string, c: string, g: string)
    ensures MatchesAll(NewRow(serial, ChannelRow(c0, g0)), ChannelRows(c, g)) <==> c == c0 && g == g0
  {
    var r := NewRow(serial, ChannelRow(c0, g0));
    var fs := ChannelRows(c, g);
    assert Get(r, "channelId") == Str(c0) && Get(r, "guildId") == Str(g0);
    if MatchesAll(r, fs) {
      assert Satisfies(r, fs[0]) && Satisfies(r, fs[1]);
    }
  }

  /**
   * `/setchannel` does not look for an existing registration: each one adds a row,
   * so a channel registered twice has one more row for its channel and guild each time.
   */
  lemma SetChannelAdds(t: TableState, m: Commands.Message, replyOk: bool)
    requires m.content == SetCommand && !m.bot
    ensures |Select(SetChannel(t, m, replyOk).0.rows, ChannelRows(m.channelId, m.guildId))|
         == |Select(t.rows, ChannelRows(m.channelId, m.guildId))| + 1
  {
    SelectSnoc(t.rows, NewRow(t.serial, ChannelRow(m.channelId, m.guildId)), ChannelRows(m.channelId, m.guildId));
    ChannelRowMatches(t.serial, m.channelId, m.guildId, m.channelId, m.guildId);
  }

  /** `/removechannel` removes every registration of the channel in its guild, and only those. */
  lemma RemoveChannelRemoves(t: TableState, m: Commands.Message, replyOk: bool, r: Row)
    requires m.content == RemoveCommand && !m.bot
    ensures Select(RemoveChannel(t, m, replyOk).0.rows, ChannelRows(m.channelId, m.guildId)) == []
    ensures r in RemoveChannel(t, m, replyOk).0.rows <==> r in t.rows && !MatchesAll(r, ChannelRows(m.channelId, m.guildId))
  {
    RejectClears(t.rows, ChannelRows(m.channelId, m.guildId), ChannelRows(m.channelId, m.guildId));
    RejectSpec(t.rows, ChannelRows(m.channelId, m.guildId), r);
  }
}
