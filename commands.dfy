/**
 * The chat commands (src/services/helpers/discord-commands.js): an administrator
 * registers the current channel for merchant or island notifications
 * (`/setchannel <type>`), removes it (`/removechannel <type>`), marks it as the alert
 * channel (`/setalert`, `/removealert`), or drops the registrations of the guild or
 * of every guild (`/clearguild`, `/clearall`). Each command answers `true` when it
 * did its work and its reply went out; a failing reply makes it answer `false`.
 */
module Commands {
  import opened Wrappers
  import opened Text
  import opened Store

  /** The fields of a chat message the commands read. */
  datatype Message = Message(content: string, bot: bool, authorId: string, channelId: string, guildId: string)

  /** What a command leaves behind: the channels table, its answer, and the reply it sent. */
  datatype Outcome = Outcome(t: TableState, ok: bool, reply: Option<string>)

  const SetChannelCommand := "/setchannel"
  const RemoveChannelCommand := "/removechannel"
  const ClearGuildCommand := "/clearguild"
  const ClearAllCommand := "/clearall"
  const SetAlertCommand := "/setalert"
  const RemoveAlertCommand := "/removealert"

  const ChannelTypes: seq<string> := ["merchants", "islands"]

  const InvalidType := "Invalid channel type. [merchants, islands]"

  /** The query for the registration of a channel for a type (non-alert). */
  function Registration(channelId: string, guildId: string, ty: string): seq<Filter> {
    [Filter("channelId", Eq, Str(channelId)), Filter("guildId", Eq, Str(guildId)),
     Filter("type", Eq, Str(ty)), Filter("isAlert", Eq, Bool(false))]
  }

  /** The filters `/removechannel` deletes with: the same conjunction, in another order. */
  function Unregistration(channelId: string, guildId: string, ty: string): seq<Filter> {
    [Filter("channelId", Eq, Str(channelId)), Filter("guildId", Eq, Str(guildId)),
     Filter("isAlert", Eq, Bool(false)), Filter("type", Eq, Str(ty))]
  }

  /** The query for the alert registration of a channel. */
  function AlertRegistration(channelId: string, guildId: string): seq<Filter> {
    [Filter("channelId", Eq, Str(channelId)), Filter("guildId", Eq, Str(guildId)), Filter("isAlert", Eq, Bool(true))]
  }

  function ChannelRow(channelId: string, guildId: string, isAlert: bool, ty: string): Row {
    map["channelId" := Str(channelId), "guildId" := Str(guildId), "isAlert" := Bool(isAlert), "type" := Str(ty)]
  }

  /** The channel type a command names: its second word, when that is a known type. */
  function ChannelType(content: string): (r: Option<string>)
    ensures r.Some? ==> r.value in ChannelTypes && SecondWord(content) == r
  {
    match SecondWord(content)
    case Some(w) => if w in ChannelTypes then Some(w) else None
    case None => None
  }

  // ---------------------------------------------------------------------------
  // The commands, as the table and the answer they produce.

  /**
   * `setChannelId` and `removeChannelId` as written: both read `message.split(' ')`,
   * but a chat message has no `split`, so the call throws and the handler answers
   * `false` having changed nothing and replied nothing.
   */
  function CommandAsWritten(t: TableState, m: Message, replyOk: bool): (o: Outcome)
    ensures !o.ok && o.t == t
  {
    Outcome(t, false, None)
  }

  /** `/setchannel <type>`, reading the type from the message's text. */
  function SetChannel(t: TableState, m: Message, replyOk: bool): Outcome {
    if !(SetChannelCommand <= m.content) || m.bot then Outcome(t, false, None)
    else match ChannelType(m.content)
      case None => Outcome(t, false, Some(InvalidType))
      case Some(ty) =>
        if |Select(t.rows, Registration(m.channelId, m.guildId, ty))| > 0 then
          Outcome(t, false, Some("Channel is already registered for " + ty))
        else
          Outcome(Inserted(t, ChannelRow(m.channelId, m.guildId, false, ty)), replyOk, Some("Using current channel for " + ty))
  }

  /** `/removechannel <type>`, reading the type from the message's text. */
  function RemoveChannel(t: TableState, m: Message, replyOk: bool): Outcome {
    if !(RemoveChannelCommand <= m.content) || m.bot then Outcome(t, false, None)
    else match ChannelType(m.content)
      case None => Outcome(t, false, Some(InvalidType))
      case Some(ty) =>
        Outcome(Deleted(t, Unregistration(m.channelId, m.guildId, ty)), replyOk, Some("Removed current channel for " + ty))
  }

  /** `/clearguild` and `/clearall`, for the administrator (`adminId`, None when unset) only. */
  function ClearChannels(t: TableState, m: Message, adminId: Option<string>, replyOk: bool): Outcome {
    if (m.content != ClearGuildCommand && m.content != ClearAllCommand) || m.bot || adminId != Some(m.authorId) then
      Outcome(t, false, None)
    else
      var fs := if m.content == ClearGuildCommand then [Filter("guildId", Eq, Str(m.guildId))] else [];
      Outcome(Deleted(t, fs), replyOk, Some("Removed channels"))
  }

  function SetAlert(t: TableState, m: Message, replyOk: bool): Outcome {
    if m.content != SetAlertCommand || m.bot then Outcome(t, false, None)
    else if |Select(t.rows, AlertRegistration(m.channelId, m.guildId))| > 0 then
      Outcome(t, false, Some("Channel is already registered"))
    else
      Outcome(Inserted(t, ChannelRow(m.channelId, m.guildId, true, "alerts")), replyOk, Some("Using current channel as alert"))
  }

  function RemoveAlert(t: TableState, m: Message, replyOk: bool): Outcome {
    if m.content != RemoveAlertCommand || m.bot then Outcome(t, false, None)
    else Outcome(Deleted(t, AlertRegistration(m.channelId, m.guildId)), replyOk, Some("Removed current channel"))
  }

  // ---------------------------------------------------------------------------
  // The handlers over the channels table.

  method SetChannelId(channels: Table, m: Message, replyOk: bool) returns (ok: bool, reply: Option<string>)
    modifies channels
    ensures Outcome(channels.State(), ok, reply) == SetChannel(old(channels.State()), m, replyOk)
  {
    if !(SetChannelCommand <= m.content) || m.bot {
      return false, None;
    }
    var ty := ChannelType(m.content);
    if ty.None? {
      return false, Some(InvalidType);
    }
    var found := channels.Find(Registration(m.channelId, m.guildId, ty.value));
    if |found| > 0 {
      return false, Some("Channel is already registered for " + ty.value);
    }
    var id := channels.Insert(ChannelRow(m.channelId, m.guildId, false, ty.value));
    ok, reply := replyOk, Some("Using current channel for " + ty.value);
  }

  method RemoveChannelId(channels: Table, m: Message, replyOk: bool) returns (ok: bool, reply: Option<string>)
    modifies channels
    ensures Outcome(channels.State(), ok, reply) == RemoveChannel(old(channels.State()), m, replyOk)
  {
    if !(RemoveChannelCommand <= m.content) || m.bot {
      return false, None;
    }
    var ty := ChannelType(m.content);
    if ty.None? {
      return false, Some(InvalidType);
    }
    var count := channels.Delete(Unregistration(m.channelId, m.guildId, ty.value));
    ok, reply := replyOk, Some("Removed current channel for " + ty.value);
  }

  method Clear(channels: Table, m: Message, adminId: Option<string>, replyOk: bool) returns (ok: bool, reply: Option<string>)
    modifies channels
    ensures Outcome(channels.State(), ok, reply) == ClearChannels(old(channels.State()), m, adminId, replyOk)
  {
    if (m.content != ClearGuildCommand && m.content != ClearAllCommand) || m.bot || adminId != Some(m.authorId) {
      return false, None;
    }
    var fs: seq<Filter> := [];
    if m.content == ClearGuildCommand {
      fs := [Filter("guildId", Eq, Str(m.guildId))];
    }
    var count := channels.Delete(fs);
    ok, reply := replyOk, Some("Removed channels");
  }

  method SetAlertChannel(channels: Table, m: Message, replyOk: bool) returns (ok: bool, reply: Option<string>)
    modifies channels
    ensures Outcome(channels.State(), ok, reply) == SetAlert(old(channels.State()), m, replyOk)
  {
    if m.content != SetAlertCommand || m.bot {
      return false, None;
    }
    var found := channels.Find(AlertRegistration(m.channelId, m.guildId));
    if |found| > 0 {
      return false, Some("Channel is already registered");
    }
    var id := channels.Insert(ChannelRow(m.channelId, m.guildId, true, "alerts"));
    ok, reply := replyOk, Some("Using current channel as alert");
  }

  method RemoveAlertChannel(channels: Table, m: Message, replyOk: bool) returns (ok: bool, reply: Option<string>)
    modifies channels
    ensures Outcome(channels.State(), ok, reply) == RemoveAlert(old(channels.State()), m, replyOk)
  {
    if m.content != RemoveAlertCommand || m.bot {
      return false, None;
    }
    var count := channels.Delete(AlertRegistration(m.channelId, m.guildId));
    ok, reply := replyOk, Some("Removed current channel");
  }

  // ---------------------------------------------------------------------------
  // What the commands guarantee.

  /** Each channel is registered at most once per type, and at most once as an alert channel. */
  ghost predicate Unique(rows: seq<Row>) {
    && (forall c, g, ty :: |Select(rows, Registration(c, g, ty))| <= 1)
    && (forall c, g :: |Select(rows, AlertRegistration(c, g))| <= 1)
  }

  /** Which queries a row written by a command answers. */
  lemma ChannelRowMatches(serial: nat, c0: string, g0: string, isAlert: bool, ty0: string, c: string, g: string, ty: string)
    ensures MatchesAll(NewRow(serial, ChannelRow(c0, g0, isAlert, ty0)), Registration(c, g, ty))
        <==> c == c0 && g == g0 && ty == ty0 && !isAlert
    ensures MatchesAll(NewRow(serial, ChannelRow(c0, g0, isAlert, ty0)), AlertRegistration(c, g))
        <==> c == c0 && g == g0 && isAlert
  {
    var r := NewRow(serial, ChannelRow(c0, g0, isAlert, ty0));
    assert Get(r, "channelId") == Str(c0) && Get(r, "guildId") == Str(g0);
    assert Get(r, "type") == Str(ty0) && Get(r, "isAlert") == Bool(isAlert);
    var fs, gs := Registration(c, g, ty), AlertRegistration(c, g);
    if MatchesAll(r, fs) {
      assert Satisfies(r, fs[0]) && Satisfies(r, fs[1]) && Satisfies(r, fs[2]) && Satisfies(r, fs[3]);
    }
    if MatchesAll(r, gs) {
      assert Satisfies(r, gs[0]) && Satisfies(r, gs[1]) && Satisfies(r, gs[2]);
    }
  }

  /** Writing a row that no query of its kind already answers keeps registrations unique. */
  lemma InsertUnique(t: TableState, c0: string, g0: string, isAlert: bool, ty0: string)
    requires Unique(t.rows)
    requires !isAlert ==> |Select(t.rows, Registration(c0, g0, ty0))| == 0
    requires isAlert ==> |Select(t.rows, AlertRegistration(c0, g0))| == 0
    ensures Unique(Inserted(t, ChannelRow(c0, g0, isAlert, ty0)).rows)
  {
    var r := NewRow(t.serial, ChannelRow(c0, g0, isAlert, ty0));
    forall c, g, ty ensures |Select(t.rows + [r], Registration(c, g, ty))| <= 1 {
      SelectSnoc(t.rows, r, Registration(c, g, ty));
      ChannelRowMatches(t.serial, c0, g0, isAlert, ty0, c, g, ty);
    }
    forall c, g ensures |Select(t.rows + [r], AlertRegistration(c, g))| <= 1 {
      SelectSnoc(t.rows, r, AlertRegistration(c, g));
      ChannelRowMatches(t.serial, c0, g0, isAlert, ty0, c, g, "");
    }
  }

  /** Deleting keeps registrations unique. */
  lemma DeleteUnique(t: TableState, fs: seq<Filter>)
    requires Unique(t.rows)
    ensures Unique(Deleted(t, fs).rows)
  {
    forall c, g, ty ensures |Select(Reject(t.rows, fs), Registration(c, g, ty))| <= 1 {
      RejectShrinks(t.rows, fs, Registration(c, g, ty));
    }
    forall c, g ensures |Select(Reject(t.rows, fs), AlertRegistration(c, g))| <= 1 {
      RejectShrinks(t.rows, fs, AlertRegistration(c, g));
    }
  }

  /** Every command keeps each channel registered at most once per type and once as an alert channel. */
  lemma SetChannelUnique(t: TableState, m: Message, replyOk: bool)
    requires Unique(t.rows)
    ensures Unique(SetChannel(t, m, replyOk).t.rows)
  {
    var ty := ChannelType(m.content);
    if SetChannelCommand <= m.content && !m.bot && ty.Some?
       && |Select(t.rows, Registration(m.channelId, m.guildId, ty.value))| == 0 {
      InsertUnique(t, m.channelId, m.guildId, false, ty.value);
    }
  }

  lemma RemoveChannelUnique(t: TableState, m: Message, replyOk: bool)
    requires Unique(t.rows)
    ensures Unique(RemoveChannel(t, m, replyOk).t.rows)
  {
    var ty := ChannelType(m.content);
    if RemoveChannelCommand <= m.content && !m.bot && ty.Some? {
      DeleteUnique(t, Unregistration(m.channelId, m.guildId, ty.value));
    }
  }

  lemma ClearUnique(t: TableState, m: Message, adminId: Option<string>, replyOk: bool)
    requires Unique(t.rows)
    ensures Unique(ClearChannels(t, m, adminId, replyOk).t.rows)
  {
    if m.content == ClearGuildCommand {
      DeleteUnique(t, [Filter("guildId", Eq, Str(m.guildId))]);
    } else {
      DeleteUnique(t, []);
    }
  }

  lemma SetAlertUnique(t: TableState, m: Message, replyOk: bool)
    requires Unique(t.rows)
    ensures Unique(SetAlert(t, m, replyOk).t.rows)
  {
    if m.content == SetAlertCommand && !m.bot && |Select(t.rows, AlertRegistration(m.channelId, m.guildId))| == 0 {
      InsertUnique(t, m.channelId, m.guildId, true, "alerts");
    }
  }

  lemma RemoveAlertUnique(t: TableState, m: Message, replyOk: bool)
    requires Unique(t.rows)
    ensures Unique(RemoveAlert(t, m, replyOk).t.rows)
  {
    DeleteUnique(t, AlertRegistration(m.channelId, m.guildId));
  }

  /** After `/setchannel <type>` with a known type, the channel is registered for it exactly once. */
  lemma SetChannelRegisters(t: TableState, m: Message, replyOk: bool, ty: string)
    requires Unique(t.rows)
    requires SetChannelCommand <= m.content && !m.bot && ChannelType(m.content) == Some(ty)
    ensures |Select(SetChannel(t, m, replyOk).t.rows, Registration(m.channelId, m.guildId, ty))| == 1
    ensures SetChannel(t, m, replyOk).ok <==> replyOk && |Select(t.rows, Registration(m.channelId, m.guildId, ty))| == 0
  {
    var fs := Registration(m.channelId, m.guildId, ty);
    if |Select(t.rows, fs)| == 0 {
      var r := NewRow(t.serial, ChannelRow(m.channelId, m.guildId, false, ty));
      SelectSnoc(t.rows, r, fs);
      ChannelRowMatches(t.serial, m.channelId, m.guildId, false, ty, m.channelId, m.guildId, ty);
    }
  }

  /** After `/removechannel <type>` with a known type, the channel is no longer registered for it. */
  lemma RemoveChannelUnregisters(t: TableState, m: Message, replyOk: bool, ty: string)
    requires RemoveChannelCommand <= m.content && !m.bot && ChannelType(m.content) == Some(ty)
    ensures Select(RemoveChannel(t, m, replyOk).t.rows, Registration(m.channelId, m.guildId, ty)) == []
    ensures RemoveChannel(t, m, replyOk).ok == replyOk
  {
    var fs, gs := Unregistration(m.channelId, m.guildId, ty), Registration(m.channelId, m.guildId, ty);
    forall r | MatchesAll(r, gs) ensures MatchesAll(r, fs) {
      UnregistrationCovers(m.channelId, m.guildId, ty, r);
    }
    RejectClears(t.rows, fs, gs);
  }

  /** The filters `/removechannel` deletes with select every registration the query finds. */
  lemma UnregistrationCovers(c: string, g: string, ty: string, r: Row)
    requires MatchesAll(r, Registration(c, g, ty))
    ensures MatchesAll(r, Unregistration(c, g, ty))
  {
    var fs, gs := Unregistration(c, g, ty), Registration(c, g, ty);
    assert Satisfies(r, gs[0]) && Satisfies(r, gs[1]) && Satisfies(r, gs[2]) && Satisfies(r, gs[3]);
    assert fs[0] == gs[0] && fs[1] == gs[1] && fs[2] == gs[3] && fs[3] == gs[2];
  }

  /** `/clearall` from the administrator empties the table; `/clearguild` leaves no row of the guild. */
  lemma ClearEmpties(t: TableState, m: Message, adminId: Option<string>, replyOk: bool)
    requires !m.bot && adminId == Some(m.authorId)
    ensures m.content == ClearAllCommand ==> ClearChannels(t, m, adminId, replyOk).t.rows == []
    ensures m.content == ClearGuildCommand ==>
      Select(ClearChannels(t, m, adminId, replyOk).t.rows, [Filter("guildId", Eq, Str(m.guildId))]) == []
  {
    RejectNone(t.rows);
    RejectClears(t.rows, [Filter("guildId", Eq, Str(m.guildId))], [Filter("guildId", Eq, Str(m.guildId))]);
  }

  /** Only the administrator can clear: from anyone else the command changes nothing. */
  lemma ClearNeedsAdmin(t: TableState, m: Message, adminId: Option<string>, replyOk: bool)
    requires adminId != Some(m.authorId)
    ensures ClearChannels(t, m, adminId, replyOk) == Outcome(t, false, None)
  {
  }

  /** After `/setalert` the channel is an alert channel exactly once; after `/removealert` it is none. */
  lemma AlertRoundTrip(t: TableState, m: Message, m2: Message, replyOk: bool)
    requires Unique(t.rows)
    requires m.content == SetAlertCommand && !m.bot
    requires m2.content == RemoveAlertCommand && !m2.bot && m2.channelId == m.channelId && m2.guildId == m.guildId
    ensures |Select(SetAlert(t, m, replyOk).t.rows, AlertRegistration(m.channelId, m.guildId))| == 1
    ensures Select(RemoveAlert(SetAlert(t, m, replyOk).t, m2, replyOk).t.rows, AlertRegistration(m.channelId, m.guildId)) == []
  {
    var gs := AlertRegistration(m.channelId, m.guildId);
    if |Select(t.rows, gs)| == 0 {
      SelectSnoc(t.rows, NewRow(t.serial, ChannelRow(m.channelId, m.guildId, true, "alerts")), gs);
      ChannelRowMatches(t.serial, m.channelId, m.guildId, true, "alerts", m.channelId, m.guildId, "");
    }
    RejectClears(SetAlert(t, m, replyOk).t.rows, gs, gs);
  }

  /** A command word followed by a known type names that type. */
  lemma TypedCommandParses(command: string, ty: string)
    requires ' ' !in command && ty in ChannelTypes
    ensures ChannelType(command + " " + ty) == Some(ty)
    ensures command <= command + " " + ty
  {
    TypeSpelling(ty);
    WordAfterCommand(command, ty);
    CommandIsPrefix(command, " " + ty);
  }

  lemma CommandIsPrefix(command: string, rest: string)
    ensures command <= command + rest
  {
    assert (command + rest)[..|command|] == command;
  }

  lemma WordAfterCommand(command: string, w: string)
    requires ' ' !in command && ' ' !in w
    ensures SecondWord(command + " " + w) == Some(w)
  {
    SecondWordOf(command, w, "");
    assert command + " " + w + "" == command + " " + w;
  }

  lemma TypeSpelling(ty: string)
    requires ty in ChannelTypes
    ensures ' ' !in ty
  {
    assert ty == "merchants" || ty == "islands";
  }

  lemma CommandSpelling()
    ensures ' ' !in SetChannelCommand
  {
  }

  /**
   * The commands as written never register or remove a channel: for
   * `/setchannel <type>` on a channel not yet registered for the type, the written
   * handler answers `false` and leaves the table alone, where the evident intent
   * registers it.
   */
  lemma SplitTypeError(t: TableState, m: Message, replyOk: bool, ty: string)
    requires ty in ChannelTypes && m.content == SetChannelCommand + " " + ty && !m.bot
    requires |Select(t.rows, Registration(m.channelId, m.guildId, ty))| == 0
    ensures CommandAsWritten(t, m, replyOk) == Outcome(t, false, None)
    ensures SetChannel(t, m, replyOk).t == Inserted(t, ChannelRow(m.channelId, m.guildId, false, ty))
    ensures SetChannel(t, m, replyOk).ok == replyOk
  {
    CommandSpelling();
    TypedCommandParses(SetChannelCommand, ty);
  }
}
