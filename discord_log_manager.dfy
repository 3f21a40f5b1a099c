/**
 * The Discord log manager: for each logged event, the guild's status for
 * that event type decides which of three effects happen, always in this
 * order: store the record, write a console line, post an embed in the
 * guild's log channel. Also the values filled into the embed's content
 * field, and the link to a logged message.
 */
module DiscordLogManager {
  import opened Wrappers
  import opened Strings
  import opened JsMath

  datatype LogType =
    | GuildJoin | GuildLeave | RoleAdd | RoleRemove
    | MessagePost | MessageEdit | MessageRemove
    | ReactionAdd | ReactionRemove
    | ChangeNickname | ChangeUsername | VoiceJoin | VoiceLeave

  /** The per-guild, per-type setting. */
  datatype LogStatus = Disabled | Silent | Console | Discord

  /** Where a message event happened. */
  datatype LogContext = MessageContext(channelId: string, messageId: string) | OtherContext

  /** The event-specific content of a record. */
  datatype LogContent =
    /** The invite codes a new member may have used. */
    | InviteCodes(codes: seq<string>)
    /** A departing member's role ids and arrival date in milliseconds. */
    | Departure(roles: seq<string>, joinedAt: int)
    | RoleIds(roles: seq<string>)
    | MessageText(text: string)
    | MessageChange(before: string, after: string)
    /** The reaction as stored: an emoji, or a custom emoji's id. */
    | ReactionText(emoji: string)
    | OtherContent

  datatype LogPayload = LogPayload(kind: LogType, guildId: string, context: LogContext, content: LogContent)

  /** The record shapes the event types carry. */
  predicate Shaped(p: LogPayload) {
    match p.kind
    case GuildJoin => p.content.InviteCodes?
    case GuildLeave => p.content.Departure?
    case RoleAdd | RoleRemove => p.content.RoleIds?
    case MessagePost | MessageEdit | MessageRemove =>
      (p.content.MessageText? || p.content.MessageChange?) && p.context.MessageContext?
    case ReactionAdd | ReactionRemove => p.content.ReactionText? && p.context.MessageContext?
    case ChangeNickname | ChangeUsername | VoiceJoin | VoiceLeave => true
  }

  /**
   * What the formatters consult: the guild's invite links, the rendering of
   * one invite line, the French conjunction list format, `trimText` and the
   * emoji resolver.
   */
  datatype LogEnv = LogEnv(
    inviteLink: string -> Option<string>,
    renderInvite: (string, Option<string>) -> string,
    listFormat: seq<string> -> string,
    trim: string -> string,
    resolveEmoji: string -> Option<string>)

  // ---------------------------------------------------------------------------
  // Message links
  // ---------------------------------------------------------------------------

  const UrlPrefix := "https://discord.com/channels/"

  /** `getMessageUrl`. */
  function MessageUrl(guildId: string, channelId: string, messageId: string): string {
    UrlPrefix + guildId + "/" + channelId + "/" + messageId
  }

  /** Reads a message link back into its guild, channel and message ids. */
  function ParseMessageUrl(url: string): Option<(string, string, string)> {
    if |url| < |UrlPrefix| || url[..|UrlPrefix|] != UrlPrefix then None
    else
      var parts := Split(url[|UrlPrefix|..], '/');
      if |parts| == 3 then Some((parts[0], parts[1], parts[2])) else None
  }

  /** Ids without `/` are recovered from their link: the link names exactly that message. */
  lemma MessageUrlRoundTrip(guildId: string, channelId: string, messageId: string)
    requires '/' !in guildId && '/' !in channelId && '/' !in messageId
    ensures ParseMessageUrl(MessageUrl(guildId, channelId, messageId)) == Some((guildId, channelId, messageId))
  {
    var parts := [guildId, channelId, messageId];
    SplitJoinRoundTrip(parts, '/');
    assert parts[1..] == [channelId, messageId];
    assert [channelId, messageId][1..] == [messageId];
    assert Join([messageId], "/") == messageId;
    assert Join([channelId, messageId], "/") == channelId + "/" + messageId;
    assert Join(parts, "/") == guildId + "/" + (channelId + "/" + messageId);
    var url := MessageUrl(guildId, channelId, messageId);
    assert url == UrlPrefix + Join(parts, "/");
    assert url[..|UrlPrefix|] == UrlPrefix;
    assert url[|UrlPrefix|..] == Join(parts, "/");
  }

  // ---------------------------------------------------------------------------
  // Content values
  // ---------------------------------------------------------------------------

  /** What the content field's template is filled with, per event type. */
  datatype ContentFields =
    | InviteLines(text: string)
    | DepartureFields(roles: string, joinedAt: int)
    | RoleList(roles: string)
    | MessageFields(content: string, url: string)
    | ReactionFields(content: string, url: string)
    | PayloadFields

  /** `Formatters.roleMention`. */
  function RoleMention(roleId: string): string {
    "<@&" + roleId + ">"
  }

  function RoleMentions(roles: seq<string>): (r: seq<string>)
    ensures |r| == |roles|
  {
    seq(|roles|, i requires 0 <= i < |roles| => RoleMention(roles[i]))
  }

  /** One line per invite code, joined by `"\nou : "`. */
  function InviteText(codes: seq<string>, env: LogEnv): string {
    Join(seq(|codes|, i requires 0 <= i < |codes| => env.renderInvite(codes[i], env.inviteLink(codes[i]))), "\nou : ")
  }

  /** `getContentValue`, up to the final template rendering. */
  function ContentValue(p: LogPayload, env: LogEnv): ContentFields
    requires Shaped(p)
  {
    match p.kind
    case GuildJoin => InviteLines(InviteText(p.content.codes, env))
    case GuildLeave =>
      DepartureFields(
        if |p.content.roles| > 0 then env.listFormat(RoleMentions(p.content.roles)) else "aucun",
        RoundMillisToSeconds(p.content.joinedAt))
    case RoleAdd | RoleRemove => RoleList(env.listFormat(RoleMentions(p.content.roles)))
    case MessagePost | MessageEdit | MessageRemove =>
      var text := if p.content.MessageText? then p.content.text else p.content.after;
      MessageFields(env.trim(text), MessageUrl(p.guildId, p.context.channelId, p.context.messageId))
    case ReactionAdd | ReactionRemove =>
      ReactionFields(env.resolveEmoji(p.content.emoji).GetOr(p.content.emoji),
                     MessageUrl(p.guildId, p.context.channelId, p.context.messageId))
    case ChangeNickname | ChangeUsername | VoiceJoin | VoiceLeave => PayloadFields
  }

  /**
   * A departure lists its roles, or `aucun` when there are none, and gives
   * the arrival date as the nearest whole second.
   */
  lemma DepartureContent(p: LogPayload, env: LogEnv)
    requires Shaped(p) && p.kind == GuildLeave
    ensures var fields := ContentValue(p, env);
      && (|p.content.roles| == 0 ==> fields.roles == "aucun")
      && (|p.content.roles| > 0 ==> fields.roles == env.listFormat(RoleMentions(p.content.roles)))
      && 1000 * fields.joinedAt - 500 <= p.content.joinedAt < 1000 * fields.joinedAt + 500
  {
    RoundMillisToSecondsNearest(p.content.joinedAt, ContentValue(p, env).joinedAt);
  }

  /** An invite list of one code is that code's line; each further code adds `"\nou : "` and its line. */
  lemma InviteTextLines(codes: seq<string>, env: LogEnv)
    ensures |codes| == 0 ==> InviteText(codes, env) == ""
    ensures |codes| == 1 ==> InviteText(codes, env) == env.renderInvite(codes[0], env.inviteLink(codes[0]))
    ensures |codes| > 1 ==>
      InviteText(codes, env) == env.renderInvite(codes[0], env.inviteLink(codes[0])) + "\nou : " + InviteText(codes[1..], env)
  {
    if |codes| > 1 {
      var lines := seq(|codes|, i requires 0 <= i < |codes| => env.renderInvite(codes[i], env.inviteLink(codes[i])));
      var rest := seq(|codes| - 1, i requires 0 <= i < |codes| - 1 => env.renderInvite(codes[1..][i], env.inviteLink(codes[1..][i])));
      assert lines[1..] == rest;
    }
  }

  /** A message event shows the text itself, or the new text of an edit, and links the message. */
  lemma MessageContent(p: LogPayload, env: LogEnv)
    requires Shaped(p) && p.kind in {MessagePost, MessageEdit, MessageRemove}
    ensures ContentValue(p, env).content == env.trim(if p.content.MessageText? then p.content.text else p.content.after)
    ensures ParseMessageUrl(ContentValue(p, env).url) == Some((p.guildId, p.context.channelId, p.context.messageId))
         || '/' in p.guildId || '/' in p.context.channelId || '/' in p.context.messageId
  {
    if '/' !in p.guildId && '/' !in p.context.channelId && '/' !in p.context.messageId {
      MessageUrlRoundTrip(p.guildId, p.context.channelId, p.context.messageId);
    }
  }

  /** A reaction shows the resolved emoji when it resolves, the stored text otherwise. */
  lemma ReactionContent(p: LogPayload, env: LogEnv)
    requires Shaped(p) && p.kind in {ReactionAdd, ReactionRemove}
    ensures env.resolveEmoji(p.content.emoji).Some? ==> ContentValue(p, env).content == env.resolveEmoji(p.content.emoji).value
    ensures env.resolveEmoji(p.content.emoji).None? ==> ContentValue(p, env).content == p.content.emoji
  {
  }

  // ---------------------------------------------------------------------------
  // `logAction`
  // ---------------------------------------------------------------------------

  /** The observable effects of logging one event. */
  datatype Effect =
    | Stored(payload: LogPayload)
    | Logged(kind: LogType)
    | Posted(channel: string, kind: LogType, fields: ContentFields)

  /** Every effect in the order `logAction` can produce them. */
  function AllEffects(p: LogPayload, channel: string, env: LogEnv): seq<Effect>
    requires Shaped(p)
  {
    [Stored(p), Logged(p.kind), Posted(channel, p.kind, ContentValue(p, env))]
  }

  /**
   * The effects for the guild's status of this type (`None` when the type
   * has no status) and its log channel (`None` when none is configured).
   */
  function Effects(p: LogPayload, status: Option<LogStatus>, channel: Option<string>, env: LogEnv): seq<Effect>
    requires Shaped(p)
  {
    if status == Some(Disabled) then []
    else if status == Some(Silent) then [Stored(p)]
    else if status == Some(Console) then [Stored(p), Logged(p.kind)]
    else if channel.None? then [Stored(p), Logged(p.kind)]
    else [Stored(p), Logged(p.kind), Posted(channel.value, p.kind, ContentValue(p, env))]
  }

  /**
   * The effects always come in the order store, log, post, each needing
   * the ones before: they are a prefix of the full sequence.
   */
  lemma EffectsInOrder(p: LogPayload, status: Option<LogStatus>, channel: Option<string>, env: LogEnv)
    requires Shaped(p)
    ensures var e := Effects(p, status, channel, env);
      |e| <= 3 && e == AllEffects(p, channel.GetOr(""), env)[..|e|]
  {
  }

  /** How each status gates the effects. */
  lemma StatusGates(p: LogPayload, status: Option<LogStatus>, channel: Option<string>, env: LogEnv)
    requires Shaped(p)
    ensures var e := Effects(p, status, channel, env);
      && (e == [] <==> status == Some(Disabled))
      && (|e| == 1 <==> status == Some(Silent))
      && (status == Some(Console) ==> e == [Stored(p), Logged(p.kind)])
      && (|e| == 3 <==> status != Some(Disabled) && status != Some(Silent) && status != Some(Console) && channel.Some?)
  {
  }

  /** Records what `logAction` did, in order. */
  class LogManager {
    var effects: seq<Effect>

    constructor ()
      ensures effects == []
    {
      effects := [];
    }

    /**
     * `logAction(payload)`: `statuses` is the per-guild status cache and
     * `logChannels` the configured log channel of each guild. A guild
     * missing from the cache makes the first lookup throw before any
     * effect; the method then answers `false`.
     */
    method LogAction(p: LogPayload, statuses: map<string, map<LogType, LogStatus>>,
                     logChannels: string -> Option<string>, env: LogEnv) returns (completed: bool)
      requires Shaped(p)
      modifies this
      ensures completed <==> p.guildId in statuses
      ensures !completed ==> effects == old(effects)
      ensures completed ==>
        var status := if p.kind in statuses[p.guildId] then Some(statuses[p.guildId][p.kind]) else None;
        effects == old(effects) + Effects(p, status, logChannels(p.guildId), env)
    {
      if p.guildId !in statuses {
        return false;
      }
      var byType := statuses[p.guildId];
      var status := if p.kind in byType then Some(byType[p.kind]) else None;
      completed := true;
      if status == Some(Disabled) {
        return;
      }
      effects := effects + [Stored(p)];
      if status == Some(Silent) {
        return;
      }
      effects := effects + [Logged(p.kind)];
      if status == Some(Console) {
        return;
      }
      var channel := logChannels(p.guildId);
      if channel.None? {
        return;
      }
      effects := effects + [Posted(channel.value, p.kind, ContentValue(p, env))];
    }
  }
}
