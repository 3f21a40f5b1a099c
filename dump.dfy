/**
 * The `/dump` command: lists the guild's members after optional role and
 * reaction filters, sorted, cut to a limit, formatted, optionally reversed
 * and numbered, joined with a separator, and posted as text or as a
 * `dump.txt` attachment when too long for one message.
 */
module Dump {
  import opened Wrappers
  import opened Strings
  import opened Sorting
  import opened Lists

  /** The fields of a guild member the command reads. */
  datatype Member = Member(
    id: string,
    username: string,
    tag: string,
    displayName: string,
    nickname: Option<string>,
    createdTimestamp: int,
    joinedTimestamp: int,
    /** Role ids, including the guild's `@everyone` role. */
    roles: set<string>)

  /** The `order` choices. */
  datatype Order = Name | Id | Created | Joined | Nick

  /** The `sort` choices. */
  datatype Direction = Asc | Desc

  /** The command's options; `None` when the option was not given (`null`). */
  datatype DumpOptions = DumpOptions(
    format: Option<string>,
    hasAllRoles: Option<string>,
    hasRoles: Option<string>,
    reacted: Option<string>,
    order: Option<Order>,
    limit: Option<int>,
    separator: Option<string>,
    dateFormat: Option<string>,
    sort: Option<Direction>,
    noRoles: Option<bool>,
    enumerate: Option<bool>,
    dm: Option<bool>)

  /** The values `pupa` substitutes for `{u}`, `{m}`, `{n}`, `{i}`, `{c}` and `{j}`. */
  datatype Placeholders = Placeholders(u: string, m: string, n: string, i: string, c: string, j: string)

  /** Who reacted to a message: reaction key (unicode emoji or custom emoji id) to user ids. */
  type Reactions = map<string, set<string>>

  /**
   * What the command consults outside the member list: `localeCompare`,
   * `pupa`, `dayjs(...).format`, the configured date format, the emoji and
   * message resolvers, and whether a direct message to the author goes
   * through.
   */
  datatype DumpEnv = DumpEnv(
    collate: (string, string) -> int,
    render: (string, Placeholders) -> string,
    formatDate: (int, string) -> string,
    defaultDateFormat: string,
    resolveEmoji: string -> Option<string>,
    resolveMessage: string -> Option<Reactions>,
    dmDelivers: bool)

  /** `MessageLimits.MaximumLength`: the most UTF-16 code units one Discord message holds. */
  const MaximumLength := 2000

  /** The template used when no `format` is given. */
  const DefaultFormat := "{u} ({i})"

  /** What goes out: the text itself, or a file holding it. */
  datatype Payload = Text(content: string) | Attachment(content: string, name: string)

  /** The command's reply. */
  datatype DumpReply =
    | NoMatchFound
    | Public(payload: Payload)
    /** Sent to the author in private; `delivered` is false when sending threw and `dmFailed` was replied. */
    | DirectMessage(payload: Payload, delivered: bool)

  // ---------------------------------------------------------------------------
  // Role filters
  // ---------------------------------------------------------------------------

  function HasRole(role: string): Member -> bool {
    (m: Member) => role in m.roles
  }

  /** Only the `@everyone` role. */
  predicate HasNoRole(m: Member) {
    |m.roles| == 1
  }

  /** `has-roles`, then `has-all-roles` (with its single role), then `no-roles`. */
  function RoleFiltered(members: seq<Member>, opts: DumpOptions): seq<Member> {
    var a := if opts.hasRoles.Some? then Filter(members, HasRole(opts.hasRoles.value)) else members;
    var b := if opts.hasAllRoles.Some? then Filter(a, HasRole(opts.hasAllRoles.value)) else a;
    if opts.noRoles == Some(true) then Filter(b, HasNoRole) else b
  }

  /** A member survives the role filters exactly when it has every requested role and, if asked, no other role. */
  lemma RoleFiltersKeepExactly(members: seq<Member>, opts: DumpOptions, m: Member)
    ensures m in RoleFiltered(members, opts) <==>
      && m in members
      && (opts.hasRoles.Some? ==> opts.hasRoles.value in m.roles)
      && (opts.hasAllRoles.Some? ==> opts.hasAllRoles.value in m.roles)
      && (opts.noRoles == Some(true) ==> |m.roles| == 1)
  {
    var a := if opts.hasRoles.Some? then Filter(members, HasRole(opts.hasRoles.value)) else members;
    var b := if opts.hasAllRoles.Some? then Filter(a, HasRole(opts.hasAllRoles.value)) else a;
    FilterMember(members, HasRole(opts.hasRoles.GetOr("")), m);
    FilterMember(a, HasRole(opts.hasAllRoles.GetOr("")), m);
    FilterMember(b, HasNoRole, m);
  }

  /** Membership in a filtered list, for one element. */
  lemma FilterMember(s: seq<Member>, keep: Member -> bool, m: Member)
    ensures m in Filter(s, keep) <==> m in s && keep(m)
  {
    var r := Filter(s, keep);
    if m in r {
      var i :| 0 <= i < |r| && r[i] == m;
    }
    if m in s && keep(m) {
      var i :| 0 <= i < |s| && s[i] == m;
    }
  }

  // ---------------------------------------------------------------------------
  // The `reacted` filter
  // ---------------------------------------------------------------------------

  /** Everyone who reacted to the message, with any reaction. */
  function AllReactors(reactions: Reactions): set<string> {
    set key, user | key in reactions && user in reactions[key] :: user
  }

  function ReactedTo(users: set<string>): Member -> bool {
    (m: Member) => m.id in users
  }

  /** How the `reacted` option is read once split on `@`. */
  datatype ReactedMode =
    | EmojiOnMessage(emoji: string, message: string)
    | AnyReactionOn(message: string)
    | NotAFilter

  /** `const [reaction, message] = reacted.split('@')`, then the two truthiness tests. */
  function ReactedModeOf(reacted: string): ReactedMode {
    var parts := Split(reacted, '@');
    var first := parts[0];
    var second := if |parts| > 1 then parts[1] else "";
    if first != "" && second != "" then EmojiOnMessage(first, second)
    else if first != "" then AnyReactionOn(first)
    else NotAFilter
  }

  /** `emoji@message`, each free of `@`, selects that emoji on that message. */
  lemma ReactedEmojiAtMessage(emoji: string, message: string)
    requires emoji != "" && message != "" && '@' !in emoji && '@' !in message
    ensures ReactedModeOf(emoji + "@" + message) == EmojiOnMessage(emoji, message)
  {
    SplitJoinRoundTrip([emoji, message], '@');
    assert Join([emoji, message], "@") == emoji + "@" + Join([message], "@");
  }

  /** A non-empty text without `@` is read as a message name alone. */
  lemma ReactedMessageOnly(message: string)
    requires message != "" && '@' !in message
    ensures ReactedModeOf(message) == AnyReactionOn(message)
  {
    SplitJoinRoundTrip([message], '@');
  }

  /**
   * Only the first two `@`-separated pieces count: anything after a second
   * `@` is ignored.
   */
  lemma ReactedIgnoresThirdPiece(emoji: string, message: string, rest: string)
    requires emoji != "" && message != "" && '@' !in emoji && '@' !in message
    ensures ReactedModeOf(emoji + "@" + message + "@" + rest) == EmojiOnMessage(emoji, message)
  {
    var t := "@" + message + "@" + rest;
    assert emoji + "@" + message + "@" + rest == emoji + t;
    SplitPrefix(emoji, t, '@');
    assert t[1..] == message + ("@" + rest);
    SplitPrefix(message, "@" + rest, '@');
    assert ("@" + rest)[1..] == rest;
  }

  /**
   * The filter is off when `reacted` is absent or empty, and when it starts
   * with `@`: its first piece is then empty, so neither mode applies.
   */
  lemma ReactionFilterOff(members: seq<Member>, env: DumpEnv, message: string)
    ensures ReactionFiltered(members, None, env) == Some(members)
    ensures ReactionFiltered(members, Some(""), env) == Some(members)
    ensures ReactionFiltered(members, Some("@" + message), env) == Some(members)
  {
    assert ("@" + message)[1..] == message;
    assert ReactedModeOf("@" + message) == NotAFilter;
  }

  /**
   * The `reacted` filter. `None` is the early `noMatchFound` reply: the
   * emoji and message both resolve but nobody reacted with that emoji. A
   * resolver failure leaves the list unfiltered.
   */
  function ReactionFiltered(members: seq<Member>, reacted: Option<string>, env: DumpEnv): Option<seq<Member>> {
    if reacted.None? || reacted.value == "" then Some(members)
    else
      match ReactedModeOf(reacted.value)
      case EmojiOnMessage(emoji, message) =>
        var key := env.resolveEmoji(emoji);
        var reactions := env.resolveMessage(message);
        if reactions.Some? && key.Some? then
          if key.value in reactions.value then Some(Filter(members, ReactedTo(reactions.value[key.value])))
          else None
        else Some(members)
      case AnyReactionOn(message) =>
        var reactions := env.resolveMessage(message);
        if reactions.Some? then Some(Filter(members, ReactedTo(AllReactors(reactions.value)))) else Some(members)
      case NotAFilter => Some(members)
  }

  /** The reaction filter only ever narrows the list, and stops the command only in emoji mode. */
  lemma ReactionFilterNarrows(members: seq<Member>, reacted: Option<string>, env: DumpEnv)
    ensures var r := ReactionFiltered(members, reacted, env);
      && (r.Some? ==> forall i :: 0 <= i < |r.value| ==> r.value[i] in members)
      && (r.None? ==> reacted.Some? && ReactedModeOf(reacted.value).EmojiOnMessage?)
  {
  }

  /**
   * Emoji mode with both lookups resolved and the emoji among the message's
   * reactions: exactly the members who reacted with that emoji are kept.
   */
  lemma ReactionFilterKeepsEmojiReactors(members: seq<Member>, reacted: Option<string>, env: DumpEnv, m: Member)
    requires reacted.Some? && reacted.value != ""
    requires ReactedModeOf(reacted.value).EmojiOnMessage?
    requires env.resolveEmoji(ReactedModeOf(reacted.value).emoji).Some?
    requires env.resolveMessage(ReactedModeOf(reacted.value).message).Some?
    requires env.resolveEmoji(ReactedModeOf(reacted.value).emoji).value
      in env.resolveMessage(ReactedModeOf(reacted.value).message).value
    ensures var r := ReactionFiltered(members, reacted, env);
      var key := env.resolveEmoji(ReactedModeOf(reacted.value).emoji).value;
      var reactions := env.resolveMessage(ReactedModeOf(reacted.value).message).value;
      && r.Some?
      && (m in r.value <==> m in members && m.id in reactions[key])
  {
    var mode := ReactedModeOf(reacted.value);
    var reactions := env.resolveMessage(mode.message).value;
    var key := env.resolveEmoji(mode.emoji).value;
    FilterMember(members, ReactedTo(reactions[key]), m);
  }

  /**
   * Message-only mode with the message resolved: exactly the members who
   * reacted to it with some emoji are kept.
   */
  lemma ReactionFilterKeepsMessageReactors(members: seq<Member>, reacted: Option<string>, env: DumpEnv, m: Member)
    requires reacted.Some? && reacted.value != ""
    requires ReactedModeOf(reacted.value).AnyReactionOn?
    requires env.resolveMessage(ReactedModeOf(reacted.value).message).Some?
    ensures var r := ReactionFiltered(members, reacted, env);
      var reactions := env.resolveMessage(ReactedModeOf(reacted.value).message).value;
      && r.Some?
      && (m in r.value <==> m in members && exists key :: key in reactions && m.id in reactions[key])
  {
    var reactions := env.resolveMessage(ReactedModeOf(reacted.value).message).value;
    FilterMember(members, ReactedTo(AllReactors(reactions)), m);
    assert m.id in AllReactors(reactions) <==> exists key :: key in reactions && m.id in reactions[key];
  }

  /**
   * The command stops with `noMatchFound` exactly in emoji mode when both
   * lookups resolve and nobody reacted with that emoji.
   */
  lemma ReactionFilterStopsIff(members: seq<Member>, reacted: Option<string>, env: DumpEnv)
    ensures ReactionFiltered(members, reacted, env).None? <==>
      && reacted.Some? && reacted.value != ""
      && ReactedModeOf(reacted.value).EmojiOnMessage?
      && env.resolveEmoji(ReactedModeOf(reacted.value).emoji).Some?
      && env.resolveMessage(ReactedModeOf(reacted.value).message).Some?
      && env.resolveEmoji(ReactedModeOf(reacted.value).emoji).value
        !in env.resolveMessage(ReactedModeOf(reacted.value).message).value
  {
  }

  /** A lookup that fails leaves the list as it was, in either mode. */
  lemma ReactionFilterUnresolvedKeepsAll(members: seq<Member>, reacted: Option<string>, env: DumpEnv)
    requires reacted.Some? && reacted.value != ""
    requires var mode := ReactedModeOf(reacted.value);
      || (mode.EmojiOnMessage? && (env.resolveEmoji(mode.emoji).None? || env.resolveMessage(mode.message).None?))
      || (mode.AnyReactionOn? && env.resolveMessage(mode.message).None?)
    ensures ReactionFiltered(members, reacted, env) == Some(members)
  {
  }

  // ---------------------------------------------------------------------------
  // Sorting
  // ---------------------------------------------------------------------------

  function CreatedAt(m: Member): int { m.createdTimestamp }

  function JoinedAt(m: Member): int { m.joinedTimestamp }

  function Username(m: Member): string { m.username }

  function MemberId(m: Member): string { m.id }

  /** Compares members by `localeCompare` on one of their texts. */
  function ByCollation(collate: (string, string) -> int, text: Member -> string): (cmp: (Member, Member) -> int) {
    (a: Member, b: Member) => collate(text(a), text(b))
  }

  /**
   * `a.nickname?.localeCompare(b.nickname) ?? 0`: with no nickname on the
   * left the members tie; with none on the right, `localeCompare` receives
   * `null` and compares against the text `"null"`.
   */
  function ByNickname(collate: (string, string) -> int): (cmp: (Member, Member) -> int) {
    (a: Member, b: Member) => if a.nickname.Some? then collate(a.nickname.value, b.nickname.GetOr("null")) else 0
  }

  /** `memberSorterFactory(order)`. */
  function Sorter(order: Order, env: DumpEnv): (Member, Member) -> int {
    match order
    case Name => ByCollation(env.collate, Username)
    case Id => ByCollation(env.collate, MemberId)
    case Created => ByKey(CreatedAt)
    case Joined => ByKey(JoinedAt)
    case Nick => ByNickname(env.collate)
  }

  /** `members.sort(sorter)` when an order is given. */
  function Sorted(members: seq<Member>, order: Option<Order>, env: DumpEnv): seq<Member> {
    if order.Some? then SortBy(Sorter(order.value, env), members) else members
  }

  /** Sorting by account creation gives all the members, oldest account first. */
  lemma SortedByCreatedAscends(members: seq<Member>, env: DumpEnv)
    ensures var s := Sorted(members, Some(Created), env);
      multiset(s) == multiset(members) &&
      forall i, j :: 0 <= i < j < |s| ==> s[i].createdTimestamp <= s[j].createdTimestamp
  {
    var s := SortBy(ByKey(CreatedAt), members);
    SortByKeyAscends(CreatedAt, members);
    assert Sorter(Created, env) == ByKey(CreatedAt);
    assert Sorted(members, Some(Created), env) == s;
    forall i, j | 0 <= i < j < |s| ensures s[i].createdTimestamp <= s[j].createdTimestamp {
      assert CreatedAt(s[i]) <= CreatedAt(s[j]);
    }
  }

  /** Sorting by arrival gives all the members, earliest arrival first. */
  lemma SortedByJoinedAscends(members: seq<Member>, env: DumpEnv)
    ensures var s := Sorted(members, Some(Joined), env);
      multiset(s) == multiset(members) &&
      forall i, j :: 0 <= i < j < |s| ==> s[i].joinedTimestamp <= s[j].joinedTimestamp
  {
    var s := SortBy(ByKey(JoinedAt), members);
    SortByKeyAscends(JoinedAt, members);
    assert Sorter(Joined, env) == ByKey(JoinedAt);
    assert Sorted(members, Some(Joined), env) == s;
    forall i, j | 0 <= i < j < |s| ensures s[i].joinedTimestamp <= s[j].joinedTimestamp {
      assert JoinedAt(s[i]) <= JoinedAt(s[j]);
    }
  }

  /** A `localeCompare` that orders all strings. */
  ghost predicate Collation(collate: (string, string) -> int) {
    TotalPreorder(collate)
  }

  lemma CollationByText(collate: (string, string) -> int, text: Member -> string)
    requires Collation(collate)
    ensures TotalPreorder(ByCollation(collate, text))
  {
    var cmp := ByCollation(collate, text);
    forall a, b, c | cmp(a, b) <= 0 && cmp(b, c) <= 0 ensures cmp(a, c) <= 0 {
      assert collate(text(a), text(b)) <= 0 && collate(text(b), text(c)) <= 0;
    }
    forall a, b ensures cmp(a, b) <= 0 || cmp(b, a) <= 0 {
      assert collate(text(a), text(b)) <= 0 || collate(text(b), text(a)) <= 0;
    }
  }

  /** With a collation that orders strings, sorting by name orders the members by username, keeping them all. */
  lemma SortedByNameOrdered(members: seq<Member>, env: DumpEnv)
    requires Collation(env.collate)
    ensures var s := Sorted(members, Some(Name), env);
      multiset(s) == multiset(members) &&
      forall i, j :: 0 <= i < j < |s| ==> env.collate(s[i].username, s[j].username) <= 0
  {
    var cmp := ByCollation(env.collate, Username);
    CollationByText(env.collate, Username);
    SortBySorted(cmp, members);
    var s := SortBy(cmp, members);
    forall i, j | 0 <= i < j < |s| ensures env.collate(s[i].username, s[j].username) <= 0 {
      assert cmp(s[i], s[j]) <= 0;
    }
  }

  /** With a collation that orders strings, sorting by id orders the members by id, keeping them all. */
  lemma SortedByIdOrdered(members: seq<Member>, env: DumpEnv)
    requires Collation(env.collate)
    ensures var s := Sorted(members, Some(Id), env);
      multiset(s) == multiset(members) &&
      forall i, j :: 0 <= i < j < |s| ==> env.collate(s[i].id, s[j].id) <= 0
  {
    var cmp := ByCollation(env.collate, MemberId);
    CollationByText(env.collate, MemberId);
    SortBySorted(cmp, members);
    var s := SortBy(cmp, members);
    forall i, j | 0 <= i < j < |s| ensures env.collate(s[i].id, s[j].id) <= 0 {
      assert cmp(s[i], s[j]) <= 0;
    }
  }

  /**
   * The nickname comparator is not symmetric: a member without a nickname
   * ties with everyone when on the left, but on the right compares as the
   * text `"null"`.
   */
  lemma NicknameComparatorAsymmetric(env: DumpEnv, a: Member, b: Member)
    requires a.nickname.None? && b.nickname.Some?
    ensures Sorter(Nick, env)(a, b) == 0
    ensures Sorter(Nick, env)(b, a) == env.collate(b.nickname.value, "null")
  {
    assert a.nickname.GetOr("null") == "null";
  }

  // ---------------------------------------------------------------------------
  // Limit
  // ---------------------------------------------------------------------------

  /** `Number(limit)`: an absent limit reads as 0, which means no limit. */
  function LimitOf(limit: Option<int>): int {
    limit.GetOr(0)
  }

  /** How many members a non-zero limit keeps out of `n`. */
  function Kept(limit: int, n: nat): (k: nat)
    ensures k <= n
  {
    if limit <= 0 then 0 else if limit < n then limit else n
  }

  /** The limit step: unchanged for a zero limit, otherwise the first `min(limit, n)` members. */
  function Limited(members: seq<Member>, limit: int): (r: seq<Member>)
  {
    if limit == 0 then members else members[..Kept(limit, |members|)]
  }

  /** `let i = 0; members.filter(() => i++ < limit)`. */
  method KeepFirst(members: seq<Member>, limit: int) returns (kept: seq<Member>)
    ensures kept == members[..Kept(limit, |members|)]
  {
    var i := 0;
    kept := [];
    for k := 0 to |members|
      invariant i == k
      invariant kept == members[..Kept(limit, k)]
    {
      var passes := i < limit;
      i := i + 1;
      if passes {
        assert members[..k + 1] == members[..k] + [members[k]];
        kept := kept + [members[k]];
      }
    }
  }

  /** A limit keeps a prefix in the current order: the first members, not any others. */
  lemma LimitedIsPrefix(members: seq<Member>, limit: int)
    ensures var r := Limited(members, limit);
      && |r| == (if limit == 0 then |members| else if limit < 0 then 0 else if limit < |members| then limit else |members|)
      && forall i :: 0 <= i < |r| ==> r[i] == members[i]
  {
  }

  // ---------------------------------------------------------------------------
  // Formatting, reversing, numbering
  // ---------------------------------------------------------------------------

  /** `memberFormatterFactory(format, dateFormat)` applied to one member. */
  function Formatted(template: string, dateFormat: string, env: DumpEnv, m: Member): string {
    env.render(template, Placeholders(
      m.tag,
      "<@" + m.id + ">",
      m.displayName,
      m.id,
      env.formatDate(m.createdTimestamp, dateFormat),
      env.formatDate(m.joinedTimestamp, dateFormat)))
  }

  function TemplateOf(opts: DumpOptions): string {
    opts.format.GetOr(DefaultFormat)
  }

  function DateFormatOf(opts: DumpOptions, env: DumpEnv): string {
    opts.dateFormat.GetOr(env.defaultDateFormat)
  }

  /** Without a `format` option the members render as `{u} ({i})`. */
  lemma DefaultTemplate(opts: DumpOptions)
    ensures opts.format.None? ==> TemplateOf(opts) == "{u} ({i})"
    ensures opts.format.Some? ==> TemplateOf(opts) == opts.format.value
  {
  }

  /** `${i + 1}. ${line}` for every line. */
  function Enumerated(lines: seq<string>): (r: seq<string>)
    ensures |r| == |lines|
  {
    seq(|lines|, i requires 0 <= i < |lines| => DecimalString(i + 1) + ". " + lines[i])
  }

  /**
   * Numbering starts at 1 and follows the final order: line `i` starts with
   * the digits of `i + 1`, then `". "`, then the original line.
   */
  lemma EnumeratedNumbers(lines: seq<string>, i: nat)
    requires i < |lines|
    ensures var d := DecimalString(i + 1);
      && Enumerated(lines)[i] == d + ". " + lines[i]
      && (forall k :: 0 <= k < |d| ==> '0' <= d[k] <= '9')
      && DecimalValue(d) == i + 1
  {
    DecimalRoundTrip(i + 1);
  }

  /** The lines of the dump: format the members, then reverse, then number. */
  function Lines(members: seq<Member>, opts: DumpOptions, env: DumpEnv): (lines: seq<string>)
    ensures |lines| == |members|
  {
    var formatted := seq(|members|, i requires 0 <= i < |members| => Formatted(TemplateOf(opts), DateFormatOf(opts, env), env, members[i]));
    var ordered := if opts.sort == Some(Desc) then Reversed(formatted) else formatted;
    if opts.enumerate == Some(true) then Enumerated(ordered) else ordered
  }

  /** The members that reach formatting; `None` when the reaction filter already replied. */
  function Selected(members: seq<Member>, opts: DumpOptions, env: DumpEnv): Option<seq<Member>> {
    var reacted := ReactionFiltered(RoleFiltered(members, opts), opts.reacted, env);
    if reacted.None? then None
    else Some(Limited(Sorted(reacted.value, opts.order, env), LimitOf(opts.limit)))
  }

  /**
   * The text is sent as an attachment once it is longer than one message can
   * hold; `output.length` counts UTF-16 code units.
   */
  function PayloadOf(output: string): Payload {
    if Utf16Length(output) > MaximumLength then Attachment(output, "dump.txt") else Text(output)
  }

  /** The whole command on the fetched members. */
  function Dump(members: seq<Member>, opts: DumpOptions, env: DumpEnv): DumpReply {
    var selected := Selected(members, opts, env);
    if selected.None? then NoMatchFound
    else
      var lines := Lines(selected.value, opts, env);
      if |lines| == 0 then NoMatchFound
      else
        var payload := PayloadOf(Join(lines, opts.separator.GetOr("\n")));
        if opts.dm == Some(true) then DirectMessage(payload, env.dmDelivers) else Public(payload)
  }

  /** The first half of `chatInputRun`: filters, sort and limit, reassigning `members` step by step. */
  method SelectMembers(fetched: seq<Member>, opts: DumpOptions, env: DumpEnv) returns (selected: Option<seq<Member>>)
    ensures selected == Selected(fetched, opts, env)
  {
    var members := fetched;
    if opts.hasRoles.Some? {
      members := Filter(members, HasRole(opts.hasRoles.value));
    }
    if opts.hasAllRoles.Some? {
      members := Filter(members, HasRole(opts.hasAllRoles.value));
    }
    if opts.noRoles == Some(true) {
      members := Filter(members, HasNoRole);
    }
    var reacted := ReactionFiltered(members, opts.reacted, env);
    if reacted.None? {
      return None;
    }
    members := reacted.value;
    if opts.order.Some? {
      members := SortBy(Sorter(opts.order.value, env), members);
    }
    var limit := LimitOf(opts.limit);
    if limit != 0 {
      members := KeepFirst(members, limit);
    }
    return Some(members);
  }

  /** The second half of `chatInputRun`'s list work: format, reverse in place, number. */
  method RenderLines(members: seq<Member>, opts: DumpOptions, env: DumpEnv) returns (lines: seq<string>)
    ensures lines == Lines(members, opts, env)
  {
    var template, dateFormat := TemplateOf(opts), DateFormatOf(opts, env);
    var formatted := new string[|members|](i requires 0 <= i < |members| => Formatted(template, dateFormat, env, members[i]));
    ghost var plain := seq(|members|, i requires 0 <= i < |members| => Formatted(template, dateFormat, env, members[i]));
    assert formatted[..] == plain;
    if opts.sort == Some(Desc) {
      ReverseInPlace(formatted);
    }
    lines := formatted[..];
    assert lines == if opts.sort == Some(Desc) then Reversed(plain) else plain;
    if opts.enumerate == Some(true) {
      lines := Enumerated(lines);
    }
  }

  /** `chatInputRun` on the fetched members. */
  method ChatInputRun(fetched: seq<Member>, opts: DumpOptions, env: DumpEnv) returns (reply: DumpReply)
    ensures reply == Dump(fetched, opts, env)
  {
    var selected := SelectMembers(fetched, opts, env);
    if selected.None? {
      return NoMatchFound;
    }
    var lines := RenderLines(selected.value, opts, env);
    if |lines| == 0 {
      return NoMatchFound;
    }
    var payload := PayloadOf(Join(lines, opts.separator.GetOr("\n")));
    if opts.dm == Some(true) {
      reply := DirectMessage(payload, env.dmDelivers);
    } else {
      reply := Public(payload);
    }
  }

  // ---------------------------------------------------------------------------
  // Properties of the whole pipeline
  // ---------------------------------------------------------------------------

  /** `noMatchFound` is replied exactly when the reaction filter stops the command or no member is left. */
  lemma NoMatchFoundIff(members: seq<Member>, opts: DumpOptions, env: DumpEnv)
    ensures Dump(members, opts, env) == NoMatchFound <==>
      Selected(members, opts, env).None? || |Selected(members, opts, env).value| == 0
  {
  }

  /**
   * A thousand and one emoji are 2002 UTF-16 code units, over the limit, so
   * they go out as a file although they are fewer than 2000 characters.
   */
  lemma AstralOutputIsAttachment()
    ensures PayloadOf(seq(1001, _ => '\U{1F600}')).Attachment?
  {
    Utf16LengthAllAstral(seq(1001, _ => '\U{1F600}'));
  }

  /** Without astral characters the limit is on the number of characters. */
  lemma BmpOutputAttachedByLength(output: string)
    requires forall i :: 0 <= i < |output| ==> !Astral(output[i])
    ensures PayloadOf(output).Attachment? <==> |output| > MaximumLength
  {
    Utf16LengthWithoutAstral(output);
  }

  /**
   * Whatever is sent holds every line joined by the separator (a newline by
   * default), and it is a file exactly when that text is over the limit.
   */
  lemma PayloadHoldsOutput(members: seq<Member>, opts: DumpOptions, env: DumpEnv)
    ensures var reply := Dump(members, opts, env);
      !reply.NoMatchFound? ==>
        var output := Join(Lines(Selected(members, opts, env).value, opts, env), opts.separator.GetOr("\n"));
        && reply.payload.content == output
        && (reply.payload.Attachment? <==> Utf16Length(output) > MaximumLength)
        && (reply.payload.Attachment? ==> reply.payload.name == "dump.txt")
        && (reply.DirectMessage? <==> opts.dm == Some(true))
  {
  }

  /**
   * `desc` reverses the members the limit kept: the first line is the last
   * kept member, not a member beyond the limit.
   */
  lemma DescReversesKeptMembers(members: seq<Member>, opts: DumpOptions, env: DumpEnv, i: nat)
    requires opts.sort == Some(Desc) && opts.enumerate != Some(true)
    requires Selected(members, opts, env).Some? && i < |Selected(members, opts, env).value|
    ensures var kept := Selected(members, opts, env).value;
      Lines(kept, opts, env)[i] == Formatted(TemplateOf(opts), DateFormatOf(opts, env), env, kept[|kept| - 1 - i])
  {
  }

  /** With `enumerate`, line `i` is numbered `i + 1` whether or not the order was reversed. */
  lemma EnumerationFollowsFinalOrder(members: seq<Member>, opts: DumpOptions, env: DumpEnv, i: nat)
    requires opts.enumerate == Some(true)
    requires i < |members|
    ensures var unnumbered := Lines(members, opts.(enumerate := None), env);
      Lines(members, opts, env)[i] == DecimalString(i + 1) + ". " + unnumbered[i]
  {
  }
}
