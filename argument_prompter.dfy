/**
 * The chat slot-filling engine (`ArgumentPrompter`): it asks the command's
 * author for a value, one prompt message at a time, and turns the reply into
 * a typed value through a fixed chain of resolution strategies, retrying
 * until the value is truthy.
 *
 * Waiting for a reply is modelled as a finite stream of replies (`pending`);
 * the lookups of `ArgumentResolver` are opaque functions in a `Directory`.
 * Throwing `'STOP'` is the `Cancelled` outcome.
 */
module ArgumentPrompter {
  import opened Wrappers
  import opened Strings

  type MessageId = nat

  datatype Channel = Channel(id: string, isText: bool, isGuildBased: bool)

  datatype HourMinutes = HourMinutes(hour: int, minutes: int)

  /** A reply of the command's author: its id, raw content and the entities it mentions, in order. */
  datatype Reply = Reply(
    id: MessageId,
    content: string,
    channelMentions: seq<Channel>,
    memberMentions: seq<string>,
    roleMentions: seq<string>)

  /** One exchange: the id a newly sent prompt message gets, and the reply the author gives to it. */
  datatype Exchange = Exchange(promptId: MessageId, response: Reply)

  /** The lookups of `ArgumentResolver`; `None` is its `null`. */
  datatype Directory = Directory(
    channelById: string -> Option<Channel>,
    channelByQuery: string -> Option<Channel>,
    messageById: string -> Option<MessageId>,
    messageByLink: string -> Option<MessageId>,
    memberByQuery: string -> Option<string>,
    memberById: string -> Option<string>,
    roleById: string -> Option<string>,
    roleByQuery: string -> Option<string>,
    date: string -> Option<int>,
    hour: string -> Option<HourMinutes>,
    duration: string -> Option<int>,
    boolean: string -> Option<bool>)

  /** The nine `prompt*` / `autoPrompt*` pairs. */
  datatype SlotKind =
    | TextChannelSlot | MessageSlot | TextSlot | DateSlot | HourSlot
    | DurationSlot | MemberSlot | RoleSlot | BooleanSlot

  datatype Value =
    | ChannelValue(channel: Channel)
    | MessageValue(message: MessageId)
    | TextValue(text: string)
    | DateValue(time: int)
    | HourValue(hm: HourMinutes)
    | DurationValue(ms: int)
    | MemberValue(member: string)
    | RoleValue(role: string)
    | BooleanValue(b: bool)

  function KindOf(v: Value): SlotKind {
    match v
    case ChannelValue(_) => TextChannelSlot
    case MessageValue(_) => MessageSlot
    case TextValue(_) => TextSlot
    case DateValue(_) => DateSlot
    case HourValue(_) => HourSlot
    case DurationValue(_) => DurationSlot
    case MemberValue(_) => MemberSlot
    case RoleValue(_) => RoleSlot
    case BooleanValue(_) => BooleanSlot
  }

  /**
   * JavaScript truthiness of what a `prompt*` call resolves to: `null`,
   * `''`, `0` and `false` are falsy; channels, messages, dates, hours,
   * members and roles are objects and always truthy.
   */
  predicate Truthy(v: Option<Value>) {
    match v
    case None => false
    case Some(TextValue(s)) => s != ""
    case Some(DurationValue(ms)) => ms != 0
    case Some(BooleanValue(b)) => b
    case Some(_) => true
  }

  // ---------------------------------------------------------------------------
  // Prompt texts
  // ---------------------------------------------------------------------------

  /** The caller's optional texts (`PrompterText`). */
  datatype PrompterText = PrompterText(base: Option<string>, invalid: Option<string>)

  /** One entry of the configured `messages.prompts`. */
  datatype DefaultTexts = DefaultTexts(base: string, invalid: string)

  /** The keys of `messages.prompts` the prompts read. */
  datatype PromptKey =
    | ChannelKey | MessageKey | TextKey | DateKey | HourKey | DurationKey | MemberKey | RoleKey

  /** The default texts each slot reads; `promptBoolean` reads the role texts. */
  function PromptKeyOf(kind: SlotKind): PromptKey {
    match kind
    case TextChannelSlot => ChannelKey
    case MessageSlot => MessageKey
    case TextSlot => TextKey
    case DateSlot => DateKey
    case HourSlot => HourKey
    case DurationSlot => DurationKey
    case MemberSlot => MemberKey
    case RoleSlot => RoleKey
    case BooleanSlot => RoleKey
  }

  /** `x || fallback` on an optional string: absent and `''` both fall back. */
  function OrFallback(x: Option<string>, fallback: string): string {
    if x.Some? && x.value != "" then x.value else fallback
  }

  function BaseOf(prompts: Option<PrompterText>): Option<string> {
    if prompts.Some? then prompts.value.base else None
  }

  function InvalidOf(prompts: Option<PrompterText>): Option<string> {
    if prompts.Some? then prompts.value.invalid else None
  }

  /** The text a round sends: the base text, prefixed by the invalid text on a retry. */
  function PromptText(prompts: Option<PrompterText>, defaults: DefaultTexts, previousIsFailure: bool): string {
    if previousIsFailure
    then OrFallback(InvalidOf(prompts), defaults.invalid) + " " + OrFallback(BaseOf(prompts), defaults.base)
    else OrFallback(BaseOf(prompts), defaults.base)
  }

  /**
   * A first round shows the caller's base text when it is non-empty and the
   * configured one otherwise; a retry shows the same text behind the
   * invalid text (again the caller's when non-empty) and a space.
   */
  lemma PromptTextChoice(prompts: Option<PrompterText>, defaults: DefaultTexts)
    ensures var first := PromptText(prompts, defaults, false);
      && ((BaseOf(prompts) == None || BaseOf(prompts) == Some("")) ==> first == defaults.base)
      && (BaseOf(prompts).Some? && BaseOf(prompts).value != "" ==> first == BaseOf(prompts).value)
    ensures var first := PromptText(prompts, defaults, false);
      var retry := PromptText(prompts, defaults, true);
      var invalid := OrFallback(InvalidOf(prompts), defaults.invalid);
      && |retry| == |invalid| + 1 + |first|
      && retry[..|invalid|] == invalid
      && retry[|invalid|] == ' '
      && retry[|invalid| + 1..] == first
  {
    var first := PromptText(prompts, defaults, false);
    var invalid := OrFallback(InvalidOf(prompts), defaults.invalid);
    assert PromptText(prompts, defaults, true) == invalid + " " + first;
  }

  /** `promptBoolean` shows exactly what `promptRole` shows, for every caller text and retry flag. */
  lemma BooleanPromptUsesRoleTexts(defaults: PromptKey -> DefaultTexts, prompts: Option<PrompterText>, previousIsFailure: bool)
    ensures PromptText(prompts, defaults(PromptKeyOf(BooleanSlot)), previousIsFailure)
         == PromptText(prompts, defaults(PromptKeyOf(RoleSlot)), previousIsFailure)
  {
  }

  // ---------------------------------------------------------------------------
  // Resolver chains
  // ---------------------------------------------------------------------------

  /** `a ?? b`. */
  function OrElse<T>(a: Option<T>, b: Option<T>): Option<T> {
    if a.Some? then a else b
  }

  /** The first candidate that is present: an ordered fallback chain. */
  function FirstSome<T>(candidates: seq<Option<T>>): (r: Option<T>)
    ensures (forall i :: 0 <= i < |candidates| ==> candidates[i].None?) ==> r.None?
    ensures forall i :: (0 <= i < |candidates| && candidates[i].Some?
                         && (forall j :: 0 <= j < i ==> candidates[j].None?)) ==> r == candidates[i]
  {
    if candidates == [] then None
    else if candidates[0].Some? then candidates[0]
    else FirstSome(candidates[1..])
  }

  lemma FirstSomeOfTwo<T>(a: Option<T>, b: Option<T>)
    ensures FirstSome([a, b]) == OrElse(a, b)
  {
    assert [a, b][1..] == [b];
    assert [b][1..] == [];
  }

  lemma FirstSomeOfThree<T>(a: Option<T>, b: Option<T>, c: Option<T>)
    ensures FirstSome([a, b, c]) == OrElse(a, OrElse(b, c))
  {
    assert [a, b, c][1..] == [b, c];
    FirstSomeOfTwo(b, c);
  }

  function FirstMention<T>(mentions: seq<T>): Option<T> {
    if |mentions| > 0 then Some(mentions[0]) else None
  }

  /** The first mentioned channel, kept only when it is a text channel of a guild. */
  function UsableChannelMention(reply: Reply): Option<Channel> {
    if |reply.channelMentions| > 0 && reply.channelMentions[0].isText && reply.channelMentions[0].isGuildBased
    then Some(reply.channelMentions[0])
    else None
  }

  /** `content.split(' ').join('-')`. */
  function ChannelQuery(content: string): string {
    Join(Split(content, ' '), "-")
  }

  /** The channel query is the content with every space turned into `-`, nothing else changed. */
  lemma ChannelQueryReplacesSpaces(content: string)
    ensures |ChannelQuery(content)| == |content|
    ensures ' ' !in ChannelQuery(content)
    ensures forall i :: 0 <= i < |content| ==>
      ChannelQuery(content)[i] == (if content[i] == ' ' then '-' else content[i])
  {
    JoinSplitIsReplace(content, ' ', '-');
    var q := ChannelQuery(content);
    forall i | 0 <= i < |q| ensures q[i] != ' ' {
    }
  }

  function ResolveTextChannel(reply: Reply, dir: Directory): Option<Channel> {
    var mention := UsableChannelMention(reply);
    if mention.Some? then mention
    else
      var query := ChannelQuery(reply.content);
      OrElse(dir.channelById(query), dir.channelByQuery(query))
  }

  function ResolveMessage(reply: Reply, dir: Directory): Option<MessageId> {
    OrElse(dir.messageById(reply.content), dir.messageByLink(reply.content))
  }

  function ResolveMember(reply: Reply, dir: Directory): Option<string> {
    if |reply.memberMentions| > 0 then Some(reply.memberMentions[0])
    else OrElse(dir.memberByQuery(reply.content), dir.memberById(reply.content))
  }

  function ResolveRole(reply: Reply, dir: Directory): Option<string> {
    if |reply.roleMentions| > 0 then Some(reply.roleMentions[0])
    else OrElse(dir.roleById(reply.content), dir.roleByQuery(reply.content))
  }

  /** The value one `prompt*` round gives for the reply, `None` for `null`. */
  function Resolve(kind: SlotKind, reply: Reply, dir: Directory): (r: Option<Value>)
    ensures r.Some? ==> KindOf(r.value) == kind
    ensures kind == TextSlot ==> r == Some(TextValue(reply.content)) && (Truthy(r) <==> reply.content != "")
  {
    match kind
    case TextChannelSlot =>
      var c := ResolveTextChannel(reply, dir); if c.Some? then Some(ChannelValue(c.value)) else None
    case MessageSlot =>
      var m := ResolveMessage(reply, dir); if m.Some? then Some(MessageValue(m.value)) else None
    case TextSlot => Some(TextValue(reply.content))
    case DateSlot =>
      var d := dir.date(reply.content); if d.Some? then Some(DateValue(d.value)) else None
    case HourSlot =>
      var h := dir.hour(reply.content); if h.Some? then Some(HourValue(h.value)) else None
    case DurationSlot =>
      var d := dir.duration(reply.content); if d.Some? then Some(DurationValue(d.value)) else None
    case MemberSlot =>
      var m := ResolveMember(reply, dir); if m.Some? then Some(MemberValue(m.value)) else None
    case RoleSlot =>
      var r := ResolveRole(reply, dir); if r.Some? then Some(RoleValue(r.value)) else None
    case BooleanSlot =>
      var b := dir.boolean(reply.content); if b.Some? then Some(BooleanValue(b.value)) else None
  }

  /**
   * Channel chain: a usable first mention, then lookup by id, then lookup by
   * name, both on the dashed query; the earliest strategy that succeeds wins.
   */
  lemma ChannelChainOrder(reply: Reply, dir: Directory)
    ensures var query := ChannelQuery(reply.content);
      ResolveTextChannel(reply, dir)
        == FirstSome([UsableChannelMention(reply), dir.channelById(query), dir.channelByQuery(query)])
  {
    var query := ChannelQuery(reply.content);
    FirstSomeOfThree(UsableChannelMention(reply), dir.channelById(query), dir.channelByQuery(query));
  }

  /** Message chain: an id in the current channel before a message link. */
  lemma MessageChainOrder(reply: Reply, dir: Directory)
    ensures ResolveMessage(reply, dir)
         == FirstSome([dir.messageById(reply.content), dir.messageByLink(reply.content)])
  {
    FirstSomeOfTwo(dir.messageById(reply.content), dir.messageByLink(reply.content));
  }

  /** Member chain: mention, then name query, then id. */
  lemma MemberChainOrder(reply: Reply, dir: Directory)
    ensures ResolveMember(reply, dir)
         == FirstSome([FirstMention(reply.memberMentions), dir.memberByQuery(reply.content), dir.memberById(reply.content)])
  {
    FirstSomeOfThree(FirstMention(reply.memberMentions), dir.memberByQuery(reply.content), dir.memberById(reply.content));
  }

  /** Role chain: mention, then id, then name query. */
  lemma RoleChainOrder(reply: Reply, dir: Directory)
    ensures ResolveRole(reply, dir)
         == FirstSome([FirstMention(reply.roleMentions), dir.roleById(reply.content), dir.roleByQuery(reply.content)])
  {
    FirstSomeOfThree(FirstMention(reply.roleMentions), dir.roleById(reply.content), dir.roleByQuery(reply.content));
  }

  /**
   * The two chains disagree on which lookup wins: without mentions, when
   * both the name query and the id lookup succeed, a member comes from the
   * query and a role from the id.
   */
  lemma MemberAndRoleChainsDiffer(reply: Reply, dir: Directory)
    requires reply.memberMentions == [] && reply.roleMentions == []
    requires dir.memberByQuery(reply.content).Some? && dir.memberById(reply.content).Some?
    requires dir.roleByQuery(reply.content).Some? && dir.roleById(reply.content).Some?
    ensures ResolveMember(reply, dir) == dir.memberByQuery(reply.content)
    ensures ResolveRole(reply, dir) == dir.roleById(reply.content)
  {
    MemberChainOrder(reply, dir);
    RoleChainOrder(reply, dir);
  }

  // ---------------------------------------------------------------------------
  // The transcript: a JavaScript Set of message ids
  // ---------------------------------------------------------------------------

  predicate NoDuplicates(s: seq<MessageId>) {
    forall i, j :: 0 <= i < j < |s| ==> s[i] != s[j]
  }

  /** `set.add(x)` on the insertion-ordered contents of a JavaScript Set. */
  function Added(s: seq<MessageId>, x: MessageId): seq<MessageId>
  {
    if x in s then s else s + [x]
  }

  /** Adding keeps insertion order, never duplicates, and adds exactly `x`. */
  lemma AddedIsSetAdd(s: seq<MessageId>, x: MessageId)
    ensures NoDuplicates(s) ==> NoDuplicates(Added(s, x))
    ensures |s| <= |Added(s, x)| && Added(s, x)[..|s|] == s
    ensures forall y :: y in Added(s, x) <==> y in s || y == x
  {
  }

  /** The message a round's prompt ends up in: the base message when editing in place. */
  function AppliedId(ex: Exchange, baseMessage: Option<MessageId>): MessageId {
    baseMessage.GetOr(ex.promptId)
  }

  /** `messageArray.addAll(response, appliedMessage)`. */
  function AddedPair(s: seq<MessageId>, ex: Exchange, baseMessage: Option<MessageId>): seq<MessageId> {
    Added(Added(s, ex.response.id), AppliedId(ex, baseMessage))
  }

  /** The transcript after recording the given exchanges in order. */
  function Recorded(s: seq<MessageId>, exchanges: seq<Exchange>, baseMessage: Option<MessageId>): seq<MessageId>
    decreases |exchanges|
  {
    if exchanges == [] then s
    else AddedPair(Recorded(s, exchanges[..|exchanges| - 1], baseMessage), exchanges[|exchanges| - 1], baseMessage)
  }

  /** Both messages of every exchange. */
  function ExchangedIds(exchanges: seq<Exchange>, baseMessage: Option<MessageId>): set<MessageId>
    decreases |exchanges|
  {
    if exchanges == [] then {}
    else
      var last := exchanges[|exchanges| - 1];
      ExchangedIds(exchanges[..|exchanges| - 1], baseMessage) + {last.response.id, AppliedId(last, baseMessage)}
  }

  /**
   * Recording only appends, never duplicates, and the transcript holds
   * exactly the earlier messages plus both messages of every exchange.
   */
  lemma {:induction false} RecordedContents(s: seq<MessageId>, exchanges: seq<Exchange>, baseMessage: Option<MessageId>)
    requires NoDuplicates(s)
    ensures NoDuplicates(Recorded(s, exchanges, baseMessage))
    ensures |s| <= |Recorded(s, exchanges, baseMessage)| && Recorded(s, exchanges, baseMessage)[..|s|] == s
    ensures forall m :: m in Recorded(s, exchanges, baseMessage) <==> m in s || m in ExchangedIds(exchanges, baseMessage)
    decreases |exchanges|
  {
    if exchanges != [] {
      var n := |exchanges| - 1;
      var before := Recorded(s, exchanges[..n], baseMessage);
      RecordedContents(s, exchanges[..n], baseMessage);
      var middle := Added(before, exchanges[n].response.id);
      AddedIsSetAdd(before, exchanges[n].response.id);
      var after := Added(middle, AppliedId(exchanges[n], baseMessage));
      AddedIsSetAdd(middle, AppliedId(exchanges[n], baseMessage));
      assert after == Recorded(s, exchanges, baseMessage);
      assert after[..|s|] == middle[..|s|] == before[..|s|];
    }
  }

  /** Recording two stretches of exchanges one after the other is recording them together. */
  lemma {:induction false} RecordedAppend(s: seq<MessageId>, a: seq<Exchange>, b: seq<Exchange>, baseMessage: Option<MessageId>)
    ensures Recorded(Recorded(s, a, baseMessage), b, baseMessage) == Recorded(s, a + b, baseMessage)
    decreases |b|
  {
    if b == [] {
      assert a + b == a;
    } else {
      var n := |b| - 1;
      RecordedAppend(s, a, b[..n], baseMessage);
      assert (a + b)[..|a + b| - 1] == a + b[..n];
      assert (a + b)[|a + b| - 1] == b[n];
    }
  }

  /** Recording the next `c` replies of a stream after its first `n`. */
  lemma RecordedExtend(s: seq<MessageId>, replies: seq<Exchange>, n: nat, c: nat, baseMessage: Option<MessageId>)
    requires n + c <= |replies|
    ensures Recorded(Recorded(s, replies[..n], baseMessage), replies[n..][..c], baseMessage)
         == Recorded(s, replies[..n + c], baseMessage)
  {
    var a, b := replies[..n], replies[n..][..c];
    RecordedAppend(s, a, b, baseMessage);
    assert a + b == replies[..n + c] by {
      assert |a + b| == n + c;
      forall i | 0 <= i < n + c ensures (a + b)[i] == replies[i] {
        if i >= n {
          assert b[i - n] == replies[i];
        }
      }
    }
  }

  /** Every exchanged message of every round is in the set. */
  lemma {:induction false} ExchangedIdsAt(exchanges: seq<Exchange>, baseMessage: Option<MessageId>, k: nat)
    requires k < |exchanges|
    ensures exchanges[k].response.id in ExchangedIds(exchanges, baseMessage)
    ensures AppliedId(exchanges[k], baseMessage) in ExchangedIds(exchanges, baseMessage)
    decreases |exchanges|
  {
    var n := |exchanges| - 1;
    if k < n {
      ExchangedIdsAt(exchanges[..n], baseMessage, k);
      assert exchanges[..n][k] == exchanges[k];
    }
  }

  /** The caller-owned `Set<GuildMessage>` the prompter adds the exchanged messages to. */
  class MessageSet {
    var elements: seq<MessageId>

    ghost predicate Valid()
      reads this
    {
      NoDuplicates(elements)
    }

    constructor ()
      ensures Valid() && elements == []
    {
      elements := [];
    }

    /** `addAll(a, b)`: adds `a`, then `b`, each unless already present. */
    method AddAll(a: MessageId, b: MessageId)
      requires Valid()
      modifies this
      ensures Valid()
      ensures elements == Added(Added(old(elements), a), b)
    {
      AddedIsSetAdd(elements, a);
      AddedIsSetAdd(Added(elements, a), b);
      if a !in elements {
        elements := elements + [a];
      }
      if b !in elements {
        elements := elements + [b];
      }
    }
  }

  // ---------------------------------------------------------------------------
  // Rounds and the retry loop
  // ---------------------------------------------------------------------------

  /** What `_prompt` does with the next reply: hand it on, or throw `'STOP'`. */
  datatype Asked = Replied(reply: Reply) | Stopped | NoReplyLeft

  /** What one `prompt*` call gives. */
  datatype Round = Answered(value: Option<Value>) | Cancelled | NoReply

  /** What one `autoPrompt*` call gives: a value, the `'STOP'` error, or the end of the reply stream. */
  datatype AutoOutcome = Resolved(value: Value) | Aborted | Exhausted

  /** `_prompt` on the reply stream: the stop check compares the raw content exactly (`Set.has`). */
  function AskOutcome(stopWords: set<string>, replies: seq<Exchange>): Asked {
    if replies == [] then NoReplyLeft
    else if replies[0].response.content in stopWords then Stopped
    else Replied(replies[0].response)
  }

  /** One `prompt*` round on the reply stream. */
  function RoundOutcome(stopWords: set<string>, dir: Directory, kind: SlotKind, replies: seq<Exchange>): Round {
    match AskOutcome(stopWords, replies)
    case NoReplyLeft => NoReply
    case Stopped => Cancelled
    case Replied(reply) => Answered(Resolve(kind, reply, dir))
  }

  /** How many replies a round takes from the stream. */
  function Consumed(replies: seq<Exchange>): nat {
    if replies == [] then 0 else 1
  }

  /** A round that ends an `autoPrompt*` loop: a truthy value, or a stop word. */
  predicate Decisive(stopWords: set<string>, dir: Directory, kind: SlotKind, ex: Exchange) {
    ex.response.content in stopWords || Truthy(Resolve(kind, ex.response, dir))
  }

  datatype Run = Run(outcome: AutoOutcome, rounds: nat)

  /** The `autoPrompt*` loop on the reply stream: its outcome and how many replies it takes. */
  function AutoRun(stopWords: set<string>, dir: Directory, kind: SlotKind, replies: seq<Exchange>): (run: Run)
    ensures run.rounds <= |replies|
    decreases |replies|
  {
    match RoundOutcome(stopWords, dir, kind, replies)
    case NoReply => Run(Exhausted, 0)
    case Cancelled => Run(Aborted, 1)
    case Answered(v) =>
      if Truthy(v) then Run(Resolved(v.value), 1)
      else
        var rest := AutoRun(stopWords, dir, kind, replies[1..]);
        Run(rest.outcome, rest.rounds + 1)
  }

  /** One step of the loop: a round that does not decide hands over to the rest of the stream. */
  lemma AutoRunStep(stopWords: set<string>, dir: Directory, kind: SlotKind, replies: seq<Exchange>)
    ensures var r := RoundOutcome(stopWords, dir, kind, replies);
      r.Answered? && !Truthy(r.value) ==>
        replies != [] &&
        AutoRun(stopWords, dir, kind, replies)
          == Run(AutoRun(stopWords, dir, kind, replies[1..]).outcome, 1 + AutoRun(stopWords, dir, kind, replies[1..]).rounds)
    ensures var r := RoundOutcome(stopWords, dir, kind, replies);
      !(r.Answered? && !Truthy(r.value)) ==>
        AutoRun(stopWords, dir, kind, replies) == Run(Final(r), Consumed(replies))
  {
  }

  /**
   * Where the loop stands after `n` replies with last round `r`: either the
   * round did not decide and the whole run is those `n` replies followed by
   * the run on the rest, or it decided and the run ends there.
   */
  ghost predicate RunSoFar(stopWords: set<string>, dir: Directory, kind: SlotKind, replies: seq<Exchange>, n: nat, r: Round) {
    && n <= |replies|
    && (r.Answered? && !Truthy(r.value) ==>
          var rest := AutoRun(stopWords, dir, kind, replies[n..]);
          AutoRun(stopWords, dir, kind, replies) == Run(rest.outcome, n + rest.rounds))
    && (!(r.Answered? && !Truthy(r.value)) ==> AutoRun(stopWords, dir, kind, replies) == Run(Final(r), n))
  }

  /** One more round of the loop keeps `RunSoFar`, and sends one more prompt. */
  lemma RunSoFarStep(stopWords: set<string>, dir: Directory, kind: SlotKind, replies: seq<Exchange>, n: nat, r: Round)
    requires RunSoFar(stopWords, dir, kind, replies, n, r) && r.Answered? && !Truthy(r.value)
    ensures var rest := replies[n..];
      var next := RoundOutcome(stopWords, dir, kind, rest);
      && RunSoFar(stopWords, dir, kind, replies, n + Consumed(rest), next)
      && n + Consumed(rest) + (if next.NoReply? then 1 else 0) == n + 1
      && replies[n + Consumed(rest)..] == rest[Consumed(rest)..]
  {
    var rest := replies[n..];
    AutoRunStep(stopWords, dir, kind, rest);
    if rest != [] {
      assert replies[n + 1..] == rest[1..];
    }
  }

  /** The outcome a deciding round gives the loop. */
  function Final(r: Round): AutoOutcome
    requires !(r.Answered? && !Truthy(r.value))
  {
    match r
    case Answered(v) => Resolved(v.value)
    case Cancelled => Aborted
    case NoReply => Exhausted
  }

  /** How many prompts a run sends: one per reply taken, plus the one left unanswered. */
  function PromptsSent(run: Run): nat {
    run.rounds + (if run.outcome.Exhausted? then 1 else 0)
  }

  /**
   * What an `autoPrompt*` call started from: the reply stream, the texts
   * already sent, the first and the retry text, and the transcript.
   */
  datatype LoopStart = LoopStart(replies: seq<Exchange>, sent0: seq<string>, first: string, retry: string,
                                 elements0: seq<MessageId>)

  /**
   * Where the loop stands after `n` replies with last round `r`, given what
   * is still pending, what was sent and the transcript (`None` without one):
   * the first prompt used `first`, every later one `retry`, and both
   * messages of every reply taken are recorded.
   */
  ghost predicate Progressed(stopWords: set<string>, dir: Directory, kind: SlotKind, baseMessage: Option<MessageId>,
                             start: LoopStart, n: nat, r: Round,
                             pending: seq<Exchange>, sent: seq<string>, elements: Option<seq<MessageId>>)
  {
    && n <= |start.replies| && pending == start.replies[n..]
    && |sent| == |start.sent0| + n + (if r.NoReply? then 1 else 0)
    && |sent| > |start.sent0|
    && sent[..|start.sent0|] == start.sent0
    && (forall i :: |start.sent0| <= i < |sent| ==> sent[i] == if i == |start.sent0| then start.first else start.retry)
    && (elements.Some? ==> elements.value == Recorded(start.elements0, start.replies[..n], baseMessage))
    && RunSoFar(stopWords, dir, kind, start.replies, n, r)
  }

  /** One retry round (send the retry text, take a reply, record it) keeps `Progressed`. */
  lemma ProgressedStep(stopWords: set<string>, dir: Directory, kind: SlotKind, baseMessage: Option<MessageId>,
                       start: LoopStart, n: nat, r: Round,
                       pending: seq<Exchange>, sent: seq<string>, elements: Option<seq<MessageId>>)
    requires Progressed(stopWords, dir, kind, baseMessage, start, n, r, pending, sent, elements)
    requires r.Answered? && !Truthy(r.value)
    ensures var c := Consumed(pending);
      Progressed(stopWords, dir, kind, baseMessage, start, n + c, RoundOutcome(stopWords, dir, kind, pending),
                 pending[c..], sent + [start.retry],
                 if elements.Some? then Some(Recorded(elements.value, pending[..c], baseMessage)) else None)
  {
    var c := Consumed(pending);
    RunSoFarStep(stopWords, dir, kind, start.replies, n, r);
    RecordedExtend(start.elements0, start.replies, n, c, baseMessage);
    SentRetry(start, sent);
  }

  /** Sending the retry text after the first prompt keeps the texts sent as `first`, then `retry`s. */
  lemma SentRetry(start: LoopStart, sent: seq<string>)
    requires |sent| > |start.sent0| && sent[..|start.sent0|] == start.sent0
    requires forall i :: |start.sent0| <= i < |sent| ==> sent[i] == if i == |start.sent0| then start.first else start.retry
    ensures var sent' := sent + [start.retry];
      && sent'[..|start.sent0|] == start.sent0
      && forall i :: |start.sent0| <= i < |sent'| ==> sent'[i] == if i == |start.sent0| then start.first else start.retry
  {
    var sent' := sent + [start.retry];
    assert sent'[..|start.sent0|] == sent[..|start.sent0|];
    forall i | |start.sent0| <= i < |sent'|
      ensures sent'[i] == if i == |start.sent0| then start.first else start.retry
    {
      if i < |sent| {
        assert sent'[i] == sent[i];
      }
    }
  }

  /** The first round, with the caller's flag, establishes `Progressed`. */
  lemma ProgressedFirst(stopWords: set<string>, dir: Directory, kind: SlotKind, baseMessage: Option<MessageId>,
                        start: LoopStart, elements: Option<seq<MessageId>>)
    requires elements.Some? ==> elements.value == start.elements0
    ensures var c := Consumed(start.replies);
      Progressed(stopWords, dir, kind, baseMessage, start, c, RoundOutcome(stopWords, dir, kind, start.replies),
                 start.replies[c..], start.sent0 + [start.first],
                 if elements.Some? then Some(Recorded(elements.value, start.replies[..c], baseMessage)) else None)
  {
    var c := Consumed(start.replies);
    RunSoFarStep(stopWords, dir, kind, start.replies, 0, Answered(None));
    assert start.replies[0..] == start.replies;
    assert (start.sent0 + [start.first])[..|start.sent0|] == start.sent0;
  }

  /** Once a round decides, `Progressed` is the whole run: its outcome, the replies taken and the prompts sent. */
  lemma ProgressedDone(stopWords: set<string>, dir: Directory, kind: SlotKind, baseMessage: Option<MessageId>,
                       start: LoopStart, n: nat, r: Round,
                       pending: seq<Exchange>, sent: seq<string>, elements: Option<seq<MessageId>>)
    requires Progressed(stopWords, dir, kind, baseMessage, start, n, r, pending, sent, elements)
    requires !(r.Answered? && !Truthy(r.value))
    ensures var run := AutoRun(stopWords, dir, kind, start.replies);
      && Final(r) == run.outcome
      && pending == start.replies[run.rounds..]
      && |sent| == |start.sent0| + PromptsSent(run)
      && (elements.Some? ==> elements.value == Recorded(start.elements0, start.replies[..run.rounds], baseMessage))
  {
    var run := AutoRun(stopWords, dir, kind, start.replies);
    assert run == Run(Final(r), n);
  }

  /** The loop returns only truthy values. */
  lemma {:induction false} AutoRunResolvedIsTruthy(stopWords: set<string>, dir: Directory, kind: SlotKind, replies: seq<Exchange>)
    ensures var out := AutoRun(stopWords, dir, kind, replies).outcome;
      out.Resolved? ==> Truthy(Some(out.value)) && KindOf(out.value) == kind
    decreases |replies|
  {
    if replies != [] && RoundOutcome(stopWords, dir, kind, replies).Answered? {
      AutoRunResolvedIsTruthy(stopWords, dir, kind, replies[1..]);
    }
  }

  /** Hence `autoPromptBoolean` never gives `false`, `autoPromptText` never `''`, `autoPromptDuration` never `0`. */
  lemma {:induction false} AutoPromptNeverFalsy(stopWords: set<string>, dir: Directory, replies: seq<Exchange>)
    ensures AutoRun(stopWords, dir, BooleanSlot, replies).outcome != Resolved(BooleanValue(false))
    ensures AutoRun(stopWords, dir, TextSlot, replies).outcome != Resolved(TextValue(""))
    ensures AutoRun(stopWords, dir, DurationSlot, replies).outcome != Resolved(DurationValue(0))
  {
    AutoRunResolvedIsTruthy(stopWords, dir, BooleanSlot, replies);
    AutoRunResolvedIsTruthy(stopWords, dir, TextSlot, replies);
    AutoRunResolvedIsTruthy(stopWords, dir, DurationSlot, replies);
  }

  /**
   * The first deciding reply ends the loop, after exactly that many rounds:
   * a stop word aborts (even when the reply would also resolve), anything
   * else returns what that reply resolves to.
   */
  lemma {:induction false} AutoRunStopsAtFirstDecisive(stopWords: set<string>, dir: Directory, kind: SlotKind, replies: seq<Exchange>, i: nat)
    requires i < |replies| && Decisive(stopWords, dir, kind, replies[i])
    requires forall j :: 0 <= j < i ==> !Decisive(stopWords, dir, kind, replies[j])
    ensures AutoRun(stopWords, dir, kind, replies).rounds == i + 1
    ensures AutoRun(stopWords, dir, kind, replies).outcome
         == if replies[i].response.content in stopWords then Aborted
            else Resolved(Resolve(kind, replies[i].response, dir).value)
    decreases i
  {
    if i > 0 {
      assert !Decisive(stopWords, dir, kind, replies[0]);
      forall j | 0 <= j < i - 1 ensures !Decisive(stopWords, dir, kind, replies[1..][j]) {
        assert replies[1..][j] == replies[j + 1];
      }
      AutoRunStopsAtFirstDecisive(stopWords, dir, kind, replies[1..], i - 1);
    }
  }

  /** The loop runs out of replies exactly when no reply decides it. */
  lemma {:induction false} AutoRunExhaustedIff(stopWords: set<string>, dir: Directory, kind: SlotKind, replies: seq<Exchange>)
    ensures AutoRun(stopWords, dir, kind, replies).outcome.Exhausted?
        <==> forall j :: 0 <= j < |replies| ==> !Decisive(stopWords, dir, kind, replies[j])
    decreases |replies|
  {
    if replies != [] {
      var tail := replies[1..];
      AutoRunExhaustedIff(stopWords, dir, kind, tail);
      assert forall j :: 0 <= j < |tail| ==> tail[j] == replies[j + 1];
      assert replies == [replies[0]] + tail;
    }
  }

  /** The caller's options; `None` for a field stands for `undefined`. */
  datatype PrompterOptions = PrompterOptions(messageArray: Option<MessageSet>, baseMessage: Option<MessageId>)

  /**
   * As written, `_prompt` reads `this._options.baseMessage` and
   * `this._options.messageArray` with `.`, although the constructor makes
   * `_options` optional: a prompter built without options fails with a
   * TypeError on its first round.
   */
  function ReadOptionsAsWritten(options: Option<PrompterOptions>): Result<PrompterOptions, string> {
    if options.Some? then Success(options.value) else Failure("TypeError")
  }

  /** The corrected reading (`this._options?.…`): absent options mean no transcript and no base message. */
  function ReadOptions(options: Option<PrompterOptions>): (o: PrompterOptions)
    ensures options.None? ==> o.messageArray.None? && o.baseMessage.None?
    ensures ReadOptionsAsWritten(options).Success? ==> o == ReadOptionsAsWritten(options).value
  {
    options.GetOr(PrompterOptions(None, None))
  }

  /** A prompter constructed without options cannot run a single round as written. */
  lemma ReadOptionsAsWrittenFailsWithoutOptions()
    ensures ReadOptionsAsWritten(None).Failure?
    ensures ReadOptions(None) == PrompterOptions(None, None)
  {
  }

  /** One conversation with the command's author. */
  class Prompter {
    const stopWords: set<string>
    const directory: Directory
    const defaults: PromptKey -> DefaultTexts
    const baseMessage: Option<MessageId>
    const messageArray: MessageSet?
    /** The replies the author is going to give, in order. */
    var pending: seq<Exchange>
    /** The prompt texts sent (or edited into the base message), in order. */
    var sent: seq<string>

    ghost predicate Valid()
      reads this, messageArray
    {
      messageArray != null ==> messageArray.Valid()
    }

    constructor (stopWords: set<string>, directory: Directory, defaults: PromptKey -> DefaultTexts,
                 options: Option<PrompterOptions>, replies: seq<Exchange>)
      requires var o := ReadOptions(options); o.messageArray.Some? ==> o.messageArray.value.Valid()
      ensures Valid()
      ensures this.stopWords == stopWords && this.directory == directory && this.defaults == defaults
      ensures baseMessage == ReadOptions(options).baseMessage
      ensures messageArray == (var o := ReadOptions(options); if o.messageArray.Some? then o.messageArray.value else null)
      ensures pending == replies && sent == []
    {
      var o := ReadOptions(options);
      this.stopWords := stopWords;
      this.directory := directory;
      this.defaults := defaults;
      baseMessage := o.baseMessage;
      messageArray := if o.messageArray.Some? then o.messageArray.value else null;
      pending := replies;
      sent := [];
    }

    /** `_prompt(text)`: send the text, take the next reply, record both messages, then check for a stop word. */
    method Ask(text: string) returns (r: Asked)
      requires Valid()
      modifies this, messageArray
      ensures Valid()
      ensures r == AskOutcome(stopWords, old(pending))
      ensures sent == old(sent) + [text]
      ensures pending == old(pending)[Consumed(old(pending))..]
      ensures messageArray != null ==>
        messageArray.elements == Recorded(old(messageArray.elements), old(pending)[..Consumed(old(pending))], baseMessage)
    {
      sent := sent + [text];
      if pending == [] {
        assert old(pending)[..0] == [];
        return NoReplyLeft;
      }
      var ex := pending[0];
      pending := pending[1..];
      if messageArray != null {
        messageArray.AddAll(ex.response.id, baseMessage.GetOr(ex.promptId));
        assert old(pending)[..1] == [ex] && [ex][..0] == [];
      }
      if ex.response.content in stopWords {
        return Stopped;
      }
      return Replied(ex.response);
    }

    /** `prompt<Kind>(prompts, previousIsFailure)`: one round. */
    method Prompt(kind: SlotKind, prompts: Option<PrompterText>, previousIsFailure: bool) returns (r: Round)
      requires Valid()
      modifies this, messageArray
      ensures Valid()
      ensures r == RoundOutcome(stopWords, directory, kind, old(pending))
      ensures sent == old(sent) + [PromptText(prompts, defaults(PromptKeyOf(kind)), previousIsFailure)]
      ensures pending == old(pending)[Consumed(old(pending))..]
      ensures messageArray != null ==>
        messageArray.elements == Recorded(old(messageArray.elements), old(pending)[..Consumed(old(pending))], baseMessage)
    {
      var asked := Ask(PromptText(prompts, defaults(PromptKeyOf(kind)), previousIsFailure));
      match asked
      case NoReplyLeft => r := NoReply;
      case Stopped => r := Cancelled;
      case Replied(reply) => r := Answered(Resolve(kind, reply, directory));
    }

    /** The transcript's contents, `None` when there is none. */
    ghost function Elements(): Option<seq<MessageId>>
      reads this, messageArray
    {
      if messageArray != null then Some(messageArray.elements) else None
    }

    /** The loop state of `autoPrompt<Kind>` after `n` replies with last round `r`. */
    ghost predicate Progress(kind: SlotKind, start: LoopStart, n: nat, r: Round)
      reads this, messageArray
    {
      Valid() && Progressed(stopWords, directory, kind, baseMessage, start, n, r, pending, sent, Elements())
    }

    /** The body of the retry loop: `response = await this.prompt<Kind>(prompts, true)`. */
    method Retry(kind: SlotKind, prompts: Option<PrompterText>, ghost start: LoopStart, ghost n: nat, r: Round)
      returns (next: Round, ghost n': nat)
      requires start.retry == PromptText(prompts, defaults(PromptKeyOf(kind)), true)
      requires Progress(kind, start, n, r) && r.Answered? && !Truthy(r.value)
      modifies this, messageArray
      ensures Progress(kind, start, n', next)
      ensures |pending| < |old(pending)| || !next.Answered?
    {
      ghost var pending0, sent0, elements0 := pending, sent, Elements();
      ProgressedStep(stopWords, directory, kind, baseMessage, start, n, r, pending0, sent0, elements0);
      n' := n + Consumed(pending0);
      next := Prompt(kind, prompts, true);
      assert next == RoundOutcome(stopWords, directory, kind, pending0);
      assert pending == pending0[Consumed(pending0)..];
      assert sent == sent0 + [start.retry];
      assert Elements() == if elements0.Some? then Some(Recorded(elements0.value, pending0[..Consumed(pending0)], baseMessage)) else None;
    }

    /** The first round of `autoPrompt<Kind>`: `prompt<Kind>(prompts, previousIsFailure)`. */
    method FirstRound(kind: SlotKind, prompts: Option<PrompterText>, previousIsFailure: bool, ghost start: LoopStart)
      returns (r: Round, ghost n: nat)
      requires Valid()
      requires start.replies == pending && start.sent0 == sent
      requires start.first == PromptText(prompts, defaults(PromptKeyOf(kind)), previousIsFailure)
      requires messageArray != null ==> start.elements0 == messageArray.elements
      modifies this, messageArray
      ensures Progress(kind, start, n, r)
    {
      ghost var elements0 := Elements();
      ProgressedFirst(stopWords, directory, kind, baseMessage, start, elements0);
      n := Consumed(pending);
      r := Prompt(kind, prompts, previousIsFailure);
      assert r == RoundOutcome(stopWords, directory, kind, start.replies);
      assert pending == start.replies[n..];
      assert sent == start.sent0 + [start.first];
      assert Elements() == if elements0.Some? then Some(Recorded(elements0.value, start.replies[..n], baseMessage)) else None;
    }

    /**
     * `autoPrompt<Kind>(prompts, previousIsFailure)`: rounds until one gives
     * a truthy value; the first round uses the caller's flag, every later
     * one the retry texts; a stop word ends the loop.
     */
    method AutoPrompt(kind: SlotKind, prompts: Option<PrompterText>, previousIsFailure: bool) returns (out: AutoOutcome)
      requires Valid()
      modifies this, messageArray
      ensures Valid()
      ensures var run := AutoRun(stopWords, directory, kind, old(pending));
        && out == run.outcome
        && pending == old(pending)[run.rounds..]
        && |sent| == |old(sent)| + PromptsSent(run)
      ensures sent[..|old(sent)|] == old(sent)
      ensures forall i :: |old(sent)| <= i < |sent| ==>
        sent[i] == if i == |old(sent)| then PromptText(prompts, defaults(PromptKeyOf(kind)), previousIsFailure)
                   else PromptText(prompts, defaults(PromptKeyOf(kind)), true)
      ensures messageArray != null ==>
        messageArray.elements == Recorded(old(messageArray.elements), old(pending)[..AutoRun(stopWords, directory, kind, old(pending)).rounds], baseMessage)
    {
      ghost var start := LoopStart(pending, sent, PromptText(prompts, defaults(PromptKeyOf(kind)), previousIsFailure),
                                   PromptText(prompts, defaults(PromptKeyOf(kind)), true),
                                   if messageArray != null then messageArray.elements else []);
      var r: Round;
      ghost var n: nat;
      r, n := FirstRound(kind, prompts, previousIsFailure, start);
      while r.Answered? && !Truthy(r.value)
        invariant Progress(kind, start, n, r)
        decreases |pending| + (if r.Answered? then 1 else 0)
      {
        r, n := Retry(kind, prompts, start, n, r);
      }
      ProgressedDone(stopWords, directory, kind, baseMessage, start, n, r, pending, sent, Elements());
      assert Progressed(stopWords, directory, kind, baseMessage, start, n, r, pending, sent, Elements());
      assert sent[..|start.sent0|] == start.sent0;
      out := Final(r);
    }
  }
}
