/**
 * The `/reminders` command: create, edit and remove a user's reminders in
 * the reminder store, and list the ones still pending.
 */
module Reminders {
  import opened Wrappers
  import opened Sorting
  import opened Lists
  import opened JsMath

  /** A stored reminder; `date` is in milliseconds since the epoch. */
  datatype Reminder = Reminder(reminderId: string, userId: string, date: int, description: string, reminded: bool)

  /**
   * The custom resolvers: a duration in milliseconds, or an absolute date in
   * milliseconds, read from the option text; `None` when the text is not one.
   */
  datatype TimeResolvers = TimeResolvers(duration: string -> Option<int>, date: string -> Option<int>)

  /** A string option counts only when given and non-empty (JavaScript truthiness). */
  predicate Given(option: Option<string>) {
    option.Some? && option.value != ""
  }

  // ---------------------------------------------------------------------------
  // `_parseTime`
  // ---------------------------------------------------------------------------

  /** `resolveDuration(text).mapOr(resolveDate(text).unwrapOr(null), d => new Date(now + d))`. */
  function ParseTime(text: string, now: int, resolvers: TimeResolvers): Option<int> {
    var duration := resolvers.duration(text);
    if duration.Some? then Some(now + duration.value) else resolvers.date(text)
  }

  /**
   * A text that reads as a duration is a duration from now, even when it
   * would also read as a date; otherwise it is the date it reads as, if any.
   */
  lemma ParseTimePrecedence(text: string, now: int, resolvers: TimeResolvers)
    ensures resolvers.duration(text).Some? ==> ParseTime(text, now, resolvers) == Some(now + resolvers.duration(text).value)
    ensures resolvers.duration(text).None? ==> ParseTime(text, now, resolvers) == resolvers.date(text)
    ensures ParseTime(text, now, resolvers).None? <==> resolvers.duration(text).None? && resolvers.date(text).None?
  {
  }

  // ---------------------------------------------------------------------------
  // `create`, `edit`, `remove`: the rules as values
  // ---------------------------------------------------------------------------

  /** The reminder `create` stores, or `None` for the `invalidTime` reply. */
  function NewReminder(reminderId: string, userId: string, dateOrDuration: string, content: string,
                       now: int, resolvers: TimeResolvers): (r: Option<Reminder>)
    ensures r.None? <==> resolvers.duration(dateOrDuration).None? && resolvers.date(dateOrDuration).None?
    ensures r.Some? ==>
      && r.value.reminderId == reminderId && r.value.userId == userId
      && r.value.description == content && !r.value.reminded
      && r.value.date == (if resolvers.duration(dateOrDuration).Some?
                          then now + resolvers.duration(dateOrDuration).value
                          else resolvers.date(dateOrDuration).value)
  {
    var date := ParseTime(dateOrDuration, now, resolvers);
    if date.None? then None else Some(Reminder(reminderId, userId, date.value, content, false))
  }

  /** `findOne({ reminderId, userId })`: the reminder exists and belongs to the caller. */
  predicate Owned(documents: map<string, Reminder>, reminderId: string, userId: string) {
    reminderId in documents && documents[reminderId].userId == userId
  }

  datatype EditError = InvalidReminder | InvalidUsage | InvalidTime

  /** `edit` as a value: the reminder it saves, or the reply it gives instead. */
  function EditResult(documents: map<string, Reminder>, reminderId: string, userId: string,
                      dateOrDuration: Option<string>, content: Option<string>,
                      now: int, resolvers: TimeResolvers): Result<Reminder, EditError>
  {
    if !Owned(documents, reminderId, userId) then Failure(InvalidReminder)
    else if !Given(dateOrDuration) && !Given(content) then Failure(InvalidUsage)
    else
      var reminder := documents[reminderId];
      var date := if Given(dateOrDuration) then ParseTime(dateOrDuration.value, now, resolvers) else Some(reminder.date);
      if date.None? then Failure(InvalidTime)
      else
        var dated := reminder.(date := date.value);
        Success(if Given(content) then dated.(description := content.value) else dated)
  }

  /** Someone else's reminder, or a missing one, is `invalidReminder` whatever else is given. */
  lemma EditChecksOwnership(documents: map<string, Reminder>, reminderId: string, userId: string,
                            dateOrDuration: Option<string>, content: Option<string>, now: int, resolvers: TimeResolvers)
    ensures EditResult(documents, reminderId, userId, dateOrDuration, content, now, resolvers) == Failure(InvalidReminder)
        <==> !Owned(documents, reminderId, userId)
  {
  }

  /** Neither a time nor a content is `invalidUsage`. */
  lemma EditNeedsSomething(documents: map<string, Reminder>, reminderId: string, userId: string,
                           dateOrDuration: Option<string>, content: Option<string>, now: int, resolvers: TimeResolvers)
    requires Owned(documents, reminderId, userId)
    ensures EditResult(documents, reminderId, userId, dateOrDuration, content, now, resolvers) == Failure(InvalidUsage)
        <==> !Given(dateOrDuration) && !Given(content)
  {
  }

  /** A time that reads as neither duration nor date is `invalidTime`, even with a valid content. */
  lemma EditBadTimeChangesNothing(documents: map<string, Reminder>, reminderId: string, userId: string,
                                  dateOrDuration: Option<string>, content: Option<string>, now: int, resolvers: TimeResolvers)
    requires Owned(documents, reminderId, userId)
    ensures EditResult(documents, reminderId, userId, dateOrDuration, content, now, resolvers) == Failure(InvalidTime)
        <==> Given(dateOrDuration) && ParseTime(dateOrDuration.value, now, resolvers).None?
  {
  }

  /**
   * A successful edit changes only what was supplied: the date when a time
   * was given, the description when a content was given; the id, owner and
   * `reminded` flag never change.
   */
  lemma EditUpdatesOnlySupplied(documents: map<string, Reminder>, reminderId: string, userId: string,
                                dateOrDuration: Option<string>, content: Option<string>, now: int, resolvers: TimeResolvers)
    requires EditResult(documents, reminderId, userId, dateOrDuration, content, now, resolvers).Success?
    ensures var before := documents[reminderId];
      var after := EditResult(documents, reminderId, userId, dateOrDuration, content, now, resolvers).value;
      && after.reminderId == before.reminderId
      && after.userId == before.userId == userId
      && after.reminded == before.reminded
      && after.date == (if Given(dateOrDuration) then ParseTime(dateOrDuration.value, now, resolvers).value else before.date)
      && after.description == (if Given(content) then content.value else before.description)
  {
  }

  // ---------------------------------------------------------------------------
  // `list`
  // ---------------------------------------------------------------------------

  function DateOf(r: Reminder): int { r.date }

  /** One line of the list: the reminder and its date in whole seconds for Discord's timestamp markup. */
  datatype ListLine = ListLine(reminder: Reminder, timestamp: int)

  datatype ListReply = NoReminders | Listed(total: nat, lines: seq<ListLine>)

  function PendingFor(userId: string): Reminder -> bool {
    (r: Reminder) => r.userId == userId && !r.reminded
  }

  /** `list` on the cached reminders. */
  function List(cache: seq<Reminder>, userId: string): ListReply {
    var mine := Filter(cache, PendingFor(userId));
    if |mine| == 0 then NoReminders
    else
      var sorted := SortBy(ByKey(DateOf), mine);
      Listed(|mine|, seq(|sorted|, i requires 0 <= i < |sorted| => ListLine(sorted[i], RoundMillisToSeconds(sorted[i].date))))
  }

  /** `noReminders` exactly when the caller has no pending reminder in the cache. */
  lemma ListEmptyIff(cache: seq<Reminder>, userId: string)
    ensures List(cache, userId) == NoReminders <==>
      forall i :: 0 <= i < |cache| ==> cache[i].userId != userId || cache[i].reminded
  {
    var mine := Filter(cache, PendingFor(userId));
    if exists i :: 0 <= i < |cache| && cache[i].userId == userId && !cache[i].reminded {
      var i :| 0 <= i < |cache| && cache[i].userId == userId && !cache[i].reminded;
      assert PendingFor(userId)(cache[i]);
      assert cache[i] in mine;
    }
  }

  /** The reminders of a non-empty list, in list order. */
  function ListedReminders(lines: seq<ListLine>): (rs: seq<Reminder>)
    ensures |rs| == |lines|
  {
    seq(|lines|, i requires 0 <= i < |lines| => lines[i].reminder)
  }

  /** The listed reminders are the pending ones sorted by date; the total counts them. */
  lemma ListSortsPending(cache: seq<Reminder>, userId: string)
    requires List(cache, userId).Listed?
    ensures var mine := Filter(cache, PendingFor(userId));
      && List(cache, userId).total == |List(cache, userId).lines|
      && ListedReminders(List(cache, userId).lines) == SortBy(ByKey(DateOf), mine)
  {
    var mine := Filter(cache, PendingFor(userId));
    var sorted := SortBy(ByKey(DateOf), mine);
    var lines := List(cache, userId).lines;
    assert |lines| == |sorted|;
    assert ListedReminders(lines) == sorted;
  }

  /** Every pending reminder of the caller is listed, each as often as it is stored. */
  lemma ListHoldsEachPendingOnce(cache: seq<Reminder>, userId: string)
    requires List(cache, userId).Listed?
    ensures multiset(ListedReminders(List(cache, userId).lines)) == multiset(Filter(cache, PendingFor(userId)))
  {
    ListSortsPending(cache, userId);
  }

  /** Only the caller's reminders that have not fired are listed. */
  lemma ListOnlyPending(cache: seq<Reminder>, userId: string)
    requires List(cache, userId).Listed?
    ensures var lines := List(cache, userId).lines;
      forall i :: 0 <= i < |lines| ==> lines[i].reminder.userId == userId && !lines[i].reminder.reminded
  {
    var mine := Filter(cache, PendingFor(userId));
    var lines := List(cache, userId).lines;
    ListSortsPending(cache, userId);
    forall i | 0 <= i < |lines| ensures lines[i].reminder.userId == userId && !lines[i].reminder.reminded {
      assert ListedReminders(lines)[i] == lines[i].reminder;
      assert lines[i].reminder in multiset(mine);
      assert PendingFor(userId)(lines[i].reminder);
    }
  }

  /** The list runs from the earliest date to the latest. */
  lemma ListByAscendingDate(cache: seq<Reminder>, userId: string)
    requires List(cache, userId).Listed?
    ensures var lines := List(cache, userId).lines;
      forall i, j :: 0 <= i < j < |lines| ==> lines[i].reminder.date <= lines[j].reminder.date
  {
    var mine := Filter(cache, PendingFor(userId));
    var sorted := SortBy(ByKey(DateOf), mine);
    var lines := List(cache, userId).lines;
    ListSortsPending(cache, userId);
    SortByKeyAscends(DateOf, mine);
    forall i, j | 0 <= i < j < |lines| ensures lines[i].reminder.date <= lines[j].reminder.date {
      assert ListedReminders(lines)[i] == sorted[i] && ListedReminders(lines)[j] == sorted[j];
      assert DateOf(sorted[i]) <= DateOf(sorted[j]);
    }
  }

  /** Each line's timestamp is its date rounded to the nearest second. */
  lemma ListTimestampsRounded(cache: seq<Reminder>, userId: string)
    requires List(cache, userId).Listed?
    ensures var lines := List(cache, userId).lines;
      forall i :: 0 <= i < |lines| ==>
        1000 * lines[i].timestamp - 500 <= lines[i].reminder.date < 1000 * lines[i].timestamp + 500
  {
    var lines := List(cache, userId).lines;
    forall i | 0 <= i < |lines|
      ensures 1000 * lines[i].timestamp - 500 <= lines[i].reminder.date < 1000 * lines[i].timestamp + 500
    {
      RoundMillisToSecondsNearest(lines[i].reminder.date, lines[i].timestamp);
    }
  }

  // ---------------------------------------------------------------------------
  // The store and the subcommands that change it
  // ---------------------------------------------------------------------------

  datatype CreateReply = CreateInvalidTime | Created(reminder: Reminder, askToOpenDm: bool)

  datatype EditReply = EditRefused(error: EditError) | Edited(reminder: Reminder)

  datatype RemoveReply = RemoveInvalidReminder | Removed

  /** The reminder store, keyed by `reminderId`. */
  class RemindersCommand {
    var documents: map<string, Reminder>

    constructor (documents: map<string, Reminder>)
      ensures this.documents == documents
    {
      this.documents := documents;
    }

    /**
     * `create`: an unreadable time is refused and nothing is stored;
     * otherwise the new reminder is stored under the id the store hands out.
     * `dmOpen` is whether the bot can write to the caller in private.
     */
    method Create(freshId: string, userId: string, dateOrDuration: string, content: string,
                  now: int, resolvers: TimeResolvers, dmOpen: bool) returns (reply: CreateReply)
      requires freshId !in documents
      modifies this
      ensures var r := NewReminder(freshId, userId, dateOrDuration, content, now, resolvers);
        && (r.None? ==> reply == CreateInvalidTime && documents == old(documents))
        && (r.Some? ==> reply == Created(r.value, !dmOpen) && documents == old(documents)[freshId := r.value])
    {
      var date := ParseTime(dateOrDuration, now, resolvers);
      if date.None? {
        return CreateInvalidTime;
      }
      var reminder := Reminder(freshId, userId, date.value, content, false);
      documents := documents[freshId := reminder];
      reply := Created(reminder, !dmOpen);
    }

    /** `edit`: look the reminder up, validate, update the supplied fields one by one, save. */
    method Edit(reminderId: string, userId: string, dateOrDuration: Option<string>, content: Option<string>,
                now: int, resolvers: TimeResolvers) returns (reply: EditReply)
      modifies this
      ensures var result := EditResult(old(documents), reminderId, userId, dateOrDuration, content, now, resolvers);
        && (result.Failure? ==> reply == EditRefused(result.error) && documents == old(documents))
        && (result.Success? ==> reply == Edited(result.value) && documents == old(documents)[reminderId := result.value])
    {
      if !(reminderId in documents && documents[reminderId].userId == userId) {
        return EditRefused(InvalidReminder);
      }
      var reminder := documents[reminderId];
      if !Given(dateOrDuration) && !Given(content) {
        return EditRefused(InvalidUsage);
      }
      if Given(dateOrDuration) {
        var date := ParseTime(dateOrDuration.value, now, resolvers);
        if date.Some? {
          reminder := reminder.(date := date.value);
        } else {
          return EditRefused(InvalidTime);
        }
      }
      if Given(content) {
        reminder := reminder.(description := content.value);
      }
      documents := documents[reminderId := reminder];
      reply := Edited(reminder);
    }

    /** `remove`: only the owner's reminder is deleted; anything else is `invalidReminder`. */
    method Remove(reminderId: string, userId: string) returns (reply: RemoveReply)
      modifies this
      ensures Owned(old(documents), reminderId, userId) ==> reply == Removed && documents == old(documents) - {reminderId}
      ensures !Owned(old(documents), reminderId, userId) ==> reply == RemoveInvalidReminder && documents == old(documents)
    {
      if !(reminderId in documents && documents[reminderId].userId == userId) {
        return RemoveInvalidReminder;
      }
      documents := documents - {reminderId};
      reply := Removed;
    }
  }
}
