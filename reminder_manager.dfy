/**
 * The reminder screen: the user's reminders as last fetched from the server,
 * the add form with its draft (supplement, time, weekdays), and the calendar
 * view that lists the reminders falling on a selected date's weekday.
 */
module ReminderManager {
  import opened Seqs
  import opened Text
  import opened Optional
  import opened ReminderApi

  /** The weekday values the form offers, Monday first. */
  const DaysOfWeek: seq<string> := ["월", "화", "수", "목", "금", "토", "일"]

  /** Seven different weekdays. */
  lemma DaysOfWeekDistinct()
    ensures |DaysOfWeek| == 7 && NoDup(DaysOfWeek)
  {
  }

  /** The add form's contents. */
  datatype DraftReminder = DraftReminder(supplement: string, time: string, days: seq<string>)

  /** The form as it starts and as it is reset after a successful add: no name, nine o'clock, every day. */
  const DefaultDraft: DraftReminder := DraftReminder("", "09:00", DaysOfWeek)

  // ---------------------------------------------------------------------------
  // Selecting weekdays

  /** `toggleDay`: a selected day is removed (every copy of it), another one is appended. */
  function Toggled(days: seq<string>, day: string): seq<string> {
    if day in days then Filter((d: string) => d != day, days) else days + [day]
  }

  /** Toggling flips the membership of that day and of no other. */
  lemma ToggledFlips(days: seq<string>, day: string, other: string)
    ensures day in Toggled(days, day) <==> day !in days
    ensures other != day ==> (other in Toggled(days, day) <==> other in days)
  {
  }

  /** The other days keep their order: without `day`, the list is the same before and after. */
  lemma ToggledKeepsOthers(days: seq<string>, day: string)
    ensures Filter((d: string) => d != day, Toggled(days, day)) == Filter((d: string) => d != day, days)
  {
    var keep := (d: string) => d != day;
    if day in days {
      FilterIdempotent(keep, days);
    } else {
      FilterConcat(keep, days, [day]);
      assert Filter(keep, [day]) == [];
    }
  }

  /** Toggling a day that is not selected twice gives the list back. */
  lemma ToggleAbsentTwice(days: seq<string>, day: string)
    requires day !in days
    ensures Toggled(Toggled(days, day), day) == days
  {
    var keep := (d: string) => d != day;
    FilterConcat(keep, days, [day]);
    assert Filter(keep, [day]) == [];
    FilterKeepsAll(keep, days);
  }

  /** Toggling keeps a list without duplicates free of them. */
  lemma ToggledNoDup(days: seq<string>, day: string)
    requires NoDup(days)
    ensures NoDup(Toggled(days, day))
  {
    if day in days {
      FilterNoDup((d: string) => d != day, days);
    }
  }

  /** A sub-list taken by filtering has no duplicates when the list has none. */
  lemma {:induction false} FilterNoDup(keep: string -> bool, s: seq<string>)
    requires NoDup(s)
    ensures NoDup(Filter(keep, s))
    decreases |s|
  {
    if s != [] {
      assert NoDup(s[1..]);
      FilterNoDup(keep, s[1..]);
      assert s[0] !in s[1..];
    }
  }

  // ---------------------------------------------------------------------------
  // The calendar

  /** `Date.getDay()` order, Sunday first. */
  const WeekdayLabels: seq<string> := ["일", "월", "화", "수", "목", "금", "토"]

  /**
   * The label of the weekday `weekday` (0 is Sunday): the same value the form
   * offers, whose table starts on Monday.
   */
  function WeekdayLabel(weekday: nat): (day: string)
    requires weekday < 7
    ensures day == DaysOfWeek[(weekday + 6) % 7]
  {
    WeekdayLabels[weekday]
  }

  /** Different weekdays have different labels, and every form value is the label of one. */
  lemma WeekdayLabelBijective(a: nat, b: nat, day: string)
    requires a < 7 && b < 7
    ensures WeekdayLabel(a) == WeekdayLabel(b) <==> a == b
    ensures day in DaysOfWeek ==> exists w :: 0 <= w < 7 && WeekdayLabel(w) == day
  {
    DaysOfWeekDistinct();
    if a != b {
      assert (a + 6) % 7 != (b + 6) % 7;
    }
    if day in DaysOfWeek {
      var i :| 0 <= i < 7 && DaysOfWeek[i] == day;
      assert WeekdayLabel((i + 1) % 7) == day;
    }
  }

  /** `getRemindersForDate`: the reminders set for that weekday, in their order. */
  function RemindersForDate(reminders: seq<Reminder>, weekday: nat): (due: seq<Reminder>)
    requires weekday < 7
    ensures forall r :: r in due <==> r in reminders && WeekdayLabel(weekday) in r.days
  {
    Filter((r: Reminder) => WeekdayLabel(weekday) in r.days, reminders)
  }

  /** The selection keeps the reminders' order: it distributes over concatenation. */
  lemma RemindersForDateConcat(a: seq<Reminder>, b: seq<Reminder>, weekday: nat)
    requires weekday < 7
    ensures RemindersForDate(a + b, weekday) == RemindersForDate(a, weekday) + RemindersForDate(b, weekday)
  {
    FilterConcat((r: Reminder) => WeekdayLabel(weekday) in r.days, a, b);
  }

  /** `hasReminderOnDate`: `reminders.some(...)`, the calendar's marker. */
  predicate HasReminderOnDate(reminders: seq<Reminder>, weekday: nat)
    requires weekday < 7
  {
    reminders != [] && (WeekdayLabel(weekday) in reminders[0].days || HasReminderOnDate(reminders[1..], weekday))
  }

  /** A date is marked exactly when its list of reminders is not empty. */
  lemma {:induction false} HasReminderIffSomeDue(reminders: seq<Reminder>, weekday: nat)
    requires weekday < 7
    ensures HasReminderOnDate(reminders, weekday) <==> RemindersForDate(reminders, weekday) != []
    decreases |reminders|
  {
    if reminders != [] {
      HasReminderIffSomeDue(reminders[1..], weekday);
    }
  }

  // ---------------------------------------------------------------------------
  // The component state and its handlers

  /** A request sent to the reminder routes. */
  datatype ClientRequest = FetchList | CreateRequest(draft: DraftReminder) | DeleteRequest(id: string)

  /** How a list request ended: a reply with its status and its `reminders` field, or no usable reply. */
  datatype ListResponse = ListReplied(ok: bool, reminders: Option<seq<Reminder>>) | ListUnreachable

  /** How a create or delete request ended. */
  datatype WriteResponse = WriteReplied(ok: bool) | WriteUnreachable

  predicate Succeeded(response: WriteResponse) {
    response.WriteReplied? && response.ok
  }

  /** What a list reply does to the shown reminders: an ok reply replaces them (none when absent). */
  function AfterFetch(shown: seq<Reminder>, response: ListResponse): seq<Reminder> {
    if response.ListReplied? && response.ok then
      (if response.reminders.Some? then response.reminders.value else [])
    else shown
  }

  /** Whether the add form lets a draft through: a non-blank name and at least one day. */
  predicate Submittable(draft: DraftReminder) {
    Trim(draft.supplement) != "" && |draft.days| > 0
  }

  /** The default draft cannot be submitted before a name is typed. */
  lemma DefaultDraftNotSubmittable()
    ensures !Submittable(DefaultDraft)
  {
  }

  /** The draft's days are form values, each selected at most once. */
  predicate DraftDaysValid(draft: DraftReminder) {
    NoDup(draft.days) && forall d :: d in draft.days ==> d in DaysOfWeek
  }

  /** Toggling a form value keeps the draft's days valid. */
  lemma ToggledKeepsValid(draft: DraftReminder, day: string)
    requires DraftDaysValid(draft) && day in DaysOfWeek
    ensures DraftDaysValid(draft.(days := Toggled(draft.days, day)))
  {
    ToggledNoDup(draft.days, day);
  }

  /** What the invariant gives the screen: every day of a valid draft is the label of some calendar weekday. */
  lemma ValidDraftDaysOnCalendar(draft: DraftReminder, day: string)
    requires DraftDaysValid(draft) && day in draft.days
    ensures exists w :: 0 <= w < 7 && WeekdayLabel(w) == day
  {
    WeekdayLabelBijective(0, 0, day);
  }

  /** Every day is selected in the default draft, each once. */
  lemma DefaultDraftDays()
    ensures DraftDaysValid(DefaultDraft) && forall d :: d in DaysOfWeek ==> d in DefaultDraft.days
  {
    DaysOfWeekDistinct();
  }

  class Manager {
    var reminders: seq<Reminder>
    var newReminder: DraftReminder
    var showAddForm: bool
    /** The requests sent so far, oldest first. */
    ghost var requests: seq<ClientRequest>

    predicate Valid()
      reads this
    {
      DraftDaysValid(newReminder)
    }

    constructor()
      ensures reminders == [] && newReminder == DefaultDraft && !showAddForm && requests == []
      ensures Valid()
    {
      reminders := [];
      newReminder := DefaultDraft;
      showAddForm := false;
      requests := [];
      DefaultDraftDays();
    }

    /** `fetchReminders`. */
    method FetchReminders(response: ListResponse)
      modifies this
      ensures reminders == AfterFetch(old(reminders), response)
      ensures newReminder == old(newReminder) && showAddForm == old(showAddForm)
      ensures requests == old(requests) + [FetchList]
    {
      requests := requests + [FetchList];
      if response.ListReplied? && response.ok {
        reminders := if response.reminders.Some? then response.reminders.value else [];
      }
    }

    /** The form's name field. */
    method SetSupplement(supplement: string)
      modifies this
      ensures newReminder == old(newReminder).(supplement := supplement)
      ensures reminders == old(reminders) && showAddForm == old(showAddForm) && requests == old(requests)
      ensures old(Valid()) ==> Valid()
    {
      newReminder := newReminder.(supplement := supplement);
    }

    /** The form's time field. */
    method SetTime(time: string)
      modifies this
      ensures newReminder == old(newReminder).(time := time)
      ensures reminders == old(reminders) && showAddForm == old(showAddForm) && requests == old(requests)
      ensures old(Valid()) ==> Valid()
    {
      newReminder := newReminder.(time := time);
    }

    /** A weekday button of the form. */
    method ToggleDay(day: string)
      modifies this
      ensures newReminder == old(newReminder).(days := Toggled(old(newReminder).days, day))
      ensures reminders == old(reminders) && showAddForm == old(showAddForm) && requests == old(requests)
      ensures old(Valid()) && day in DaysOfWeek ==> Valid()
    {
      if Valid() && day in DaysOfWeek {
        ToggledKeepsValid(newReminder, day);
      }
      newReminder := newReminder.(days := Toggled(newReminder.days, day));
    }

    /** The add button opens or closes the form; the draft is kept. */
    method ToggleAddForm()
      modifies this
      ensures showAddForm == !old(showAddForm)
      ensures reminders == old(reminders) && newReminder == old(newReminder) && requests == old(requests)
    {
      showAddForm := !showAddForm;
    }

    /** The cancel button closes the form and keeps the draft. */
    method CancelForm()
      modifies this
      ensures !showAddForm
      ensures reminders == old(reminders) && newReminder == old(newReminder) && requests == old(requests)
    {
      showAddForm := false;
    }

    /**
     * `handleAddReminder`. A draft without a name or without days is refused
     * before any request. Otherwise the draft is sent; on success the list
     * is fetched again, the form is reset to its default and closed, and on
     * failure nothing else changes.
     */
    method AddReminder(response: WriteResponse, refreshed: ListResponse)
      modifies this
      ensures !Submittable(old(newReminder)) ==>
        reminders == old(reminders) && newReminder == old(newReminder) && showAddForm == old(showAddForm) &&
        requests == old(requests)
      ensures Submittable(old(newReminder)) && Succeeded(response) ==>
        reminders == AfterFetch(old(reminders), refreshed) && newReminder == DefaultDraft && !showAddForm &&
        requests == old(requests) + [CreateRequest(old(newReminder)), FetchList]
      ensures Submittable(old(newReminder)) && !Succeeded(response) ==>
        reminders == old(reminders) && newReminder == old(newReminder) && showAddForm == old(showAddForm) &&
        requests == old(requests) + [CreateRequest(old(newReminder))]
      ensures old(Valid()) ==> Valid()
    {
      if !Submittable(newReminder) {
        return;
      }
      ghost var sent := requests + [CreateRequest(newReminder)];
      requests := sent;
      if Succeeded(response) {
        FetchReminders(refreshed);
        assert requests == old(requests) + [CreateRequest(old(newReminder)), FetchList] by {
          assert sent + [FetchList] == old(requests) + [CreateRequest(old(newReminder)), FetchList];
        }
        DefaultDraftDays();
        newReminder := DefaultDraft;
        showAddForm := false;
      }
    }

    /**
     * `handleDeleteReminder`. Nothing happens unless the user confirms; then
     * the delete is sent and, on success, the list is fetched again.
     */
    method DeleteReminder(id: string, confirmed: bool, response: WriteResponse, refreshed: ListResponse)
      modifies this
      ensures newReminder == old(newReminder) && showAddForm == old(showAddForm)
      ensures !confirmed ==> reminders == old(reminders) && requests == old(requests)
      ensures confirmed && Succeeded(response) ==>
        reminders == AfterFetch(old(reminders), refreshed) && requests == old(requests) + [DeleteRequest(id), FetchList]
      ensures confirmed && !Succeeded(response) ==>
        reminders == old(reminders) && requests == old(requests) + [DeleteRequest(id)]
    {
      if !confirmed {
        return;
      }
      requests := requests + [DeleteRequest(id)];
      if Succeeded(response) {
        FetchReminders(refreshed);
      }
    }
  }
}
