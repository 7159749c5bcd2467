/**
 * src/components/ReminderModal.tsx: the form for a new activity reminder.
 * `formData` is the state record the handlers update, modelled as the
 * fields of a class; `onSave` and `onClose` become the method's outputs.
 */
module ReminderModal {
  import opened Wrappers
  import opened Lists
  import opened Calendar
  import opened ReminderList

  /** `ReminderData`, as handed to `onSave`. */
  datatype ReminderData = ReminderData(
    id: string,
    title: string,
    activityType: string,
    time: string,
    days: seq<string>,
    isActive: bool,
    createdAt: Instant)

  /** The six activity types offered by the form. */
  const ActivityTypes: seq<string> := ["run", "ride", "swim", "workout", "yoga", "walk"]

  /** What the open dialog shows of the form: one flag per day button, in week order. */
  datatype FormView = FormView(title: string, activityType: string, time: string, daySelected: seq<bool>)

  class ReminderForm {
    var title: string
    var activityType: string
    var time: string
    var days: seq<string>

    /** The days come from the seven day buttons and none is selected twice. */
    ghost predicate Valid()
      reads this
    {
      && NoDuplicates(days)
      && forall d :: d in days ==> d in DayNames
    }

    /** Whether `handleSubmit` will save: a non-empty title and at least one day. */
    predicate CanSubmit()
      reads this
    {
      title != "" && |days| > 0
    }

    /** The initial form: no title, a run at 07:00, no days. */
    constructor ()
      ensures title == "" && activityType == "run" && time == "07:00" && days == []
      ensures Valid() && !CanSubmit()
    {
      title, activityType, time, days := "", "run", "07:00", [];
    }

    /** The title input. */
    method SetTitle(value: string)
      modifies this
      ensures title == value
      ensures activityType == old(activityType) && time == old(time) && days == old(days)
    {
      title := value;
    }

    /** One of the activity type buttons. */
    method ChooseActivityType(value: string)
      modifies this
      ensures activityType == value
      ensures title == old(title) && time == old(time) && days == old(days)
    {
      activityType := value;
    }

    /** The time input. */
    method SetTime(value: string)
      modifies this
      ensures time == value
      ensures title == old(title) && activityType == old(activityType) && days == old(days)
    {
      time := value;
    }

    /**
     * `handleDayToggle`, reached from one of the day buttons: deselect a
     * selected day (keeping the others in order), append an unselected one.
     */
    method HandleDayToggle(day: string)
      requires Valid() && day in DayNames
      modifies this
      ensures Valid()
      ensures days == Toggle(old(days), day)
      ensures day in days <==> day !in old(days)
      ensures day !in old(days) ==> days == old(days) + [day]
      ensures Remove(days, day) == Remove(old(days), day)
      ensures title == old(title) && activityType == old(activityType) && time == old(time)
    {
      ToggleKeepsNoDuplicates(days, day);
      ToggleKeepsOthers(days, day);
      days := Toggle(days, day);
    }

    /**
     * `handleSubmit`. With a title and at least one day it saves an active
     * reminder carrying the form's fields, resets the form to its initial
     * values and closes the dialog. Otherwise nothing is saved, nothing
     * changes and the dialog stays open. The reminder list can read the
     * saved days back from their abbreviations.
     */
    method HandleSubmit(id: string, createdAt: Instant) returns (saved: Option<ReminderData>, closed: bool)
      requires Valid()
      modifies this
      ensures Valid()
      ensures saved.Some? <==> old(title) != "" && |old(days)| > 0
      ensures closed <==> saved.Some?
      ensures saved.Some? ==>
        && saved.value == ReminderData(id, old(title), old(activityType), old(time), old(days), true, createdAt)
        && title == "" && activityType == "run" && time == "07:00" && days == []
        && ParseDays(FormatDays(saved.value.days)) == saved.value.days
      ensures saved.None? ==>
        title == old(title) && activityType == old(activityType) && time == old(time) && days == old(days)
    {
      if title != "" && |days| > 0 {
        DaysRoundTrip(days);
        saved := Some(ReminderData(id, title, activityType, time, days, true, createdAt));
        title, activityType, time, days := "", "run", "07:00", [];
        closed := true;
      } else {
        saved := None;
        closed := false;
      }
    }

    /** Nothing while closed; otherwise the fields and which day buttons are selected. */
    function Render(isOpen: bool): (v: Option<FormView>)
      reads this
      ensures v.None? <==> !isOpen
      ensures v.Some? ==>
        && v.value.title == title && v.value.activityType == activityType && v.value.time == time
        && |v.value.daySelected| == |DayNames|
        && forall i :: 0 <= i < |DayNames| ==> (v.value.daySelected[i] <==> DayNames[i] in days)
    {
      if !isOpen then None
      else
        var chosen := days;
        Some(FormView(title, activityType, time, seq(|DayNames|, i requires 0 <= i < |DayNames| => DayNames[i] in chosen)))
    }
  }

  /** Filling in a title and one day and submitting saves exactly that reminder. */
  method FillAndSubmit(form: ReminderForm, title: string, day: string, id: string, now: Instant)
    returns (saved: Option<ReminderData>)
    requires form.Valid() && form.days == [] && title != "" && day in DayNames
    modifies form
    ensures saved == Some(ReminderData(id, title, old(form.activityType), old(form.time), [day], true, now))
  {
    form.SetTitle(title);
    form.HandleDayToggle(day);
    assert form.days == [day] && form.title == title;
    var closed;
    saved, closed := form.HandleSubmit(id, now);
  }
}
