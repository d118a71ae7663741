/** Sequences of user actions on a tracker, and what they lead to. */
module Scenarios {
  import opened Wrappers
  import opened Records
  import opened Store
  import Upcoming

  /** The form of the example below: "Test", costing 100, renewed monthly. */
  function TestForm(date: string): Form {
    Form("Test", Num(100.0), date, "Monthly")
  }

  /** That form passes validation as soon as a date is given, and keeps its name. */
  lemma TestFormValid(date: string, clock: int)
    requires date != []
    ensures Check(TestForm(date)) == None
    ensures NewRecord(TestForm(date), clock) == Subscription(clock, "Test", 100.0, date, "Monthly")
  {
    TrimUnpadded("Test");
  }

  /**
   * A fresh start with nothing stored gives the six seed records; adding
   * "Test" at 100, due in three days, makes seven, and the upcoming view
   * shows the new record.
   */
  method SeedThenAdd(parse: string -> Option<int>, now: int, clock: int, date: string)
    returns (size: nat, view: Upcoming.View)
    requires date != [] && parse(date) == Some(now + 3 * Upcoming.DAY_MS)
    ensures size == 7
    ensures view.Cards? && Subscription(clock, "Test", 100.0, date, "Monthly") in view.records
  {
    var tracker := new Tracker(Absent);
    assert |tracker.subscriptions| == 6;
    TestFormValid(date, clock);
    var alert := tracker.Submit(TestForm(date), clock);
    size := |tracker.subscriptions|;
    var added := Subscription(clock, "Test", 100.0, date, "Monthly");
    assert tracker.subscriptions[6] == added;
    assert added in tracker.subscriptions && Upcoming.IsDue(added, parse, now);
    view := tracker.ShowUpcoming(parse, now);
  }

  /**
   * Editing a record, deleting it and then submitting the form: the delete
   * keeps the editing state, the submit finds no record with that id and
   * replaces nothing, and the editing state ends.
   */
  method EditDeletedThenSubmit(x: Subscription, form: Form, clock: int)
    returns (list: seq<Subscription>, editing: Option<int>)
    requires x.id != 0 && Check(form).None?
    ensures list == [] && editing == None
  {
    var tracker := new Tracker(Saved([x]));
    assert [x][0].id == x.id;
    var prefill := tracker.EditClick(x.id);
    var deleted := tracker.DeleteClick(x.id, true);
    var alert := tracker.Submit(form, clock);
    list, editing := tracker.subscriptions, tracker.editingId;
  }

  /**
   * Editing a record whose id is 0: the id is falsy, so the submit appends a
   * new record with the clock's id and the editing state stays at 0.
   */
  method EditIdZero(x: Subscription, form: Form, clock: int)
    returns (list: seq<Subscription>, editing: Option<int>)
    requires x.id == 0 && Check(form).None?
    ensures list == [x, NewRecord(form, clock)] && editing == Some(0)
  {
    var tracker := new Tracker(Saved([x]));
    assert [x][0].id == x.id;
    var prefill := tracker.EditClick(x.id);
    var alert := tracker.Submit(form, clock);
    list, editing := tracker.subscriptions, tracker.editingId;
  }

  /** A cancelled delete leaves list, editing state and stored value alone. */
  method CancelledDelete(x: Subscription) returns (list: seq<Subscription>, persisted: Persisted)
    ensures list == [x] && persisted == Saved([x])
  {
    var tracker := new Tracker(Saved([x]));
    var deleted := tracker.DeleteClick(x.id, false);
    list, persisted := tracker.subscriptions, tracker.stored;
  }
}
