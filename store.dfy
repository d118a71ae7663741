/**
 * The tracker's mutable state and its event handlers: the list of
 * subscriptions, the id being edited (`null` while creating) and the value
 * last written under the storage key.
 */
module Store {
  import opened Wrappers
  import opened Records
  import Upcoming

  class Tracker {
    var subscriptions: seq<Subscription>
    var editingId: Option<int>
    var stored: Persisted

    /** Every change to the list has been persisted: reloading now restores it. */
    ghost predicate Valid()
      reads this
    {
      Load(stored) == Success(subscriptions)
    }

    /**
     * Page start-up: the list is what `Load` reads from storage, and nothing is
     * being edited. An unparsable stored value makes the start-up script throw,
     * so no tracker exists in that case.
     */
    constructor (persisted: Persisted)
      requires Load(persisted).Success?
      ensures Valid()
      ensures subscriptions == Load(persisted).value
      ensures editingId == None && stored == persisted
    {
      subscriptions := Load(persisted).value;
      editingId := None;
      stored := persisted;
    }

    /** `saveAndDisplaySubscriptions`: overwrite the stored value with the whole list. */
    method Save()
      modifies this`stored
      ensures stored == Saved(subscriptions)
      ensures Valid()
    {
      stored := Saved(subscriptions);
    }

    /**
     * The form's submit handler, with `clock` standing for `Date.now()`.
     * An invalid form changes nothing. Otherwise, when not editing, a record
     * with id `clock` is appended; when editing, the first record holding the
     * edited id is replaced by one holding the same id and the editing state
     * ends (no record is replaced when none holds that id). The list is then
     * saved.
     */
    method Submit(form: Form, clock: int) returns (alert: Option<Alert>)
      requires Valid()
      modifies this
      ensures Valid()
      ensures alert == Check(form)
      ensures alert.Some? ==>
        subscriptions == old(subscriptions) && editingId == old(editingId) && stored == old(stored)
      ensures alert.None? && !IsEditing(old(editingId)) ==>
        subscriptions == old(subscriptions) + [NewRecord(form, clock)] &&
        editingId == old(editingId) && stored == Saved(subscriptions)
      ensures alert.None? && IsEditing(old(editingId)) ==>
        var id := old(editingId).value;
        var i := FirstIndex(old(subscriptions), id);
        subscriptions == (if i < 0 then old(subscriptions) else old(subscriptions)[i := NewRecord(form, id)]) &&
        editingId == None && stored == Saved(subscriptions)
      ensures |subscriptions| == |old(subscriptions)| + (if alert.None? && !IsEditing(old(editingId)) then 1 else 0)
      ensures UniqueIds(old(subscriptions)) && !HasId(old(subscriptions), clock) ==> UniqueIds(subscriptions)
    {
      alert := Check(form);
      if alert.Some? {
        return;
      }
      var id := if IsEditing(editingId) then editingId.value else clock;
      var record := NewRecord(form, id);
      if IsEditing(editingId) {
        var index := FirstIndex(subscriptions, editingId.value);
        if index >= 0 {
          if UniqueIds(subscriptions) {
            ReplaceKeepsUnique(subscriptions, index, record);
          }
          subscriptions := subscriptions[index := record];
        }
        editingId := None;
      } else {
        if UniqueIds(subscriptions) && !HasId(subscriptions, clock) {
          AppendKeepsUnique(subscriptions, record);
        }
        subscriptions := subscriptions + [record];
      }
      Save();
    }

    /**
     * The edit button of the card showing `subId`: the form is filled from
     * the first record holding `subId` and the tracker enters editing mode.
     * When no record holds `subId`, reading its fields throws and nothing
     * changes. The list and the stored value never change.
     */
    method EditClick(subId: int) returns (prefill: Option<Subscription>)
      requires Valid()
      modifies this`editingId
      ensures Valid()
      ensures prefill == Find(subscriptions, subId)
      ensures prefill.Some? ==> editingId == Some(subId)
      ensures prefill.None? ==> editingId == old(editingId)
      ensures subscriptions == old(subscriptions) && stored == old(stored)
    {
      prefill := Find(subscriptions, subId);
      if prefill.Some? {
        editingId := Some(subId);
      }
    }

    /**
     * The delete button of the card showing `subId`, with `confirmed` the
     * answer to the confirmation prompt. When a record holds `subId` and the
     * user confirms, every record holding `subId` is removed and the list is
     * saved; otherwise (including when building the prompt throws because
     * no record holds `subId`) nothing changes. The editing state is kept
     * either way.
     */
    method DeleteClick(subId: int, confirmed: bool) returns (deleted: bool)
      requires Valid()
      modifies this
      ensures Valid()
      ensures deleted == (HasId(old(subscriptions), subId) && confirmed)
      ensures deleted ==> subscriptions == RemoveId(old(subscriptions), subId) && stored == Saved(subscriptions)
      ensures !deleted ==> subscriptions == old(subscriptions) && stored == old(stored)
      ensures editingId == old(editingId)
      ensures UniqueIds(old(subscriptions)) ==> UniqueIds(subscriptions)
      ensures UniqueIds(old(subscriptions)) && deleted ==> |subscriptions| == |old(subscriptions)| - 1
    {
      var subscription := Find(subscriptions, subId);
      deleted := subscription.Some? && confirmed;
      if deleted {
        ghost var before := subscriptions;
        subscriptions := RemoveId(subscriptions, subId);
        if UniqueIds(before) {
          RemoveKeepsUnique(before, subId);
          RemoveUniqueId(before, FirstIndex(before, subId));
        }
        Save();
      }
    }

    /** `displayUpcomingPayments`: the view of the records due in the next seven days. */
    method ShowUpcoming(parse: string -> Option<int>, now: int) returns (view: Upcoming.View)
      ensures view == Upcoming.ViewOf(subscriptions, parse, now)
      ensures view.NoneDue? <==> forall x :: x in subscriptions ==> !Upcoming.IsDue(x, parse, now)
    {
      view := Upcoming.ViewOf(subscriptions, parse, now);
    }
  }
}
