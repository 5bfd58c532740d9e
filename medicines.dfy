/**
 * `MedicineManager`: the medicine list kept under the key "medicine_list",
 * and the reminder requests it sends to the notification centre. A
 * medicine's identifier is its name.
 */
module Medicines {
  import opened Wrappers
  import opened Persistence

  /**
   * One medicine; `time` is the moment it is taken, in seconds on the same
   * clock as the rest of the model, and its reminder repeats daily at the
   * hour and minute of that moment.
   */
  datatype Medicine = Medicine(name: string, dosage: string, time: int, frequency: string, notes: Option<string>)
  {
    /** The identifier is the name, so two medicines with one name share an identifier. */
    function Id(): string
    {
      name
    }
  }

  /** The key `deleteMedicine` matches on. */
  function MedicineId(m: Medicine): string
  {
    m.Id()
  }

  /** A call into the notification centre: withdraw the pending request under an identifier, or add the daily one for a medicine. */
  datatype ReminderRequest = Cancel(id: string) | Schedule(medicine: Medicine)

  /** The calls `setupNotifications` makes for a list: for each medicine in turn, a cancel of its identifier and then a schedule. */
  function SetupRequests(medicines: seq<Medicine>): (r: seq<ReminderRequest>)
    ensures |r| == 2 * |medicines|
    ensures forall k :: 0 <= k < |medicines| ==> r[2 * k] == Cancel(medicines[k].Id()) && r[2 * k + 1] == Schedule(medicines[k])
  {
    if medicines == [] then []
    else
      var last := medicines[|medicines| - 1];
      SetupRequests(medicines[..|medicines| - 1]) + [Cancel(last.Id()), Schedule(last)]
  }

  /** The requests pending in the notification centre, by identifier; adding under a taken identifier replaces it. */
  type Pending = map<string, Medicine>

  function Apply(pending: Pending, requests: seq<ReminderRequest>): Pending
    decreases |requests|
  {
    if requests == [] then pending
    else
      var next := match requests[0]
        case Cancel(id) => pending - {id}
        case Schedule(m) => pending[m.Id() := m];
      Apply(next, requests[1..])
  }

  lemma {:induction false} ApplyAppend(pending: Pending, a: seq<ReminderRequest>, b: seq<ReminderRequest>)
    ensures Apply(pending, a + b) == Apply(Apply(pending, a), b)
    decreases |a|
  {
    if a != [] {
      assert (a + b)[1..] == a[1..] + b;
      var next := match a[0]
        case Cancel(id) => pending - {id}
        case Schedule(m) => pending[m.Id() := m];
      ApplyAppend(next, a[1..], b);
    } else {
      assert a + b == b;
    }
  }

  /** Cancelling a medicine's identifier and then scheduling it leaves exactly that medicine under the identifier. */
  lemma CancelThenSchedule(pending: Pending, m: Medicine)
    ensures Apply(pending, [Cancel(m.Id()), Schedule(m)]) == pending[m.Id() := m]
  {
    var id, requests: seq<ReminderRequest> := m.Id(), [Cancel(m.Id()), Schedule(m)];
    var single: seq<ReminderRequest> := [Schedule(m)];
    var cancelled := pending - {id};
    assert requests[0] == Cancel(id) && requests[1..] == single;
    assert Apply(pending, requests) == Apply(cancelled, single);
    assert single[0] == Schedule(m) && single[1..] == [];
    assert Apply(cancelled, single) == Apply(cancelled[id := m], []);
    assert cancelled[id := m] == pending[id := m];
  }

  /**
   * `after` holds, for each name in the list, the last medicine with that
   * name, and agrees with `pending` on every identifier no medicine has.
   */
  ghost predicate LastPerName(pending: Pending, medicines: seq<Medicine>, after: Pending)
  {
    (forall k :: 0 <= k < |medicines| ==> medicines[k].Id() in after)
    && (forall k :: 0 <= k < |medicines| && (forall j :: k < j < |medicines| ==> medicines[j].Id() != medicines[k].Id())
          ==> after[medicines[k].Id()] == medicines[k])
    && (forall id :: (forall k :: 0 <= k < |medicines| ==> medicines[k].Id() != id)
          ==> (id in after <==> id in pending) && (id in pending ==> after[id] == pending[id]))
  }

  lemma LastPerNameStep(pending: Pending, front: seq<Medicine>, last: Medicine, before: Pending)
    requires LastPerName(pending, front, before)
    ensures LastPerName(pending, front + [last], before[last.Id() := last])
  {
    var medicines, after := front + [last], before[last.Id() := last];
    forall k | 0 <= k < |front| ensures medicines[k] == front[k] { }
    forall id | (forall k :: 0 <= k < |medicines| ==> medicines[k].Id() != id)
      ensures (id in after <==> id in pending) && (id in pending ==> after[id] == pending[id])
    {
      assert medicines[|front|] == last;
      assert forall k :: 0 <= k < |front| ==> front[k].Id() != id by {
        forall k | 0 <= k < |front| ensures front[k].Id() != id {
          assert medicines[k] == front[k];
        }
      }
    }
    forall k | 0 <= k < |medicines| && (forall j :: k < j < |medicines| ==> medicines[j].Id() != medicines[k].Id())
      ensures after[medicines[k].Id()] == medicines[k]
    {
      if k < |front| {
        assert medicines[|front|] == last;
        forall j | k < j < |front| ensures front[j].Id() != front[k].Id() {
          assert medicines[j] == front[j];
        }
      }
    }
  }

  /**
   * After `setupNotifications` exactly one reminder is pending per name in
   * the list, and it is the last medicine with that name; identifiers that
   * no medicine in the list has keep whatever was pending under them.
   */
  lemma {:induction false} SetupKeepsLastPerName(pending: Pending, medicines: seq<Medicine>)
    ensures LastPerName(pending, medicines, Apply(pending, SetupRequests(medicines)))
  {
    if medicines != [] {
      var n := |medicines| - 1;
      var front, last := medicines[..n], medicines[n];
      SetupKeepsLastPerName(pending, front);
      var before := Apply(pending, SetupRequests(front));
      assert SetupRequests(medicines) == SetupRequests(front) + [Cancel(last.Id()), Schedule(last)];
      ApplyAppend(pending, SetupRequests(front), [Cancel(last.Id()), Schedule(last)]);
      CancelThenSchedule(before, last);
      assert Apply(pending, SetupRequests(medicines)) == before[last.Id() := last];
      LastPerNameStep(pending, front, last, before);
      assert front + [last] == medicines;
    }
  }

  /** Deleting a medicine does not withdraw its reminder: the next set-up leaves the old request pending. */
  lemma DeletedReminderStaysPending(pending: Pending, medicines: seq<Medicine>, name: string)
    requires name in pending
    ensures name in Apply(pending, SetupRequests(Without(medicines, MedicineId, name)))
    ensures Apply(pending, SetupRequests(Without(medicines, MedicineId, name)))[name] == pending[name]
  {
    var rest := Without(medicines, MedicineId, name);
    assert forall k :: 0 <= k < |rest| ==> rest[k] in rest;
    SetupKeepsLastPerName(pending, rest);
  }

  class MedicineManager {
    /** What the key-value store holds under "medicine_list". */
    var slot: Slot<Medicine>
    /** The calls made to the notification centre so far, oldest first. */
    var requested: seq<ReminderRequest>

    constructor(slot: Slot<Medicine>)
      ensures this.slot == slot && requested == []
    {
      this.slot := slot;
      requested := [];
    }

    /** The list `getMedicines` would return now. */
    function Stored(): seq<Medicine>
      reads this
    {
      Decode(slot)
    }

    /** The stored list, or nothing at all when the key is empty or its data does not decode. */
    method GetMedicines() returns (medicines: seq<Medicine>)
      ensures slot.Encoded? ==> medicines == slot.items
      ensures !slot.Encoded? ==> medicines == []
    {
      medicines := Stored();
    }

    /** Overwrites whatever was stored; reading back gives exactly the list written. */
    method SaveMedicines(medicines: seq<Medicine>)
      modifies this
      ensures slot == Encoded(medicines) && requested == old(requested)
      ensures Stored() == medicines
    {
      slot := Encoded(medicines);
    }

    /**
     * Appends the medicine at the end, even when one with the same name is
     * already stored, and then asks for its daily reminder.
     */
    method SaveMedicine(medicine: Medicine)
      modifies this
      ensures slot == Encoded(old(Stored()) + [medicine])
      ensures Stored()[..|old(Stored())|] == old(Stored()) && Stored()[|old(Stored())|] == medicine
      ensures requested == old(requested) + [Schedule(medicine)]
    {
      var medicines := GetMedicines();
      medicines := medicines + [medicine];
      SaveMedicines(medicines);
      ScheduleMedicineReminder(medicine);
    }

    /** Drops every medicine with this name and keeps the rest in order; no reminder is withdrawn. */
    method DeleteMedicine(id: string)
      modifies this
      ensures slot == Encoded(Without(old(Stored()), MedicineId, id)) && requested == old(requested)
      ensures IsSubsequence(Stored(), old(Stored()))
      ensures (forall m :: m in old(Stored()) ==> m.name != id) ==> Stored() == old(Stored())
    {
      var medicines := GetMedicines();
      WithoutKeepsOrder(medicines, MedicineId, id);
      if forall m :: m in medicines ==> m.name != id {
        WithoutAbsent(medicines, MedicineId, id);
      }
      SaveMedicines(Without(medicines, MedicineId, id));
    }

    /** The request for the medicine's daily reminder, filed under its name. */
    method ScheduleMedicineReminder(medicine: Medicine)
      modifies this
      ensures slot == old(slot) && requested == old(requested) + [Schedule(medicine)]
    {
      requested := requested + [Schedule(medicine)];
    }

    method CancelMedicineReminder(id: string)
      modifies this
      ensures slot == old(slot) && requested == old(requested) + [Cancel(id)]
    {
      requested := requested + [Cancel(id)];
    }

    /** Re-files the reminder of every stored medicine, in list order, and leaves the stored list alone. */
    method SetupNotifications()
      modifies this
      ensures slot == old(slot)
      ensures requested == old(requested) + SetupRequests(old(Stored()))
    {
      var medicines := GetMedicines();
      for i := 0 to |medicines|
        invariant slot == old(slot)
        invariant requested == old(requested) + SetupRequests(medicines[..i])
      {
        CancelMedicineReminder(medicines[i].Id());
        ScheduleMedicineReminder(medicines[i]);
        assert medicines[..i + 1][..i] == medicines[..i];
      }
      assert medicines[..|medicines|] == medicines;
    }
  }
}
