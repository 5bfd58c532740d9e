/**
 * `DetailsViewModel`: the details screen's cached copies of the four record
 * lists, the edits it makes through the managers, and the sample data it
 * writes on first launch.
 */
module DetailsViewModel {
  import opened Wrappers
  import opened Persistence
  import opened Stores
  import opened Contacts
  import opened Plans
  import opened Medicines

  /** The example prompts listed on the details screen. */
  const TestPrompts: seq<string> := [
    "I want to eat fruits",
    "I need some help",
    "I am bored, let's plan something",
    "What medicines do I need to take today?",
    "I want to buy some groceries",
    "I feel sleepy"
  ]

  /**
   * What `save*` keeps of the list before appending: editing with an
   * identifier first drops every record under that identifier.
   */
  function BeforeSave<T(==,!new)>(xs: seq<T>, key: T -> string, id: Option<string>, isEditing: bool): seq<T>
  {
    if isEditing && id.Some? then Without(xs, key, id.value) else xs
  }

  /**
   * Saving puts the record last. An edit leaves no other record under the
   * edited identifier, so the edited record moves to the end of the list;
   * a plain save only appends.
   */
  lemma SavedRecordIsLast<T(!new)>(xs: seq<T>, key: T -> string, id: Option<string>, isEditing: bool, x: T)
    ensures var r := BeforeSave(xs, key, id, isEditing) + [x];
      |r| >= 1 && r[|r| - 1] == x
      && (isEditing && id.Some? ==> forall k :: 0 <= k < |r| - 1 ==> key(r[k]) != id.value)
      && (isEditing && id.Some? ==> forall y :: y in xs && key(y) != id.value ==> y in r)
      && (!(isEditing && id.Some?) ==> r == xs + [x])
  {
    var kept := BeforeSave(xs, key, id, isEditing);
    var r := kept + [x];
    forall k | 0 <= k < |r| - 1
      ensures r[k] in kept
    {
      assert r[k] == kept[k];
    }
  }

  /** The start of the given day plus a time of day, in seconds (`date(bySettingHour:minute:second:of:)`). */
  function AtTimeOfDay(today: int, hour: int, minute: int): int
  {
    today + hour * 3600 + minute * 60
  }

  /** The sample stores; each new record draws its identifier from `uuid`, stores first. */
  function DummyStores(uuid: nat -> string): (r: seq<Store>)
    ensures |r| == 5 && forall k :: 0 <= k < 5 ==> r[k].id == uuid(k)
  {
    [ Store(uuid(0), "Kirana Store", "50 m", 5),
      Store(uuid(1), "Apollo Pharmacy", "50 m", 5),
      Store(uuid(2), "Gupta General Store", "150 m", 15),
      Store(uuid(3), "Local Bazaar", "200 m", 20),
      Store(uuid(4), "Ration Depot", "300 m", 25) ]
  }

  /** The sample plans, drawn after the stores. */
  function DummyPlans(uuid: nat -> string): (r: seq<Plan>)
    ensures |r| == 5 && forall k :: 0 <= k < 5 ==> r[k].id == uuid(5 + k)
  {
    [ Plan(uuid(5), "Evening walk in the colony park"),
      Plan(uuid(6), "Temple visit with neighbors"),
      Plan(uuid(7), "Tea and gossip at Sharma's house"),
      Plan(uuid(8), "Family lunch at a traditional dhaba"),
      Plan(uuid(9), "Dinner at a new restaurant") ]
  }

  /** The sample favourite contacts, drawn after the plans. */
  function DummyContacts(uuid: nat -> string): (r: seq<Contact>)
    ensures |r| == 5 && forall k :: 0 <= k < 5 ==> r[k].id == uuid(10 + k)
  {
    [ Contact(uuid(10), "Mom", "9876543210"),
      Contact(uuid(11), "Dad", "9123456789"),
      Contact(uuid(12), "Best Friend", "9988776655"),
      Contact(uuid(13), "Doctor", "9112233445"),
      Contact(uuid(14), "Work", "9001122334") ]
  }

  /** The sample medicines, timed on the day starting at `today`. */
  function DummyMedicines(today: int): (r: seq<Medicine>)
    ensures |r| == 5
  {
    [ Medicine("Paracetamol", "500mg", AtTimeOfDay(today, 8, 0), "Daily", Some("Take after food")),
      Medicine("Vitamin D", "1000 IU", AtTimeOfDay(today, 10, 0), "Every other day", None),
      Medicine("Aspirin", "75mg", AtTimeOfDay(today, 18, 0), "Daily", Some("Take with water")),
      Medicine("Amoxicillin", "500mg", AtTimeOfDay(today, 9, 0), "Twice a day", Some("Complete full course")),
      Medicine("Metformin", "850mg", AtTimeOfDay(today, 7, 30), "Daily", Some("Take before breakfast")) ]
  }

  /** With identifiers that never repeat, the fifteen sample records have fifteen different identifiers. */
  lemma DummyIdsDistinct(uuid: nat -> string)
    requires forall a: nat, b: nat :: uuid(a) == uuid(b) ==> a == b
    ensures forall j, k :: 0 <= j < k < 5 ==> DummyStores(uuid)[j].id != DummyStores(uuid)[k].id
    ensures forall j, k :: 0 <= j < k < 5 ==> DummyPlans(uuid)[j].id != DummyPlans(uuid)[k].id
    ensures forall j, k :: 0 <= j < k < 5 ==> DummyContacts(uuid)[j].id != DummyContacts(uuid)[k].id
    ensures forall j, k :: 0 <= j < 5 && 0 <= k < 5 ==> DummyStores(uuid)[j].id != DummyPlans(uuid)[k].id
    ensures forall j, k :: 0 <= j < 5 && 0 <= k < 5 ==> DummyPlans(uuid)[j].id != DummyContacts(uuid)[k].id
    ensures forall j, k :: 0 <= j < 5 && 0 <= k < 5 ==> DummyStores(uuid)[j].id != DummyContacts(uuid)[k].id
  {
  }

  /**
   * The sample medicines have five different names, so once reminders are
   * set up for them each medicine has its own reminder pending.
   */
  lemma DummyRemindersAllPending(pending: Pending, today: int)
    ensures var after := Apply(pending, SetupRequests(DummyMedicines(today)));
      forall k :: 0 <= k < 5 ==> DummyMedicines(today)[k].Id() in after && after[DummyMedicines(today)[k].Id()] == DummyMedicines(today)[k]
  {
    var ms := DummyMedicines(today);
    assert forall j, k :: 0 <= j < k < 5 ==> ms[j].Id() != ms[k].Id();
    SetupKeepsLastPerName(pending, ms);
  }

  class DetailsViewModel {
    var stores: seq<Store>
    var plans: seq<Plan>
    var favouriteContacts: seq<Contact>
    var medicines: seq<Medicine>

    const medicineManager: MedicineManager
    const contactManager: ContactManager
    const planManager: PlanManager
    const storeManager: StoreManager

    /** Each cached list is exactly what its manager would return now. */
    predicate InSync()
      reads this, medicineManager, contactManager, planManager, storeManager
    {
      medicines == medicineManager.Stored()
      && favouriteContacts == contactManager.Stored()
      && plans == planManager.Stored()
      && stores == storeManager.Stored()
    }

    /** Reads the four lists and files a reminder for every stored medicine. */
    constructor(medicineSlot: Slot<Medicine>, contactSlot: Slot<Contact>, planSlot: Slot<Plan>, storeSlot: Slot<Store>)
      ensures fresh(medicineManager) && fresh(contactManager) && fresh(planManager) && fresh(storeManager)
      ensures medicineManager.slot == medicineSlot && contactManager.slot == contactSlot
      ensures planManager.slot == planSlot && storeManager.slot == storeSlot
      ensures InSync()
      ensures medicineManager.requested == SetupRequests(Decode(medicineSlot))
    {
      medicineManager := new MedicineManager(medicineSlot);
      contactManager := new ContactManager(contactSlot);
      planManager := new PlanManager(planSlot);
      storeManager := new StoreManager(storeSlot);
      new;
      FetchData();
      medicineManager.SetupNotifications();
    }

    method FetchData()
      modifies this
      ensures InSync()
    {
      medicines := medicineManager.GetMedicines();
      favouriteContacts := contactManager.GetContacts();
      plans := planManager.GetPlans();
      stores := storeManager.GetStores();
    }

    /** Saves (editing: replaces) a medicine, re-reads the list and files the reminders anew. */
    method SaveMedicine(medicine: Medicine, id: Option<string>, isEditing: bool)
      modifies this, medicineManager
      ensures medicineManager.Stored() == BeforeSave(old(medicineManager.Stored()), MedicineId, id, isEditing) + [medicine]
      ensures medicines == medicineManager.Stored()
      ensures medicineManager.requested == old(medicineManager.requested) + [Schedule(medicine)] + SetupRequests(medicines)
      ensures stores == old(stores) && plans == old(plans) && favouriteContacts == old(favouriteContacts)
      ensures old(InSync()) ==> InSync()
    {
      RemoveEditedMedicine(id, isEditing);
      medicineManager.SaveMedicine(medicine);
      medicines := medicineManager.GetMedicines();
      medicineManager.SetupNotifications();
    }

    /** The first step of an edit: the old record goes, without touching the reminders or the cache. */
    method RemoveEditedMedicine(id: Option<string>, isEditing: bool)
      modifies medicineManager
      ensures medicineManager.Stored() == BeforeSave(old(medicineManager.Stored()), MedicineId, id, isEditing)
      ensures medicineManager.requested == old(medicineManager.requested)
    {
      if isEditing && id.Some? {
        medicineManager.DeleteMedicine(id.value);
      }
    }

    /** Without an identifier nothing happens; otherwise the medicine goes and the reminders are filed anew. */
    method DeleteMedicine(id: Option<string>)
      modifies this, medicineManager
      ensures id.None? ==> medicineManager.slot == old(medicineManager.slot) && medicineManager.requested == old(medicineManager.requested)
      ensures id.None? ==> medicines == old(medicines)
      ensures id.Some? ==> medicineManager.Stored() == Without(old(medicineManager.Stored()), MedicineId, id.value)
      ensures id.Some? ==> medicines == medicineManager.Stored()
      ensures id.Some? ==> medicineManager.requested == old(medicineManager.requested) + SetupRequests(medicines)
      ensures stores == old(stores) && plans == old(plans) && favouriteContacts == old(favouriteContacts)
      ensures old(InSync()) ==> InSync()
    {
      if id.None? {
        return;
      }
      medicineManager.DeleteMedicine(id.value);
      medicines := medicineManager.GetMedicines();
      medicineManager.SetupNotifications();
    }

    method SavePlan(plan: Plan, id: Option<string>, isEditing: bool)
      modifies this, planManager
      ensures planManager.Stored() == BeforeSave(old(planManager.Stored()), PlanId, id, isEditing) + [plan]
      ensures plans == planManager.Stored()
      ensures stores == old(stores) && medicines == old(medicines) && favouriteContacts == old(favouriteContacts)
      ensures old(InSync()) ==> InSync()
    {
      if isEditing && id.Some? {
        planManager.DeletePlan(id.value);
      }
      planManager.SavePlan(plan);
      plans := planManager.GetPlans();
    }

    method DeletePlan(id: Option<string>)
      modifies this, planManager
      ensures id.None? ==> planManager.slot == old(planManager.slot) && plans == old(plans)
      ensures id.Some? ==> planManager.Stored() == Without(old(planManager.Stored()), PlanId, id.value)
      ensures id.Some? ==> plans == planManager.Stored()
      ensures stores == old(stores) && medicines == old(medicines) && favouriteContacts == old(favouriteContacts)
      ensures old(InSync()) ==> InSync()
    {
      if id.None? {
        return;
      }
      planManager.DeletePlan(id.value);
      plans := planManager.GetPlans();
    }

    method SaveStore(store: Store, id: Option<string>, isEditing: bool)
      modifies this, storeManager
      ensures storeManager.Stored() == BeforeSave(old(storeManager.Stored()), StoreId, id, isEditing) + [store]
      ensures stores == storeManager.Stored()
      ensures plans == old(plans) && medicines == old(medicines) && favouriteContacts == old(favouriteContacts)
      ensures old(InSync()) ==> InSync()
    {
      if isEditing && id.Some? {
        storeManager.DeleteStore(id.value);
      }
      storeManager.SaveStore(store);
      stores := storeManager.GetStores();
    }

    method DeleteStore(id: Option<string>)
      modifies this, storeManager
      ensures id.None? ==> storeManager.slot == old(storeManager.slot) && stores == old(stores)
      ensures id.Some? ==> storeManager.Stored() == Without(old(storeManager.Stored()), StoreId, id.value)
      ensures id.Some? ==> stores == storeManager.Stored()
      ensures plans == old(plans) && medicines == old(medicines) && favouriteContacts == old(favouriteContacts)
      ensures old(InSync()) ==> InSync()
    {
      if id.None? {
        return;
      }
      storeManager.DeleteStore(id.value);
      stores := storeManager.GetStores();
    }

    method SaveContact(contact: Contact, id: Option<string>, isEditing: bool)
      modifies this, contactManager
      ensures contactManager.Stored() == BeforeSave(old(contactManager.Stored()), ContactId, id, isEditing) + [contact]
      ensures favouriteContacts == contactManager.Stored()
      ensures stores == old(stores) && medicines == old(medicines) && plans == old(plans)
      ensures old(InSync()) ==> InSync()
    {
      if isEditing && id.Some? {
        contactManager.DeleteContact(id.value);
      }
      contactManager.SaveContact(contact);
      favouriteContacts := contactManager.GetContacts();
    }

    method DeleteContact(id: Option<string>)
      modifies this, contactManager
      ensures id.None? ==> contactManager.slot == old(contactManager.slot) && favouriteContacts == old(favouriteContacts)
      ensures id.Some? ==> contactManager.Stored() == Without(old(contactManager.Stored()), ContactId, id.value)
      ensures id.Some? ==> favouriteContacts == contactManager.Stored()
      ensures stores == old(stores) && medicines == old(medicines) && plans == old(plans)
      ensures old(InSync()) ==> InSync()
    {
      if id.None? {
        return;
      }
      contactManager.DeleteContact(id.value);
      favouriteContacts := contactManager.GetContacts();
    }

    /** Sample data is offered exactly when all four cached lists are empty. */
    method IsDummyDataNeeded() returns (needed: bool)
      ensures needed <==> stores == [] && plans == [] && favouriteContacts == [] && medicines == []
    {
      needed := |stores| == 0 && |plans| == 0 && |favouriteContacts| == 0 && |medicines| == 0;
    }

    /**
     * Replaces all four lists by the sample data and writes each over what
     * was stored; no reminder is filed until the next set-up.
     */
    method SaveDummyData(uuid: nat -> string, today: int)
      modifies this, medicineManager, contactManager, planManager, storeManager
      ensures stores == DummyStores(uuid) && plans == DummyPlans(uuid)
      ensures favouriteContacts == DummyContacts(uuid) && medicines == DummyMedicines(today)
      ensures contactManager.slot == Encoded(favouriteContacts) && planManager.slot == Encoded(plans)
      ensures storeManager.slot == Encoded(stores) && medicineManager.slot == Encoded(medicines)
      ensures InSync()
      ensures medicineManager.requested == old(medicineManager.requested)
    {
      LoadDummyData(uuid, today);
      PersistCaches();
    }

    /** The first half of `saveDummyData`: the four cached lists become the sample data. */
    method LoadDummyData(uuid: nat -> string, today: int)
      modifies this
      ensures stores == DummyStores(uuid) && plans == DummyPlans(uuid)
      ensures favouriteContacts == DummyContacts(uuid) && medicines == DummyMedicines(today)
    {
      stores := DummyStores(uuid);
      plans := DummyPlans(uuid);
      favouriteContacts := DummyContacts(uuid);
      medicines := DummyMedicines(today);
    }

    /** Writes each cached list over what its manager stored, contacts first and medicines last. */
    method PersistCaches()
      modifies medicineManager, contactManager, planManager, storeManager
      ensures contactManager.slot == Encoded(favouriteContacts) && planManager.slot == Encoded(plans)
      ensures storeManager.slot == Encoded(stores) && medicineManager.slot == Encoded(medicines)
      ensures InSync()
      ensures medicineManager.requested == old(medicineManager.requested)
    {
      contactManager.SaveContacts(favouriteContacts);
      planManager.SavePlans(plans);
      storeManager.SaveStores(stores);
      medicineManager.SaveMedicines(medicines);
    }
  }
}
