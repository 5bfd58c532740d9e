/**
 * `PlanManager`: the outing-plan list kept under the key "plan_list". Every change
 * reads the whole list, changes it and writes the whole list back.
 */
module Plans {
  import opened Persistence

  /** One outing suggestion. */
  datatype Plan = Plan(id: string, plan: string)

  /** The key `deletePlan` matches on. */
  function PlanId(x: Plan): string
  {
    x.id
  }

  class PlanManager {
    /** What the key-value store holds under "plan_list". */
    var slot: Slot<Plan>

    constructor(slot: Slot<Plan>)
      ensures this.slot == slot
    {
      this.slot := slot;
    }

    /** The list `getPlans` would return now. */
    function Stored(): seq<Plan>
      reads this
    {
      Decode(slot)
    }

    /** The stored list, or nothing at all when the key is empty or its data does not decode. */
    method GetPlans() returns (plans: seq<Plan>)
      ensures slot.Encoded? ==> plans == slot.items
      ensures !slot.Encoded? ==> plans == []
    {
      plans := Stored();
    }

    /** Overwrites whatever was stored; reading back gives exactly the list written. */
    method SavePlans(plans: seq<Plan>)
      modifies this
      ensures slot == Encoded(plans)
      ensures Stored() == plans
    {
      slot := Encoded(plans);
    }

    /** Appends one record at the end; the records already there keep their order. */
    method SavePlan(plan: Plan)
      modifies this
      ensures slot == Encoded(old(Stored()) + [plan])
      ensures Stored()[..|old(Stored())|] == old(Stored()) && Stored()[|old(Stored())|] == plan
    {
      var plans := GetPlans();
      plans := plans + [plan];
      SavePlans(plans);
    }

    /**
     * Drops every record with this id and keeps the rest in order; an id no
     * record has leaves the list as it was.
     */
    method DeletePlan(id: string)
      modifies this
      ensures slot == Encoded(Without(old(Stored()), PlanId, id))
      ensures IsSubsequence(Stored(), old(Stored()))
      ensures (forall x :: x in old(Stored()) ==> x.id != id) ==> Stored() == old(Stored())
    {
      var plans := GetPlans();
      WithoutKeepsOrder(plans, PlanId, id);
      if forall x :: x in plans ==> x.id != id {
        WithoutAbsent(plans, PlanId, id);
      }
      SavePlans(Without(plans, PlanId, id));
    }
  }
}
