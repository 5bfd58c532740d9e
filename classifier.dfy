/**
 * The keyword tests of `ChatViewModel` (its `check*` and `is*` helpers) and
 * the order in which `processResponse` tries them. Every test is plain
 * substring containment on the lower-cased input, so "know" counts as "no"
 * and "groceries" does not count as "grocery".
 */
module Classifier {
  import opened Text

  predicate CheckConfirmation(input: string)
  {
    Contains(input, "yes") || Contains(input, "sure")
  }

  predicate CheckNoThanks(input: string)
  {
    Contains(input, "no") || Contains(input, "nope")
  }

  predicate CheckThanks(input: string)
  {
    Contains(input, "thanks") || Contains(input, "thank you")
  }

  predicate IsGoingToShop(input: string)
  {
    Contains(input, "buy") || Contains(input, "store") || Contains(input, "grocery")
  }

  predicate CheckHome(input: string)
  {
    Contains(input, "grocery") || Contains(input, "medicine") || Contains(input, "fruits") || Contains(input, "vegetables")
  }

  predicate IsPlanningOuting(input: string)
  {
    Contains(input, "go out") || Contains(input, "party") || Contains(input, "meet friends")
    || Contains(input, "dinner") || Contains(input, "plan")
  }

  predicate IsPlanningToSleep(input: string)
  {
    Contains(input, "sleep") || Contains(input, "bed") || Contains(input, "night") || Contains(input, "sleepy")
  }

  predicate IsDialingNumber(input: string)
  {
    Contains(input, "call") || Contains(input, "dial") || Contains(input, "phone") || Contains(input, "help")
    || Contains(input, "i need someone") || Contains(input, "assistance")
  }

  predicate IsMedicineRelated(input: string)
  {
    (Contains(input, "medicine") || Contains(input, "medicines")) && (Contains(input, "today") || Contains(input, "today's"))
  }

  predicate IsGreeting(input: string)
  {
    Contains(input, "hi") || Contains(input, "hey") || Contains(input, "hello")
  }

  /** The branch of `processResponse` an input goes to. */
  datatype Intent =
    | Confirmation | Thanks | MedicineQuery | HomeCheck | Shop | Outing | Sleep | Dial | Greeting | Fallback

  /** The order in which the branches are tried. */
  const Precedence: seq<Intent> := [Confirmation, Thanks, MedicineQuery, HomeCheck, Shop, Outing, Sleep, Dial, Greeting, Fallback]

  /** The keyword test guarding each branch; the last branch takes whatever is left. */
  predicate Fires(intent: Intent, input: string)
  {
    match intent
    case Confirmation => CheckConfirmation(input)
    case Thanks => CheckThanks(input) || CheckNoThanks(input)
    case MedicineQuery => IsMedicineRelated(input)
    case HomeCheck => CheckHome(input)
    case Shop => IsGoingToShop(input)
    case Outing => IsPlanningOuting(input)
    case Sleep => IsPlanningToSleep(input)
    case Dial => IsDialingNumber(input)
    case Greeting => IsGreeting(input)
    case Fallback => true
  }

  /** Position `k` holds the branch taken: its test fires and no earlier test does. */
  predicate FirstFiring(input: string, k: int)
  {
    0 <= k < |Precedence| && Fires(Precedence[k], input)
    && forall j :: 0 <= j < k ==> !Fires(Precedence[j], input)
  }

  /** The if/else chain of `processResponse`, applied to the lower-cased input. */
  function Classify(lowered: string): Intent
  {
    if CheckConfirmation(lowered) then Confirmation
    else if CheckThanks(lowered) || CheckNoThanks(lowered) then Thanks
    else if IsMedicineRelated(lowered) then MedicineQuery
    else if CheckHome(lowered) then HomeCheck
    else if IsGoingToShop(lowered) then Shop
    else if IsPlanningOuting(lowered) then Outing
    else if IsPlanningToSleep(lowered) then Sleep
    else if IsDialingNumber(lowered) then Dial
    else if IsGreeting(lowered) then Greeting
    else Fallback
  }

  /** Where a branch stands in the order. */
  function Rank(intent: Intent): (k: nat)
    ensures k < |Precedence| && Precedence[k] == intent
    ensures forall j :: 0 <= j < |Precedence| && Precedence[j] == intent ==> j == k
  {
    match intent
    case Confirmation => 0
    case Thanks => 1
    case MedicineQuery => 2
    case HomeCheck => 3
    case Shop => 4
    case Outing => 5
    case Sleep => 6
    case Dial => 7
    case Greeting => 8
    case Fallback => 9
  }

  /**
   * Dispatch is first match in the fixed order: the branch taken is the
   * first in `Precedence` whose test fires, and it is the only branch that
   * is the first to fire.
   */
  lemma ClassifyIsFirstFiring(lowered: string)
    ensures forall k :: FirstFiring(lowered, k) <==> 0 <= k < |Precedence| && Precedence[k] == Classify(lowered)
  {
    var r := Rank(Classify(lowered));
    assert FirstFiring(lowered, r);
    forall k | 0 <= k < |Precedence| && k != r ensures !FirstFiring(lowered, k) {
      if k > r {
        assert 0 <= r < k && Fires(Precedence[r], lowered);
      } else {
        assert !Fires(Precedence[k], lowered);
      }
    }
  }

  /** The medicine branch needs both a medicine word and a day word; "medicines" and "today's" add nothing. */
  lemma MedicineNeedsBoth(input: string)
    ensures IsMedicineRelated(input) <==> Contains(input, "medicine") && Contains(input, "today")
  {
    if Contains(input, "medicines") {
      ContainsPiece(input, "medicines", 0, 8);
      assert "medicines"[0..8] == "medicine";
    }
    if Contains(input, "today's") {
      ContainsPiece(input, "today's", 0, 5);
      assert "today's"[0..5] == "today";
    }
  }

  /** An input that mentions medicine without a day word goes to the home check, not the medicine list. */
  lemma MedicineWithoutToday(input: string)
    requires Contains(input, "medicine") && !Contains(input, "today")
    requires !CheckConfirmation(input) && !CheckThanks(input) && !CheckNoThanks(input)
    ensures Classify(input) == HomeCheck
  {
    MedicineNeedsBoth(input);
  }

  /** The medicine branch is taken exactly when no confirmation or closing word comes first and both words are there. */
  lemma MedicineBranch(input: string)
    ensures Classify(input) == MedicineQuery
        <==> !CheckConfirmation(input) && !CheckThanks(input) && !CheckNoThanks(input)
             && Contains(input, "medicine") && Contains(input, "today")
  {
    MedicineNeedsBoth(input);
  }

  /** "nope" adds nothing to "no": the closing test is the bare substring "no". */
  lemma NoThanksIsNo(input: string)
    ensures CheckNoThanks(input) <==> Contains(input, "no")
  {
    if Contains(input, "nope") {
      ContainsPiece(input, "nope", 0, 2);
      assert "nope"[0..2] == "no";
    }
  }

  /** Any input with "no" in it ("know", "not", "nothing") closes the flow unless it also says yes or sure. */
  lemma NoSubstringCloses(input: string)
    requires Contains(input, "no")
    requires !Contains(input, "yes") && !Contains(input, "sure")
    ensures Classify(input) == Thanks
  {
  }

  /** "grocery" is claimed by the home check, which comes first, so it never reaches the shop branch. */
  lemma GroceryNeverShops(input: string)
    requires Contains(input, "grocery")
    ensures Classify(input) != Shop
    ensures !CheckConfirmation(input) && !CheckThanks(input) && !CheckNoThanks(input) && !IsMedicineRelated(input)
            ==> Classify(input) == HomeCheck
  {
  }
}
