/**
 * The six example prompts of the details screen, run through the dispatch
 * of `processResponse`: each reaches the branch its wording suggests.
 *
 * Each prompt is handled in three layers, so that no proof obligation has
 * to evaluate the lower-casing of a whole literal:
 *  - `*Facts*` lemmas state plain character facts about the prompt text;
 *  - `*Misses*` and `*Hits*` lemmas turn those facts into (non-)occurrences
 *    of the keywords in the lower-cased text, for any text with the facts;
 *  - `*Decides*` lemmas run the dispatch on those occurrences.
 */
module SamplePrompts {
  import opened Text
  import C = Classifier
  import D = DetailsViewModel

  lemma SleepyLacksYes()
    ensures !Contains("sleepy", "yes")
  {
  }

  lemma SomethingLacksNo()
    ensures !Contains("something", "no")
  {
  }

  lemma FruitsPromptFacts1(s: string)
    requires s == "I want to eat fruits"
    ensures |s| == 20
    ensures LowersAvoid(s, 0, 20, 'y')
    ensures s[13] == ' '
    ensures LowersAvoid(s, 0, 13, 's')
    ensures LowersAvoid(s, 14, 20, 'e')
  {
  }

  lemma FruitsPromptFacts2(s: string)
    requires s == "I want to eat fruits"
    ensures LowersAvoid(s, 0, 20, 'h')
    ensures s[6] == ' '
    ensures LowersAvoid(s, 0, 6, 'o')
    ensures LowersAvoid(s, 7, 20, 'n')
    ensures LowersAvoid(s, 0, 20, 'p')
  {
  }

  lemma FruitsPromptFacts3(s: string)
    requires s == "I want to eat fruits"
    ensures LowersAvoid(s, 0, 20, 'm')
    ensures LowersToAt(s, 14, "fruits")
  {
  }

  lemma FruitsPromptMissesConfirmation(s: string)
    requires |s| == 20
    requires LowersAvoid(s, 0, 20, 'y')
    requires s[13] == ' '
    requires LowersAvoid(s, 0, 13, 's')
    requires LowersAvoid(s, 14, 20, 'e')
    ensures !Contains(Lower(s), "yes")
    ensures !Contains(Lower(s), "sure")
  {
    LowerMisses(s, "yes", 0);
    LowerMissesAcross(s, "sure", 13, 0, 3);
  }

  lemma FruitsPromptMissesThanks1(s: string)
    requires |s| == 20
    requires LowersAvoid(s, 0, 20, 'h')
    requires s[6] == ' '
    requires LowersAvoid(s, 0, 6, 'o')
    requires LowersAvoid(s, 7, 20, 'n')
    ensures !Contains(Lower(s), "thanks")
    ensures !Contains(Lower(s), "thank you")
    ensures !Contains(Lower(s), "no")
  {
    LowerMisses(s, "thanks", 1);
    LowerMisses(s, "thank you", 1);
    LowerMissesAcross(s, "no", 6, 1, 0);
  }

  lemma FruitsPromptMissesThanks2(s: string)
    requires |s| == 20
    requires LowersAvoid(s, 0, 20, 'p')
    ensures !Contains(Lower(s), "nope")
  {
    LowerMisses(s, "nope", 2);
  }

  lemma FruitsPromptMissesMedicineQuery(s: string)
    requires |s| == 20
    requires LowersAvoid(s, 0, 20, 'm')
    ensures !Contains(Lower(s), "medicine")
    ensures !Contains(Lower(s), "medicines")
  {
    LowerMisses(s, "medicine", 0);
    LowerMisses(s, "medicines", 0);
  }

  lemma FruitsPromptHitsHomeCheck(s: string)
    requires |s| == 20
    requires LowersToAt(s, 14, "fruits")
    ensures Contains(Lower(s), "fruits")
  {
    LowerFound(s, "fruits", 14);
  }

  lemma FruitsPromptDecides(s: string)
    requires !Contains(Lower(s), "yes")
    requires !Contains(Lower(s), "sure")
    requires !Contains(Lower(s), "thanks")
    requires !Contains(Lower(s), "thank you")
    requires !Contains(Lower(s), "no")
    requires !Contains(Lower(s), "nope")
    requires !Contains(Lower(s), "medicine")
    requires !Contains(Lower(s), "medicines")
    requires Contains(Lower(s), "fruits")
    ensures C.Classify(Lower(s)) == C.HomeCheck
  {
  }

  lemma FruitsPromptClassifies()
    ensures C.Classify(Lower(D.TestPrompts[0])) == C.HomeCheck
  {
    var s := D.TestPrompts[0];
    FruitsPromptFacts1(s);
    FruitsPromptFacts2(s);
    FruitsPromptFacts3(s);
    FruitsPromptMissesConfirmation(s);
    FruitsPromptMissesThanks1(s);
    FruitsPromptMissesThanks2(s);
    FruitsPromptMissesMedicineQuery(s);
    FruitsPromptHitsHomeCheck(s);
    FruitsPromptDecides(s);
  }

  lemma HelpPromptFacts1(s: string)
    requires s == "I need some help"
    ensures |s| == 16
    ensures LowersAvoid(s, 0, 16, 'y')
    ensures LowersAvoid(s, 0, 16, 'u')
    ensures LowersAvoid(s, 0, 16, 't')
    ensures s[6] == ' '
    ensures LowersAvoid(s, 0, 6, 'o')
  {
  }

  lemma HelpPromptFacts2(s: string)
    requires s == "I need some help"
    ensures LowersAvoid(s, 7, 16, 'n')
    ensures LowersAvoid(s, 0, 16, 'c')
    ensures LowersAvoid(s, 0, 16, 'g')
    ensures LowersAvoid(s, 0, 16, 'f')
  {
  }

  lemma HelpPromptFacts3(s: string)
    requires s == "I need some help"
    ensures LowersAvoid(s, 0, 16, 'v')
    ensures LowersAvoid(s, 0, 16, 'b')
    ensures LowersAvoid(s, 0, 16, 'a')
  {
  }

  lemma HelpPromptFacts4(s: string)
    requires s == "I need some help"
    ensures LowersAvoid(s, 0, 16, 'r')
    ensures s[11] == ' '
    ensures LowersAvoid(s, 0, 11, 'l')
    ensures LowersAvoid(s, 12, 16, 's')
    ensures LowersToAt(s, 12, "help")
  {
  }

  lemma HelpPromptMissesConfirmation(s: string)
    requires |s| == 16
    requires LowersAvoid(s, 0, 16, 'y')
    requires LowersAvoid(s, 0, 16, 'u')
    ensures !Contains(Lower(s), "yes")
    ensures !Contains(Lower(s), "sure")
  {
    LowerMisses(s, "yes", 0);
    LowerMisses(s, "sure", 1);
  }

  lemma HelpPromptMissesThanks1(s: string)
    requires |s| == 16
    requires LowersAvoid(s, 0, 16, 't')
    requires s[6] == ' '
    requires LowersAvoid(s, 0, 6, 'o')
    requires LowersAvoid(s, 7, 16, 'n')
    ensures !Contains(Lower(s), "thanks")
    ensures !Contains(Lower(s), "thank you")
    ensures !Contains(Lower(s), "no")
  {
    LowerMisses(s, "thanks", 0);
    LowerMisses(s, "thank you", 0);
    LowerMissesAcross(s, "no", 6, 1, 0);
  }

  lemma HelpPromptMissesThanks2(s: string)
    requires |s| == 16
    requires s[6] == ' '
    requires LowersAvoid(s, 0, 6, 'o')
    requires LowersAvoid(s, 7, 16, 'n')
    ensures !Contains(Lower(s), "nope")
  {
    LowerMissesAcross(s, "nope", 6, 1, 0);
  }

  lemma HelpPromptMissesMedicineQuery(s: string)
    requires |s| == 16
    requires LowersAvoid(s, 0, 16, 'c')
    ensures !Contains(Lower(s), "medicine")
    ensures !Contains(Lower(s), "medicines")
  {
    LowerMisses(s, "medicine", 4);
    LowerMisses(s, "medicines", 4);
  }

  lemma HelpPromptMissesHomeCheck1(s: string)
    requires |s| == 16
    requires LowersAvoid(s, 0, 16, 'g')
    requires LowersAvoid(s, 0, 16, 'c')
    requires LowersAvoid(s, 0, 16, 'f')
    ensures !Contains(Lower(s), "grocery")
    ensures !Contains(Lower(s), "medicine")
    ensures !Contains(Lower(s), "fruits")
  {
    LowerMisses(s, "grocery", 0);
    LowerMisses(s, "medicine", 4);
    LowerMisses(s, "fruits", 0);
  }

  lemma HelpPromptMissesHomeCheck2(s: string)
    requires |s| == 16
    requires LowersAvoid(s, 0, 16, 'v')
    ensures !Contains(Lower(s), "vegetables")
  {
    LowerMisses(s, "vegetables", 0);
  }

  lemma HelpPromptMissesShop(s: string)
    requires |s| == 16
    requires LowersAvoid(s, 0, 16, 'b')
    requires LowersAvoid(s, 0, 16, 't')
    requires LowersAvoid(s, 0, 16, 'g')
    ensures !Contains(Lower(s), "buy")
    ensures !Contains(Lower(s), "store")
    ensures !Contains(Lower(s), "grocery")
  {
    LowerMisses(s, "buy", 0);
    LowerMisses(s, "store", 1);
    LowerMisses(s, "grocery", 0);
  }

  lemma HelpPromptMissesOuting1(s: string)
    requires |s| == 16
    requires LowersAvoid(s, 0, 16, 'g')
    requires LowersAvoid(s, 0, 16, 'a')
    requires LowersAvoid(s, 0, 16, 't')
    ensures !Contains(Lower(s), "go out")
    ensures !Contains(Lower(s), "party")
    ensures !Contains(Lower(s), "meet friends")
  {
    LowerMisses(s, "go out", 0);
    LowerMisses(s, "party", 1);
    LowerMisses(s, "meet friends", 3);
  }

  lemma HelpPromptMissesOuting2(s: string)
    requires |s| == 16
    requires LowersAvoid(s, 0, 16, 'r')
    requires LowersAvoid(s, 0, 16, 'a')
    ensures !Contains(Lower(s), "dinner")
    ensures !Contains(Lower(s), "plan")
  {
    LowerMisses(s, "dinner", 5);
    LowerMisses(s, "plan", 2);
  }

  lemma HelpPromptMissesSleep1(s: string)
    requires |s| == 16
    requires s[11] == ' '
    requires LowersAvoid(s, 0, 11, 'l')
    requires LowersAvoid(s, 12, 16, 's')
    requires LowersAvoid(s, 0, 16, 'b')
    requires LowersAvoid(s, 0, 16, 'g')
    ensures !Contains(Lower(s), "sleep")
    ensures !Contains(Lower(s), "bed")
    ensures !Contains(Lower(s), "night")
  {
    LowerMissesAcross(s, "sleep", 11, 1, 0);
    LowerMisses(s, "bed", 0);
    LowerMisses(s, "night", 2);
  }

  lemma HelpPromptMissesSleep2(s: string)
    requires |s| == 16
    requires LowersAvoid(s, 0, 16, 'y')
    ensures !Contains(Lower(s), "sleepy")
  {
    LowerMisses(s, "sleepy", 5);
  }

  lemma HelpPromptHitsDial(s: string)
    requires |s| == 16
    requires LowersToAt(s, 12, "help")
    ensures Contains(Lower(s), "help")
  {
    LowerFound(s, "help", 12);
  }

  lemma HelpPromptDecides(s: string)
    requires !Contains(Lower(s), "yes")
    requires !Contains(Lower(s), "sure")
    requires !Contains(Lower(s), "thanks")
    requires !Contains(Lower(s), "thank you")
    requires !Contains(Lower(s), "no")
    requires !Contains(Lower(s), "nope")
    requires !Contains(Lower(s), "medicine")
    requires !Contains(Lower(s), "medicines")
    requires !Contains(Lower(s), "grocery")
    requires !Contains(Lower(s), "medicine")
    requires !Contains(Lower(s), "fruits")
    requires !Contains(Lower(s), "vegetables")
    requires !Contains(Lower(s), "buy")
    requires !Contains(Lower(s), "store")
    requires !Contains(Lower(s), "grocery")
    requires !Contains(Lower(s), "go out")
    requires !Contains(Lower(s), "party")
    requires !Contains(Lower(s), "meet friends")
    requires !Contains(Lower(s), "dinner")
    requires !Contains(Lower(s), "plan")
    requires !Contains(Lower(s), "sleep")
    requires !Contains(Lower(s), "bed")
    requires !Contains(Lower(s), "night")
    requires !Contains(Lower(s), "sleepy")
    requires Contains(Lower(s), "help")
    ensures C.Classify(Lower(s)) == C.Dial
  {
  }

  lemma HelpPromptClassifies()
    ensures C.Classify(Lower(D.TestPrompts[1])) == C.Dial
  {
    var s := D.TestPrompts[1];
    HelpPromptFacts1(s);
    HelpPromptFacts2(s);
    HelpPromptFacts3(s);
    HelpPromptFacts4(s);
    HelpPromptMissesConfirmation(s);
    HelpPromptMissesThanks1(s);
    HelpPromptMissesThanks2(s);
    HelpPromptMissesMedicineQuery(s);
    HelpPromptMissesHomeCheck1(s);
    HelpPromptMissesHomeCheck2(s);
    HelpPromptMissesShop(s);
    HelpPromptMissesOuting1(s);
    HelpPromptMissesOuting2(s);
    HelpPromptMissesSleep1(s);
    HelpPromptMissesSleep2(s);
    HelpPromptHitsDial(s);
    HelpPromptDecides(s);
  }

  lemma BoredPromptFacts1(s: string)
    requires s == "I am bored, let's plan something"
    ensures |s| == 32
    ensures LowersAvoid(s, 0, 32, 'y')
  {
  }

  lemma BoredPromptFacts2(s: string)
    requires s == "I am bored, let's plan something"
    ensures LowersAvoid(s, 0, 32, 'u')
  {
  }

  lemma BoredPromptFacts3(s: string)
    requires s == "I am bored, let's plan something"
    ensures LowersAvoid(s, 0, 32, 'k')
    ensures LowersAvoid(s, 0, 11, 'n')
    ensures LowersAvoid(s, 12, 22, 'o')
  {
  }

  lemma BoredPromptFacts4(s: string)
    requires s == "I am bored, let's plan something"
    ensures LowersToAt(s, 23, "something")
    ensures s[22] == ' '
    ensures s[11] == ' '
    ensures LowersAvoid(s, 23, 32, 'p')
  {
  }

  lemma BoredPromptFacts5(s: string)
    requires s == "I am bored, let's plan something"
    ensures LowersAvoid(s, 0, 32, 'c')
  {
  }

  lemma BoredPromptFacts6(s: string)
    requires s == "I am bored, let's plan something"
    ensures LowersAvoid(s, 0, 32, 'f')
  {
  }

  lemma BoredPromptFacts7(s: string)
    requires s == "I am bored, let's plan something"
    ensures LowersAvoid(s, 0, 32, 'v')
    ensures LowersAvoid(s, 0, 11, 's')
  {
  }

  lemma BoredPromptFacts8(s: string)
    requires s == "I am bored, let's plan something"
    ensures LowersAvoid(s, 12, 32, 'r')
    ensures LowersToAt(s, 18, "plan")
  {
  }

  lemma BoredPromptLacksNo(s: string)
    requires |s| == 32
    requires LowersAvoid(s, 0, 11, 'n')
    requires LowersAvoid(s, 12, 22, 'o')
    requires LowersToAt(s, 23, "something")
    requires s[22] == ' '
    requires s[11] == ' '
    ensures !Contains(Lower(s), "no")
  {
    assert Lower(s)[0..32] == Lower(s);
    LowerSliceMisses(s, "no", 0, 11, 0);
    LowerSliceMisses(s, "no", 12, 22, 1);
    LowerSliceSpells(s, 23, "something");
    SomethingLacksNo();
    MissesAcross(Lower(s), ' ', "no", 12, 22, 32);
    MissesAcross(Lower(s), ' ', "no", 0, 11, 32);
  }

  lemma BoredPromptLacksNope(s: string)
    requires |s| == 32
    requires LowersAvoid(s, 0, 11, 'n')
    requires LowersAvoid(s, 12, 22, 'o')
    requires LowersAvoid(s, 23, 32, 'p')
    requires s[22] == ' '
    requires s[11] == ' '
    ensures !Contains(Lower(s), "nope")
  {
    assert Lower(s)[0..32] == Lower(s);
    assert ' ' !in "nope";
    LowerSliceMisses(s, "nope", 0, 11, 0);
    LowerSliceMisses(s, "nope", 12, 22, 1);
    LowerSliceMisses(s, "nope", 23, 32, 2);
    MissesAcross(Lower(s), ' ', "nope", 12, 22, 32);
    MissesAcross(Lower(s), ' ', "nope", 0, 11, 32);
  }

  lemma BoredPromptMissesConfirmation(s: string)
    requires |s| == 32
    requires LowersAvoid(s, 0, 32, 'y')
    requires LowersAvoid(s, 0, 32, 'u')
    ensures !Contains(Lower(s), "yes")
    ensures !Contains(Lower(s), "sure")
  {
    LowerMisses(s, "yes", 0);
    LowerMisses(s, "sure", 1);
  }

  lemma BoredPromptMissesThanks1(s: string)
    requires |s| == 32
    requires LowersAvoid(s, 0, 32, 'k')
    requires LowersAvoid(s, 0, 11, 'n')
    requires LowersAvoid(s, 12, 22, 'o')
    requires LowersToAt(s, 23, "something")
    requires s[22] == ' '
    requires s[11] == ' '
    ensures !Contains(Lower(s), "thanks")
    ensures !Contains(Lower(s), "thank you")
    ensures !Contains(Lower(s), "no")
  {
    LowerMisses(s, "thanks", 4);
    LowerMisses(s, "thank you", 4);
    BoredPromptLacksNo(s);
  }

  lemma BoredPromptMissesThanks2(s: string)
    requires |s| == 32
    requires LowersAvoid(s, 0, 11, 'n')
    requires LowersAvoid(s, 12, 22, 'o')
    requires LowersAvoid(s, 23, 32, 'p')
    requires s[22] == ' '
    requires s[11] == ' '
    ensures !Contains(Lower(s), "nope")
  {
    BoredPromptLacksNope(s);
  }

  lemma BoredPromptMissesMedicineQuery(s: string)
    requires |s| == 32
    requires LowersAvoid(s, 0, 32, 'c')
    ensures !Contains(Lower(s), "medicine")
    ensures !Contains(Lower(s), "medicines")
  {
    LowerMisses(s, "medicine", 4);
    LowerMisses(s, "medicines", 4);
  }

  lemma BoredPromptMissesHomeCheck1(s: string)
    requires |s| == 32
    requires LowersAvoid(s, 0, 32, 'c')
    requires LowersAvoid(s, 0, 32, 'f')
    ensures !Contains(Lower(s), "grocery")
    ensures !Contains(Lower(s), "medicine")
    ensures !Contains(Lower(s), "fruits")
  {
    LowerMisses(s, "grocery", 3);
    LowerMisses(s, "medicine", 4);
    LowerMisses(s, "fruits", 0);
  }

  lemma BoredPromptMissesHomeCheck2(s: string)
    requires |s| == 32
    requires LowersAvoid(s, 0, 32, 'v')
    ensures !Contains(Lower(s), "vegetables")
  {
    LowerMisses(s, "vegetables", 0);
  }

  lemma BoredPromptMissesShop(s: string)
    requires |s| == 32
    requires LowersAvoid(s, 0, 32, 'u')
    requires s[11] == ' '
    requires LowersAvoid(s, 0, 11, 's')
    requires LowersAvoid(s, 12, 32, 'r')
    requires LowersAvoid(s, 0, 32, 'c')
    ensures !Contains(Lower(s), "buy")
    ensures !Contains(Lower(s), "store")
    ensures !Contains(Lower(s), "grocery")
  {
    LowerMisses(s, "buy", 1);
    LowerMissesAcross(s, "store", 11, 0, 3);
    LowerMisses(s, "grocery", 3);
  }

  lemma BoredPromptHitsOuting(s: string)
    requires |s| == 32
    requires LowersToAt(s, 18, "plan")
    ensures Contains(Lower(s), "plan")
  {
    LowerFound(s, "plan", 18);
  }

  lemma BoredPromptDecides(s: string)
    requires !Contains(Lower(s), "yes")
    requires !Contains(Lower(s), "sure")
    requires !Contains(Lower(s), "thanks")
    requires !Contains(Lower(s), "thank you")
    requires !Contains(Lower(s), "no")
    requires !Contains(Lower(s), "nope")
    requires !Contains(Lower(s), "medicine")
    requires !Contains(Lower(s), "medicines")
    requires !Contains(Lower(s), "grocery")
    requires !Contains(Lower(s), "medicine")
    requires !Contains(Lower(s), "fruits")
    requires !Contains(Lower(s), "vegetables")
    requires !Contains(Lower(s), "buy")
    requires !Contains(Lower(s), "store")
    requires !Contains(Lower(s), "grocery")
    requires Contains(Lower(s), "plan")
    ensures C.Classify(Lower(s)) == C.Outing
  {
  }

  lemma BoredPromptClassifies()
    ensures C.Classify(Lower(D.TestPrompts[2])) == C.Outing
  {
    var s := D.TestPrompts[2];
    BoredPromptFacts1(s);
    BoredPromptFacts2(s);
    BoredPromptFacts3(s);
    BoredPromptFacts4(s);
    BoredPromptFacts5(s);
    BoredPromptFacts6(s);
    BoredPromptFacts7(s);
    BoredPromptFacts8(s);
    BoredPromptMissesConfirmation(s);
    BoredPromptMissesThanks1(s);
    BoredPromptMissesThanks2(s);
    BoredPromptMissesMedicineQuery(s);
    BoredPromptMissesHomeCheck1(s);
    BoredPromptMissesHomeCheck2(s);
    BoredPromptMissesShop(s);
    BoredPromptHitsOuting(s);
    BoredPromptDecides(s);
  }

  lemma MedicinesPromptFacts1(s: string)
    requires s == "What medicines do I need to take today?"
    ensures |s| == 39
    ensures s[14] == ' '
    ensures LowersAvoid(s, 0, 14, 'y')
    ensures LowersAvoid(s, 15, 39, 's')
  {
  }

  lemma MedicinesPromptFacts2(s: string)
    requires s == "What medicines do I need to take today?"
    ensures LowersAvoid(s, 0, 39, 'u')
    ensures s[4] == ' '
    ensures LowersAvoid(s, 0, 4, 'n')
  {
  }

  lemma MedicinesPromptFacts3(s: string)
    requires s == "What medicines do I need to take today?"
    ensures LowersAvoid(s, 5, 39, 'h')
    ensures LowersAvoid(s, 0, 14, 'o')
    ensures LowersAvoid(s, 15, 17, 'n')
    ensures LowersAvoid(s, 18, 24, 'o')
  {
  }

  lemma MedicinesPromptFacts4(s: string)
    requires s == "What medicines do I need to take today?"
    ensures LowersAvoid(s, 25, 39, 'n')
    ensures s[24] == ' '
    ensures s[17] == ' '
    ensures LowersAvoid(s, 0, 39, 'p')
  {
  }

  lemma MedicinesPromptFacts5(s: string)
    requires s == "What medicines do I need to take today?"
    ensures LowersToAt(s, 5, "medicine")
    ensures LowersToAt(s, 33, "today")
  {
  }

  lemma MedicinesPromptLacksNo(s: string)
    requires |s| == 39
    requires LowersAvoid(s, 0, 14, 'o')
    requires LowersAvoid(s, 15, 17, 'n')
    requires LowersAvoid(s, 18, 24, 'o')
    requires LowersAvoid(s, 25, 39, 'n')
    requires s[24] == ' '
    requires s[17] == ' '
    requires s[14] == ' '
    ensures !Contains(Lower(s), "no")
  {
    assert Lower(s)[0..39] == Lower(s);
    LowerSliceMisses(s, "no", 0, 14, 1);
    LowerSliceMisses(s, "no", 15, 17, 0);
    LowerSliceMisses(s, "no", 18, 24, 1);
    LowerSliceMisses(s, "no", 25, 39, 0);
    MissesAcross(Lower(s), ' ', "no", 18, 24, 39);
    MissesAcross(Lower(s), ' ', "no", 15, 17, 39);
    MissesAcross(Lower(s), ' ', "no", 0, 14, 39);
  }

  lemma MedicinesPromptMissesConfirmation(s: string)
    requires |s| == 39
    requires s[14] == ' '
    requires LowersAvoid(s, 0, 14, 'y')
    requires LowersAvoid(s, 15, 39, 's')
    requires LowersAvoid(s, 0, 39, 'u')
    ensures !Contains(Lower(s), "yes")
    ensures !Contains(Lower(s), "sure")
  {
    LowerMissesAcross(s, "yes", 14, 0, 2);
    LowerMisses(s, "sure", 1);
  }

  lemma MedicinesPromptMissesThanks1(s: string)
    requires |s| == 39
    requires s[4] == ' '
    requires LowersAvoid(s, 0, 4, 'n')
    requires LowersAvoid(s, 5, 39, 'h')
    requires LowersAvoid(s, 0, 39, 'u')
    requires LowersAvoid(s, 0, 14, 'o')
    requires LowersAvoid(s, 15, 17, 'n')
    requires LowersAvoid(s, 18, 24, 'o')
    requires LowersAvoid(s, 25, 39, 'n')
    requires s[24] == ' '
    requires s[17] == ' '
    requires s[14] == ' '
    ensures !Contains(Lower(s), "thanks")
    ensures !Contains(Lower(s), "thank you")
    ensures !Contains(Lower(s), "no")
  {
    LowerMissesAcross(s, "thanks", 4, 3, 1);
    LowerMisses(s, "thank you", 8);
    MedicinesPromptLacksNo(s);
  }

  lemma MedicinesPromptMissesThanks2(s: string)
    requires |s| == 39
    requires LowersAvoid(s, 0, 39, 'p')
    ensures !Contains(Lower(s), "nope")
  {
    LowerMisses(s, "nope", 2);
  }

  lemma MedicinesPromptHitsMedicineQuery(s: string)
    requires |s| == 39
    requires LowersToAt(s, 5, "medicine")
    requires LowersToAt(s, 33, "today")
    ensures Contains(Lower(s), "medicine")
    ensures Contains(Lower(s), "today")
  {
    LowerFound(s, "medicine", 5);
    LowerFound(s, "today", 33);
  }

  lemma MedicinesPromptDecides(s: string)
    requires !Contains(Lower(s), "yes")
    requires !Contains(Lower(s), "sure")
    requires !Contains(Lower(s), "thanks")
    requires !Contains(Lower(s), "thank you")
    requires !Contains(Lower(s), "no")
    requires !Contains(Lower(s), "nope")
    requires Contains(Lower(s), "medicine")
    requires Contains(Lower(s), "today")
    ensures C.Classify(Lower(s)) == C.MedicineQuery
  {
  }

  lemma MedicinesPromptClassifies()
    ensures C.Classify(Lower(D.TestPrompts[3])) == C.MedicineQuery
  {
    var s := D.TestPrompts[3];
    MedicinesPromptFacts1(s);
    MedicinesPromptFacts2(s);
    MedicinesPromptFacts3(s);
    MedicinesPromptFacts4(s);
    MedicinesPromptFacts5(s);
    MedicinesPromptMissesConfirmation(s);
    MedicinesPromptMissesThanks1(s);
    MedicinesPromptMissesThanks2(s);
    MedicinesPromptHitsMedicineQuery(s);
    MedicinesPromptDecides(s);
  }

  lemma GroceriesPromptFacts1(s: string)
    requires s == "I want to buy some groceries"
    ensures |s| == 28
    ensures s[13] == ' '
    ensures LowersAvoid(s, 0, 13, 'e')
    ensures LowersAvoid(s, 14, 28, 'y')
    ensures LowersAvoid(s, 0, 13, 's')
    ensures LowersAvoid(s, 14, 28, 'u')
  {
  }

  lemma GroceriesPromptFacts2(s: string)
    requires s == "I want to buy some groceries"
    ensures LowersAvoid(s, 0, 28, 'h')
    ensures s[6] == ' '
    ensures LowersAvoid(s, 0, 6, 'o')
    ensures LowersAvoid(s, 7, 28, 'n')
  {
  }

  lemma GroceriesPromptFacts3(s: string)
    requires s == "I want to buy some groceries"
    ensures LowersAvoid(s, 0, 28, 'p')
    ensures LowersAvoid(s, 0, 28, 'd')
  {
  }

  lemma GroceriesPromptFacts4(s: string)
    requires s == "I want to buy some groceries"
    ensures LowersAvoid(s, 0, 13, 'g')
    ensures LowersAvoid(s, 0, 28, 'f')
  {
  }

  lemma GroceriesPromptFacts5(s: string)
    requires s == "I want to buy some groceries"
    ensures LowersAvoid(s, 0, 28, 'v')
    ensures LowersToAt(s, 10, "buy")
  {
  }

  lemma GroceriesPromptMissesConfirmation(s: string)
    requires |s| == 28
    requires s[13] == ' '
    requires LowersAvoid(s, 0, 13, 'e')
    requires LowersAvoid(s, 14, 28, 'y')
    requires LowersAvoid(s, 0, 13, 's')
    requires LowersAvoid(s, 14, 28, 'u')
    ensures !Contains(Lower(s), "yes")
    ensures !Contains(Lower(s), "sure")
  {
    LowerMissesAcross(s, "yes", 13, 1, 0);
    LowerMissesAcross(s, "sure", 13, 0, 1);
  }

  lemma GroceriesPromptMissesThanks1(s: string)
    requires |s| == 28
    requires LowersAvoid(s, 0, 28, 'h')
    requires s[6] == ' '
    requires LowersAvoid(s, 0, 6, 'o')
    requires LowersAvoid(s, 7, 28, 'n')
    ensures !Contains(Lower(s), "thanks")
    ensures !Contains(Lower(s), "thank you")
    ensures !Contains(Lower(s), "no")
  {
    LowerMisses(s, "thanks", 1);
    LowerMisses(s, "thank you", 1);
    LowerMissesAcross(s, "no", 6, 1, 0);
  }

  lemma GroceriesPromptMissesThanks2(s: string)
    requires |s| == 28
    requires LowersAvoid(s, 0, 28, 'p')
    ensures !Contains(Lower(s), "nope")
  {
    LowerMisses(s, "nope", 2);
  }

  lemma GroceriesPromptMissesMedicineQuery(s: string)
    requires |s| == 28
    requires LowersAvoid(s, 0, 28, 'd')
    ensures !Contains(Lower(s), "medicine")
    ensures !Contains(Lower(s), "medicines")
  {
    LowerMisses(s, "medicine", 2);
    LowerMisses(s, "medicines", 2);
  }

  lemma GroceriesPromptMissesHomeCheck1(s: string)
    requires |s| == 28
    requires s[13] == ' '
    requires LowersAvoid(s, 0, 13, 'g')
    requires LowersAvoid(s, 14, 28, 'y')
    requires LowersAvoid(s, 0, 28, 'd')
    requires LowersAvoid(s, 0, 28, 'f')
    ensures !Contains(Lower(s), "grocery")
    ensures !Contains(Lower(s), "medicine")
    ensures !Contains(Lower(s), "fruits")
  {
    LowerMissesAcross(s, "grocery", 13, 0, 6);
    LowerMisses(s, "medicine", 2);
    LowerMisses(s, "fruits", 0);
  }

  lemma GroceriesPromptMissesHomeCheck2(s: string)
    requires |s| == 28
    requires LowersAvoid(s, 0, 28, 'v')
    ensures !Contains(Lower(s), "vegetables")
  {
    LowerMisses(s, "vegetables", 0);
  }

  lemma GroceriesPromptHitsShop(s: string)
    requires |s| == 28
    requires LowersToAt(s, 10, "buy")
    ensures Contains(Lower(s), "buy")
  {
    LowerFound(s, "buy", 10);
  }

  lemma GroceriesPromptDecides(s: string)
    requires !Contains(Lower(s), "yes")
    requires !Contains(Lower(s), "sure")
    requires !Contains(Lower(s), "thanks")
    requires !Contains(Lower(s), "thank you")
    requires !Contains(Lower(s), "no")
    requires !Contains(Lower(s), "nope")
    requires !Contains(Lower(s), "medicine")
    requires !Contains(Lower(s), "medicines")
    requires !Contains(Lower(s), "grocery")
    requires !Contains(Lower(s), "medicine")
    requires !Contains(Lower(s), "fruits")
    requires !Contains(Lower(s), "vegetables")
    requires Contains(Lower(s), "buy")
    ensures C.Classify(Lower(s)) == C.Shop
  {
  }

  lemma GroceriesPromptClassifies()
    ensures C.Classify(Lower(D.TestPrompts[4])) == C.Shop
  {
    var s := D.TestPrompts[4];
    GroceriesPromptFacts1(s);
    GroceriesPromptFacts2(s);
    GroceriesPromptFacts3(s);
    GroceriesPromptFacts4(s);
    GroceriesPromptFacts5(s);
    GroceriesPromptMissesConfirmation(s);
    GroceriesPromptMissesThanks1(s);
    GroceriesPromptMissesThanks2(s);
    GroceriesPromptMissesMedicineQuery(s);
    GroceriesPromptMissesHomeCheck1(s);
    GroceriesPromptMissesHomeCheck2(s);
    GroceriesPromptHitsShop(s);
    GroceriesPromptDecides(s);
  }

  lemma SleepyPromptFacts1(s: string)
    requires s == "I feel sleepy"
    ensures |s| == 13
    ensures LowersAvoid(s, 0, 6, 'y')
    ensures LowersToAt(s, 7, "sleepy")
    ensures s[6] == ' '
    ensures LowersAvoid(s, 0, 13, 'u')
    ensures LowersAvoid(s, 0, 13, 't')
    ensures LowersAvoid(s, 0, 13, 'n')
  {
  }

  lemma SleepyPromptFacts2(s: string)
    requires s == "I feel sleepy"
    ensures LowersAvoid(s, 0, 13, 'm')
    ensures LowersAvoid(s, 0, 13, 'g')
    ensures LowersAvoid(s, 0, 13, 'r')
    ensures LowersAvoid(s, 0, 13, 'v')
  {
  }

  lemma SleepyPromptFacts3(s: string)
    requires s == "I feel sleepy"
    ensures LowersAvoid(s, 0, 13, 'b')
    ensures LowersAvoid(s, 0, 13, 'a')
    ensures LowersAvoid(s, 0, 13, 'd')
    ensures LowersToAt(s, 7, "sleep")
  {
  }

  lemma SleepyPromptLacksYes(s: string)
    requires |s| == 13
    requires LowersAvoid(s, 0, 6, 'y')
    requires LowersToAt(s, 7, "sleepy")
    requires s[6] == ' '
    ensures !Contains(Lower(s), "yes")
  {
    assert Lower(s)[0..13] == Lower(s);
    LowerSliceMisses(s, "yes", 0, 6, 0);
    LowerSliceSpells(s, 7, "sleepy");
    SleepyLacksYes();
    MissesAcross(Lower(s), ' ', "yes", 0, 6, 13);
  }

  lemma SleepyPromptMissesConfirmation(s: string)
    requires |s| == 13
    requires LowersAvoid(s, 0, 6, 'y')
    requires LowersToAt(s, 7, "sleepy")
    requires s[6] == ' '
    requires LowersAvoid(s, 0, 13, 'u')
    ensures !Contains(Lower(s), "yes")
    ensures !Contains(Lower(s), "sure")
  {
    SleepyPromptLacksYes(s);
    LowerMisses(s, "sure", 1);
  }

  lemma SleepyPromptMissesThanks1(s: string)
    requires |s| == 13
    requires LowersAvoid(s, 0, 13, 't')
    requires LowersAvoid(s, 0, 13, 'n')
    ensures !Contains(Lower(s), "thanks")
    ensures !Contains(Lower(s), "thank you")
    ensures !Contains(Lower(s), "no")
  {
    LowerMisses(s, "thanks", 0);
    LowerMisses(s, "thank you", 0);
    LowerMisses(s, "no", 0);
  }

  lemma SleepyPromptMissesThanks2(s: string)
    requires |s| == 13
    requires LowersAvoid(s, 0, 13, 'n')
    ensures !Contains(Lower(s), "nope")
  {
    LowerMisses(s, "nope", 0);
  }

  lemma SleepyPromptMissesMedicineQuery(s: string)
    requires |s| == 13
    requires LowersAvoid(s, 0, 13, 'm')
    ensures !Contains(Lower(s), "medicine")
    ensures !Contains(Lower(s), "medicines")
  {
    LowerMisses(s, "medicine", 0);
    LowerMisses(s, "medicines", 0);
  }

  lemma SleepyPromptMissesHomeCheck1(s: string)
    requires |s| == 13
    requires LowersAvoid(s, 0, 13, 'g')
    requires LowersAvoid(s, 0, 13, 'm')
    requires LowersAvoid(s, 0, 13, 'r')
    ensures !Contains(Lower(s), "grocery")
    ensures !Contains(Lower(s), "medicine")
    ensures !Contains(Lower(s), "fruits")
  {
    LowerMisses(s, "grocery", 0);
    LowerMisses(s, "medicine", 0);
    LowerMisses(s, "fruits", 1);
  }

  lemma SleepyPromptMissesHomeCheck2(s: string)
    requires |s| == 13
    requires LowersAvoid(s, 0, 13, 'v')
    ensures !Contains(Lower(s), "vegetables")
  {
    LowerMisses(s, "vegetables", 0);
  }

  lemma SleepyPromptMissesShop(s: string)
    requires |s| == 13
    requires LowersAvoid(s, 0, 13, 'b')
    requires LowersAvoid(s, 0, 13, 't')
    requires LowersAvoid(s, 0, 13, 'g')
    ensures !Contains(Lower(s), "buy")
    ensures !Contains(Lower(s), "store")
    ensures !Contains(Lower(s), "grocery")
  {
    LowerMisses(s, "buy", 0);
    LowerMisses(s, "store", 1);
    LowerMisses(s, "grocery", 0);
  }

  lemma SleepyPromptMissesOuting1(s: string)
    requires |s| == 13
    requires LowersAvoid(s, 0, 13, 'g')
    requires LowersAvoid(s, 0, 13, 'a')
    requires LowersAvoid(s, 0, 13, 'm')
    ensures !Contains(Lower(s), "go out")
    ensures !Contains(Lower(s), "party")
    ensures !Contains(Lower(s), "meet friends")
  {
    LowerMisses(s, "go out", 0);
    LowerMisses(s, "party", 1);
    LowerMisses(s, "meet friends", 0);
  }

  lemma SleepyPromptMissesOuting2(s: string)
    requires |s| == 13
    requires LowersAvoid(s, 0, 13, 'd')
    requires LowersAvoid(s, 0, 13, 'a')
    ensures !Contains(Lower(s), "dinner")
    ensures !Contains(Lower(s), "plan")
  {
    LowerMisses(s, "dinner", 0);
    LowerMisses(s, "plan", 2);
  }

  lemma SleepyPromptHitsSleep(s: string)
    requires |s| == 13
    requires LowersToAt(s, 7, "sleep")
    ensures Contains(Lower(s), "sleep")
  {
    LowerFound(s, "sleep", 7);
  }

  lemma SleepyPromptDecides(s: string)
    requires !Contains(Lower(s), "yes")
    requires !Contains(Lower(s), "sure")
    requires !Contains(Lower(s), "thanks")
    requires !Contains(Lower(s), "thank you")
    requires !Contains(Lower(s), "no")
    requires !Contains(Lower(s), "nope")
    requires !Contains(Lower(s), "medicine")
    requires !Contains(Lower(s), "medicines")
    requires !Contains(Lower(s), "grocery")
    requires !Contains(Lower(s), "medicine")
    requires !Contains(Lower(s), "fruits")
    requires !Contains(Lower(s), "vegetables")
    requires !Contains(Lower(s), "buy")
    requires !Contains(Lower(s), "store")
    requires !Contains(Lower(s), "grocery")
    requires !Contains(Lower(s), "go out")
    requires !Contains(Lower(s), "party")
    requires !Contains(Lower(s), "meet friends")
    requires !Contains(Lower(s), "dinner")
    requires !Contains(Lower(s), "plan")
    requires Contains(Lower(s), "sleep")
    ensures C.Classify(Lower(s)) == C.Sleep
  {
  }

  lemma SleepyPromptClassifies()
    ensures C.Classify(Lower(D.TestPrompts[5])) == C.Sleep
  {
    var s := D.TestPrompts[5];
    SleepyPromptFacts1(s);
    SleepyPromptFacts2(s);
    SleepyPromptFacts3(s);
    SleepyPromptMissesConfirmation(s);
    SleepyPromptMissesThanks1(s);
    SleepyPromptMissesThanks2(s);
    SleepyPromptMissesMedicineQuery(s);
    SleepyPromptMissesHomeCheck1(s);
    SleepyPromptMissesHomeCheck2(s);
    SleepyPromptMissesShop(s);
    SleepyPromptMissesOuting1(s);
    SleepyPromptMissesOuting2(s);
    SleepyPromptHitsSleep(s);
    SleepyPromptDecides(s);
  }

  /** The branch each example prompt is dispatched to. */
  lemma TestPromptsClassify()
    ensures C.Classify(Lower(D.TestPrompts[0])) == C.HomeCheck
    ensures C.Classify(Lower(D.TestPrompts[1])) == C.Dial
    ensures C.Classify(Lower(D.TestPrompts[2])) == C.Outing
    ensures C.Classify(Lower(D.TestPrompts[3])) == C.MedicineQuery
    ensures C.Classify(Lower(D.TestPrompts[4])) == C.Shop
    ensures C.Classify(Lower(D.TestPrompts[5])) == C.Sleep
  {
    FruitsPromptClassifies();
    HelpPromptClassifies();
    BoredPromptClassifies();
    MedicinesPromptClassifies();
    GroceriesPromptClassifies();
    SleepyPromptClassifies();
  }
}
