/** The FAQ block: which questions are listed, and which of them are open. */
module FaqSection {
  import opened Wrappers
  import opened Text
  import opened SeoUtils

  // ---------------------------------------------------------------- open items

  /** `toggleItem`'s update: an open index is closed everywhere it occurs; a closed one is opened at the end. */
  function Toggled(prev: seq<int>, index: int): (r: seq<int>)
    ensures index in prev ==> r == Filter(prev, (item: int) => item != index)
    ensures index !in prev ==> r == prev + [index]
  {
    if index in prev then Filter(prev, (item: int) => item != index) else prev + [index]
  }

  /** Toggling flips the index and leaves every other index as it was. */
  lemma ToggleFlips(prev: seq<int>, index: int, other: int)
    ensures index in Toggled(prev, index) <==> index !in prev
    ensures other != index ==> (other in Toggled(prev, index) <==> other in prev)
  {
  }

  /** Toggling the same index twice restores every membership; from a closed index it restores the list itself. */
  lemma {:induction false} ToggleTwice(prev: seq<int>, index: int)
    ensures forall x :: x in Toggled(Toggled(prev, index), index) <==> x in prev
    ensures index !in prev ==> Toggled(Toggled(prev, index), index) == prev
  {
    var once := Toggled(prev, index);
    forall x ensures x in Toggled(once, index) <==> x in prev {
      ToggleFlips(prev, index, x);
      ToggleFlips(once, index, x);
    }
    if index !in prev {
      FilterSnoc(prev, index, (item: int) => item != index);
      FilterKeepsAll(prev, (item: int) => item != index);
    }
  }

  /** No index is ever listed twice if none was before. */
  lemma ToggleKeepsDistinct(prev: seq<int>, index: int)
    requires NoDup(prev)
    ensures NoDup(Toggled(prev, index))
  {
    if index in prev {
      FilterKeepsDistinct(prev, (item: int) => item != index);
    } else {
      NoDupSnoc(prev, index);
    }
  }

  /** Keeping part of a list without repetitions leaves none. */
  lemma {:induction false} FilterKeepsDistinct(s: seq<int>, keep: int -> bool)
    requires NoDup(s)
    ensures NoDup(Filter(s, keep))
  {
    if s != [] {
      assert NoDup(s[1..]) by {
        forall i, j | 0 <= i < j < |s[1..]| ensures s[1..][i] != s[1..][j] {
          assert s[1..][i] == s[i + 1] && s[1..][j] == s[j + 1];
        }
      }
      FilterKeepsDistinct(s[1..], keep);
      if keep(s[0]) {
        var rest := Filter(s[1..], keep);
        assert s[0] !in s[1..];
        assert s[0] !in rest;
        var r := [s[0]] + rest;
        forall i, j | 0 <= i < j < |r| ensures r[i] != r[j] {
          if i == 0 {
            assert r[j] in rest;
          } else {
            assert r[i] == rest[i - 1] && r[j] == rest[j - 1];
          }
        }
      }
    }
  }

  /** The state the section keeps: the indices of the open questions, empty at first. */
  class OpenItems {
    var openItems: seq<int>

    ghost predicate Valid()
      reads this
    {
      NoDup(openItems)
    }

    constructor ()
      ensures openItems == [] && Valid()
    {
      openItems := [];
    }

    /** A click on question `index`. */
    method ToggleItem(index: int)
      requires Valid()
      modifies this
      ensures Valid()
      ensures openItems == Toggled(old(openItems), index)
    {
      ToggleKeepsDistinct(openItems, index);
      openItems := Toggled(openItems, index);
    }
  }

  // ---------------------------------------------------------------- the questions

  /** `locationName || 'Sydney'`. */
  function Place(locationName: Option<string>): (r: string)
    ensures locationName.None? || locationName.value == "" ==> r == "Sydney"
    ensures locationName.Some? && locationName.value != "" ==> r == locationName.value
  {
    if locationName.Some? && locationName.value != "" then locationName.value else "Sydney"
  }

  /** The fixed wording of the section, piece by piece. */
  datatype Wording =
    | OftenQ | OftenA1 | OftenA2 | AreasQ | AreasA1 | AreasA2 | SameDayQ | SameDayA1 | SameDayA2
    | CleaningAnswer | MaintenanceAnswer | ChemicalAnswer | RepairsAnswer
    | IncludedQ1 | IncludedQ2 | CostQ1 | CostQ2 | PricingA
    | OfferQ | OfferA | LicensedQ | LicensedA | ChemicalsQ | ChemicalsA | SatisfiedQ | SatisfiedA

  function Words(w: Wording): string
  {
    match w
    case OftenQ => "How often should I have my pool cleaned in "
    case OftenA1 => "In "
    case OftenA2 =>
      ", we recommend weekly pool cleaning " +
      "during swimming season (October-April) " +
      "and fortnightly during cooler months. " +
      "The frequency may vary based on pool " +
      "usage, surrounding vegetation, and " +
      "weather conditions."
    case AreasQ => "What are your service areas in "
    case AreasA1 => "We provide comprehensive pool services throughout "
    case AreasA2 =>
      " and surrounding suburbs. Our " +
      "technicians are familiar with local " +
      "pool conditions and regulations " +
      "specific to the area."
    case SameDayQ => "Do you offer same-day pool service in "
    case SameDayA1 => "Yes! We offer same-day emergency pool services in "
    case SameDayA2 =>
      " for urgent issues like green water, " +
      "equipment failures, or pre-event " +
      "cleanings. Contact us before 2 PM for " +
      "same-day availability."
    case CleaningAnswer =>
      "Our pool cleaning service includes " +
      "skimming debris, vacuuming, brushing " +
      "walls and steps, emptying skimmer and " +
      "pump baskets, testing water chemistry, " +
      "and a visual equipment check."
    case MaintenanceAnswer =>
      "Our maintenance service includes " +
      "equipment inspection, filter " +
      "cleaning/replacement, pump basket " +
      "cleaning, water testing and balancing, " +
      "equipment lubrication, and system " +
      "optimization."
    case ChemicalAnswer =>
      "Chemical balancing includes " +
      "comprehensive water testing, pH " +
      "adjustment, sanitizer level " +
      "optimization, alkalinity balancing, " +
      "calcium hardness adjustment, and shock " +
      "treatment if needed."
    case RepairsAnswer =>
      "Equipment repairs include diagnosis, " +
      "genuine parts replacement, system " +
      "testing, warranty coverage, and " +
      "follow-up checks to ensure optimal " +
      "performance."
    case IncludedQ1 => "What's included in your "
    case IncludedQ2 => " service?"
    case CostQ1 => "How much does "
    case CostQ2 => " cost in "
    case PricingA =>
      " pricing varies based on pool size, " +
      "condition, and specific requirements. " +
      "We offer competitive rates with " +
      "transparent pricing. Contact us for a " +
      "personalized quote based on your pool's " +
      "needs."
    case OfferQ => "What pool services do you offer?"
    case OfferA =>
      "We offer comprehensive pool services " +
      "including regular cleaning, " +
      "maintenance, chemical balancing, " +
      "equipment repairs, and emergency " +
      "services. All our technicians are " +
      "licensed and insured."
    case LicensedQ => "Are your technicians licensed and insured?"
    case LicensedA =>
      "Yes, all our pool technicians are fully " +
      "licensed, insured, and undergo regular " +
      "training to stay current with industry " +
      "best practices and safety standards."
    case ChemicalsQ => "Do you provide your own chemicals and equipment?"
    case ChemicalsA =>
      "Yes, we bring all necessary chemicals, " +
      "equipment, and tools to every service " +
      "visit. We use only high-quality, " +
      "pool-safe chemicals and " +
      "professional-grade equipment."
    case SatisfiedQ => "What if I'm not satisfied with the service?"
    case SatisfiedA =>
      "We offer a 100% satisfaction guarantee. " +
      "If you're not completely happy with our " +
      "service, we'll return to address any " +
      "concerns at no additional charge."
  }

  /** The three questions about the place, each naming it in question and answer. */
  function LocationFaqs(place: string): (r: seq<Faq>)
    ensures |r| == 3
    ensures forall i :: 0 <= i < 3 ==> Contains(r[i].question, place) && Contains(r[i].answer, place)
  {
    ContainsMiddle(Words(OftenQ), place, "?");
    ContainsMiddle(Words(OftenA1), place, Words(OftenA2));
    ContainsMiddle(Words(AreasQ), place, "?");
    ContainsMiddle(Words(AreasA1), place, Words(AreasA2));
    ContainsMiddle(Words(SameDayQ), place, "?");
    ContainsMiddle(Words(SameDayA1), place, Words(SameDayA2));
    [Faq(Words(OftenQ) + place + "?", Words(OftenA1) + place + Words(OftenA2)),
     Faq(Words(AreasQ) + place + "?", Words(AreasA1) + place + Words(AreasA2)),
     Faq(Words(SameDayQ) + place + "?", Words(SameDayA1) + place + Words(SameDayA2))]
  }

  /** The answer to "What's included", chosen by the exact service name. */
  function ServiceAnswer(serviceName: string): Wording
  {
    if serviceName == "Pool Cleaning" then CleaningAnswer
    else if serviceName == "Pool Maintenance" then MaintenanceAnswer
    else if serviceName == "Chemical Balancing" then ChemicalAnswer
    else RepairsAnswer
  }

  /** The four answers read differently, so the text shown tells which name matched; any other name gets the repairs text. */
  lemma ServiceAnswerByExactName(serviceName: string)
    ensures Words(ServiceAnswer(serviceName)) == Words(CleaningAnswer) <==> serviceName == "Pool Cleaning"
    ensures Words(ServiceAnswer(serviceName)) == Words(MaintenanceAnswer) <==> serviceName == "Pool Maintenance"
    ensures Words(ServiceAnswer(serviceName)) == Words(ChemicalAnswer) <==> serviceName == "Chemical Balancing"
    ensures Words(ServiceAnswer(serviceName)) == Words(RepairsAnswer) <==>
      serviceName != "Pool Cleaning" && serviceName != "Pool Maintenance" && serviceName != "Chemical Balancing"
  {
    var cleaning, maintenance := Words(CleaningAnswer), Words(MaintenanceAnswer);
    var chemical, repairs := Words(ChemicalAnswer), Words(RepairsAnswer);
    assert cleaning[0] == 'O' && cleaning[4] == 'p';
    assert maintenance[0] == 'O' && maintenance[4] == 'm';
    assert chemical[0] == 'C';
    assert repairs[0] == 'E';
  }

  /** The two questions about the service. */
  function ServiceFaqs(serviceName: string, place: string): (r: seq<Faq>)
    ensures |r| == 2
    ensures Contains(r[0].question, ToLower(serviceName)) && r[0].answer == Words(ServiceAnswer(serviceName))
    ensures Contains(r[1].question, ToLower(serviceName)) && IsPrefix(serviceName, r[1].answer)
  {
    var name := ToLower(serviceName);
    var tail := Words(CostQ2) + place + "?";
    ContainsMiddle(Words(IncludedQ1), name, Words(IncludedQ2));
    ContainsMiddle(Words(CostQ1), name, tail);
    PrefixOfConcat(serviceName, Words(PricingA));
    [Faq(Words(IncludedQ1) + name + Words(IncludedQ2), Words(ServiceAnswer(serviceName))),
     Faq(Words(CostQ1) + name + tail, serviceName + Words(PricingA))]
  }

  /** The four questions shown when no service is named. */
  function GeneralFaqs(): (r: seq<Faq>)
    ensures |r| == 4
  {
    [Faq(Words(OfferQ), Words(OfferA)), Faq(Words(LicensedQ), Words(LicensedA)),
     Faq(Words(ChemicalsQ), Words(ChemicalsA)), Faq(Words(SatisfiedQ), Words(SatisfiedA))]
  }

  /** `if (serviceName)`: an empty name counts as none. */
  predicate Named(serviceName: Option<string>)
  {
    serviceName.Some? && serviceName.value != ""
  }

  /** `getLocationSpecificFAQs`. */
  function Faqs(serviceName: Option<string>, locationName: Option<string>): (r: seq<Faq>)
    ensures Named(serviceName) ==> |r| == 5
    ensures !Named(serviceName) ==> |r| == 7
  {
    var place := Place(locationName);
    if Named(serviceName) then ServiceFaqs(serviceName.value, place) + LocationFaqs(place)
    else GeneralFaqs() + LocationFaqs(place)
  }

  /**
   * With a service: its two questions, then the three about the place. Without one: the four general
   * questions, then the same three. Either way the list ends with the place questions, naming 'Sydney' by default.
   */
  lemma {:induction false} FaqOrder(serviceName: Option<string>, locationName: Option<string>)
    ensures var r := Faqs(serviceName, locationName);
      (Named(serviceName) ==> r[..2] == ServiceFaqs(serviceName.value, Place(locationName)))
      && (!Named(serviceName) ==> r[..4] == GeneralFaqs())
      && r[|r| - 3..] == LocationFaqs(Place(locationName))
    ensures locationName.None? ==>
      forall i :: |Faqs(serviceName, locationName)| - 3 <= i < |Faqs(serviceName, locationName)| ==>
        Contains(Faqs(serviceName, locationName)[i].question, "Sydney")
  {
    var place := Place(locationName);
    var r := Faqs(serviceName, locationName);
    var front := if Named(serviceName) then ServiceFaqs(serviceName.value, place) else GeneralFaqs();
    assert r == front + LocationFaqs(place);
    assert r[|front|..] == LocationFaqs(place);
    assert r[..|front|] == front;
    if locationName.None? {
      forall i | |r| - 3 <= i < |r| ensures Contains(r[i].question, "Sydney") {
        assert r[i] == LocationFaqs(place)[i - |front|];
      }
    }
  }
}
