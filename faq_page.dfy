/**
 * The FAQ page: twenty question-and-answer entries under a search box that
 * keeps the entries whose question contains the search, ignoring letter case.
 */
module FaqPage {
  import opened Text

  datatype FaqEntry = FaqEntry(question: string, answer: string)

  /** The entries the page lists. */
  const FaqEntries: seq<FaqEntry> := [
    FaqEntry("What is groundwater?",
             "Groundwater is water stored beneath Earth’s surface in soil and rock layers."),
    FaqEntry("Why is groundwater important in India?",
             "It provides nearly 60% of irrigation and 50% of drinking water in India."),
    FaqEntry("Which states face critical groundwater stress?",
             "Punjab, Haryana, Rajasthan, Tamil Nadu, and parts of UP."),
    FaqEntry("What is groundwater recharge?",
             "Recharge is the process where rainwater infiltrates into the soil to replenish aquifers."),
    FaqEntry("What does over-exploited mean?",
             "When groundwater extraction exceeds natural recharge capacity."),
    FaqEntry("How can we conserve groundwater?",
             "By rainwater harvesting, efficient irrigation, recycling wastewater, etc."),
    FaqEntry("What is groundwater salinity?",
             "Salinity occurs when groundwater has excessive dissolved salts, making it unsafe."),
    FaqEntry("Can polluted groundwater be treated?",
             "Yes, using filtration, reverse osmosis, and proper treatment techniques."),
    FaqEntry("What is semi-critical groundwater status?",
             "Areas where extraction is nearing recharge limit but not yet overused."),
    FaqEntry("How is groundwater monitored in India?",
             "By the Central Ground Water Board (CGWB) and state agencies."),
    FaqEntry("What are safe groundwater zones?",
             "Regions where extraction is well below recharge capacity."),
    FaqEntry("What are the main groundwater contaminants?",
             "Fluoride, arsenic, nitrates, and industrial pollutants."),
    FaqEntry("Why is Punjab facing groundwater depletion?",
             "Due to overuse of tubewells for water-intensive crops like rice."),
    FaqEntry("How does climate change affect groundwater?",
             "Reduced rainfall and higher evaporation lower recharge levels."),
    FaqEntry("What is the role of aquifers?",
             "Aquifers store and transmit groundwater for human and ecological use."),
    FaqEntry("What is artificial recharge?",
             "Techniques like check dams and percolation tanks that improve groundwater storage."),
    FaqEntry("What is dynamic groundwater resource?",
             "It’s the annually replenishable groundwater available in an area."),
    FaqEntry("Which city in India has critical groundwater issues?",
             "Chennai and Bengaluru have reported severe water shortages."),
    FaqEntry("What are rainwater harvesting methods?",
             "Rooftop harvesting, recharge pits, trenches, and farm ponds."),
    FaqEntry("What is groundwater regulation law in India?",
             "Many states follow the Model Bill for Groundwater Regulation 2011.")
  ]

  /** An entry is kept when its lower-cased question contains the lower-cased search (not trimmed). */
  predicate Matches(e: FaqEntry, search: string) {
    Contains(Lower(e.question), Lower(search))
  }

  /** `faqData.filter(...)`: the matching entries, in their order. */
  function Filtered(entries: seq<FaqEntry>, search: string): (r: seq<FaqEntry>)
    ensures |r| <= |entries|
    ensures forall e :: e in r <==> e in entries && Matches(e, search)
  {
    if entries == [] then []
    else
      var rest := Filtered(entries[1..], search);
      assert forall e :: e in entries <==> e == entries[0] || e in entries[1..];
      if Matches(entries[0], search) then [entries[0]] + rest else rest
  }

  /** Filtering keeps the order: it distributes over concatenation. */
  lemma {:induction false} FilteredAppend(a: seq<FaqEntry>, b: seq<FaqEntry>, search: string)
    ensures Filtered(a + b, search) == Filtered(a, search) + Filtered(b, search)
  {
    if a != [] {
      assert (a + b)[1..] == a[1..] + b;
      FilteredAppend(a[1..], b, search);
    } else {
      assert a + b == b;
    }
  }

  /** The empty search lists every entry. */
  lemma {:induction false} EmptySearchKeepsAll(entries: seq<FaqEntry>)
    ensures Filtered(entries, "") == entries
  {
    if entries != [] {
      ContainsEmpty(Lower(entries[0].question));
      assert Lower("") == "";
      EmptySearchKeepsAll(entries[1..]);
      assert [entries[0]] + entries[1..] == entries;
    }
  }

  /** The page starts with all twenty entries listed. */
  lemma AllTwentyListed()
    ensures |FaqEntries| == 20
    ensures Filtered(FaqEntries, "") == FaqEntries
  {
    EmptySearchKeepsAll(FaqEntries);
  }

  /** Searches that differ only in letter case list the same entries. */
  lemma {:induction false} CaseInsensitive(entries: seq<FaqEntry>, search: string)
    ensures Filtered(entries, search) == Filtered(entries, Lower(search))
  {
    LowerIdempotent(search);
    if entries != [] {
      CaseInsensitive(entries[1..], search);
    }
  }

  /** A longer search that contains a shorter one lists no entry the shorter one does not. */
  lemma NarrowingSearch(entries: seq<FaqEntry>, short: string, long: string)
    requires Contains(long, short)
    ensures forall e :: e in Filtered(entries, long) ==> e in Filtered(entries, short)
  {
    ContainsLower(long, short);
    forall e | e in Filtered(entries, long) ensures e in Filtered(entries, short) {
      ContainsTransitive(Lower(e.question), Lower(long), Lower(short));
    }
  }

  /** "No questions found" appears exactly when no entry matches. */
  lemma NoResultsIff(entries: seq<FaqEntry>, search: string)
    ensures Filtered(entries, search) == [] <==> forall i :: 0 <= i < |entries| ==> !Matches(entries[i], search)
  {
    if Filtered(entries, search) != [] {
      assert Filtered(entries, search)[0] in Filtered(entries, search);
    }
  }
}
