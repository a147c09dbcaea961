/**
 * The chatbot's knowledge base (`src/data/faqData.js`): nine question / answer
 * records, the first five of which carry a chart.
 */
module KnowledgeBase {
  import opened Wrappers
  import opened Text
  import opened ChartGeometry

  /** One record: the trigger phrase, the reply, and an optional chart. */
  datatype FaqRecord = FaqRecord(
    question: string,
    answer: string,
    chartType: Option<string>,
    chartTitle: Option<string>,
    chartData: Option<seq<DataPoint>>)

  const Q0: string := "groundwater levels in maharashtra"
  const Q1: string := "karnataka status"
  const Q2: string := "compare state groundwater"
  const Q3: string := "trends in maharashtra"
  const Q4: string := "show me conservation methods"
  const Q5: string := "what is groundwater"
  const Q6: string := "why is groundwater important"
  const Q7: string := "what is water recharge"
  const Q8: string := "what does critical status mean"

  const Green: Option<string> := Some("#10B981")
  const Amber: Option<string> := Some("#F59E0B")
  const Red: Option<string> := Some("#EF4444")
  const Blue: Option<string> := Some("#3B82F6")
  const Violet: Option<string> := Some("#8B5CF6")
  const Pink: Option<string> := Some("#EC4899")

  const MaharashtraStatus: seq<DataPoint> :=
    [DataPoint("Safe", 50.0, Green), DataPoint("Semi-Critical", 30.0, Amber), DataPoint("Critical", 20.0, Red)]

  const KarnatakaDistribution: seq<DataPoint> :=
    [DataPoint("Safe", 40.0, Green), DataPoint("Semi-Critical", 40.0, Amber), DataPoint("Critical", 20.0, Red)]

  const StateComparison: seq<DataPoint> :=
    [DataPoint("Maharashtra", 50.0, Blue), DataPoint("Karnataka", 40.0, Violet),
     DataPoint("Tamil Nadu", 60.0, Pink), DataPoint("Uttar Pradesh", 35.0, Amber)]

  const MaharashtraTrend: seq<DataPoint> :=
    [DataPoint("2018", 35.0, None), DataPoint("2019", 38.0, None), DataPoint("2020", 42.0, None),
     DataPoint("2021", 46.0, None), DataPoint("2022", 50.0, None)]

  const ConservationMethods: seq<DataPoint> :=
    [DataPoint("Rainwater Harvesting", 80.0, Blue), DataPoint("Drip Irrigation", 75.0, Green),
     DataPoint("Watershed Management", 70.0, Amber), DataPoint("Artificial Recharge", 85.0, Violet)]

  /** The questions in table order. */
  const Questions: seq<string> := [Q0, Q1, Q2, Q3, Q4, Q5, Q6, Q7, Q8]

  // The answers, one per question.
  const A0: string :=
    "Here's the current groundwater status in Maharashtra. The state has 50% safe areas, 30% semi-critical, and 20% critical zones. Conservation efforts are needed in the critical regions."
  const A1: string :=
    "Karnataka's groundwater distribution shows 40% safe areas, 40% semi-critical, and 20% critical regions. The state needs to focus on recharge initiatives."
  const A2: string :=
    "Here's a comparison of groundwater levels across major states. Maharashtra has higher safe areas while Karnataka has more semi-critical zones."
  const A3: string :=
    "Groundwater trends in Maharashtra over the past 5 years show improvement in safe zones due to conservation efforts. The percentage of safe areas has increased from 35% to 50%."
  const A4: string :=
    "These are the effectiveness rates of different groundwater conservation methods. Artificial recharge shows the highest effectiveness at 85%."
  const A5: string :=
    "Groundwater is the water found beneath the Earth's surface in soil pore spaces and in the fractures of rock formations."
  const A6: string :=
    "It is a vital source of drinking water and irrigation for agriculture, especially in regions with limited surface water."
  const A7: string :=
    "Recharge is the process where water from rainfall or rivers infiltrates into the ground and replenishes aquifers."
  const A8: string :=
    "Critical status means groundwater is being used faster than it can be replenished, requiring immediate conservation measures."

  // The chart titles of the first five records.
  const T0: string := "Groundwater Status in Maharashtra"
  const T1: string := "Groundwater Distribution in Karnataka"
  const T2: string := "State-wise Groundwater Comparison (Safe Areas)"
  const T3: string := "5-Year Groundwater Trend in Maharashtra (Safe Areas)"
  const T4: string := "Effectiveness of Conservation Methods"

  /** The records in the order the chatbot searches them. */
  const Faq: seq<FaqRecord> := [
    FaqRecord(Q0, A0, Some("bar"), Some(T0), Some(MaharashtraStatus)),
    FaqRecord(Q1, A1, Some("pie"), Some(T1), Some(KarnatakaDistribution)),
    FaqRecord(Q2, A2, Some("bar"), Some(T2), Some(StateComparison)),
    FaqRecord(Q3, A3, Some("line"), Some(T3), Some(MaharashtraTrend)),
    FaqRecord(Q4, A4, Some("bar"), Some(T4), Some(ConservationMethods)),
    FaqRecord(Q5, A5, None, None, None),
    FaqRecord(Q6, A6, None, None, None),
    FaqRecord(Q7, A7, None, None, None),
    FaqRecord(Q8, A8, None, None, None)
  ]

  /**
   * Shape of the table: nine records, holding the questions in order, none of
   * them empty; the first five carry a chart type, a title and data, the last
   * four none of the three.
   */
  lemma FaqShape()
    ensures |Faq| == |Questions| == 9
    ensures forall i :: 0 <= i < |Faq| ==> Faq[i].question == Questions[i] != ""
    ensures forall i :: 0 <= i < 5 ==>
      Faq[i].chartType.Some? && Faq[i].chartTitle.Some? && Faq[i].chartData.Some?
    ensures forall i :: 5 <= i < |Faq| ==>
      Faq[i].chartType.None? && Faq[i].chartTitle.None? && Faq[i].chartData.None?
  {
  }

  /** Question 0 is written in lower case. */
  lemma Question0LowerCase()
    ensures Lower(Q0) == Q0
  {
    var alphabet := {'g', 'r', 'o', 'u', 'n', 'd', 'w', 'a', 't', 'e', ' ', 'l', 'v', 's', 'i', 'm', 'h'};
    assert forall k :: 0 <= k < |Q0| ==> Q0[k] in alphabet;
    LowerCaseByAlphabet(Q0, alphabet);
  }

  /** Proof helper for question 0: the questions with a pair of adjacent characters it lacks. */
  lemma Question0Pairs()
    ensures !Contains(Q0, Q3) && !Contains(Q0, Q5)
  {
    AbsentPair(Q0, Q3, 1, 'r', 'e');
    AbsentPair(Q0, Q5, 0, 'w', 'h');
  }

  /** No other question occurs inside question 0. */
  lemma Question0Independent()
    ensures forall j :: 0 <= j < |Questions| && j != 0 ==> !Contains(Q0, Questions[j])
  {
    var alphabet := {'g', 'r', 'o', 'u', 'n', 'd', 'w', 'a', 't', 'e', ' ', 'l', 'v', 's', 'i', 'm', 'h'};
    assert forall k :: 0 <= k < |Q0| ==> Q0[k] in alphabet;
    forall j | 0 <= j < |Questions| && j != 0
      ensures !Contains(Q0, Questions[j])
    {
      if j == 1 {
        AbsentChar(Q0, alphabet, Q1, 0);
      } else if j == 2 {
        AbsentChar(Q0, alphabet, Q2, 0);
      } else if j == 3 {
        Question0Pairs();
      } else if j == 4 {
        AbsentChar(Q0, alphabet, Q4, 8);
      } else if j == 5 {
        Question0Pairs();
      } else if j == 6 {
        AbsentChar(Q0, alphabet, Q6, 2);
      } else if j == 7 {
        AbsentChar(Q0, alphabet, Q7, 16);
      } else if j == 8 {
        AbsentChar(Q0, alphabet, Q8, 10);
      }
    }
  }

  /** Question 1 is written in lower case. */
  lemma Question1LowerCase()
    ensures Lower(Q1) == Q1
  {
    var alphabet := {'k', 'a', 'r', 'n', 't', ' ', 's', 'u'};
    assert forall k :: 0 <= k < |Q1| ==> Q1[k] in alphabet;
    LowerCaseByAlphabet(Q1, alphabet);
  }

  /** No other question occurs inside question 1. */
  lemma Question1Independent()
    ensures forall j :: 0 <= j < |Questions| && j != 1 ==> !Contains(Q1, Questions[j])
  {
    var alphabet := {'k', 'a', 'r', 'n', 't', ' ', 's', 'u'};
    assert forall k :: 0 <= k < |Q1| ==> Q1[k] in alphabet;
    forall j | 0 <= j < |Questions| && j != 1
      ensures !Contains(Q1, Questions[j])
    {
      if j == 0 {
        LongerNotContained(Q1, Q0);
      } else if j == 2 {
        LongerNotContained(Q1, Q2);
      } else if j == 3 {
        LongerNotContained(Q1, Q3);
      } else if j == 4 {
        LongerNotContained(Q1, Q4);
      } else if j == 5 {
        LongerNotContained(Q1, Q5);
      } else if j == 6 {
        LongerNotContained(Q1, Q6);
      } else if j == 7 {
        LongerNotContained(Q1, Q7);
      } else if j == 8 {
        LongerNotContained(Q1, Q8);
      }
    }
  }

  /** Question 2 is written in lower case. */
  lemma Question2LowerCase()
    ensures Lower(Q2) == Q2
  {
    var alphabet := {'c', 'o', 'm', 'p', 'a', 'r', 'e', ' ', 's', 't', 'g', 'u', 'n', 'd', 'w'};
    assert forall k :: 0 <= k < |Q2| ==> Q2[k] in alphabet;
    LowerCaseByAlphabet(Q2, alphabet);
  }

  /** No other question occurs inside question 2. */
  lemma Question2Independent()
    ensures forall j :: 0 <= j < |Questions| && j != 2 ==> !Contains(Q2, Questions[j])
  {
    var alphabet := {'c', 'o', 'm', 'p', 'a', 'r', 'e', ' ', 's', 't', 'g', 'u', 'n', 'd', 'w'};
    assert forall k :: 0 <= k < |Q2| ==> Q2[k] in alphabet;
    forall j | 0 <= j < |Questions| && j != 2
      ensures !Contains(Q2, Questions[j])
    {
      if j == 0 {
        LongerNotContained(Q2, Q0);
      } else if j == 1 {
        AbsentChar(Q2, alphabet, Q1, 0);
      } else if j == 3 {
        AbsentChar(Q2, alphabet, Q3, 7);
      } else if j == 4 {
        LongerNotContained(Q2, Q4);
      } else if j == 5 {
        AbsentChar(Q2, alphabet, Q5, 1);
      } else if j == 6 {
        LongerNotContained(Q2, Q6);
      } else if j == 7 {
        AbsentChar(Q2, alphabet, Q7, 1);
      } else if j == 8 {
        LongerNotContained(Q2, Q8);
      }
    }
  }

  /** Question 3 is written in lower case. */
  lemma Question3LowerCase()
    ensures Lower(Q3) == Q3
  {
    var alphabet := {'t', 'r', 'e', 'n', 'd', 's', ' ', 'i', 'm', 'a', 'h'};
    assert forall k :: 0 <= k < |Q3| ==> Q3[k] in alphabet;
    LowerCaseByAlphabet(Q3, alphabet);
  }

  /** No other question occurs inside question 3. */
  lemma Question3Independent()
    ensures forall j :: 0 <= j < |Questions| && j != 3 ==> !Contains(Q3, Questions[j])
  {
    var alphabet := {'t', 'r', 'e', 'n', 'd', 's', ' ', 'i', 'm', 'a', 'h'};
    assert forall k :: 0 <= k < |Q3| ==> Q3[k] in alphabet;
    forall j | 0 <= j < |Questions| && j != 3
      ensures !Contains(Q3, Questions[j])
    {
      if j == 0 {
        LongerNotContained(Q3, Q0);
      } else if j == 1 {
        AbsentChar(Q3, alphabet, Q1, 0);
      } else if j == 2 {
        LongerNotContained(Q3, Q2);
      } else if j == 4 {
        LongerNotContained(Q3, Q4);
      } else if j == 5 {
        AbsentChar(Q3, alphabet, Q5, 0);
      } else if j == 6 {
        LongerNotContained(Q3, Q6);
      } else if j == 7 {
        LongerNotContained(Q3, Q7);
      } else if j == 8 {
        LongerNotContained(Q3, Q8);
      }
    }
  }

  /** Question 4 is written in lower case. */
  lemma Question4LowerCase()
    ensures Lower(Q4) == Q4
  {
    var alphabet := {'s', 'h', 'o', 'w', ' ', 'm', 'e', 'c', 'n', 'r', 'v', 'a', 't', 'i', 'd'};
    assert forall k :: 0 <= k < |Q4| ==> Q4[k] in alphabet;
    LowerCaseByAlphabet(Q4, alphabet);
  }

  /** Proof helper for question 4: the questions with a pair of adjacent characters it lacks. */
  lemma Question4Pairs()
    ensures !Contains(Q4, Q3)
  {
    AbsentPair(Q4, Q3, 0, 't', 'r');
  }

  /** No other question occurs inside question 4. */
  lemma Question4Independent()
    ensures forall j :: 0 <= j < |Questions| && j != 4 ==> !Contains(Q4, Questions[j])
  {
    var alphabet := {'s', 'h', 'o', 'w', ' ', 'm', 'e', 'c', 'n', 'r', 'v', 'a', 't', 'i', 'd'};
    assert forall k :: 0 <= k < |Q4| ==> Q4[k] in alphabet;
    forall j | 0 <= j < |Questions| && j != 4
      ensures !Contains(Q4, Questions[j])
    {
      if j == 0 {
        LongerNotContained(Q4, Q0);
      } else if j == 1 {
        AbsentChar(Q4, alphabet, Q1, 0);
      } else if j == 2 {
        AbsentChar(Q4, alphabet, Q2, 3);
      } else if j == 3 {
        Question4Pairs();
      } else if j == 5 {
        AbsentChar(Q4, alphabet, Q5, 8);
      } else if j == 6 {
        AbsentChar(Q4, alphabet, Q6, 2);
      } else if j == 7 {
        AbsentChar(Q4, alphabet, Q7, 20);
      } else if j == 8 {
        LongerNotContained(Q4, Q8);
      }
    }
  }

  /** Question 5 is written in lower case. */
  lemma Question5LowerCase()
    ensures Lower(Q5) == Q5
  {
    var alphabet := {'w', 'h', 'a', 't', ' ', 'i', 's', 'g', 'r', 'o', 'u', 'n', 'd', 'e'};
    assert forall k :: 0 <= k < |Q5| ==> Q5[k] in alphabet;
    LowerCaseByAlphabet(Q5, alphabet);
  }

  /** No other question occurs inside question 5. */
  lemma Question5Independent()
    ensures forall j :: 0 <= j < |Questions| && j != 5 ==> !Contains(Q5, Questions[j])
  {
    var alphabet := {'w', 'h', 'a', 't', ' ', 'i', 's', 'g', 'r', 'o', 'u', 'n', 'd', 'e'};
    assert forall k :: 0 <= k < |Q5| ==> Q5[k] in alphabet;
    forall j | 0 <= j < |Questions| && j != 5
      ensures !Contains(Q5, Questions[j])
    {
      if j == 0 {
        LongerNotContained(Q5, Q0);
      } else if j == 1 {
        AbsentChar(Q5, alphabet, Q1, 0);
      } else if j == 2 {
        LongerNotContained(Q5, Q2);
      } else if j == 3 {
        LongerNotContained(Q5, Q3);
      } else if j == 4 {
        LongerNotContained(Q5, Q4);
      } else if j == 6 {
        LongerNotContained(Q5, Q6);
      } else if j == 7 {
        LongerNotContained(Q5, Q7);
      } else if j == 8 {
        LongerNotContained(Q5, Q8);
      }
    }
  }

  /** Question 6 is written in lower case. */
  lemma Question6LowerCase()
    ensures Lower(Q6) == Q6
  {
    var alphabet := {'w', 'h', 'y', ' ', 'i', 's', 'g', 'r', 'o', 'u', 'n', 'd', 'a', 't', 'e', 'm', 'p'};
    assert forall k :: 0 <= k < |Q6| ==> Q6[k] in alphabet;
    LowerCaseByAlphabet(Q6, alphabet);
  }

  /** Proof helper for question 6: the questions with a pair of adjacent characters it lacks. */
  lemma Question6Pairs()
    ensures !Contains(Q6, Q3) && !Contains(Q6, Q5)
  {
    AbsentPair(Q6, Q3, 0, 't', 'r');
    AbsentPair(Q6, Q5, 1, 'h', 'a');
  }

  /** No other question occurs inside question 6. */
  lemma Question6Independent()
    ensures forall j :: 0 <= j < |Questions| && j != 6 ==> !Contains(Q6, Questions[j])
  {
    var alphabet := {'w', 'h', 'y', ' ', 'i', 's', 'g', 'r', 'o', 'u', 'n', 'd', 'a', 't', 'e', 'm', 'p'};
    assert forall k :: 0 <= k < |Q6| ==> Q6[k] in alphabet;
    forall j | 0 <= j < |Questions| && j != 6
      ensures !Contains(Q6, Questions[j])
    {
      if j == 0 {
        LongerNotContained(Q6, Q0);
      } else if j == 1 {
        AbsentChar(Q6, alphabet, Q1, 0);
      } else if j == 2 {
        AbsentChar(Q6, alphabet, Q2, 0);
      } else if j == 3 {
        Question6Pairs();
      } else if j == 4 {
        AbsentChar(Q6, alphabet, Q4, 8);
      } else if j == 5 {
        Question6Pairs();
      } else if j == 7 {
        AbsentChar(Q6, alphabet, Q7, 16);
      } else if j == 8 {
        LongerNotContained(Q6, Q8);
      }
    }
  }

  /** Question 7 is written in lower case. */
  lemma Question7LowerCase()
    ensures Lower(Q7) == Q7
  {
    var alphabet := {'w', 'h', 'a', 't', ' ', 'i', 's', 'e', 'r', 'c', 'g'};
    assert forall k :: 0 <= k < |Q7| ==> Q7[k] in alphabet;
    LowerCaseByAlphabet(Q7, alphabet);
  }

  /** No other question occurs inside question 7. */
  lemma Question7Independent()
    ensures forall j :: 0 <= j < |Questions| && j != 7 ==> !Contains(Q7, Questions[j])
  {
    var alphabet := {'w', 'h', 'a', 't', ' ', 'i', 's', 'e', 'r', 'c', 'g'};
    assert forall k :: 0 <= k < |Q7| ==> Q7[k] in alphabet;
    forall j | 0 <= j < |Questions| && j != 7
      ensures !Contains(Q7, Questions[j])
    {
      if j == 0 {
        LongerNotContained(Q7, Q0);
      } else if j == 1 {
        AbsentChar(Q7, alphabet, Q1, 0);
      } else if j == 2 {
        LongerNotContained(Q7, Q2);
      } else if j == 3 {
        AbsentChar(Q7, alphabet, Q3, 3);
      } else if j == 4 {
        LongerNotContained(Q7, Q4);
      } else if j == 5 {
        AbsentChar(Q7, alphabet, Q5, 10);
      } else if j == 6 {
        LongerNotContained(Q7, Q6);
      } else if j == 8 {
        LongerNotContained(Q7, Q8);
      }
    }
  }

  /** Question 8 is written in lower case. */
  lemma Question8LowerCase()
    ensures Lower(Q8) == Q8
  {
    var alphabet := {'w', 'h', 'a', 't', ' ', 'd', 'o', 'e', 's', 'c', 'r', 'i', 'l', 'u', 'm', 'n'};
    assert forall k :: 0 <= k < |Q8| ==> Q8[k] in alphabet;
    LowerCaseByAlphabet(Q8, alphabet);
  }

  /** Proof helper for question 8: the questions with a pair of adjacent characters it lacks. */
  lemma Question8Pairs()
    ensures !Contains(Q8, Q3)
  {
    AbsentPair(Q8, Q3, 0, 't', 'r');
  }

  /** No other question occurs inside question 8. */
  lemma Question8Independent()
    ensures forall j :: 0 <= j < |Questions| && j != 8 ==> !Contains(Q8, Questions[j])
  {
    var alphabet := {'w', 'h', 'a', 't', ' ', 'd', 'o', 'e', 's', 'c', 'r', 'i', 'l', 'u', 'm', 'n'};
    assert forall k :: 0 <= k < |Q8| ==> Q8[k] in alphabet;
    forall j | 0 <= j < |Questions| && j != 8
      ensures !Contains(Q8, Questions[j])
    {
      if j == 0 {
        LongerNotContained(Q8, Q0);
      } else if j == 1 {
        AbsentChar(Q8, alphabet, Q1, 0);
      } else if j == 2 {
        AbsentChar(Q8, alphabet, Q2, 3);
      } else if j == 3 {
        Question8Pairs();
      } else if j == 4 {
        AbsentChar(Q8, alphabet, Q4, 14);
      } else if j == 5 {
        AbsentChar(Q8, alphabet, Q5, 8);
      } else if j == 6 {
        AbsentChar(Q8, alphabet, Q6, 2);
      } else if j == 7 {
        AbsentChar(Q8, alphabet, Q7, 20);
      }
    }
  }

  /**
   * Every question is already in lower case, and no question occurs inside
   * another, so asking any one question verbatim can only be answered by its
   * own record.
   */
  lemma QuestionsIndependent()
    ensures forall i :: 0 <= i < |Questions| ==> Lower(Questions[i]) == Questions[i]
    ensures forall i, j :: 0 <= i < |Questions| && 0 <= j < |Questions| && i != j ==>
      !Contains(Questions[i], Questions[j])
  {
    Question0LowerCase();
    Question0Independent();
    Question1LowerCase();
    Question1Independent();
    Question2LowerCase();
    Question2Independent();
    Question3LowerCase();
    Question3Independent();
    Question4LowerCase();
    Question4Independent();
    Question5LowerCase();
    Question5Independent();
    Question6LowerCase();
    Question6Independent();
    Question7LowerCase();
    Question7Independent();
    Question8LowerCase();
    Question8Independent();
  }

  /** The two status charts (bar for Maharashtra, pie for Karnataka) each add up to 100 percent. */
  lemma StatusChartsTotalHundred()
    ensures Sum(Values(MaharashtraStatus)) == 100.0
    ensures Sum(Values(KarnatakaDistribution)) == 100.0
  {
    assert Values(MaharashtraStatus) == [50.0, 30.0, 20.0];
    assert [50.0, 30.0, 20.0][..2] == [50.0, 30.0];
    assert [50.0, 30.0][..1] == [50.0];
    assert Values(KarnatakaDistribution) == [40.0, 40.0, 20.0];
    assert [40.0, 40.0, 20.0][..2] == [40.0, 40.0];
    assert [40.0, 40.0][..1] == [40.0];
  }

  /**
   * The trend series rises every year, from 35 to 50, so its middle axis label
   * is 43 (42.5 rounded up).
   */
  lemma TrendSeries()
    ensures forall i, j :: 0 <= i < j < |MaharashtraTrend| ==> MaharashtraTrend[i].value < MaharashtraTrend[j].value
    ensures MinValue(MaharashtraTrend) == 35.0 && MaxValue(MaharashtraTrend) == 50.0
    ensures Range(MaharashtraTrend) == 15.0
    ensures MidLabel(MaharashtraTrend) == 43
  {
    TrendValues();
    TrendExtremes();
  }

  /** Proof helper: the trend's values, year by year. */
  lemma TrendValues()
    ensures Values(MaharashtraTrend) == [35.0, 38.0, 42.0, 46.0, 50.0]
  {
  }

  /** Proof helper: the trend's smallest and largest values. */
  lemma TrendExtremes()
    ensures MinValue(MaharashtraTrend) == 35.0 && MaxValue(MaharashtraTrend) == 50.0
  {
    TrendValues();
  }

  /** The tallest bars: Tamil Nadu (60) among the states and artificial recharge (85) among the methods. */
  lemma TallestBars()
    ensures MaxValue(StateComparison) == 60.0
    ensures MaxValue(ConservationMethods) == 85.0
  {
    var vs := Values(StateComparison);
    assert vs == [50.0, 40.0, 60.0, 35.0];
    assert vs[2] <= MaxOf(vs);
    var ws := Values(ConservationMethods);
    assert ws == [80.0, 75.0, 70.0, 85.0];
    assert ws[3] <= MaxOf(ws);
  }
}
