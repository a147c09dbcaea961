/**
 * The chatbot of `src/components/Chatbot.jsx`: resolving a query against the
 * knowledge base (`handleSend`'s `find` / `includes`), choosing the chart of
 * the reply, and the append-only message list of a chat session.
 */
module Chatbot {
  import opened Wrappers
  import opened Text
  import opened ChartGeometry
  import opened KnowledgeBase

  /** The reply when no record matches. */
  const Fallback: string :=
    "Sorry, I don't understand. Please try another question related to groundwater management."

  // ---------------------------------------------------------------------------
  // Resolution
  // ---------------------------------------------------------------------------

  /** `query.toLowerCase().includes(faq.question.toLowerCase())`. */
  predicate Matches(query: string, rec: FaqRecord) {
    Contains(Lower(query), Lower(rec.question))
  }

  /**
   * `faqData.find(...)`, as the index of the record found: the first record
   * whose question occurs in the query, or None when no record matches.
   */
  function FindIndex(query: string, records: seq<FaqRecord>): (r: Option<nat>)
    ensures r.Some? ==> r.value < |records| && Matches(query, records[r.value])
    ensures r.Some? ==> forall j :: 0 <= j < r.value ==> !Matches(query, records[j])
    ensures r.None? <==> forall j :: 0 <= j < |records| ==> !Matches(query, records[j])
  {
    if records == [] then None
    else if Matches(query, records[0]) then Some(0)
    else
      match FindIndex(query, records[1..])
      case None => None
      case Some(k) => Some(k + 1)
  }

  /** Conversely, a matching record with no matching record before it is the one found. */
  lemma FindIndexFirst(query: string, records: seq<FaqRecord>, i: nat)
    requires i < |records| && Matches(query, records[i])
    requires forall j :: 0 <= j < i ==> !Matches(query, records[j])
    ensures FindIndex(query, records) == Some(i)
  {
  }

  /** Resolution ignores letter case: queries with the same lower-case form find the same record. */
  lemma {:induction false} FindIndexCaseInsensitive(q1: string, q2: string, records: seq<FaqRecord>)
    requires Lower(q1) == Lower(q2)
    ensures FindIndex(q1, records) == FindIndex(q2, records)
  {
    if records != [] {
      FindIndexCaseInsensitive(q1, q2, records[1..]);
    }
  }

  /**
   * Adding text around an answered query keeps it answered, by the same record
   * or an earlier one.
   */
  lemma ExtendedQueryAnswered(q: string, longer: string, records: seq<FaqRecord>)
    requires FindIndex(q, records).Some?
    requires Contains(longer, q)
    ensures FindIndex(longer, records).Some?
    ensures FindIndex(longer, records).value <= FindIndex(q, records).value
  {
    var i := FindIndex(q, records).value;
    ContainsLower(longer, q);
    ContainsTransitive(Lower(longer), Lower(q), Lower(records[i].question));
    assert Matches(longer, records[i]);
  }

  // ---------------------------------------------------------------------------
  // The reply
  // ---------------------------------------------------------------------------

  datatype ChartKind = BarChart | PieChart | LineChart

  /** The chart element of a bot message: which component, with its `title` and `data` props. */
  datatype Chart = Chart(kind: ChartKind, title: Option<string>, data: seq<DataPoint>)

  /** The `switch (found.chartType)` guarded by `found.chartData`. */
  function ChartFor(rec: FaqRecord): (c: Option<Chart>)
    ensures c.Some? <==> rec.chartData.Some? && rec.chartType.Some? && rec.chartType.value in {"bar", "pie", "line"}
    ensures c.Some? ==> c.value.data == rec.chartData.value && c.value.title == rec.chartTitle
    ensures c.Some? ==> (c.value.kind == BarChart <==> rec.chartType.value == "bar")
    ensures c.Some? ==> (c.value.kind == PieChart <==> rec.chartType.value == "pie")
    ensures c.Some? ==> (c.value.kind == LineChart <==> rec.chartType.value == "line")
  {
    match rec.chartData
    case None => None
    case Some(data) =>
      match rec.chartType
      case Some("bar") => Some(Chart(BarChart, rec.chartTitle, data))
      case Some("pie") => Some(Chart(PieChart, rec.chartTitle, data))
      case Some("line") => Some(Chart(LineChart, rec.chartTitle, data))
      case _ => None
  }

  /** The chart component can compute its geometry: the conditions the bar, pie and line formulas divide under. */
  predicate Drawable(c: Chart) {
    match c.kind
    case BarChart => |c.data| > 0 && MaxValue(c.data) > 0.0
    case PieChart => Total(c.data) != 0.0
    case LineChart => |c.data| >= 2 && Range(c.data) > 0.0
  }

  datatype Sender = User | Bot

  /** A chat message; only bot messages carry a chart. */
  datatype Message = Message(sender: Sender, text: string, chart: Option<Chart>)

  /** The bot message for a query: the found record's answer and chart, or the fallback text and no chart. */
  function Reply(query: string, records: seq<FaqRecord>): (m: Message)
    ensures m.sender == Bot
    ensures FindIndex(query, records).None? ==> m.text == Fallback && m.chart.None?
    ensures FindIndex(query, records).Some? ==>
      var rec := records[FindIndex(query, records).value];
      m.text == rec.answer && m.chart == ChartFor(rec)
  {
    match FindIndex(query, records)
    case None => Message(Bot, Fallback, None)
    case Some(i) => Message(Bot, records[i].answer, ChartFor(records[i]))
  }

  /** A reply carries a chart only when some record matches and has chart data. */
  lemma ReplyChartNeedsMatch(query: string, records: seq<FaqRecord>)
    ensures Reply(query, records).chart.Some? ==>
      exists i :: 0 <= i < |records| && Matches(query, records[i]) && records[i].chartData.Some?
  {
    if Reply(query, records).chart.Some? {
      var i := FindIndex(query, records).value;
      assert Matches(query, records[i]) && records[i].chartData.Some?;
    }
  }

  /** `customInput || input || transcript`: the first non-empty source, the transcript when all are empty. */
  function QueryOf(custom: Option<string>, input: string, transcript: string): (q: string)
    ensures q == "" <==> (custom.None? || custom.value == "") && input == "" && transcript == ""
    ensures custom.Some? && custom.value != "" ==> q == custom.value
    ensures (custom.None? || custom.value == "") && input != "" ==> q == input
    ensures (custom.None? || custom.value == "") && input == "" ==> q == transcript
  {
    if custom.Some? && custom.value != "" then custom.value
    else if input != "" then input
    else transcript
  }

  // ---------------------------------------------------------------------------
  // The knowledge base as the chatbot sees it
  // ---------------------------------------------------------------------------

  /** Asking any question of the knowledge base verbatim returns that question's own record. */
  lemma VerbatimQuestionsResolve()
    ensures forall i :: 0 <= i < |Faq| ==> FindIndex(Faq[i].question, Faq) == Some(i)
  {
    FaqShape();
    QuestionsIndependent();
    forall i | 0 <= i < |Faq|
      ensures FindIndex(Faq[i].question, Faq) == Some(i)
    {
      var q := Questions[i];
      ContainsSelf(q);
      assert Matches(q, Faq[i]);
      forall j | 0 <= j < i
        ensures !Matches(q, Faq[j])
      {
        assert Lower(Faq[j].question) == Questions[j];
      }
      FindIndexFirst(q, Faq, i);
    }
  }

  /** The chart each record produces: bar, pie, line, bar, bar for the first five, none for the rest. */
  lemma FaqCharts()
    ensures ChartFor(Faq[0]) == Some(Chart(BarChart, Some(T0), MaharashtraStatus))
    ensures ChartFor(Faq[1]) == Some(Chart(PieChart, Some(T1), KarnatakaDistribution))
    ensures ChartFor(Faq[2]) == Some(Chart(BarChart, Some(T2), StateComparison))
    ensures ChartFor(Faq[3]) == Some(Chart(LineChart, Some(T3), MaharashtraTrend))
    ensures ChartFor(Faq[4]) == Some(Chart(BarChart, Some(T4), ConservationMethods))
    ensures forall i :: 5 <= i < |Faq| ==> ChartFor(Faq[i]).None?
  {
  }

  /**
   * The five charts of the knowledge base can be drawn: their formulas are
   * defined (a positive tallest bar, a non-zero pie total, a line of at least
   * two points with a positive range).
   */
  lemma FaqChartsDrawable()
    ensures Drawable(Chart(BarChart, Some(T0), MaharashtraStatus))
    ensures Drawable(Chart(PieChart, Some(T1), KarnatakaDistribution))
    ensures Drawable(Chart(BarChart, Some(T2), StateComparison))
    ensures Drawable(Chart(LineChart, Some(T3), MaharashtraTrend))
    ensures Drawable(Chart(BarChart, Some(T4), ConservationMethods))
  {
    StatusChartsTotalHundred();
    TallestBars();
    TrendSeries();
    assert Values(MaharashtraStatus)[0] <= MaxValue(MaharashtraStatus);
  }

  // ---------------------------------------------------------------------------
  // The suggested prompts shown in the empty chat
  // ---------------------------------------------------------------------------

  const Prompt0: string := "Show me groundwater levels in Maharashtra"
  const Prompt1: string := "What's the status in Karnataka?"
  const Prompt2: string := "Compare state groundwater levels"
  const Prompt3: string := "Show conservation methods effectiveness"

  /** Suggested prompt 1, lower-cased. */
  lemma Prompt0Lower()
    ensures Lower(Prompt0) == "show me " + Q0
  {
    Prompt0LowerLiteral();
    Prompt0Split();
  }

  /** Proof helper: suggested prompt 1, lower-cased letter by letter. */
  lemma Prompt0LowerLiteral()
    ensures Lower(Prompt0) == "show me groundwater levels in maharashtra"
  {
    LowerByChars(Prompt0, "show me groundwater levels in maharashtra");
  }

  /** Proof helper: the lower-cased prompt is "show me " followed by question 0. */
  lemma Prompt0Split()
    ensures "show me groundwater levels in maharashtra" == "show me " + Q0
  {
  }

  /** Proof helper: question 0 occurs in suggested prompt 1, lower-cased. */
  lemma Prompt0Contains()
    ensures Contains("show me " + Q0, Q0)
  {
    OccursInConcat("show me ", Q0, "");
    assert "show me " + Q0 + "" == "show me " + Q0;
  }

  /** Proof helper for suggested prompt 1: the questions with a pair of adjacent characters it lacks. */
  lemma Prompt0Pairs()
    ensures !Contains("show me " + Q0, Q3) && !Contains("show me " + Q0, Q5)
  {
    var lowered := "show me " + Q0;
    AbsentPair(lowered, Q3, 1, 'r', 'e');
    AbsentPair(lowered, Q5, 0, 'w', 'h');
  }

  /** Proof helper: no question but question 0 occurs in suggested prompt 1, lower-cased. */
  lemma Prompt0Questions()
    ensures forall j :: 0 <= j && j < |Questions| && j != 0 ==> !Contains("show me " + Q0, Questions[j])
  {
    var lowered := "show me " + Q0;
    var alphabet := {'s', 'h', 'o', 'w', ' ', 'm', 'e', 'g', 'r', 'u', 'n', 'd', 'a', 't', 'l', 'v', 'i'};
    assert forall i :: 0 <= i < |lowered| ==> lowered[i] in alphabet;
    forall j | 0 <= j && j < |Questions| && j != 0
      ensures !Contains(lowered, Questions[j])
    {
      if j == 1 {
        AbsentChar(lowered, alphabet, Q1, 0);
      } else if j == 2 {
        AbsentChar(lowered, alphabet, Q2, 0);
      } else if j == 3 {
        Prompt0Pairs();
      } else if j == 4 {
        AbsentChar(lowered, alphabet, Q4, 8);
      } else if j == 5 {
        Prompt0Pairs();
      } else if j == 6 {
        AbsentChar(lowered, alphabet, Q6, 2);
      } else if j == 7 {
        AbsentChar(lowered, alphabet, Q7, 16);
      } else if j == 8 {
        AbsentChar(lowered, alphabet, Q8, 10);
      }
    }
  }

  /** Suggested prompt 2, lower-cased. */
  lemma Prompt1Lower()
    ensures Lower(Prompt1) == "what's the status in karnataka?"
  {
    LowerByChars(Prompt1, "what's the status in karnataka?");
  }

  /** Proof helper for suggested prompt 2: the questions with a pair of adjacent characters it lacks. */
  lemma Prompt1Pairs()
    ensures !Contains("what's the status in karnataka?", Q1)
  {
    var lowered := "what's the status in karnataka?";
    AbsentPair(lowered, Q1, 8, 'a', ' ');
  }

  /** Proof helper: no question occurs in suggested prompt 2, lower-cased. */
  lemma Prompt1Questions()
    ensures forall j :: 0 <= j && j < |Questions| ==> !Contains("what's the status in karnataka?", Questions[j])
  {
    var lowered := "what's the status in karnataka?";
    var alphabet := {'w', 'h', 'a', 't', '\'', 's', ' ', 'e', 'u', 'i', 'n', 'k', 'r', '?'};
    assert forall i :: 0 <= i < |lowered| ==> lowered[i] in alphabet;
    forall j | 0 <= j && j < |Questions|
      ensures !Contains(lowered, Questions[j])
    {
      if j == 0 {
        LongerNotContained(lowered, Q0);
      } else if j == 1 {
        Prompt1Pairs();
      } else if j == 2 {
        AbsentChar(lowered, alphabet, Q2, 0);
      } else if j == 3 {
        AbsentChar(lowered, alphabet, Q3, 4);
      } else if j == 4 {
        AbsentChar(lowered, alphabet, Q4, 2);
      } else if j == 5 {
        AbsentChar(lowered, alphabet, Q5, 8);
      } else if j == 6 {
        AbsentChar(lowered, alphabet, Q6, 2);
      } else if j == 7 {
        AbsentChar(lowered, alphabet, Q7, 16);
      } else if j == 8 {
        AbsentChar(lowered, alphabet, Q8, 5);
      }
    }
  }

  /** Suggested prompt 3, lower-cased. */
  lemma Prompt2Lower()
    ensures Lower(Prompt2) == Q2 + " levels"
  {
    LowerByChars(Prompt2, Q2 + " levels");
  }

  /** Proof helper: question 2 occurs in suggested prompt 3, lower-cased. */
  lemma Prompt2Contains()
    ensures Contains(Q2 + " levels", Q2)
  {
    OccursInConcat("", Q2, " levels");
    assert "" + Q2 + " levels" == Q2 + " levels";
  }

  /** Proof helper: no question but question 2 occurs in suggested prompt 3, lower-cased. */
  lemma Prompt2Questions()
    ensures forall j :: 0 <= j && j < |Questions| && j != 2 ==> !Contains(Q2 + " levels", Questions[j])
  {
    var lowered := Q2 + " levels";
    var alphabet := {'c', 'o', 'm', 'p', 'a', 'r', 'e', ' ', 's', 't', 'g', 'u', 'n', 'd', 'w', 'l', 'v'};
    assert forall i :: 0 <= i < |lowered| ==> lowered[i] in alphabet;
    forall j | 0 <= j && j < |Questions| && j != 2
      ensures !Contains(lowered, Questions[j])
    {
      if j == 0 {
        LongerNotContained(lowered, Q0);
      } else if j == 1 {
        AbsentChar(lowered, alphabet, Q1, 0);
      } else if j == 3 {
        AbsentChar(lowered, alphabet, Q3, 7);
      } else if j == 4 {
        AbsentChar(lowered, alphabet, Q4, 1);
      } else if j == 5 {
        AbsentChar(lowered, alphabet, Q5, 1);
      } else if j == 6 {
        AbsentChar(lowered, alphabet, Q6, 1);
      } else if j == 7 {
        AbsentChar(lowered, alphabet, Q7, 1);
      } else if j == 8 {
        AbsentChar(lowered, alphabet, Q8, 1);
      }
    }
  }

  /** Suggested prompt 4, lower-cased. */
  lemma Prompt3Lower()
    ensures Lower(Prompt3) == "show conservation methods effectiveness"
  {
    LowerByChars(Prompt3, "show conservation methods effectiveness");
  }

  /** Proof helper for suggested prompt 4: the questions with a pair of adjacent characters it lacks. */
  lemma Prompt3Pairs()
    ensures !Contains("show conservation methods effectiveness", Q3) && !Contains("show conservation methods effectiveness", Q4)
  {
    var lowered := "show conservation methods effectiveness";
    AbsentPair(lowered, Q3, 0, 't', 'r');
    AbsentPair(lowered, Q4, 6, 'e', ' ');
  }

  /** Proof helper: questions 0 to 4: none of them occurs in suggested prompt 4, lower-cased. */
  lemma Prompt3QuestionsLow()
    ensures forall j :: 0 <= j && j < 5 ==> !Contains("show conservation methods effectiveness", Questions[j])
  {
    var lowered := "show conservation methods effectiveness";
    var alphabet := {'s', 'h', 'o', 'w', ' ', 'c', 'n', 'e', 'r', 'v', 'a', 't', 'i', 'm', 'd', 'f'};
    assert forall i :: 0 <= i < |lowered| ==> lowered[i] in alphabet;
    forall j | 0 <= j && j < 5
      ensures !Contains(lowered, Questions[j])
    {
      if j == 0 {
        AbsentChar(lowered, alphabet, Q0, 0);
      } else if j == 1 {
        AbsentChar(lowered, alphabet, Q1, 0);
      } else if j == 2 {
        AbsentChar(lowered, alphabet, Q2, 3);
      } else if j == 3 {
        Prompt3Pairs();
      } else if j == 4 {
        Prompt3Pairs();
      }
    }
  }

  /** Proof helper: questions 5 to 8: none of them occurs in suggested prompt 4, lower-cased. */
  lemma Prompt3QuestionsHigh()
    ensures forall j :: 5 <= j && j < |Questions| ==> !Contains("show conservation methods effectiveness", Questions[j])
  {
    var lowered := "show conservation methods effectiveness";
    var alphabet := {'s', 'h', 'o', 'w', ' ', 'c', 'n', 'e', 'r', 'v', 'a', 't', 'i', 'm', 'd', 'f'};
    assert forall i :: 0 <= i < |lowered| ==> lowered[i] in alphabet;
    forall j | 5 <= j && j < |Questions|
      ensures !Contains(lowered, Questions[j])
    {
      if j == 5 {
        AbsentChar(lowered, alphabet, Q5, 8);
      } else if j == 6 {
        AbsentChar(lowered, alphabet, Q6, 2);
      } else if j == 7 {
        AbsentChar(lowered, alphabet, Q7, 20);
      } else if j == 8 {
        AbsentChar(lowered, alphabet, Q8, 17);
      }
    }
  }

  /** Proof helper: a query matches a record exactly when its lower-cased form contains the record's question. */
  lemma MatchesByQuestions(query: string, lowered: string)
    requires Lower(query) == lowered
    ensures forall j :: 0 <= j < |Faq| ==> (Matches(query, Faq[j]) <==> Contains(lowered, Questions[j]))
  {
    FaqShape();
    QuestionsIndependent();
  }

  /** "Show me groundwater levels in Maharashtra" is answered by the first record (the Maharashtra status bar chart). */
  lemma Prompt0Resolves()
    ensures FindIndex(Prompt0, Faq) == Some(0)
  {
    Prompt0Lower();
    Prompt0Questions();
    Prompt0Contains();
    MatchesByQuestions(Prompt0, "show me " + Q0);
    FindIndexFirst(Prompt0, Faq, 0);
  }

  /** "What's the status in Karnataka?" matches no record, so the reply is the fallback. */
  lemma Prompt1FallsBack()
    ensures FindIndex(Prompt1, Faq) == None
    ensures Reply(Prompt1, Faq) == Message(Bot, Fallback, None)
  {
    Prompt1Lower();
    Prompt1Questions();
    MatchesByQuestions(Prompt1, "what's the status in karnataka?");
  }

  /** "Compare state groundwater levels" is answered by the third record (the state comparison bar chart). */
  lemma Prompt2Resolves()
    ensures FindIndex(Prompt2, Faq) == Some(2)
  {
    Prompt2Lower();
    Prompt2Questions();
    Prompt2Contains();
    MatchesByQuestions(Prompt2, Q2 + " levels");
    FindIndexFirst(Prompt2, Faq, 2);
  }

  /** "Show conservation methods effectiveness" matches no record, so the reply is the fallback. */
  lemma Prompt3FallsBack()
    ensures FindIndex(Prompt3, Faq) == None
    ensures Reply(Prompt3, Faq) == Message(Bot, Fallback, None)
  {
    Prompt3Lower();
    Prompt3QuestionsLow();
    Prompt3QuestionsHigh();
    MatchesByQuestions(Prompt3, "show conservation methods effectiveness");
  }

  // ---------------------------------------------------------------------------
  // The chat session
  // ---------------------------------------------------------------------------

  /** The component's state: the message list, the text box and the speech transcript. */
  class ChatSession {
    var messages: seq<Message>
    var input: string
    var transcript: string
    /** The knowledge base the session answers from. */
    const knowledge: seq<FaqRecord>

    constructor()
      ensures messages == [] && input == "" && transcript == "" && knowledge == Faq
    {
      messages := [];
      input := "";
      transcript := "";
      knowledge := Faq;
    }

    /** The text box's `onChange`. */
    method SetInput(text: string)
      modifies this
      ensures input == text
      ensures messages == old(messages) && transcript == old(transcript)
    {
      input := text;
    }

    /** Speech recognition delivering a transcript. */
    method Hear(text: string)
      modifies this
      ensures transcript == text
      ensures messages == old(messages) && input == old(input)
    {
      transcript := text;
    }

    /**
     * `handleSend(customInput)`: a blank query changes nothing; otherwise the
     * user message and the bot reply are appended, in that order, after the
     * existing messages, and the text box and transcript are cleared.
     */
    method HandleSend(custom: Option<string>)
      modifies this
      ensures var q := QueryOf(custom, old(input), old(transcript));
        if IsBlank(q) then
          messages == old(messages) && input == old(input) && transcript == old(transcript)
        else
          && messages == old(messages) + [Message(User, q, None), Reply(q, knowledge)]
          && input == "" && transcript == ""
    {
      var query := QueryOf(custom, input, transcript);
      if IsBlank(query) {
        return;
      }
      var userMessage := Message(User, query, None);
      var botMessage := Reply(query, knowledge);
      messages := messages + [userMessage, botMessage];
      input := "";
      transcript := "";
    }
  }
}
