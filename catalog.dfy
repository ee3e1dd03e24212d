/** The canned-response table `mockAIResponses` and the keyword selector
    `getAIResponse` of the home page's chat widget. */
module Catalog {
  import opened Text

  /** The keys of `mockAIResponses`. */
  datatype Topic = Budget | Investment | Expense | Savings | Default

  /** A table of canned answers with one list per topic, shaped like
      `mockAIResponses`. */
  datatype ResponseTable = ResponseTable(
    budget: seq<string>,
    investment: seq<string>,
    expense: seq<string>,
    savings: seq<string>,
    default: seq<string>)
  {
    /** `mockAIResponses[topic]`. */
    function Get(t: Topic): seq<string>
    {
      match t
      case Budget => budget
      case Investment => investment
      case Expense => expense
      case Savings => savings
      case Default => default
    }

    /** No answer is listed twice, under one topic or two. */
    ghost predicate Distinct()
    {
      forall t, u, k, j :: 0 <= k < |Get(t)| && 0 <= j < |Get(u)| && Get(t)[k] == Get(u)[j] ==> t == u && k == j
    }

    /** Every list has an entry to draw, and no entry is empty. */
    ghost predicate Valid()
    {
      forall t :: |Get(t)| > 0 && forall k :: 0 <= k < |Get(t)| ==> Get(t)[k] != []
    }
  }

  /** The answers of `mockAIResponses`, verbatim and in table order. */
  const MockAIResponses: ResponseTable := ResponseTable(
    ["I'd be happy to help you with budget analysis! To get started, could you tell me your monthly income and main expense categories? I can help you create a 50/30/20 budget plan.",
     "Budget analysis is crucial for financial health. Let's break down your spending into needs, wants, and savings. What's your current monthly take-home income?"],
    ["Great question about investments! For beginners, I usually recommend starting with index funds or ETFs. What's your risk tolerance and investment timeline?",
     "Investment strategy depends on your goals. Are you looking for short-term gains or long-term wealth building? I can suggest diversified portfolio options."],
    ["Expense tracking is the foundation of financial wellness! I recommend the envelope method or using apps to categorize spending. What expenses are you most concerned about?",
     "Let's identify your biggest expense categories. Typically, housing, food, and transportation take up 60-70% of most budgets. Where do you think you're overspending?"],
    ["Savings goals are essential! I recommend starting with an emergency fund of 3-6 months expenses. What's your current savings rate and target goal?",
     "Smart thinking about savings! The key is automation - set up automatic transfers. What specific goal are you saving for? Emergency fund, vacation, or home down payment?"],
    ["I'm here to help with all your financial questions! I can assist with budgeting, investments, expense tracking, debt management, and savings strategies. What would you like to focus on?",
     "Welcome to Pocket Profit! I'm your AI finance assistant. I can help you create budgets, analyze expenses, plan investments, and achieve your financial goals. How can I assist you today?",
     "Hello! I'm equipped to help with personal finance topics like creating emergency funds, retirement planning, debt reduction, and investment strategies. What's your main financial priority right now?"])

  /** The table's shape, as far as the proofs about it need it: the list
      sizes and the lengths of the answers. */
  lemma MockAIResponsesShape()
    ensures var m := MockAIResponses;
      |m.budget| == 2 && |m.investment| == 2 && |m.expense| == 2 && |m.savings| == 2 && |m.default| == 3 &&
      |m.budget[0]| == 175 && |m.budget[1]| == 157 &&
      |m.investment[0]| == 155 && |m.investment[1]| == 154 &&
      |m.expense[0]| == 171 && |m.expense[1]| == 164 &&
      |m.savings[0]| == 146 && |m.savings[1]| == 168 &&
      |m.default[0]| == 185 && |m.default[1]| == 185 && |m.default[2]| == 198 &&
      m.default[0][183] != m.default[1][183]
  {
  }

  /** A table whose lists and answers have these sizes is valid. */
  lemma ValidByShape(m: ResponseTable)
    requires
      |m.budget| == 2 && |m.investment| == 2 && |m.expense| == 2 && |m.savings| == 2 && |m.default| == 3 &&
      |m.budget[0]| == 175 && |m.budget[1]| == 157 &&
      |m.investment[0]| == 155 && |m.investment[1]| == 154 &&
      |m.expense[0]| == 171 && |m.expense[1]| == 164 &&
      |m.savings[0]| == 146 && |m.savings[1]| == 168 &&
      |m.default[0]| == 185 && |m.default[1]| == 185 && |m.default[2]| == 198
    ensures m.Valid()
    ensures forall t :: |m.Get(t)| >= 2
  {
    forall t ensures |m.Get(t)| >= 2 && forall k :: 0 <= k < |m.Get(t)| ==> m.Get(t)[k] != [] {
      assert forall k :: 0 <= k < |m.Get(t)| ==> |m.Get(t)[k]| > 100;
    }
  }

  /** Every list of `mockAIResponses` has at least two answers and no answer
      is empty, so `Math.floor(Math.random() * list.length)` always indexes
      an answer. */
  lemma MockAIResponsesValid()
    ensures MockAIResponses.Valid()
    ensures forall t :: |MockAIResponses.Get(t)| >= 2
  {
    MockAIResponsesShape();
    ValidByShape(MockAIResponses);
  }

  /** A table whose answers have these lengths lists no answer twice. */
  lemma DistinctByShape(m: ResponseTable, t: Topic, u: Topic, k: nat, j: nat)
    requires
      |m.budget| == 2 && |m.investment| == 2 && |m.expense| == 2 && |m.savings| == 2 && |m.default| == 3 &&
      |m.budget[0]| == 175 && |m.budget[1]| == 157 &&
      |m.investment[0]| == 155 && |m.investment[1]| == 154 &&
      |m.expense[0]| == 171 && |m.expense[1]| == 164 &&
      |m.savings[0]| == 146 && |m.savings[1]| == 168 &&
      |m.default[0]| == 185 && |m.default[1]| == 185 && |m.default[2]| == 198 &&
      m.default[0][183] != m.default[1][183]
    requires k < |m.Get(t)| && j < |m.Get(u)| && m.Get(t)[k] == m.Get(u)[j]
    ensures t == u && k == j
  {
    // Only the first two default answers share a length, and they differ
    // at position 183.
    var a, b := m.Get(t)[k], m.Get(u)[j];
    assert |a| == |b|;
    assert |a| == 185 ==> a[183] == b[183];
  }

  /** No answer of `mockAIResponses` is listed twice, under one topic or
      two, so an answer tells which topic was selected and which entry was
      drawn. */
  lemma MockAIResponsesDistinct()
    ensures MockAIResponses.Distinct()
  {
    MockAIResponsesShape();
    var m := MockAIResponses;
    forall t, u, k, j | 0 <= k < |m.Get(t)| && 0 <= j < |m.Get(u)| && m.Get(t)[k] == m.Get(u)[j]
      ensures t == u && k == j
    {
      DistinctByShape(m, t, u, k, j);
    }
  }

  // ---------------------------------------------------------------------------
  // Reference description of the selector: each topic has trigger words, and
  // the topics are tried in a fixed order.

  /** The words whose presence selects a topic; the default topic has none. */
  function Keywords(t: Topic): seq<string>
  {
    match t
    case Budget => ["budget"]
    case Investment => ["invest"]
    case Expense => ["expense", "track"]
    case Savings => ["saving", "save"]
    case Default => []
  }

  /** The position of a topic in the order the selector tries them. */
  function Rank(t: Topic): nat
  {
    match t
    case Budget => 0
    case Investment => 1
    case Expense => 2
    case Savings => 3
    case Default => 4
  }

  /** The (lower-cased) message contains one of the topic's words. */
  predicate Mentions(lower: string, t: Topic)
  {
    exists k :: 0 <= k < |Keywords(t)| && Contains(lower, Keywords(t)[k])
  }

  /** The if/else chain of `getAIResponse` over the lower-cased message: the
      chosen topic is mentioned (or is the default), and no topic tried
      before it is mentioned. */
  function SelectTopic(lower: string): (t: Topic)
    ensures t == Default || Mentions(lower, t)
    ensures forall u :: Rank(u) < Rank(t) ==> !Mentions(lower, u)
  {
    if Contains(lower, "budget") then
      assert Keywords(Budget)[0] == "budget";
      Budget
    else if Contains(lower, "invest") then
      assert Keywords(Investment)[0] == "invest";
      Investment
    else if Contains(lower, "expense") || Contains(lower, "track") then
      assert Keywords(Expense)[0] == "expense" && Keywords(Expense)[1] == "track";
      Expense
    else if Contains(lower, "saving") || Contains(lower, "save") then
      assert Keywords(Savings)[0] == "saving" && Keywords(Savings)[1] == "save";
      Savings
    else
      Default
  }

  /** The two properties stated by SelectTopic pin the topic down: it is the
      first mentioned topic in the order, and the default exactly when no
      topic is mentioned. */
  lemma SelectTopicUnique(lower: string, t: Topic)
    requires t == Default || Mentions(lower, t)
    requires forall u :: Rank(u) < Rank(t) ==> !Mentions(lower, u)
    ensures SelectTopic(lower) == t
  {
    var s := SelectTopic(lower);
    if Rank(s) < Rank(t) {
      assert !Mentions(lower, s);
    }
  }

  /** A topic tried earlier wins over a later one: a message that mentions
      `t` never selects a topic ranked after `t`, whatever else it mentions. */
  lemma EarlierTopicWins(lower: string, t: Topic, u: Topic)
    requires Mentions(lower, t) && Rank(t) < Rank(u)
    ensures SelectTopic(lower) != u
  {
  }

  /** A message without any of the six trigger words selects the default
      topic. */
  lemma NoKeywordSelectsDefault(lower: string)
    requires !Contains(lower, "budget") && !Contains(lower, "invest")
    requires !Contains(lower, "expense") && !Contains(lower, "track")
    requires !Contains(lower, "saving") && !Contains(lower, "save")
    ensures SelectTopic(lower) == Default
  {
  }

  /** `Math.floor(Math.random() * len)`, with the random number as `draw`. */
  function ChooseIndex(draw: real, len: nat): (i: nat)
    requires 0.0 <= draw < 1.0 && len > 0
    ensures i < len
  {
    var x := draw * len as real;
    assert x < len as real by {
      assert draw * len as real < 1.0 * len as real;
    }
    x.Floor
  }

  /** Every entry can be drawn: the draw `k / len` selects index `k`. */
  lemma ChooseIndexCovers(len: nat, k: nat)
    requires k < len
    ensures ChooseIndex(k as real / len as real, len) == k
  {
    var d := k as real / len as real;
    assert d * len as real == k as real;
  }

  /** `getAIResponse(message)`, reading the answers from `table`: an
      answer from the list of the topic the lower-cased message selects, at
      the drawn index. */
  function GetAIResponse(table: ResponseTable, message: string, draw: real): (r: string)
    requires table.Valid()
    requires 0.0 <= draw < 1.0
    ensures r in table.Get(SelectTopic(Lower(message)))
    ensures r != []
  {
    var list := table.Get(SelectTopic(Lower(message)));
    list[ChooseIndex(draw, |list|)]
  }

  /** In a table that lists no answer twice (as `mockAIResponses` does), the
      answer belongs to the selected topic's list and to no other. */
  lemma AnswerOnlyInSelectedList(table: ResponseTable, message: string, draw: real, t: Topic)
    requires table.Valid() && table.Distinct()
    requires 0.0 <= draw < 1.0
    requires GetAIResponse(table, message, draw) in table.Get(t)
    ensures t == SelectTopic(Lower(message))
  {
    var s := SelectTopic(Lower(message));
    var r := GetAIResponse(table, message, draw);
    var k :| 0 <= k < |table.Get(t)| && table.Get(t)[k] == r;
    var j :| 0 <= j < |table.Get(s)| && table.Get(s)[j] == r;
  }

  /** Every answer of the selected topic is the reply to some draw. */
  lemma EveryAnswerReachable(table: ResponseTable, message: string, k: nat)
    requires table.Valid()
    requires k < |table.Get(SelectTopic(Lower(message)))|
    ensures var n := |table.Get(SelectTopic(Lower(message)))|;
      GetAIResponse(table, message, k as real / n as real) == table.Get(SelectTopic(Lower(message)))[k]
  {
    ChooseIndexCovers(|table.Get(SelectTopic(Lower(message)))|, k);
  }

  /** Letter case does not matter to the selector: the lower-cased message
      mentions a topic exactly when the message holds one of the topic's
      words in some mix of ASCII letter case. */
  lemma MentionsIgnoringCase(m: string, t: Topic)
    ensures Mentions(Lower(m), t) <==>
      exists k, i :: 0 <= k < |Keywords(t)| && OccursAtIgnoringCase(m, Keywords(t)[k], i)
  {
    forall k | 0 <= k < |Keywords(t)| {
      ContainsLowerIff(m, Keywords(t)[k]);
    }
  }

  /** "budget" written in any letter case selects the budget list,
      whatever else the message says. */
  lemma BudgetInAnyCase(table: ResponseTable, m: string, i: int, draw: real)
    requires table.Valid()
    requires 0.0 <= draw < 1.0
    requires OccursAtIgnoringCase(m, "budget", i)
    ensures GetAIResponse(table, m, draw) in table.budget
  {
    ContainsLowerIff(m, "budget");
  }

  /** For instance, a message in capitals: "MY BUDGET". */
  lemma ShoutedBudget(table: ResponseTable, draw: real)
    requires table.Valid()
    requires 0.0 <= draw < 1.0
    ensures GetAIResponse(table, "MY BUDGET", draw) in table.budget
  {
    BudgetInAnyCase(table, "MY BUDGET", 3, draw);
  }
}
