/**
 * The Analytics Assistant page (src/components/dashboard/AnalyticsAssistant.tsx):
 * a first-match keyword lookup over an ordered table of canned explanations, and
 * the chat transcript it appends to.
 */
module AnalyticsAssistant {
  import opened SeqMath

  datatype Role = User | Assistant

  datatype Message = Message(role: Role, content: string)

  /** The table's keys, in the order lookup visits them. */
  const Keys: seq<string> :=
    ["volatility", "drawdown", "stress index", "returns", "moving average", "regime", "sharpe ratio", "correlation", "help"]

  /** The canned explanation for each key, at the same position. */
  const Texts: seq<string> := [
    "**Volatility** measures the dispersion of returns for a given security or market index. In our analysis, we use the 20-day rolling standard deviation of daily returns as the primary volatility measure. Higher volatility indicates greater uncertainty and risk, as prices fluctuate more dramatically. Volatility is not directional\U{2014}it measures the magnitude of price changes, not their direction.",
    "A **drawdown** is the peak-to-trough decline during a specific period of investment. It measures the largest percentage drop from a historical peak before a new peak is achieved. For example, if an index falls from 60,000 to 48,000 before recovering, the drawdown is -20%. Maximum drawdown is a key risk metric as it represents the worst-case scenario for an investor who bought at the peak.",
    "The **Market Stress Index** is a composite indicator (0-100 scale) that combines three risk factors: (1) Rolling volatility (40% weight), (2) Current drawdown depth (40% weight), and (3) Momentum instability from large daily moves (20% weight). Readings below 30 indicate low stress, 30-60 is moderate, and above 60 signals high market stress requiring elevated caution.",
    "**Returns** measure the percentage change in price from one period to the next. We use daily returns (today's close vs. yesterday's close) for analysis. Returns are preferred over raw prices because they normalize for different price levels and are stationary, making them suitable for statistical analysis. A 1% move is the same proportionally whether the index is at 30,000 or 60,000.",
    "A **moving average** smooths price data by calculating the average over a specified number of periods. We use 10-day (short-term), 20-day (medium-term), and 50-day (long-term) simple moving averages. When shorter MAs are above longer MAs and price is above all MAs, the trend is considered bullish. Moving average crossovers can signal potential trend changes.",
    "**Market regimes** are distinct phases of market behavior characterized by different risk-return profiles. We classify three regimes: (1) **Stable** - low volatility, trending markets, stress index below 30; (2) **Volatile** - elevated uncertainty, stress index 30-60; (3) **Crisis** - extreme conditions, high correlation spikes, stress above 60. Understanding the current regime helps calibrate risk exposure.",
    "The **Sharpe Ratio** measures risk-adjusted returns by dividing excess return (return above the risk-free rate) by volatility. A higher Sharpe ratio indicates better return per unit of risk. Generally, Sharpe ratios above 1.0 are considered good, above 2.0 is very good, and above 3.0 is excellent. Our analysis shows a Sharpe ratio of 0.85 for the Sensex.",
    "**Correlation** measures how two assets move in relation to each other, ranging from -1 (perfect inverse) to +1 (perfect positive). The 0.76 correlation between Sensex and S&P 500 indicates they tend to move in the same direction. High correlation reduces diversification benefits, especially during market stress when correlations typically increase further.",
    "I can help explain various financial concepts and metrics used in this analysis. Try asking about:\n\n\U{2022} **Volatility** - Market fluctuation measure\n\U{2022} **Drawdown** - Peak-to-trough decline\n\U{2022} **Stress Index** - Composite risk indicator\n\U{2022} **Returns** - Price change percentages\n\U{2022} **Moving Averages** - Trend indicators\n\U{2022} **Regimes** - Market phase classification\n\U{2022} **Sharpe Ratio** - Risk-adjusted returns\n\U{2022} **Correlation** - Asset co-movement\n\nJust type your question and I'll provide an explanation!"
  ]

  /** Reply when no key occurs in the query. */
  const DefaultResponse: string :=
    "I understand you're asking about market analysis. I can help explain concepts like volatility, drawdowns, stress indices, returns, moving averages, market regimes, Sharpe ratios, and correlation. Could you please rephrase your question or ask about one of these specific topics? Type 'help' to see all available topics."

  /** The transcript's opening assistant message. */
  const WelcomeText: string :=
    "Welcome to the StrataQuant Analytics Assistant. I can help explain financial concepts, chart interpretations, and metrics used throughout this platform. What would you like to know? Type 'help' to see available topics."

  /** The quick-topic buttons, in display order. */
  const QuickTopics: seq<string> :=
    ["Volatility", "Drawdown", "Stress Index", "Returns", "Moving Average", "Regime", "Sharpe Ratio", "Correlation"]

  /** Upper-case ASCII letters map to lower case; every other character is kept. */
  function LowerChar(c: char): (d: char)
    ensures 'A' <= c <= 'Z' ==> 'a' <= d <= 'z' && d as int == c as int + 32
    ensures !('A' <= c <= 'Z') ==> d == c
  {
    if 'A' <= c <= 'Z' then (c as int + 32) as char else c
  }

  /** `toLowerCase`, restricted to ASCII letters. */
  function Lower(s: string): (r: string)
    ensures |r| == |s|
    ensures forall i :: 0 <= i < |s| ==> r[i] == LowerChar(s[i])
  {
    seq(|s|, i requires 0 <= i < |s| => LowerChar(s[i]))
  }

  /** Lower-casing twice changes nothing more. */
  lemma LowerIdempotent(s: string)
    ensures Lower(Lower(s)) == Lower(s)
  {
    var once := Lower(s);
    forall i | 0 <= i < |s|
      ensures Lower(once)[i] == once[i]
    {
      assert !('A' <= once[i] <= 'Z');
    }
  }

  /** key occurs in s starting at position i. */
  predicate OccursAt(s: string, key: string, i: int)
  {
    0 <= i && i + |key| <= |s| && s[i..i + |key|] == key
  }

  /** `s.includes(key)`: key occurs in s as a contiguous run. */
  predicate Includes(s: string, key: string)
  {
    exists i :: 0 <= i <= |s| - |key| && OccursAt(s, key, i)
  }

  /** A key with a character that s lacks cannot occur in s. */
  lemma AbsentCharExcludes(s: string, key: string, c: char)
    requires c in key && c !in s
    ensures !Includes(s, key)
  {
    var m :| 0 <= m < |key| && key[m] == c;
    forall i | OccursAt(s, key, i)
      ensures false
    {
    }
  }

  /**
   * Index of the first entry at or after `from` whose key occurs in `lowered`;
   * None when no such entry exists.
   */
  function FirstMatchFrom(lowered: string, from: nat): (k: Option<nat>)
    requires from <= |Keys|
    ensures k.Some? ==> from <= k.value < |Keys| && Includes(lowered, Keys[k.value])
    ensures k.Some? ==> forall j :: from <= j < k.value ==> !Includes(lowered, Keys[j])
    ensures k.None? ==> forall j :: from <= j < |Keys| ==> !Includes(lowered, Keys[j])
    decreases |Keys| - from
  {
    if from == |Keys| then None
    else if Includes(lowered, Keys[from]) then Some(from)
    else FirstMatchFrom(lowered, from + 1)
  }

  /** Position of the entry that answers a query: the first whose key the lower-cased query contains. */
  function MatchedEntry(query: string): (k: Option<nat>)
    ensures k.Some? ==> k.value < |Keys|
  {
    FirstMatchFrom(Lower(query), 0)
  }

  /** The reply to a query: the matched entry's text, or the default text. */
  function Response(query: string): (r: string)
  {
    match MatchedEntry(query)
    case None => DefaultResponse
    case Some(k) => Texts[k]
  }

  /** When no key occurs in the lower-cased query, the default text is the reply. */
  lemma NoKeyGivesDefault(query: string)
    requires forall j :: 0 <= j < |Keys| ==> !Includes(Lower(query), Keys[j])
    ensures MatchedEntry(query) == None && Response(query) == DefaultResponse
  {
  }

  /**
   * A reply other than the default is entry k's response, where k's key occurs
   * in the lower-cased query and no earlier key does.
   */
  lemma FirstKeyWins(query: string, k: nat)
    requires k < |Keys| && Includes(Lower(query), Keys[k])
    requires forall j :: 0 <= j < k ==> !Includes(Lower(query), Keys[j])
    ensures MatchedEntry(query) == Some(k)
  {
    var found := FirstMatchFrom(Lower(query), 0);
    assert found.Some?;
    assert found.value == k;
  }

  /** Lookup ignores case. */
  lemma ResponseIgnoresCase(query: string)
    ensures Response(query) == Response(Lower(query))
  {
    LowerIdempotent(query);
  }

  /** Table order decides: any query mentioning volatility gets the volatility text, whatever else it names. */
  lemma VolatilityComesFirst(query: string)
    requires Includes(Lower(query), "volatility")
    ensures MatchedEntry(query) == Some(0)
  {
  }

  /** `What is <topic lower-cased>?`: the prompt a quick-topic button writes into the input. */
  function QuickTopicPrompt(topic: string): (prompt: string)
    ensures |prompt| == |topic| + 9
    ensures prompt[8..8 + |topic|] == Lower(topic)
  {
    "What is " + Lower(topic) + "?"
  }

  /** A prompt's lower-cased form contains its lower-cased topic. */
  lemma PromptContainsTopic(topic: string)
    ensures Includes(Lower(QuickTopicPrompt(topic)), Lower(topic))
  {
    var p := QuickTopicPrompt(topic);
    LowerIdempotent(topic);
    assert Lower(p)[8..8 + |topic|] == Lower(Lower(topic));
    assert OccursAt(Lower(p), Lower(topic), 8);
  }

  /** Lower-casing a prompt lower-cases its fixed words and keeps the already lower-cased topic. */
  lemma LowerPrompt(topic: string)
    ensures Lower(QuickTopicPrompt(topic)) == "what is " + Lower(topic) + "?"
  {
    LowerIdempotent(topic);
    var p := QuickTopicPrompt(topic);
    assert p == "What is " + Lower(topic) + "?";
  }

  /** The fixed words of a prompt contain none of these letters, so they are absent from the prompt when absent from its topic. */
  lemma PromptLacks(key: string, c: char)
    requires c in "dglopuvx" && c !in key
    ensures c !in "what is " + key + "?"
  {
  }

  /** A letter of key j that neither the fixed words nor key k contain keeps key j out of the prompt for key k. */
  lemma PromptSkips(k: nat, j: nat, c: char)
    requires k < |Keys| && j < |Keys|
    requires c in "dglopuvx" && c in Keys[j] && c !in Keys[k]
    ensures !Includes("what is " + Keys[k] + "?", Keys[j])
  {
    PromptLacks(Keys[k], c);
    AbsentCharExcludes("what is " + Keys[k] + "?", Keys[j], c);
  }

  /**
   * The prompt of a topic whose lower-cased name is key k is answered by entry k
   * when no earlier key occurs in it.
   */
  lemma TopicMatches(topic: string, k: nat)
    requires k < |Keys| && Lower(topic) == Keys[k]
    requires forall j :: 0 <= j < k ==> !Includes("what is " + Keys[k] + "?", Keys[j])
    ensures MatchedEntry(QuickTopicPrompt(topic)) == Some(k)
  {
    var prompt := QuickTopicPrompt(topic);
    LowerPrompt(topic);
    assert OccursAt(Lower(prompt), Keys[k], 8);
    FirstKeyWins(prompt, k);
  }

  /** Every quick-topic button's prompt is answered by that topic's own entry, never the default. */
  lemma QuickTopicResolves(t: nat)
    requires t < |QuickTopics|
    ensures MatchedEntry(QuickTopicPrompt(QuickTopics[t])) == Some(t)
  {
    if t == 0 {
      VolatilityTopicResolves();
    } else if t == 1 {
      DrawdownTopicResolves();
    } else if t == 2 {
      StressIndexTopicResolves();
    } else if t == 3 {
      ReturnsTopicResolves();
    } else if t == 4 {
      MovingAverageTopicResolves();
    } else if t == 5 {
      RegimeTopicResolves();
    } else if t == 6 {
      SharpeRatioTopicResolves();
    } else {
      CorrelationTopicResolves();
    }
  }

  lemma VolatilityTopicResolves()
    ensures MatchedEntry(QuickTopicPrompt("Volatility")) == Some(0)
  {
    assert Lower("Volatility") == "volatility";
    TopicMatches("Volatility", 0);
  }

  lemma DrawdownTopicResolves()
    ensures MatchedEntry(QuickTopicPrompt("Drawdown")) == Some(1)
  {
    assert Lower("Drawdown") == "drawdown";
    PromptSkips(1, 0, 'v');
    TopicMatches("Drawdown", 1);
  }

  lemma StressIndexTopicResolves()
    ensures MatchedEntry(QuickTopicPrompt("Stress Index")) == Some(2)
  {
    assert Lower("Stress Index") == "stress index";
    PromptSkips(2, 0, 'v');
    PromptSkips(2, 1, 'o');
    TopicMatches("Stress Index", 2);
  }

  lemma ReturnsPromptSkips0To2()
    ensures forall j :: 0 <= j < 2 ==> !Includes("what is " + Keys[3] + "?", Keys[j])
  {
    PromptSkips(3, 0, 'l');
    PromptSkips(3, 1, 'o');
  }

  lemma ReturnsPromptSkips2To3()
    ensures forall j :: 2 <= j < 3 ==> !Includes("what is " + Keys[3] + "?", Keys[j])
  {
    PromptSkips(3, 2, 'x');
  }

  lemma ReturnsTopicResolves()
    ensures MatchedEntry(QuickTopicPrompt("Returns")) == Some(3)
  {
    assert Lower("Returns") == "returns";
    ReturnsPromptSkips0To2();
    ReturnsPromptSkips2To3();
    TopicMatches("Returns", 3);
  }

  lemma MovingAveragePromptSkips0To2()
    ensures forall j :: 0 <= j < 2 ==> !Includes("what is " + Keys[4] + "?", Keys[j])
  {
    PromptSkips(4, 0, 'l');
    PromptSkips(4, 1, 'd');
  }

  lemma MovingAveragePromptSkips2To4()
    ensures forall j :: 2 <= j < 4 ==> !Includes("what is " + Keys[4] + "?", Keys[j])
  {
    PromptSkips(4, 2, 'x');
    PromptSkips(4, 3, 'u');
  }

  lemma MovingAverageTopicResolves()
    ensures MatchedEntry(QuickTopicPrompt("Moving Average")) == Some(4)
  {
    assert Lower("Moving Average") == "moving average";
    MovingAveragePromptSkips0To2();
    MovingAveragePromptSkips2To4();
    TopicMatches("Moving Average", 4);
  }

  lemma RegimePromptSkips0To2()
    ensures forall j :: 0 <= j < 2 ==> !Includes("what is " + Keys[5] + "?", Keys[j])
  {
    PromptSkips(5, 0, 'v');
    PromptSkips(5, 1, 'o');
  }

  lemma RegimePromptSkips2To4()
    ensures forall j :: 2 <= j < 4 ==> !Includes("what is " + Keys[5] + "?", Keys[j])
  {
    PromptSkips(5, 2, 'x');
    PromptSkips(5, 3, 'u');
  }

  lemma RegimePromptSkips4To5()
    ensures forall j :: 4 <= j < 5 ==> !Includes("what is " + Keys[5] + "?", Keys[j])
  {
    PromptSkips(5, 4, 'v');
  }

  lemma RegimeTopicResolves()
    ensures MatchedEntry(QuickTopicPrompt("Regime")) == Some(5)
  {
    assert Lower("Regime") == "regime";
    RegimePromptSkips0To2();
    RegimePromptSkips2To4();
    RegimePromptSkips4To5();
    TopicMatches("Regime", 5);
  }

  lemma SharpeRatioPromptSkips0To2()
    ensures forall j :: 0 <= j < 2 ==> !Includes("what is " + Keys[6] + "?", Keys[j])
  {
    PromptSkips(6, 0, 'v');
    PromptSkips(6, 1, 'd');
  }

  lemma SharpeRatioPromptSkips2To4()
    ensures forall j :: 2 <= j < 4 ==> !Includes("what is " + Keys[6] + "?", Keys[j])
  {
    PromptSkips(6, 2, 'x');
    PromptSkips(6, 3, 'u');
  }

  lemma SharpeRatioPromptSkips4To6()
    ensures forall j :: 4 <= j < 6 ==> !Includes("what is " + Keys[6] + "?", Keys[j])
  {
    PromptSkips(6, 4, 'v');
    PromptSkips(6, 5, 'g');
  }

  lemma SharpeRatioTopicResolves()
    ensures MatchedEntry(QuickTopicPrompt("Sharpe Ratio")) == Some(6)
  {
    assert Lower("Sharpe Ratio") == "sharpe ratio";
    SharpeRatioPromptSkips0To2();
    SharpeRatioPromptSkips2To4();
    SharpeRatioPromptSkips4To6();
    TopicMatches("Sharpe Ratio", 6);
  }

  lemma CorrelationPromptSkips0To2()
    ensures forall j :: 0 <= j < 2 ==> !Includes("what is " + Keys[7] + "?", Keys[j])
  {
    PromptSkips(7, 0, 'v');
    PromptSkips(7, 1, 'd');
  }

  lemma CorrelationPromptSkips2To4()
    ensures forall j :: 2 <= j < 4 ==> !Includes("what is " + Keys[7] + "?", Keys[j])
  {
    PromptSkips(7, 2, 'x');
    PromptSkips(7, 3, 'u');
  }

  lemma CorrelationPromptSkips4To6()
    ensures forall j :: 4 <= j < 6 ==> !Includes("what is " + Keys[7] + "?", Keys[j])
  {
    PromptSkips(7, 4, 'v');
    PromptSkips(7, 5, 'g');
  }

  lemma CorrelationPromptSkips6To7()
    ensures forall j :: 6 <= j < 7 ==> !Includes("what is " + Keys[7] + "?", Keys[j])
  {
    PromptSkips(7, 6, 'p');
  }

  lemma CorrelationTopicResolves()
    ensures MatchedEntry(QuickTopicPrompt("Correlation")) == Some(7)
  {
    assert Lower("Correlation") == "correlation";
    CorrelationPromptSkips0To2();
    CorrelationPromptSkips2To4();
    CorrelationPromptSkips4To6();
    CorrelationPromptSkips6To7();
    TopicMatches("Correlation", 7);
  }

  method FindResponse(query: string) returns (response: string)
    ensures response == Response(query)
  {
    var lowerQuery := Lower(query);
    var i := 0;
    while i < |Keys|
      invariant 0 <= i <= |Keys|
      invariant FirstMatchFrom(lowerQuery, 0) == FirstMatchFrom(lowerQuery, i)
    {
      if Includes(lowerQuery, Keys[i]) {
        return Texts[i];
      }
      i := i + 1;
    }
    return DefaultResponse;
  }

  /** ECMAScript white space and line terminators: what `trim` removes. */
  predicate IsWhitespace(c: char)
  {
    c == ' ' || c == '\t' || c == '\n' || c == '\r' || c == '\U{000B}' || c == '\U{000C}'
    || c == '\U{00A0}' || c == '\U{FEFF}' || c == '\U{1680}' || ('\U{2000}' <= c <= '\U{200A}')
    || c == '\U{2028}' || c == '\U{2029}' || c == '\U{202F}' || c == '\U{205F}' || c == '\U{3000}'
  }

  /** `!input.trim()`: the input trims to the empty string. */
  predicate IsBlank(s: string)
  {
    forall i :: 0 <= i < |s| ==> IsWhitespace(s[i])
  }

  /**
   * Alternating exchanges after the welcome message: a non-blank user message,
   * then the assistant's reply to exactly that text.
   */
  ghost predicate Exchanges(msgs: seq<Message>)
    decreases |msgs|
  {
    |msgs| == 0
    || (|msgs| >= 2
        && msgs[0].role == User && !IsBlank(msgs[0].content)
        && msgs[1] == Message(Assistant, Response(msgs[0].content))
        && Exchanges(msgs[2..]))
  }

  lemma {:induction false} ExchangesAppend(msgs: seq<Message>, text: string)
    requires Exchanges(msgs) && !IsBlank(text)
    ensures Exchanges(msgs + [Message(User, text), Message(Assistant, Response(text))])
    decreases |msgs|
  {
    var pair := [Message(User, text), Message(Assistant, Response(text))];
    if |msgs| == 0 {
      assert msgs + pair == pair;
      assert pair[2..] == [];
    } else {
      ExchangesAppend(msgs[2..], text);
      assert (msgs + pair)[2..] == msgs[2..] + pair;
    }
  }

  class AssistantChat {
    var messages: seq<Message>
    var input: string

    /** The transcript is the welcome message followed by whole exchanges. */
    ghost predicate Valid()
      reads this
    {
      |messages| >= 1 && messages[0] == Message(Assistant, WelcomeText) && Exchanges(messages[1..])
    }

    constructor ()
      ensures messages == [Message(Assistant, WelcomeText)] && input == ""
      ensures Valid()
    {
      messages := [Message(Assistant, WelcomeText)];
      input := "";
      new;
      assert messages[1..] == [];
    }

    /** The text box's change handler. */
    method SetInput(text: string)
      modifies this
      ensures input == text && messages == old(messages)
    {
      input := text;
    }

    /** A quick-topic button fills the input with its prompt. */
    method SelectQuickTopic(topic: string)
      modifies this
      ensures input == QuickTopicPrompt(topic) && messages == old(messages)
    {
      input := "What is " + Lower(topic) + "?";
    }

    method HandleSend()
      requires Valid()
      modifies this
      ensures Valid()
      ensures IsBlank(old(input)) ==> messages == old(messages) && input == old(input)
      ensures !IsBlank(old(input)) ==>
        messages == old(messages) + [Message(User, old(input)), Message(Assistant, Response(old(input)))]
        && input == ""
    {
      if IsBlank(input) {
        return;
      }
      var reply := FindResponse(input);
      ExchangesAppend(messages[1..], input);
      assert (messages + [Message(User, input), Message(Assistant, reply)])[1..]
          == messages[1..] + [Message(User, input), Message(Assistant, reply)];
      messages := messages + [Message(User, input), Message(Assistant, reply)];
      input := "";
    }

    /** Enter without Shift sends; every other key leaves the state alone. */
    method HandleKeyPress(key: string, shiftKey: bool)
      requires Valid()
      modifies this
      ensures Valid()
      ensures (key != "Enter" || shiftKey || IsBlank(old(input))) ==>
        messages == old(messages) && input == old(input)
      ensures (key == "Enter" && !shiftKey && !IsBlank(old(input))) ==>
        messages == old(messages) + [Message(User, old(input)), Message(Assistant, Response(old(input)))]
        && input == ""
    {
      if key == "Enter" && !shiftKey {
        HandleSend();
      }
    }
  }
}
