/** The state of the home page's chat widget and the event handlers that
    change it: typing or picking a suggestion, sending, the reply arriving
    after the simulated delay, clearing the chat and toggling fullscreen. */
module Chat {
  import opened Text
  import opened Catalog

  /** A transcript entry; the message id and timestamp are not modelled. */
  datatype Message = Message(text: string, isUser: bool)

  /** The reply shown when the simulated call throws. */
  const ErrorText: string := "Sorry, I'm having trouble connecting right now. Please try again!"

  /** The suggestion chips under the input bar, in display order. */
  const Suggestions: seq<string> := ["Budget analysis", "Investment tips", "Expense tracking", "Savings goals"]

  /** The topic each chip is labelled for. */
  const SuggestionTopics: seq<Topic> := [Budget, Investment, Expense, Savings]

  lemma BudgetChip()
    ensures SelectTopic(Lower(Suggestions[0])) == Budget
  {
    var l := Lower(Suggestions[0]);
    assert |l| >= 6 && l[..6] == "budget" by {
      assert l == "budget analysis";
    }
    ContainsAt(l, "budget", 0);
  }

  lemma InvestmentChip()
    ensures SelectTopic(Lower(Suggestions[1])) == Investment
  {
    var l := Lower(Suggestions[1]);
    assert |l| >= 6 && 'b' !in l && l[..6] == "invest" by {
      assert l == "investment tips";
    }
    AbsentCharExcludes(l, "budget", 0);
    ContainsAt(l, "invest", 0);
  }

  lemma ExpenseChip()
    ensures SelectTopic(Lower(Suggestions[2])) == Expense
  {
    var l := Lower(Suggestions[2]);
    assert |l| >= 7 && 'b' !in l && 'v' !in l && l[..7] == "expense" by {
      assert l == "expense tracking";
    }
    AbsentCharExcludes(l, "budget", 0);
    AbsentCharExcludes(l, "invest", 2);
    ContainsAt(l, "expense", 0);
  }

  lemma SavingsChip()
    ensures SelectTopic(Lower(Suggestions[3])) == Savings
  {
    var l := Lower(Suggestions[3]);
    assert |l| >= 6 && 'b' !in l && 't' !in l && 'x' !in l && l[..6] == "saving" by {
      assert l == "savings goals";
    }
    AbsentCharExcludes(l, "budget", 0);
    AbsentCharExcludes(l, "invest", 5);
    AbsentCharExcludes(l, "expense", 1);
    AbsentCharExcludes(l, "track", 0);
    ContainsAt(l, "saving", 0);
  }

  /** Each chip's text, once sent, selects the topic the chip is labelled
      for. */
  lemma SuggestionSelectsItsTopic(k: nat)
    requires k < |Suggestions|
    ensures SelectTopic(Lower(Suggestions[k])) == SuggestionTopics[k]
  {
    if k == 0 {
      BudgetChip();
    } else if k == 1 {
      InvestmentChip();
    } else if k == 2 {
      ExpenseChip();
    } else {
      SavingsChip();
    }
  }

  /** The chip texts have no surrounding whitespace, so sending one sends it
      as it is. */
  lemma SuggestionIsTrimmed(k: nat)
    requires k < |Suggestions|
    ensures Trim(Suggestions[k]) == Suggestions[k] != []
  {
    var s := Suggestions[k];
    assert s[0] in "BIES" && s[|s| - 1] in "sg";
    TrimOfTrimmed(s);
  }

  /** User and assistant messages take turns. */
  ghost predicate Alternates(ms: seq<Message>)
  {
    forall i :: 0 < i < |ms| ==> ms[i - 1].isUser != ms[i].isUser
  }

  /** The reply the pending request gets: the selector's answer, or the fixed
      error text when the simulated call fails. */
  function Reply(table: ResponseTable, request: string, ok: bool, draw: real): (r: string)
    requires table.Valid()
    requires 0.0 <= draw < 1.0
    ensures r != []
    ensures ok ==> r in table.Get(SelectTopic(Lower(request)))
    ensures !ok ==> r == ErrorText
  {
    if ok then GetAIResponse(table, request, draw) else ErrorText
  }

  /** The `HomePage` component's state. */
  class ChatSession {
    /** The answer table the simulated call reads (`mockAIResponses`). */
    const table: ResponseTable
    var messages: seq<Message>
    var inputValue: string
    var showChat: bool
    var isLoading: bool
    var isFullscreen: bool
    /** `currentInput` of the `handleSend` call that is waiting for its
        reply; meaningful only while `isLoading`. */
    var pendingRequest: string

    /** What every reachable state satisfies. Messages are non-empty and
        user messages are trimmed; user and assistant messages alternate;
        while a reply is pending the transcript is empty (cleared) or ends
        with the pending request, and otherwise it does not end with a user
        message; an open chat has messages, and a closed one holds at most
        the one reply that arrived after a clear. */
    ghost predicate Valid()
      reads this
    {
      table.Valid() &&
      (forall i :: 0 <= i < |messages| ==>
         messages[i].text != [] && (messages[i].isUser ==> IsTrimmed(messages[i].text))) &&
      Alternates(messages) &&
      (isLoading ==>
         pendingRequest != [] && IsTrimmed(pendingRequest) &&
         (messages == [] || messages[|messages| - 1] == Message(pendingRequest, true))) &&
      (!isLoading ==> messages == [] || !messages[|messages| - 1].isUser) &&
      (showChat ==> messages != []) &&
      (!showChat ==> |messages| <= 1 && (messages != [] ==> !messages[0].isUser))
    }

    /** The fullscreen input bar is rendered: it sits inside the chat
        overlay, which exists only while the chat is open, and is shown only
        in fullscreen. */
    predicate FullscreenInputRendered()
      reads this
    {
      showChat && isFullscreen
    }

    /** The bottom input bar is rendered: only outside fullscreen. */
    predicate BottomBarRendered()
      reads this
    {
      !isFullscreen
    }

    /** Some input is on screen: the page never leaves the user without
        a place to type. */
    predicate InputVisible(): (b: bool)
      reads this
      ensures b <==> FullscreenInputRendered() || BottomBarRendered()
    {
      showChat || !isFullscreen
    }

    /** The send button is enabled (`disabled={!inputValue.trim() ||
        isLoading}`): nothing is pending and the input has a character that
        is not whitespace. */
    function SendEnabled(): (b: bool)
      reads this
      ensures b <==> !isLoading && exists i :: 0 <= i < |inputValue| && !IsWhitespace(inputValue[i])
    {
      TrimEmptyIff(inputValue);
      Trim(inputValue) != [] && !isLoading
    }

    /** The initial state of the component, reading its answers from
        `table` (`mockAIResponses` on the page). */
    constructor (table: ResponseTable)
      requires table.Valid()
      ensures this.table == table
      ensures Valid() && InputVisible()
      ensures messages == [] && inputValue == [] && pendingRequest == []
      ensures !showChat && !isLoading && !isFullscreen
    {
      this.table := table;
      messages := [];
      inputValue := [];
      showChat := false;
      isLoading := false;
      isFullscreen := false;
      pendingRequest := [];
    }

    /** `setInputValue` from the textarea's `onChange` or a suggestion chip. */
    method SetInput(s: string)
      requires Valid()
      modifies this
      ensures Valid()
      ensures inputValue == s
      ensures messages == old(messages) && showChat == old(showChat) && isLoading == old(isLoading)
      ensures isFullscreen == old(isFullscreen) && pendingRequest == old(pendingRequest)
    {
      inputValue := s;
    }

    /** The part of `handleSend` before the `await`. The controls that call
        it are disabled while a reply is pending, so it is never called
        then. Blank input changes nothing; otherwise the trimmed input is
        appended as a user message, the chat opens, the reply becomes
        pending and the input is emptied. */
    method Send()
      requires Valid() && !isLoading
      modifies this
      ensures Valid()
      ensures old(InputVisible()) ==> InputVisible()
      ensures messages != old(messages) <==> old(SendEnabled())
      ensures Trim(old(inputValue)) == [] ==> unchanged(this)
      ensures Trim(old(inputValue)) != [] ==>
        messages == old(messages) + [Message(Trim(old(inputValue)), true)] &&
        showChat && isLoading && inputValue == [] &&
        pendingRequest == Trim(old(inputValue)) && isFullscreen == old(isFullscreen)
    {
      var t := Trim(inputValue);
      if t != [] {
        messages := messages + [Message(t, true)];
        showChat := true;
        isLoading := true;
        pendingRequest := t;
        inputValue := [];
      }
    }

    /** The continuation of `handleSend` after the `await`: the reply is
        appended to whatever the transcript holds by then (even after a
        clear) and the loading flag drops. `ok` says whether the simulated
        call returned or threw; `draw` is its `Math.random()`. */
    method Resolve(ok: bool, draw: real)
      requires Valid() && isLoading
      requires 0.0 <= draw < 1.0
      modifies this
      ensures Valid()
      ensures old(InputVisible()) ==> InputVisible()
      ensures messages == old(messages) + [Message(Reply(table, pendingRequest, ok, draw), false)]
      ensures !isLoading
      ensures inputValue == old(inputValue) && showChat == old(showChat)
      ensures isFullscreen == old(isFullscreen) && pendingRequest == old(pendingRequest)
    {
      var reply := Reply(table, pendingRequest, ok, draw);
      messages := messages + [Message(reply, false)];
      isLoading := false;
    }

    /** `clearChat`: the transcript empties and the chat closes and leaves
        fullscreen; a pending reply stays pending. */
    method Clear()
      requires Valid()
      modifies this
      ensures Valid() && InputVisible()
      ensures messages == [] && !showChat && !isFullscreen
      ensures isLoading == old(isLoading) && inputValue == old(inputValue)
      ensures pendingRequest == old(pendingRequest)
    {
      messages := [];
      showChat := false;
      isFullscreen := false;
    }

    /** `toggleFullscreen`; its button is rendered only in the open chat,
        where toggling keeps an input on screen. */
    method ToggleFullscreen()
      requires Valid()
      modifies this
      ensures Valid()
      ensures old(showChat) ==> InputVisible()
      ensures isFullscreen == !old(isFullscreen)
      ensures messages == old(messages) && inputValue == old(inputValue) && showChat == old(showChat)
      ensures isLoading == old(isLoading) && pendingRequest == old(pendingRequest)
    {
      isFullscreen := !isFullscreen;
    }

    /** A whole `handleSend` whose reply arrives before any other event: a
        non-blank input adds exactly the user message and then the reply to
        its trimmed text. */
    method SendAndResolve(ok: bool, draw: real)
      requires Valid() && !isLoading
      requires 0.0 <= draw < 1.0
      modifies this
      ensures Valid() && !isLoading
      ensures Trim(old(inputValue)) == [] ==> unchanged(this)
      ensures Trim(old(inputValue)) != [] ==>
        var t := Trim(old(inputValue));
        messages == old(messages) + [Message(t, true), Message(Reply(table, t, ok, draw), false)] &&
        showChat && inputValue == [] && isFullscreen == old(isFullscreen)
    {
      ghost var t, before := Trim(inputValue), messages;
      Send();
      if isLoading {
        Resolve(ok, draw);
        assert before + [Message(t, true)] + [Message(Reply(table, t, ok, draw), false)]
            == before + [Message(t, true), Message(Reply(table, t, ok, draw), false)];
      }
    }
  }

  /** A fresh page where a chip is picked and sent, and the reply arrives:
      the transcript is the chip's text followed by an answer on the chip's
      topic, and the chat is open and idle. */
  method SuggestionRoundTrip(table: ResponseTable, k: nat, draw: real)
    returns (transcript: seq<Message>, open: bool, loading: bool)
    requires table.Valid()
    requires k < |Suggestions|
    requires 0.0 <= draw < 1.0
    ensures |transcript| == 2
    ensures transcript[0] == Message(Suggestions[k], true)
    ensures !transcript[1].isUser && transcript[1].text in table.Get(SuggestionTopics[k])
    ensures open && !loading
  {
    var session := new ChatSession(table);
    session.SetInput(Suggestions[k]);
    SuggestionIsTrimmed(k);
    SuggestionSelectsItsTopic(k);
    session.SendAndResolve(true, draw);
    transcript, open, loading := session.messages, session.showChat, session.isLoading;
  }

  /** Clearing while a reply is pending, then sending again: the late reply
      lands in the cleared transcript while the chat is closed, and the next
      send shows it above the new user message. */
  method ClearBeforeReply(table: ResponseTable, first: string, second: string, draw: real)
    returns (afterReply: seq<Message>, openAfterReply: bool, afterNextSend: seq<Message>)
    requires table.Valid()
    requires Trim(first) != [] && Trim(second) != []
    requires 0.0 <= draw < 1.0
    ensures afterReply == [Message(GetAIResponse(table, Trim(first), draw), false)] && !openAfterReply
    ensures afterNextSend == afterReply + [Message(Trim(second), true)]
  {
    var session := new ChatSession(table);
    session.SetInput(first);
    session.Send();
    session.Clear();
    session.Resolve(true, draw);
    afterReply, openAfterReply := session.messages, session.showChat;
    session.SetInput(second);
    session.Send();
    afterNextSend := session.messages;
  }
}
