/**
 * The send pipeline of the chat popup (`ChatPopup`): the seeded
 * conversation, `handleSendMessage` and the Enter-key guard.
 *
 * Each React state update the handler performs is an `Event`; `SendEvents`
 * lists them in the order the handler issues them and `Replay` gives their
 * effect on the popup's state. The class's methods are proved to issue
 * exactly those events and to leave the state `Replay` predicts; the
 * lemmas below state what the event list promises.
 */
module Chat {
  import opened Wrappers
  import opened JsString
  import opened Rules
  import opened Messages

  /** What the remote query yields to the handler: the service's
      `result.output`, or a failure (a transport error, or the
      `{ error }` object returned in its place, whose missing `result`
      makes the handler throw). */
  datatype Remote = Answer(output: string) | Failed

  /** The fixed bot text appended when the remote step fails. */
  const Apology: string := "Sorry \U{1F641}\U{1F641} there was an error. Please try again."

  /** The popup state the handler touches. */
  datatype Snapshot = Snapshot(conversations: seq<Message>, inputValue: string, isLoadingSend: bool)

  /** One state update or outgoing call of the send handler. */
  datatype Event =
    | LoadingSet(on: bool)        // setIsLoadingSend(on)
    | Appended(message: Message)  // setConversations(... , message)
    | InputCleared                // setInputValue('')
    | Queried(prompt: string)     // fetchQuery(prompt)

  function Apply(s: Snapshot, e: Event): Snapshot {
    match e
    case LoadingSet(on) => s.(isLoadingSend := on)
    case Appended(m) => s.(conversations := s.conversations + [m])
    case InputCleared => s.(inputValue := "")
    case Queried(_) => s
  }

  /** The state after the events, applied in order. */
  function Replay(s: Snapshot, events: seq<Event>): Snapshot
    decreases |events|
  {
    if events == [] then s
    else Apply(Replay(s, events[..|events| - 1]), events[|events| - 1])
  }

  /** `{ sender: 'bot', ...rule.responses[0] }`: the first response spread
      into a bot message; with no responses the spread adds nothing and the
      message has no text. */
  function RuleReply(rule: Rule): (m: Message)
    ensures m.sender == Bot && m.interactionId.None? && m.feedback.None?
    ensures |rule.responses| > 0 ==>
      m.text == rule.responses[0].text && m.buttons == rule.responses[0].buttons
    ensures |rule.responses| == 0 ==> m.text == "" && m.buttons.None?
  {
    if |rule.responses| > 0 then
      Message(Bot, rule.responses[0].text, rule.responses[0].buttons, None, None)
    else
      Message(Bot, "", None, None, None)
  }

  /** The bot message a non-blank send appends: the first response of the
      winning rule; otherwise the service's answer; otherwise the fixed
      apology. */
  function Reply(text: string, rules: seq<Rule>, remote: string -> Remote): (m: Message)
    ensures m.sender == Bot
    ensures FindRule(rules, text).Some? ==> m == RuleReply(rules[FindRule(rules, text).value])
    ensures FindRule(rules, text).None? && remote(text).Answer? ==> m == BotText(remote(text).output)
    ensures FindRule(rules, text).None? && remote(text).Failed? ==> m == BotText(Apology)
  {
    match FindRule(rules, text)
    case Some(k) => RuleReply(rules[k])
    case None =>
      match remote(text)
      case Answer(output) => BotText(output)
      case Failed => BotText(Apology)
  }

  /** The events of a non-blank send of `text` whose lookup missed (so
      that the remote was queried) or hit, appending `reply`. */
  function SendTrace(text: string, miss: bool, reply: Message): seq<Event> {
    var begun := [LoadingSet(true)] + [Appended(UserMessage(text))] + [InputCleared];
    var dispatched := if miss then begun + [Queried(text)] else begun;
    dispatched + [Appended(reply)] + [LoadingSet(false)]
  }

  /** The events of `handleSendMessage` on input `text`, in order. */
  function SendEvents(text: string, rules: seq<Rule>, remote: string -> Remote): (r: seq<Event>)
    ensures r == [] <==> IsBlank(text)
    ensures r != [] ==> |r| == if FindRule(rules, text).None? then 6 else 5
  {
    TrimEmptyIffBlank(text);
    if Trim(text) == "" then []
    else SendTrace(text, FindRule(rules, text).None?, Reply(text, rules, remote))
  }

  /** The prompts of the remote queries among the events. */
  function Queries(events: seq<Event>): seq<string>
    decreases |events|
  {
    if events == [] then []
    else
      var last := events[|events| - 1];
      Queries(events[..|events| - 1]) + (if last.Queried? then [last.prompt] else [])
  }

  lemma AppendTwo(a: seq<Message>, x: Message, y: Message)
    ensures a + [x] + [y] == a + [x, y]
  {
  }

  lemma ReplaySnoc(s: Snapshot, events: seq<Event>, e: Event)
    ensures Replay(s, events + [e]) == Apply(Replay(s, events), e)
  {
    assert (events + [e])[..|events|] == events;
  }

  lemma QueriesSnoc(events: seq<Event>, e: Event)
    ensures Queries(events + [e]) == Queries(events) + (if e.Queried? then [e.prompt] else [])
  {
    assert (events + [e])[..|events|] == events;
  }

  /** The prefixes of `SendTrace(text, miss, reply)` after each step of the
      handler; on a hit the query step adds nothing. */
  function Steps(text: string, miss: bool, reply: Message): (steps: seq<seq<Event>>)
    ensures |steps| == 6
  {
    var e1 := [LoadingSet(true)];
    var e2 := e1 + [Appended(UserMessage(text))];
    var e3 := e2 + [InputCleared];
    var e4 := if miss then e3 + [Queried(text)] else e3;
    var e5 := e4 + [Appended(reply)];
    var e6 := e5 + [LoadingSet(false)];
    [e1, e2, e3, e4, e5, e6]
  }

  lemma StepsEndInTrace(text: string, miss: bool, reply: Message)
    ensures Steps(text, miss, reply)[5] == SendTrace(text, miss, reply)
  {
  }

  /** Replaying a send trace appends the user message and the reply,
      clears the input and leaves the flag off; every proper non-empty
      prefix leaves the flag on. */
  lemma {:induction false} ReplayTrace(s: Snapshot, text: string, miss: bool, reply: Message)
    ensures Replay(s, SendTrace(text, miss, reply)) ==
      Snapshot(s.conversations + [UserMessage(text), reply], "", false)
    ensures forall i | 0 <= i < 5 :: Replay(s, Steps(text, miss, reply)[i]).isLoadingSend
  {
    var st := Steps(text, miss, reply);
    StepsEndInTrace(text, miss, reply);
    var user := UserMessage(text);
    ReplaySnoc(s, [], LoadingSet(true));
    assert [] + [LoadingSet(true)] == st[0];
    ReplaySnoc(s, st[0], Appended(user));
    ReplaySnoc(s, st[1], InputCleared);
    var mid := Snapshot(s.conversations + [user], "", true);
    assert Replay(s, st[2]) == mid;
    if miss {
      ReplaySnoc(s, st[2], Queried(text));
    }
    assert Replay(s, st[3]) == mid;
    ReplaySnoc(s, st[3], Appended(reply));
    ReplaySnoc(s, st[4], LoadingSet(false));
    AppendTwo(s.conversations, user, reply);
  }

  /** In a send trace the flag is raised first, before the user message
      is appended, held after every later event but the last, and lowered
      by the last. */
  lemma {:induction false} LoadingHeldInTrace(s: Snapshot, text: string, miss: bool, reply: Message, k: nat)
    requires 1 <= k < |SendTrace(text, miss, reply)|
    ensures SendTrace(text, miss, reply)[0] == LoadingSet(true)
    ensures SendTrace(text, miss, reply)[1] == Appended(UserMessage(text))
    ensures Replay(s, SendTrace(text, miss, reply)[..k]).isLoadingSend
    ensures SendTrace(text, miss, reply)[|SendTrace(text, miss, reply)| - 1] == LoadingSet(false)
  {
    var es := SendTrace(text, miss, reply);
    var st := Steps(text, miss, reply);
    StepsEndInTrace(text, miss, reply);
    ReplayTrace(s, text, miss, reply);
    assert forall i | 0 <= i < 5 :: st[i] == es[..|st[i]|];
    // every prefix of length 1 .. |es| - 1 is one of st[0] .. st[4]
    var i := if miss || k < 3 then k - 1 else k;
    assert |st[i]| == k;
  }

  /** The only query a send trace holds is the one of a miss. */
  lemma {:induction false} QueriesOfTrace(text: string, miss: bool, reply: Message)
    ensures Queries(SendTrace(text, miss, reply)) == if miss then [text] else []
  {
    var st := Steps(text, miss, reply);
    StepsEndInTrace(text, miss, reply);
    QueriesSnoc([], LoadingSet(true));
    assert [] + [LoadingSet(true)] == st[0];
    QueriesSnoc(st[0], Appended(UserMessage(text)));
    QueriesSnoc(st[1], InputCleared);
    if miss {
      QueriesSnoc(st[2], Queried(text));
    }
    QueriesSnoc(st[3], Appended(reply));
    QueriesSnoc(st[4], LoadingSet(false));
  }

  /** Blank input changes nothing; any other input leaves the conversation
      grown by exactly the user message with the untrimmed input and one bot
      message, the input box cleared and the loading flag off. */
  lemma {:induction false} SendOutcome(s: Snapshot, rules: seq<Rule>, remote: string -> Remote)
    ensures IsBlank(s.inputValue) ==> Replay(s, SendEvents(s.inputValue, rules, remote)) == s
    ensures !IsBlank(s.inputValue) ==>
      Replay(s, SendEvents(s.inputValue, rules, remote)) ==
        Snapshot(s.conversations + [UserMessage(s.inputValue), Reply(s.inputValue, rules, remote)], "", false)
  {
    TrimEmptyIffBlank(s.inputValue);
    ReplayTrace(s, s.inputValue, FindRule(rules, s.inputValue).None?, Reply(s.inputValue, rules, remote));
  }

  /** The loading flag is raised by the first event, before the user
      message is appended, and stays raised after every later event but
      the last, which lowers it. */
  lemma {:induction false} LoadingHeldDuringSend(s: Snapshot, rules: seq<Rule>, remote: string -> Remote)
    requires !IsBlank(s.inputValue)
    ensures SendEvents(s.inputValue, rules, remote)[0] == LoadingSet(true)
    ensures SendEvents(s.inputValue, rules, remote)[1] == Appended(UserMessage(s.inputValue))
    ensures forall k | 1 <= k < |SendEvents(s.inputValue, rules, remote)| ::
      Replay(s, SendEvents(s.inputValue, rules, remote)[..k]).isLoadingSend
    ensures SendEvents(s.inputValue, rules, remote)[|SendEvents(s.inputValue, rules, remote)| - 1] == LoadingSet(false)
  {
    var text := s.inputValue;
    TrimEmptyIffBlank(text);
    var miss, reply := FindRule(rules, text).None?, Reply(text, rules, remote);
    var es := SendTrace(text, miss, reply);
    forall k | 1 <= k < |es| ensures Replay(s, es[..k]).isLoadingSend {
      LoadingHeldInTrace(s, text, miss, reply, k);
    }
    LoadingHeldInTrace(s, text, miss, reply, 1);
  }

  /** A rule hit issues no remote query; a miss issues exactly one, with the
      raw input; blank input issues none. */
  lemma {:induction false} QueriesOfSend(text: string, rules: seq<Rule>, remote: string -> Remote)
    ensures Queries(SendEvents(text, rules, remote)) ==
      if Trim(text) == "" || FindRule(rules, text).Some? then [] else [text]
  {
    if Trim(text) != "" {
      QueriesOfTrace(text, FindRule(rules, text).None?, Reply(text, rules, remote));
    }
  }

  /** The chat popup's state and handlers. */
  class ChatPopup {
    const rules: seq<Rule>
    var conversations: seq<Message>
    var inputValue: string
    var isLoadingSend: bool

    function State(): Snapshot
      reads this
    {
      Snapshot(conversations, inputValue, isLoadingSend)
    }

    /** The conversation opens with the first response of the first rule. */
    constructor (rules: seq<Rule>)
      requires |rules| > 0 && |rules[0].responses| > 0
      ensures this.rules == rules
      ensures conversations == [BotText(rules[0].responses[0].text)]
      ensures inputValue == "" && !isLoadingSend
    {
      this.rules := rules;
      conversations := [BotText(rules[0].responses[0].text)];
      inputValue := "";
      isLoadingSend := false;
    }

    /** The text box's `onChange`. */
    method ChangeInput(text: string)
      modifies this
      ensures State() == old(State()).(inputValue := text)
    {
      inputValue := text;
    }

    /** Performs the state update `e` stands for and records it: every
        write of the send handler goes through here, so the events it
        returns are the writes it made, in the order it made them. */
    method Emit(ghost start: Snapshot, events: seq<Event>, e: Event) returns (events': seq<Event>)
      requires State() == Replay(start, events)
      modifies this
      ensures events' == events + [e]
      ensures State() == Replay(start, events')
    {
      ReplaySnoc(start, events, e);
      match e {
        case LoadingSet(on) =>
          isLoadingSend := on;
        case Appended(m) =>
          conversations := conversations + [m];
        case InputCleared =>
          inputValue := "";
        case Queried(_) =>
      }
      events' := events + [e];
    }

    /** `handleSendMessage`: blank input is ignored; otherwise the flag is
        raised, the user message appended and the input cleared, then the
        reply is found by the matching rule, the remote answer or (the
        `catch`) the apology, and the flag is lowered (the `finally`). */
    method HandleSendMessage(remote: string -> Remote) returns (events: seq<Event>)
      modifies this
      ensures events == SendEvents(old(inputValue), rules, remote)
      ensures State() == Replay(old(State()), events)
      ensures IsBlank(old(inputValue)) ==> State() == old(State())
      ensures !IsBlank(old(inputValue)) ==>
        State() == Snapshot(old(conversations) + [UserMessage(old(inputValue)), Reply(old(inputValue), rules, remote)], "", false)
    {
      ghost var start := State();
      var text := inputValue;
      events := [];
      if Trim(text) != "" {
        events := Emit(start, events, LoadingSet(true));
        assert events == [LoadingSet(true)];
        events := Emit(start, events, Appended(UserMessage(text)));
        events := Emit(start, events, InputCleared);
        var matched := FindRule(rules, text);
        var reply: Message;
        if matched.Some? {
          reply := RuleReply(rules[matched.value]);
        } else {
          events := Emit(start, events, Queried(text));
          var response := remote(text);
          match response {
            case Answer(output) =>
              reply := BotText(output);
            case Failed =>
              reply := BotText(Apology);
          }
        }
        events := Emit(start, events, Appended(reply));
        events := Emit(start, events, LoadingSet(false));
        assert events == SendTrace(text, matched.None?, reply);
        ReplayTrace(start, text, matched.None?, reply);
      }
      TrimEmptyIffBlank(text);
    }

    /** `handleKeyDown`: Enter sends, but only while no send is loading. */
    method HandleKeyDown(key: string, remote: string -> Remote) returns (events: seq<Event>)
      modifies this
      ensures events == if key == "Enter" && !old(isLoadingSend) then SendEvents(old(inputValue), rules, remote) else []
      ensures State() == Replay(old(State()), events)
    {
      if key == "Enter" && !isLoadingSend {
        events := HandleSendMessage(remote);
      } else {
        events := [];
      }
    }
  }
}
