/** The store's reducer and executor. The reducer is a total function from a
    state and a message to a state; the executor turns an intent into a
    sequence of dispatched messages, published labels and use-case calls,
    recorded here as an event log whose replay is always the current state.
    Coroutines are not modelled: each intent runs to completion in order. */
module ChatStoreFactory {
  import opened Wrappers
  import opened Domain
  import opened ResponseDto
  import ChatStore
  import ConsultantDto

  /** The private messages the executor dispatches to the reducer. */
  datatype Message =
    | InputTextChanged(text: string)
    | UserMessageAdded(message: string)
    | LoadingStarted
    | AiMessageAdded(response: string, rawJson: Option<string> := None)
    | LoadingFailed(error: string)
  {
    /** The messages that end a request. */
    predicate IsTerminal() {
      AiMessageAdded? || LoadingFailed?
    }
  }

  /** `ReducerImpl.reduce`. */
  function Reduce(state: ChatStore.State, msg: Message): (r: ChatStore.State)
    ensures state.messages <= r.messages
    ensures msg.IsTerminal() ==> !r.isLoading
  {
    match msg
    case InputTextChanged(text) => state.(inputText := text)
    case UserMessageAdded(message) =>
      state.(messages := state.messages + [ChatMessage(text := message, isUser := true)], inputText := "")
    case LoadingStarted => state.(isLoading := true, error := None)
    case AiMessageAdded(response, rawJson) =>
      state.(isLoading := false,
             messages := state.messages + [ChatMessage(text := response, isUser := false, rawJson := rawJson)],
             error := None)
    case LoadingFailed(error) =>
      state.(isLoading := false,
             messages := state.messages + [ChatMessage(text := error, isUser := false)],
             error := Some(error))
  }

  /** What each message does, field by field. */
  lemma ReduceEffects(s: ChatStore.State, msg: Message)
    ensures var t := Reduce(s, msg);
      && (msg.InputTextChanged? ==>
            t.inputText == msg.text && t.messages == s.messages && t.isLoading == s.isLoading && t.error == s.error)
      && (msg.UserMessageAdded? ==>
            && t.messages == s.messages + [ChatMessage(msg.message, true)]
            && t.inputText == "" && t.isLoading == s.isLoading && t.error == s.error)
      && (msg.LoadingStarted? ==>
            t.isLoading && t.error == None && t.messages == s.messages && t.inputText == s.inputText)
      && (msg.AiMessageAdded? ==>
            && t.messages == s.messages + [ChatMessage(msg.response, false, msg.rawJson)]
            && !t.isLoading && t.error == None && t.inputText == s.inputText)
      && (msg.LoadingFailed? ==>
            && t.messages == s.messages + [ChatMessage(msg.error, false)]
            && !t.isLoading && t.error == Some(msg.error) && t.inputText == s.inputText)
  {
  }

  /** Every reduction keeps the transcript or appends exactly one turn, and
      every terminal message clears `isLoading`. */
  lemma ReduceAppendsAtMostOne(s: ChatStore.State, msg: Message)
    ensures s.messages <= Reduce(s, msg).messages
    ensures |Reduce(s, msg).messages| == |s.messages| + (if msg.InputTextChanged? || msg.LoadingStarted? then 0 else 1)
    ensures msg.IsTerminal() ==> !Reduce(s, msg).isLoading
  {
  }

  // ---------------------------------------------------------------------
  // The event log of the executor
  // ---------------------------------------------------------------------

  /** The use cases the executor calls. */
  datatype UseCaseCall =
    | SendMessageCall(message: string)
    | ValidateCountryNameCall(countryName: string)
    | GetCountryInfoCall(countryName: string)

  /** One side effect of the executor, in the order it happens. */
  datatype Event =
    | Dispatched(msg: Message)
    | Published(notification: ChatStore.Label)
    | Invoked(call: UseCaseCall)

  function Step(state: ChatStore.State, event: Event): ChatStore.State
  {
    if event.Dispatched? then Reduce(state, event.msg) else state
  }

  /** The state reached from `state` by the dispatched messages of `events`. */
  function Replay(state: ChatStore.State, events: seq<Event>): ChatStore.State
    decreases |events|
  {
    if events == [] then state else Replay(Step(state, events[0]), events[1..])
  }

  lemma {:induction false} ReplayConcat(s: ChatStore.State, a: seq<Event>, b: seq<Event>)
    ensures Replay(s, a + b) == Replay(Replay(s, a), b)
    decreases |a|
  {
    if a == [] {
      assert a + b == b;
    } else {
      assert (a + b)[1..] == a[1..] + b;
      ReplayConcat(Step(s, a[0]), a[1..], b);
    }
  }

  lemma ReplayCons(s: ChatStore.State, e: Event, rest: seq<Event>)
    ensures Replay(s, [e] + rest) == Replay(Step(s, e), rest)
  {
    assert ([e] + rest)[1..] == rest;
  }

  /** No message among `events`: only labels and calls. */
  predicate Quiet(events: seq<Event>) {
    forall i :: 0 <= i < |events| ==> !events[i].Dispatched?
  }

  /** Labels and use-case calls leave the state alone. */
  lemma {:induction false} ReplayQuiet(s: ChatStore.State, events: seq<Event>)
    requires Quiet(events)
    ensures Replay(s, events) == s
    decreases |events|
  {
    if events != [] {
      ReplayQuiet(s, events[1..]);
    }
  }

  /** The state after a request run: the user turn, loading, then one
      terminal message, with only calls and labels in between. */
  lemma RequestReplay(s: ChatStore.State, text: string, before: seq<Event>, terminal: Message, after: seq<Event>)
    requires Quiet(before) && Quiet(after)
    ensures Replay(s, [Dispatched(UserMessageAdded(text)), Dispatched(LoadingStarted)] + before + [Dispatched(terminal)] + after)
            == Reduce(Reduce(Reduce(s, UserMessageAdded(text)), LoadingStarted), terminal)
  {
    var s1 := Reduce(s, UserMessageAdded(text));
    var s2 := Reduce(s1, LoadingStarted);
    var tail := [Dispatched(terminal)] + after;
    assert [Dispatched(UserMessageAdded(text)), Dispatched(LoadingStarted)] + before + [Dispatched(terminal)] + after
           == [Dispatched(UserMessageAdded(text))] + ([Dispatched(LoadingStarted)] + (before + tail));
    ReplayCons(s, Dispatched(UserMessageAdded(text)), [Dispatched(LoadingStarted)] + (before + tail));
    ReplayCons(s1, Dispatched(LoadingStarted), before + tail);
    ReplayConcat(s2, before, tail);
    ReplayQuiet(s2, before);
    ReplayCons(s2, Dispatched(terminal), after);
    ReplayQuiet(Reduce(s2, terminal), after);
  }

  /** The transcript only grows: whatever is dispatched, the old transcript
      is a prefix of the new one, longer by at most one turn per event. */
  lemma {:induction false} ReplayGrows(s: ChatStore.State, events: seq<Event>)
    ensures s.messages <= Replay(s, events).messages
    ensures |Replay(s, events).messages| <= |s.messages| + |events|
    decreases |events|
  {
    if events != [] {
      if events[0].Dispatched? {
        ReduceAppendsAtMostOne(s, events[0].msg);
      }
      ReplayGrows(Step(s, events[0]), events[1..]);
    }
  }

  /** Some label is published among `events`. */
  predicate HasLabel(events: seq<Event>) {
    exists i :: 0 <= i < |events| && events[i].Published?
  }

  /** The terminal message of `events` is at index `k`, and there is no other. */
  predicate OnlyTerminalAt(events: seq<Event>, k: nat) {
    && k < |events| && events[k].Dispatched? && events[k].msg.IsTerminal()
    && forall i :: 0 <= i < |events| && i != k ==> !(events[i].Dispatched? && events[i].msg.IsTerminal())
  }

  // ---------------------------------------------------------------------
  // The shape both request paths share
  // ---------------------------------------------------------------------

  function Invocations(calls: seq<UseCaseCall>): seq<Event>
  {
    seq(|calls|, i requires 0 <= i < |calls| => Invoked(calls[i]))
  }

  function NoticeEvents(notice: Option<ChatStore.Label>): seq<Event>
  {
    match notice
    case None => []
    case Some(notification) => [Published(notification)]
  }

  /** A request run: the user turn and loading are dispatched, the use cases
      are called, one terminal message is dispatched, and a label may follow. */
  function RequestEvents(text: string, calls: seq<UseCaseCall>, terminal: Message, notice: Option<ChatStore.Label>): (r: seq<Event>)
  {
    [Dispatched(UserMessageAdded(text)), Dispatched(LoadingStarted)] + Invocations(calls) + [Dispatched(terminal)]
      + NoticeEvents(notice)
  }

  /** A request run starts with the user turn, then loading, then its
      first call. */
  lemma RequestHead(text: string, calls: seq<UseCaseCall>, terminal: Message, notice: Option<ChatStore.Label>)
    ensures var events := RequestEvents(text, calls, terminal, notice);
      && |events| == 3 + |calls| + (if notice.Some? then 1 else 0)
      && events[0] == Dispatched(UserMessageAdded(text))
      && events[1] == Dispatched(LoadingStarted)
      && (forall i :: 0 <= i < |calls| ==> events[2 + i] == Invoked(calls[i]))
  {
  }

  /** A request run ends with exactly one terminal message, followed by the
      label when there is one. */
  lemma RequestTail(text: string, calls: seq<UseCaseCall>, terminal: Message, notice: Option<ChatStore.Label>)
    requires terminal.IsTerminal()
    ensures var events := RequestEvents(text, calls, terminal, notice);
      && OnlyTerminalAt(events, 2 + |calls|)
      && events[2 + |calls|] == Dispatched(terminal)
      && (HasLabel(events) <==> notice.Some?)
      && (notice.Some? ==> events[|events| - 1] == Published(notice.value))
  {
    var events := RequestEvents(text, calls, terminal, notice);
    var k := 2 + |calls|;
    forall i | 0 <= i < |events|
      ensures events[i] == if i == 0 then Dispatched(UserMessageAdded(text)) else if i == 1 then Dispatched(LoadingStarted)
                         else if i < k then Invoked(calls[i - 2]) else if i == k then Dispatched(terminal)
                         else Published(notice.value)
    {
    }
    if notice.Some? {
      assert events[k + 1].Published?;
    }
  }

  /** A use case is called during a request run exactly when it is among
      the run's calls. */
  lemma RequestInvokes(text: string, calls: seq<UseCaseCall>, terminal: Message, notice: Option<ChatStore.Label>, c: UseCaseCall)
    requires terminal.IsTerminal()
    ensures Invoked(c) in RequestEvents(text, calls, terminal, notice) <==> c in calls
  {
    var events := RequestEvents(text, calls, terminal, notice);
    RequestHead(text, calls, terminal, notice);
    if c in calls {
      var j :| 0 <= j < |calls| && calls[j] == c;
      assert events[2 + j] == Invoked(c);
    }
    if Invoked(c) in events {
      var j :| 0 <= j < |events| && events[j] == Invoked(c);
      assert 2 <= j < 2 + |calls| by {
        forall i | 0 <= i < |events| && !(2 <= i < 2 + |calls|)
          ensures !events[i].Invoked?
        {
        }
      }
      assert calls[j - 2] == c;
    }
  }

  /** After a request run the transcript holds the user turn and the terminal
      turn, the input is cleared, loading is over, and the error is set
      exactly when the terminal message is a failure. */
  lemma RequestOutcome(s: ChatStore.State, text: string, calls: seq<UseCaseCall>, terminal: Message, notice: Option<ChatStore.Label>)
    requires terminal.IsTerminal()
    ensures var t := Replay(s, RequestEvents(text, calls, terminal, notice));
      && t.inputText == "" && !t.isLoading
      && t.messages == s.messages + [ChatMessage(text, true), TerminalTurn(terminal)]
      && t.error == (if terminal.LoadingFailed? then Some(terminal.error) else None)
  {
    RequestReplay(s, text, Invocations(calls), terminal, NoticeEvents(notice));
    var s1 := Reduce(s, UserMessageAdded(text));
    ReduceEffects(s, UserMessageAdded(text));
    ReduceEffects(s1, LoadingStarted);
    ReduceEffects(Reduce(s1, LoadingStarted), terminal);
  }

  /** The turn a terminal message appends to the transcript. */
  function TerminalTurn(msg: Message): ChatMessage
    requires msg.IsTerminal()
  {
    if msg.AiMessageAdded? then ChatMessage(msg.response, false, msg.rawJson) else ChatMessage(msg.error, false)
  }

  // ---------------------------------------------------------------------
  // sendMessage
  // ---------------------------------------------------------------------

  /** The message that ends `sendMessage` when the use case returns `outcome`. */
  function SendTerminal(outcome: Result<string>): Message
  {
    match outcome
    case Success(content) => AiMessageAdded(content)
    case Failure(error) => LoadingFailed("Ошибка: " + MessageText(error))
  }

  /** The events of `sendMessage(message)` when the use case returns `outcome`:
      a failure publishes a label with the failure text. */
  function SendEvents(message: string, outcome: Result<string>): (r: seq<Event>)
    ensures |r| == if outcome.Failure? then 5 else 4
  {
    var terminal := SendTerminal(outcome);
    RequestEvents(message, [SendMessageCall(message)], terminal,
                  if outcome.Failure? then Some(ChatStore.Error(terminal.error)) else None)
  }

  /** The user turn is added before the call, loading starts next, and then
      exactly one terminal message follows; a label is published exactly on
      failure, with the text the failure message carries. */
  lemma SendOrder(message: string, outcome: Result<string>)
    ensures var events := SendEvents(message, outcome);
      && events[0] == Dispatched(UserMessageAdded(message))
      && events[1] == Dispatched(LoadingStarted)
      && events[2] == Invoked(SendMessageCall(message))
      && OnlyTerminalAt(events, 3)
      && (HasLabel(events) <==> outcome.Failure?)
      && (outcome.Success? ==> |events| == 4 && events[3] == Dispatched(AiMessageAdded(outcome.value)))
      && (outcome.Failure? ==>
            var errorMessage := "Ошибка: " + MessageText(outcome.error);
            |events| == 5
            && events[3] == Dispatched(LoadingFailed(errorMessage))
            && events[4] == Published(ChatStore.Error(errorMessage)))
  {
    var terminal := SendTerminal(outcome);
    var notice := if outcome.Failure? then Some(ChatStore.Error(terminal.error)) else None;
    RequestHead(message, [SendMessageCall(message)], terminal, notice);
    RequestTail(message, [SendMessageCall(message)], terminal, notice);
  }

  /** After `sendMessage` the transcript holds the user turn and then the
      reply or the error text, the input is cleared and loading is over. */
  lemma SendOutcome(s: ChatStore.State, message: string, outcome: Result<string>)
    ensures var t := Replay(s, SendEvents(message, outcome));
      && t.inputText == "" && !t.isLoading
      && (outcome.Success? ==>
            t.messages == s.messages + [ChatMessage(message, true), ChatMessage(outcome.value, false)]
            && t.error == None)
      && (outcome.Failure? ==>
            var errorMessage := "Ошибка: " + MessageText(outcome.error);
            t.messages == s.messages + [ChatMessage(message, true), ChatMessage(errorMessage, false)]
            && t.error == Some(errorMessage))
  {
    var terminal := SendTerminal(outcome);
    RequestOutcome(s, message, [SendMessageCall(message)], terminal,
                   if outcome.Failure? then Some(ChatStore.Error(terminal.error)) else None);
  }

  // ---------------------------------------------------------------------
  // getCountryInfo
  // ---------------------------------------------------------------------

  function CountryRequestText(countryName: string): string
  {
    "Информация о стране: " + countryName
  }

  function NotACountryText(countryName: string): string
  {
    "\U{274C} \"" + countryName + "\" не является названием страны.\n\n"
      + "Пожалуйста, введите правильное название страны (например: Россия, Беларусь, США и т.д.)"
  }

  /** The fixed lines of the country report, each ended by a line feed. */
  function CountryHeader(info: CountryInfo): (r: string)
  {
    "\U{1F30D} " + info.countryName + "\n"
      + "Столица: " + info.capital + "\n"
      + "Население: " + info.population + "\n"
      + "Площадь: " + info.area + " км\U{00B2}\n"
      + "Регион: " + info.region + "\n"
      + "Язык: " + info.officialLanguage + "\n"
      + "Валюта: " + info.currency + "\n"
      + "Код страны: " + info.callingCode + "\n"
      + "Часовой пояс: " + info.timeZone + "\n"
  }

  function FactLine(fact: string): string
  {
    "• " + fact + "\n"
  }

  /** One bulleted line per fact, in order. */
  function FactLines(facts: seq<string>): (r: string)
    ensures r == "" <==> facts == []
  {
    if facts == [] then "" else FactLines(facts[..|facts| - 1]) + FactLine(facts[|facts| - 1])
  }

  const FactsHeading: string := "\nИнтересные факты:\n"

  /** The report: the fixed lines, then the facts section only when there are
      facts. */
  function CountryReport(info: CountryInfo): (r: string)
  {
    CountryHeader(info)
      + if info.interestingFacts == [] then "" else FactsHeading + FactLines(info.interestingFacts)
  }

  /** The `buildString` block of `getCountryInfo`: a string builder, with a loop over the facts. */
  method BuildCountryReport(info: CountryInfo) returns (response: string)
    ensures response == CountryReport(info)
  {
    response := "\U{1F30D} " + info.countryName + "\n";
    response := response + "Столица: " + info.capital + "\n";
    response := response + "Население: " + info.population + "\n";
    response := response + "Площадь: " + info.area + " км\U{00B2}\n";
    response := response + "Регион: " + info.region + "\n";
    response := response + "Язык: " + info.officialLanguage + "\n";
    response := response + "Валюта: " + info.currency + "\n";
    response := response + "Код страны: " + info.callingCode + "\n";
    response := response + "Часовой пояс: " + info.timeZone + "\n";
    assert response == CountryHeader(info);
    var facts := info.interestingFacts;
    if facts != [] {
      response := response + "\nИнтересные факты:\n";
      var i := 0;
      while i < |facts|
        invariant 0 <= i <= |facts|
        invariant response == CountryHeader(info) + FactsHeading + FactLines(facts[..i])
      {
        assert facts[..i + 1][..i] == facts[..i];
        assert FactLines(facts[..i + 1]) == FactLines(facts[..i]) + FactLine(facts[i]);
        response := response + "• " + facts[i] + "\n";
        i := i + 1;
      }
      assert facts[..|facts|] == facts;
    }
  }

  /** The facts section appears exactly when there are facts, and then ends
      the report; without facts the report is the fixed lines alone. */
  lemma {:induction false} FactsSectionOnlyWithFacts(info: CountryInfo)
    ensures info.interestingFacts == [] ==> CountryReport(info) == CountryHeader(info)
    ensures info.interestingFacts != [] ==>
              var n := |CountryHeader(info) + FactsHeading|;
              && |CountryReport(info)| > n
              && CountryReport(info)[..n] == CountryHeader(info) + FactsHeading
  {
    if info.interestingFacts != [] {
      FactLinesLength(info.interestingFacts);
    }
  }

  lemma {:induction false} FactLinesLength(facts: seq<string>)
    ensures |FactLines(facts)| >= 3 * |facts|
  {
    if facts != [] {
      FactLinesLength(facts[..|facts| - 1]);
    }
  }

  /** The message that ends the lookup after a positive validation. */
  function LookupTerminal(lookup: Result<CountryInfo>): Message
  {
    match lookup
    case Success(info) => AiMessageAdded(CountryReport(info), info.rawJson)
    case Failure(error) => LoadingFailed("Ошибка получения информации: " + MessageText(error))
  }

  /** The events of the lookup that follows a positive validation: the call,
      its terminal message, and the label when the call failed. */
  function LookupEvents(countryName: string, lookup: Result<CountryInfo>): (r: seq<Event>)
    ensures |r| == if lookup.Failure? then 3 else 2
    ensures r[0] == Invoked(GetCountryInfoCall(countryName))
  {
    var terminal := LookupTerminal(lookup);
    [Invoked(GetCountryInfoCall(countryName)), Dispatched(terminal)]
      + if lookup.Failure? then [Published(ChatStore.Error(terminal.error))] else []
  }

  /** The message that ends `getCountryInfo`. */
  function CountryTerminal(countryName: string, validation: Result<bool>, lookup: Result<CountryInfo>): Message
  {
    match validation
    case Failure(error) => LoadingFailed("Ошибка проверки: " + MessageText(error))
    case Success(isCountry) =>
      if !isCountry then LoadingFailed(NotACountryText(countryName)) else LookupTerminal(lookup)
  }

  /** A label is published when one of the two calls failed; a name that is
      not a country fails the turn without one. */
  predicate CountryLabelled(validation: Result<bool>, lookup: Result<CountryInfo>)
  {
    validation.Failure? || (validation == Success(true) && lookup.Failure?)
  }

  /** The use cases `getCountryInfo` calls: the lookup only after a positive
      validation. */
  function CountryCalls(countryName: string, validation: Result<bool>): seq<UseCaseCall>
  {
    [ValidateCountryNameCall(countryName)] + if validation == Success(true) then [GetCountryInfoCall(countryName)] else []
  }

  /** The events of `getCountryInfo(countryName)` given the validation result
      and the lookup result (the latter is used only after a positive check). */
  function CountryEvents(text: string, countryName: string, validation: Result<bool>, lookup: Result<CountryInfo>): (r: seq<Event>)
  {
    var terminal := CountryTerminal(countryName, validation, lookup);
    RequestEvents(text, CountryCalls(countryName, validation), terminal,
                  if CountryLabelled(validation, lookup) then Some(ChatStore.Error(terminal.error)) else None)
  }

  /** The request turn and loading come first, then the validation call. */
  lemma CountryStart(text: string, countryName: string, validation: Result<bool>, lookup: Result<CountryInfo>)
    ensures var events := CountryEvents(text, countryName, validation, lookup);
      && events[0] == Dispatched(UserMessageAdded(text))
      && events[1] == Dispatched(LoadingStarted)
      && events[2] == Invoked(ValidateCountryNameCall(countryName))
  {
    var terminal := CountryTerminal(countryName, validation, lookup);
    var calls := CountryCalls(countryName, validation);
    var notice := if CountryLabelled(validation, lookup) then Some(ChatStore.Error(terminal.error)) else None;
    RequestHead(text, calls, terminal, notice);
    assert calls[0] == ValidateCountryNameCall(countryName);
  }

  /** The lookup is called exactly when the validation says "a country". */
  lemma LookupOnlyForCountries(text: string, countryName: string, validation: Result<bool>, lookup: Result<CountryInfo>)
    ensures Invoked(GetCountryInfoCall(countryName)) in CountryEvents(text, countryName, validation, lookup)
            <==> validation == Success(true)
  {
    var terminal := CountryTerminal(countryName, validation, lookup);
    var calls := CountryCalls(countryName, validation);
    var notice := if CountryLabelled(validation, lookup) then Some(ChatStore.Error(terminal.error)) else None;
    RequestInvokes(text, calls, terminal, notice, GetCountryInfoCall(countryName));
    if validation == Success(true) {
      assert calls == [ValidateCountryNameCall(countryName), GetCountryInfoCall(countryName)];
    } else {
      assert calls == [ValidateCountryNameCall(countryName)];
    }
  }

  /** A name that is not a country fails the turn without a label, while
      both call failures publish one; the one terminal message is the last
      event, or the last but one when the label, which repeats its text,
      follows it. */
  lemma CountryLabelOrder(text: string, countryName: string, validation: Result<bool>, lookup: Result<CountryInfo>)
    ensures var events := CountryEvents(text, countryName, validation, lookup);
      var labelled := validation.Failure? || (validation == Success(true) && lookup.Failure?);
      var terminal := CountryTerminal(countryName, validation, lookup);
      var k := |events| - if labelled then 2 else 1;
      && (HasLabel(events) <==> labelled)
      && OnlyTerminalAt(events, k)
      && events[k] == Dispatched(terminal)
      && (labelled ==> terminal.LoadingFailed? && events[|events| - 1] == Published(ChatStore.Error(terminal.error)))
  {
    var terminal := CountryTerminal(countryName, validation, lookup);
    var notice := if CountryLabelled(validation, lookup) then Some(ChatStore.Error(terminal.error)) else None;
    CountryTerminalFails(countryName, validation, lookup);
    RequestTail(text, CountryCalls(countryName, validation), terminal, notice);
  }

  /** `getCountryInfo` ends with a terminal message, a failure whenever a
      label is published. */
  lemma CountryTerminalFails(countryName: string, validation: Result<bool>, lookup: Result<CountryInfo>)
    ensures CountryTerminal(countryName, validation, lookup).IsTerminal()
    ensures CountryLabelled(validation, lookup) ==> CountryTerminal(countryName, validation, lookup).LoadingFailed?
  {
    match validation
    case Failure(_) =>
    case Success(isCountry) =>
      if isCountry {
        assert CountryTerminal(countryName, validation, lookup) == LookupTerminal(lookup);
      }
  }

  /** A request run, read from its first call on. */
  lemma RequestEventsSplit(text: string, first: UseCaseCall, more: seq<UseCaseCall>, terminal: Message, notice: Option<ChatStore.Label>)
    ensures RequestEvents(text, [first] + more, terminal, notice)
            == [Dispatched(UserMessageAdded(text)), Dispatched(LoadingStarted), Invoked(first)]
               + (Invocations(more) + [Dispatched(terminal)] + NoticeEvents(notice))
  {
    assert Invocations([first] + more) == [Invoked(first)] + Invocations(more);
  }

  /** The first three events of `getCountryInfo`. */
  function CountryPrefix(text: string, countryName: string): seq<Event>
  {
    [Dispatched(UserMessageAdded(text)), Dispatched(LoadingStarted),
     Invoked(ValidateCountryNameCall(countryName))]
  }

  /** After a positive validation `getCountryInfo` continues with the lookup. */
  lemma CountryEventsLookup(text: string, countryName: string, lookup: Result<CountryInfo>)
    ensures CountryEvents(text, countryName, Success(true), lookup) == CountryPrefix(text, countryName) + LookupEvents(countryName, lookup)
  {
    var terminal := LookupTerminal(lookup);
    var notice := if lookup.Failure? then Some(ChatStore.Error(terminal.error)) else None;
    var more := [GetCountryInfoCall(countryName)];
    assert CountryCalls(countryName, Success(true)) == [ValidateCountryNameCall(countryName)] + more;
    RequestEventsSplit(text, ValidateCountryNameCall(countryName), more, terminal, notice);
    assert Invocations(more) == [Invoked(GetCountryInfoCall(countryName))];
  }

  /** A name that is not a country ends `getCountryInfo` with one message. */
  lemma CountryEventsRejected(text: string, countryName: string, lookup: Result<CountryInfo>)
    ensures CountryEvents(text, countryName, Success(false), lookup)
            == CountryPrefix(text, countryName) + [Dispatched(LoadingFailed(NotACountryText(countryName)))]
  {
    var terminal := LoadingFailed(NotACountryText(countryName));
    assert CountryCalls(countryName, Success(false)) == [ValidateCountryNameCall(countryName)] + [];
    RequestEventsSplit(text, ValidateCountryNameCall(countryName), [], terminal, None);
  }

  /** A failed validation ends `getCountryInfo` with the error and its label. */
  lemma CountryEventsCheckFailed(text: string, countryName: string, error: Throwable, lookup: Result<CountryInfo>)
    ensures var errorMessage := "Ошибка проверки: " + MessageText(error);
      CountryEvents(text, countryName, Failure(error), lookup)
      == CountryPrefix(text, countryName) + [Dispatched(LoadingFailed(errorMessage)), Published(ChatStore.Error(errorMessage))]
  {
    var errorMessage := "Ошибка проверки: " + MessageText(error);
    assert CountryCalls(countryName, Failure(error)) == [ValidateCountryNameCall(countryName)] + [];
    RequestEventsSplit(text, ValidateCountryNameCall(countryName), [],
                       LoadingFailed(errorMessage), Some(ChatStore.Error(errorMessage)));
  }

  /** What `getCountryInfo` does after the validation call, branch by branch
      as the executor is written. */
  function AfterCheck(countryName: string, validation: Result<bool>, lookup: Result<CountryInfo>): (r: seq<Event>)
    ensures validation != Success(true) ==> forall k :: 0 <= k < |r| ==> !r[k].Invoked?
    ensures validation.Failure? ==> |r| == 2 && r[1].Published?
  {
    match validation
    case Success(isCountry) =>
      if isCountry then LookupEvents(countryName, lookup)
      else [Dispatched(LoadingFailed(NotACountryText(countryName)))]
    case Failure(error) =>
      var errorMessage := "Ошибка проверки: " + MessageText(error);
      [Dispatched(LoadingFailed(errorMessage)), Published(ChatStore.Error(errorMessage))]
  }

  /** The branch-by-branch reading agrees with the request-run shape. */
  lemma CountryEventsByBranch(text: string, countryName: string, validation: Result<bool>, lookup: Result<CountryInfo>)
    ensures CountryEvents(text, countryName, validation, lookup)
            == CountryPrefix(text, countryName) + AfterCheck(countryName, validation, lookup)
  {
    match validation
    case Success(isCountry) =>
      if isCountry {
        CountryEventsLookup(text, countryName, lookup);
      } else {
        CountryEventsRejected(text, countryName, lookup);
      }
    case Failure(error) =>
      CountryEventsCheckFailed(text, countryName, error, lookup);
  }

  /** After `getCountryInfo` the transcript holds the request turn and then
      the report or the error text; loading is over and the error is set
      exactly when the turn failed. */
  lemma CountryOutcome(s: ChatStore.State, text: string, countryName: string, validation: Result<bool>, lookup: Result<CountryInfo>)
    ensures var t := Replay(s, CountryEvents(text, countryName, validation, lookup));
      var terminal := CountryTerminal(countryName, validation, lookup);
      && t.inputText == "" && !t.isLoading
      && t.messages == s.messages + [ChatMessage(text, true), TerminalTurn(terminal)]
      && (t.error == None <==> validation == Success(true) && lookup.Success?)
      && (validation == Success(false) ==> t.error == Some(NotACountryText(countryName)))
  {
    var terminal := CountryTerminal(countryName, validation, lookup);
    var notice := if CountryLabelled(validation, lookup) then Some(ChatStore.Error(terminal.error)) else None;
    RequestOutcome(s, text, CountryCalls(countryName, validation), terminal, notice);
  }

  /** A log made of `before`, the start of `getCountryInfo` and its
      branch-by-branch continuation holds the country events after `before`. */
  lemma CountryLog(before: seq<Event>, started: seq<Event>, after: seq<Event>,
                   text: string, countryName: string, validation: Result<bool>, lookup: Result<CountryInfo>)
    requires started == before + CountryPrefix(text, countryName)
    requires after == started + AfterCheck(countryName, validation, lookup)
    ensures after == before + CountryEvents(text, countryName, validation, lookup)
  {
    CountryEventsByBranch(text, countryName, validation, lookup);
    assert started + AfterCheck(countryName, validation, lookup)
        == before + (CountryPrefix(text, countryName) + AfterCheck(countryName, validation, lookup));
  }

  /** Replaying a log that ends with a `getCountryInfo` run ends the turn:
      the transcript only grew and loading is over. */
  lemma CountryLogReplay(initial: ChatStore.State, before: seq<Event>, after: seq<Event>,
                         text: string, countryName: string, validation: Result<bool>, lookup: Result<CountryInfo>)
    requires after == before + CountryEvents(text, countryName, validation, lookup)
    ensures Replay(initial, after) == Replay(Replay(initial, before), CountryEvents(text, countryName, validation, lookup))
    ensures Replay(initial, before).messages <= Replay(initial, after).messages
    ensures !Replay(initial, after).isLoading
  {
    ReplayConcat(initial, before, CountryEvents(text, countryName, validation, lookup));
    CountryOutcome(Replay(initial, before), text, countryName, validation, lookup);
  }

  // ---------------------------------------------------------------------
  // The store: state, event log and executor
  // ---------------------------------------------------------------------

  /** The store `create()` builds: the current state, the log of executor
      events, and the executor's collaborators (the use cases, each taking
      the API key). */
  class Store {
    const apiKey: string
    const sendMessageUseCase: (string, string) -> Result<string>
    const validateCountryNameUseCase: (string, string) -> Result<bool>
    const getCountryInfoUseCase: (string, string) -> Result<CountryInfo>
    var state: ChatStore.State
    var events: seq<Event>
    ghost const initial: ChatStore.State

    /** The state is the replay of the event log from the initial state. */
    ghost predicate Valid()
      reads this
    {
      state == Replay(initial, events)
    }

    /** `ChatStoreFactory(...).create()` with `initialState = State()`. */
    constructor (greeting: string, strict: string -> Option<ConsultantDto.ConsultantResponse>, apiKey: string,
                 sendMessageUseCase: (string, string) -> Result<string>,
                 validateCountryNameUseCase: (string, string) -> Result<bool>,
                 getCountryInfoUseCase: (string, string) -> Result<CountryInfo>)
      ensures Valid()
      ensures state == ChatStore.InitialState(greeting, strict) && events == []
      ensures this.apiKey == apiKey && this.sendMessageUseCase == sendMessageUseCase
      ensures this.validateCountryNameUseCase == validateCountryNameUseCase
      ensures this.getCountryInfoUseCase == getCountryInfoUseCase
    {
      this.apiKey := apiKey;
      this.sendMessageUseCase := sendMessageUseCase;
      this.validateCountryNameUseCase := validateCountryNameUseCase;
      this.getCountryInfoUseCase := getCountryInfoUseCase;
      initial := ChatStore.InitialState(greeting, strict);
      state := ChatStore.InitialState(greeting, strict);
      events := [];
    }

    /** Appends `event` to the log, reducing the state when it is a message. */
    method Record(event: Event)
      requires Valid()
      modifies this
      ensures Valid()
      ensures state == Step(old(state), event)
      ensures events == old(events) + [event]
    {
      ReplayConcat(initial, events, [event]);
      assert [event][1..] == [];
      state := Step(state, event);
      events := events + [event];
    }

    /** `dispatch(msg)`: the reducer runs on the current state. */
    method Dispatch(msg: Message)
      requires Valid()
      modifies this
      ensures Valid()
      ensures state == Reduce(old(state), msg)
      ensures events == old(events) + [Dispatched(msg)]
    {
      Record(Dispatched(msg));
    }

    /** `publish(label)`: the state is unchanged. */
    method Publish(notification: ChatStore.Label)
      requires Valid()
      modifies this
      ensures Valid()
      ensures state == old(state)
      ensures events == old(events) + [Published(notification)]
    {
      Record(Published(notification));
    }

    /** `sendMessage(message)`. */
    method SendMessage(message: string)
      requires Valid()
      modifies this
      ensures Valid()
      ensures events == old(events) + SendEvents(message, sendMessageUseCase(message, apiKey))
      ensures state == Replay(old(state), SendEvents(message, sendMessageUseCase(message, apiKey)))
      ensures old(state.messages) <= state.messages && !state.isLoading
    {
      Dispatch(UserMessageAdded(message));
      Dispatch(LoadingStarted);
      Record(Invoked(SendMessageCall(message)));
      var outcome := sendMessageUseCase(message, apiKey);
      match outcome {
        case Success(content) =>
          Dispatch(AiMessageAdded(content));
        case Failure(error) =>
          var errorMessage := "Ошибка: " + MessageText(error);
          Dispatch(LoadingFailed(errorMessage));
          Publish(ChatStore.Error(errorMessage));
      }
      assert events == old(events) + SendEvents(message, outcome);
      ReplayConcat(initial, old(events), SendEvents(message, outcome));
      SendOutcome(old(state), message, outcome);
    }

    /** The `isCountry == true` branch of `getCountryInfo`: the lookup after a positive validation. */
    method LookUpCountry(countryName: string)
      requires Valid()
      modifies this
      ensures Valid()
      ensures events == old(events) + LookupEvents(countryName, getCountryInfoUseCase(countryName, apiKey))
    {
      Record(Invoked(GetCountryInfoCall(countryName)));
      var info := getCountryInfoUseCase(countryName, apiKey);
      match info {
        case Success(countryInfo) =>
          var response := BuildCountryReport(countryInfo);
          Dispatch(AiMessageAdded(response, countryInfo.rawJson));
        case Failure(error) =>
          var errorMessage := "Ошибка получения информации: " + MessageText(error);
          Dispatch(LoadingFailed(errorMessage));
          Publish(ChatStore.Error(errorMessage));
      }
    }

    /** The `validateCountryNameUseCase` callbacks of `getCountryInfo`: the branches on the validation result. */
    method HandleValidation(countryName: string, validation: Result<bool>)
      requires Valid()
      modifies this
      ensures Valid()
      ensures events == old(events) + AfterCheck(countryName, validation, getCountryInfoUseCase(countryName, apiKey))
    {
      match validation {
        case Success(isCountry) =>
          if isCountry {
            LookUpCountry(countryName);
          } else {
            Dispatch(LoadingFailed(NotACountryText(countryName)));
          }
        case Failure(error) =>
          var errorMessage := "Ошибка проверки: " + MessageText(error);
          Dispatch(LoadingFailed(errorMessage));
          Publish(ChatStore.Error(errorMessage));
      }
    }

    /** The start of `getCountryInfo`: the request turn, loading, and the
        call to `validateCountryNameUseCase`. */
    method StartCountryRequest(countryName: string)
      requires Valid()
      modifies this
      ensures Valid()
      ensures events == old(events) + CountryPrefix(CountryRequestText(countryName), countryName)
    {
      Dispatch(UserMessageAdded(CountryRequestText(countryName)));
      Dispatch(LoadingStarted);
      Record(Invoked(ValidateCountryNameCall(countryName)));
    }

    /** `getCountryInfo(countryName)`. */
    method GetCountryInfo(countryName: string)
      requires Valid()
      modifies this
      ensures Valid()
      ensures events == old(events) + CountryEvents(CountryRequestText(countryName), countryName,
                validateCountryNameUseCase(countryName, apiKey), getCountryInfoUseCase(countryName, apiKey))
      ensures state == Replay(old(state), CountryEvents(CountryRequestText(countryName), countryName,
                validateCountryNameUseCase(countryName, apiKey), getCountryInfoUseCase(countryName, apiKey)))
      ensures old(state.messages) <= state.messages && !state.isLoading
    {
      ghost var lookup := getCountryInfoUseCase(countryName, apiKey);
      var text := CountryRequestText(countryName);
      StartCountryRequest(countryName);
      ghost var started := events;
      var validation := validateCountryNameUseCase(countryName, apiKey);
      HandleValidation(countryName, validation);
      CountryLog(old(events), started, events, text, countryName, validation, lookup);
      CountryLogReplay(initial, old(events), events, text, countryName, validation, lookup);
    }

    /** `executeIntent`: intents without a branch in the executor
        (`RetryLastMessage`, `RestartConversation`) do nothing. */
    method ExecuteIntent(intent: ChatStore.Intent)
      requires Valid()
      modifies this
      ensures Valid()
      ensures old(state.messages) <= state.messages
      ensures intent.UpdateInputText? ==> events == old(events) + [Dispatched(InputTextChanged(intent.text))]
      ensures intent.SendMessage? ==>
                events == old(events) + SendEvents(intent.message, sendMessageUseCase(intent.message, apiKey))
      ensures intent.GetCountryInfo? ==>
                events == old(events) + CountryEvents(CountryRequestText(intent.countryName), intent.countryName,
                  validateCountryNameUseCase(intent.countryName, apiKey),
                  getCountryInfoUseCase(intent.countryName, apiKey))
      ensures intent.RetryLastMessage? || intent.RestartConversation? ==>
                events == old(events) && state == old(state)
    {
      match intent {
        case UpdateInputText(text) =>
          Dispatch(InputTextChanged(text));
        case SendMessage(message) =>
          SendMessage(message);
        case GetCountryInfo(countryName) =>
          GetCountryInfo(countryName);
        case RetryLastMessage =>
        case RestartConversation =>
      }
    }
  }
}
