/**
 * `ChatViewModel` (ChatViewModel.cs): the run/cancel state machine behind the
 * chat window, the property setters with their change notifications, and the
 * queue of output chunks that the update timer drains into the Assistant
 * message.
 *
 * `OnRun` is an `async void` handler; it is split at its `await`: `OnRun` is
 * the part before the request is sent, `Enqueue` is the output callback,
 * `FlushPendingContent` is also what each timer tick does, and
 * `OnRunCompleted` is the `catch`/`finally` part, given how `RunAsync` ended.
 */
module Chat {
  import opened Wrappers
  import opened Text
  import opened Faults
  import Session

  /** `Environment.NewLine` on Windows. */
  const NewLine := "\r\n"

  datatype ChatMessage = ChatMessage(role: string, content: string)

  /** What the view model raises: `PropertyChanged` for a property, and
      `CanExecuteChanged` on one of its two commands. */
  datatype Notice = PropertyChanged(name: string) | CanExecuteChanged(command: string)

  /** `UpdateCommandStates`: both commands re-query whether they can execute. */
  const CommandStatesChanged: seq<Notice> := [CanExecuteChanged("RunCommand"), CanExecuteChanged("CancelCommand")]

  /** The view model's fields. `cts` is the token source, if any, and whether it has
      been cancelled; `current` is the index of `_currentAssistantMessage` in
      `messages`, and `runMessage` the index of the Assistant message of the run in
      flight (the `assistantMessage` local of `OnRun`). */
  datatype ChatState = ChatState(
    userInput: Option<string>,
    isCancelEnabled: bool,
    isRunning: bool,
    cts: Option<bool>,
    pending: seq<string>,
    current: Option<nat>,
    runMessage: Option<nat>,
    messages: seq<ChatMessage>,
    notices: seq<Notice>)
  {
    /** `CanRun`. */
    predicate CanRun() {
      !isRunning && !IsNullOrWhiteSpace(userInput)
    }

    /** `CanCancel`. */
    predicate CanCancel() {
      isRunning
    }
  }

  /** The message indices the view model holds point into `messages`. */
  predicate ChatValid(st: ChatState) {
    && (st.current.Some? ==> st.current.value < |st.messages|)
    && (st.runMessage.Some? ==> st.runMessage.value < |st.messages|)
  }

  /** The chunks a `StringBuilder` holds after appending them in order. */
  function Concat(chunks: seq<string>): string {
    if chunks == [] then "" else chunks[0] + Concat(chunks[1..])
  }

  lemma {:induction false} ConcatAppend(a: seq<string>, b: seq<string>)
    ensures Concat(a + b) == Concat(a) + Concat(b)
    decreases |a|
  {
    if a == [] {
      assert a + b == b;
    } else {
      assert (a + b)[1..] == a[1..] + b;
      ConcatAppend(a[1..], b);
    }
  }

  // ---------------------------------------------------------------------------
  // The view model's operations as functions of its state

  /** The `UserInput` setter. */
  function WithUserInput(st: ChatState, value: Option<string>): ChatState {
    if st.userInput == value then st
    else st.(userInput := value, notices := st.notices + [PropertyChanged("UserInput")] + CommandStatesChanged)
  }

  /** The `IsCancelEnabled` setter. */
  function WithCancelEnabled(st: ChatState, value: bool): ChatState {
    if st.isCancelEnabled == value then st
    else st.(isCancelEnabled := value, notices := st.notices + [PropertyChanged("IsCancelEnabled")] + CommandStatesChanged)
  }

  /** The `IsRunning` setter: on a change it also sets `IsCancelEnabled`. */
  function WithRunning(st: ChatState, value: bool): ChatState {
    if st.isRunning == value then st
    else
      var synced := WithCancelEnabled(st.(isRunning := value, notices := st.notices + [PropertyChanged("IsRunning")]), value);
      synced.(notices := synced.notices + CommandStatesChanged)
  }

  /** `FlushPendingContent`. */
  function Flushed(st: ChatState): (r: ChatState)
    requires ChatValid(st)
    ensures ChatValid(r)
  {
    if st.current.None? || st.pending == [] then st
    else
      var i := st.current.value;
      var text := Concat(st.pending);
      if |text| > 0 then
        st.(pending := [], messages := st.messages[i := st.messages[i].(content := st.messages[i].content + text)])
      else st.(pending := [])
  }

  /** A timer tick changes nothing without a current Assistant message or without
      queued chunks; otherwise it empties the queue and appends the queued chunks,
      oldest first, to the current message, leaving every other message and every
      other field as it was. */
  lemma FlushedDrains(st: ChatState)
    requires ChatValid(st)
    ensures st.current.None? || st.pending == [] ==> Flushed(st) == st
    ensures st.current.Some? && st.pending != [] ==>
      var i := st.current.value;
      var r := Flushed(st);
      && r.pending == []
      && |r.messages| == |st.messages|
      && r.messages[i] == ChatMessage(st.messages[i].role, st.messages[i].content + Concat(st.pending))
      && (forall j :: 0 <= j < |st.messages| && j != i ==> r.messages[j] == st.messages[j])
      && r == st.(pending := [], messages := r.messages)
  {
  }

  /** The synchronous part of `OnRun`, up to sending the request. */
  function Started(st: ChatState): (r: ChatState)
    requires ChatValid(st)
    ensures ChatValid(r)
  {
    if !st.CanRun() then st
    else
      var withUser := WithUserInput(st.(messages := st.messages + [ChatMessage("User", st.userInput.value)]), Some(""));
      var a := |withUser.messages|;
      var withAssistant := withUser.(messages := withUser.messages + [ChatMessage("Assistant", "")],
                                     current := Some(a), runMessage := Some(a));
      WithRunning(withAssistant, true).(cts := Some(false))
  }

  /** The output callback: each line is queued with a line feed. */
  function Received(st: ChatState, output: string): ChatState {
    st.(pending := st.pending + [output + "\n"])
  }

  /** `OnCancel`. */
  function CancelRequested(st: ChatState): ChatState {
    if st.CanCancel() && st.cts.Some? then st.(cts := Some(true)) else st
  }

  /** What the `catch` clauses append to the Assistant message. */
  function Suffix(outcome: Session.Completion): (text: string)
    ensures outcome.Returned? || outcome.Pending? <==> text == ""
  {
    match outcome
    case Raised(OperationCanceled) => NewLine + "[Canceled]"
    case Raised(Timeout(m)) => NewLine + "[Timeout]: " + m
    case Raised(f) => NewLine + "[Error]: " + f.Message()
    case _ => ""
  }

  /** The rest of `OnRun` once `RunAsync` has ended with `outcome`: the `catch`
      clause that applies, then the `finally` block. */
  function Completed(st: ChatState, outcome: Session.Completion): (r: ChatState)
    requires ChatValid(st) && !outcome.Pending?
    ensures ChatValid(r)
  {
    if st.runMessage.None? then st
    else
      var i := st.runMessage.value;
      var caught :=
        if outcome.Raised? then
          var flushed := Flushed(st);
          flushed.(messages := flushed.messages[i := flushed.messages[i].(content := flushed.messages[i].content + Suffix(outcome))])
        else st;
      var done := WithRunning(Flushed(caught).(current := None), false);
      done.(cts := None, runMessage := None)
  }

  // ---------------------------------------------------------------------------
  // Properties

  /** Setting `IsRunning` to a new value sets `IsCancelEnabled` to the same value;
      every setter is a no-op when the value is unchanged. */
  lemma {:induction false} SettersFollowTheValue(st: ChatState, running: bool, enabled: bool, input: Option<string>)
    ensures WithRunning(st, running).isRunning == running
    ensures st.isRunning != running ==> WithRunning(st, running).isCancelEnabled == running
    ensures st.isRunning == running ==> WithRunning(st, running) == st
    ensures st.isCancelEnabled == enabled ==> WithCancelEnabled(st, enabled) == st
    ensures st.userInput == input ==> WithUserInput(st, input) == st
    ensures WithRunning(st, running).notices[..|st.notices|] == st.notices
  {
    if st.isRunning != running {
      var a := st.(isRunning := running, notices := st.notices + [PropertyChanged("IsRunning")]);
      assert WithCancelEnabled(a, running).notices[..|st.notices|] == st.notices;
    }
  }

  /** `OnRun` does nothing unless `CanRun` holds; when it does, it appends the User
      message and an empty Assistant message, clears the input, makes the Assistant
      message current, and sets `IsRunning` and `IsCancelEnabled`. */
  lemma StartedShape(st: ChatState)
    requires ChatValid(st)
    ensures !st.CanRun() ==> Started(st) == st
    ensures st.CanRun() ==>
      var r := Started(st);
      && r.messages == st.messages + [ChatMessage("User", st.userInput.value), ChatMessage("Assistant", "")]
      && r.userInput == Some("")
      && r.current == Some(|st.messages| + 1) && r.runMessage == r.current
      && r.isRunning && r.isCancelEnabled && r.cts == Some(false)
      && r.pending == st.pending
      && !r.CanRun() && r.CanCancel()
  {
  }

  /** The user's interaction while a run is in flight: an output line arrives, the
      update timer ticks, or the Cancel button is pressed. */
  datatype UiEvent = Output(text: string) | Tick | CancelClicked

  /** The state after one event. */
  function Step(st: ChatState, e: UiEvent): (r: ChatState)
    requires ChatValid(st)
    ensures ChatValid(r)
  {
    match e
    case Output(text) => Received(st, text)
    case Tick => Flushed(st)
    case CancelClicked => CancelRequested(st)
  }

  /** The state after the events, in order. */
  function During(st: ChatState, events: seq<UiEvent>): (r: ChatState)
    requires ChatValid(st)
    ensures ChatValid(r)
    decreases |events|
  {
    if events == [] then st else During(Step(st, events[0]), events[1..])
  }

  /** The chunks the callback queued for the output events, in order. */
  function Chunks(events: seq<UiEvent>): seq<string> {
    if events == [] then []
    else if events[0].Output? then [events[0].text + "\n"] + Chunks(events[1..])
    else Chunks(events[1..])
  }

  /** Between `st` and `r` only the queue, message `a` and the token source
      differ, and message `a`'s content followed by the queue grew by `added`. */
  predicate KeepsOrder(st: ChatState, r: ChatState, a: nat, added: string) {
    && a < |st.messages| && a < |r.messages|
    && r == st.(pending := r.pending, messages := r.messages, cts := r.cts)
    && r.messages == st.messages[a := st.messages[a].(content := r.messages[a].content)]
    && r.messages[a].content + Concat(r.pending) == st.messages[a].content + Concat(st.pending) + added
  }

  /** Two stretches that keep the order keep it together. */
  lemma KeepsOrderCompose(st: ChatState, mid: ChatState, r: ChatState, a: nat, x: string, y: string)
    requires KeepsOrder(st, mid, a, x) && KeepsOrder(mid, r, a, y)
    ensures KeepsOrder(st, r, a, x + y)
  {
    var before := st.messages[a].content + Concat(st.pending);
    assert r.messages[a].content + Concat(r.pending) == (before + x) + y;
    assert (before + x) + y == before + (x + y);
  }

  /** While a run is in flight, whatever the order of output, ticks and cancel
      clicks, the Assistant message's content followed by what is still queued is
      its content before, then the queued chunks, then every output line with a line
      feed; only the queue, the Assistant message and the token source change. */
  lemma {:induction false} DuringKeepsOrder(st: ChatState, events: seq<UiEvent>, a: nat)
    requires ChatValid(st) && st.current == Some(a) && st.runMessage == Some(a)
    ensures KeepsOrder(st, During(st, events), a, Concat(Chunks(events)))
    decreases |events|
  {
    if events == [] {
      assert st.messages == st.messages[a := st.messages[a].(content := st.messages[a].content)];
    } else {
      var next := Step(st, events[0]);
      StepKeepsOrder(st, events[0], a);
      DuringKeepsOrder(next, events[1..], a);
      assert During(st, events) == During(next, events[1..]);
      KeepsOrderCompose(st, next, During(next, events[1..]), a, Concat(Chunks([events[0]])), Concat(Chunks(events[1..])));
      assert events == [events[0]] + events[1..];
      ChunksAppend([events[0]], events[1..]);
      ConcatAppend(Chunks([events[0]]), Chunks(events[1..]));
    }
  }

  /** `DuringKeepsOrder` for one event. */
  lemma StepKeepsOrder(st: ChatState, e: UiEvent, a: nat)
    requires ChatValid(st) && st.current == Some(a) && st.runMessage == Some(a)
    ensures KeepsOrder(st, Step(st, e), a, Concat(Chunks([e])))
  {
    assert [e][1..] == [];
    match e
    case Output(text) =>
      ConcatAppend(st.pending, [text + "\n"]);
      assert Concat([text + "\n"]) == text + "\n";
    case Tick =>
    case CancelClicked =>
  }

  lemma {:induction false} ChunksAppend(a: seq<UiEvent>, b: seq<UiEvent>)
    ensures Chunks(a + b) == Chunks(a) + Chunks(b)
    decreases |a|
  {
    if a == [] {
      assert a + b == b;
    } else {
      assert (a + b)[1..] == a[1..] + b;
      ChunksAppend(a[1..], b);
    }
  }

  /** One whole run as the user sees it: `OnRun` appends the User message and an
      Assistant message, and when `RunAsync` has ended the Assistant message holds
      whatever was still queued, every output line with a line feed in arrival order,
      and the tag of the outcome, whenever the timer happened to tick; the queue is
      empty, no message is current, the view model is no longer running and the token
      source is gone. */
  lemma RunLifecycle(st: ChatState, events: seq<UiEvent>, outcome: Session.Completion)
    requires ChatValid(st) && st.CanRun() && !outcome.Pending?
    ensures var r := Completed(During(Started(st), events), outcome);
      && |r.messages| == |st.messages| + 2
      && r.messages[..|st.messages|] == st.messages
      && r.messages[|st.messages|] == ChatMessage("User", st.userInput.value)
      && r.messages[|st.messages| + 1] ==
           ChatMessage("Assistant", Concat(st.pending) + Concat(Chunks(events)) + Suffix(outcome))
      && r.pending == [] && r.current.None? && r.runMessage.None? && r.cts.None?
      && !r.isRunning && !r.isCancelEnabled && r.userInput == Some("")
  {
    var a := |st.messages| + 1;
    var s1 := Started(st);
    StartedShape(st);
    var s2 := During(s1, events);
    DuringKeepsOrder(s1, events, a);
    CompletedShape(s2, outcome, a);
    var r := Completed(s2, outcome);
    var whole := Concat(st.pending) + Concat(Chunks(events));
    assert s1.messages[a].content == "";
    assert s1.pending == st.pending;
    assert s2.messages[a].content + Concat(s2.pending) == whole by {
      assert "" + Concat(st.pending) == Concat(st.pending);
    }
    assert r.messages[a].content == whole + Suffix(outcome);
  }

  /** Once the run has ended, whatever is still queued goes to the run's message,
      followed by the tag of the outcome; nothing else changes in the messages, and
      the view model is idle again. */
  lemma CompletedShape(st: ChatState, outcome: Session.Completion, a: nat)
    requires ChatValid(st) && !outcome.Pending? && st.current == Some(a) && st.runMessage == Some(a) && st.isRunning
    ensures var r := Completed(st, outcome);
      && r.messages == st.messages[a := st.messages[a].(content := st.messages[a].content + Concat(st.pending) + Suffix(outcome))]
      && r.pending == [] && r.current.None? && r.runMessage.None? && r.cts.None?
      && !r.isRunning && !r.isCancelEnabled && r.userInput == st.userInput
  {
    var flushed := Flushed(st);
    if Concat(st.pending) == "" {
      assert st.messages[a].content + Concat(st.pending) == st.messages[a].content;
      assert st.messages[a := st.messages[a]] == st.messages;
    }
    assert flushed.messages == st.messages[a := st.messages[a].(content := st.messages[a].content + Concat(st.pending))];
    assert flushed.pending == [];
    if outcome.Raised? {
      var caught := flushed.(messages := flushed.messages[a := flushed.messages[a].(content := flushed.messages[a].content + Suffix(outcome))]);
      assert Flushed(caught) == caught;
    } else {
      assert Suffix(outcome) == "";
      assert st.messages[a].content + Concat(st.pending) + Suffix(outcome) == st.messages[a].content + Concat(st.pending);
    }
  }

  /** Pressing Cancel never changes the messages or the running flag, and only
      cancels while a run is in progress. */
  lemma CancelOnlyWhileRunning(st: ChatState)
    ensures CancelRequested(st) == st.(cts := CancelRequested(st).cts)
    ensures CancelRequested(st).cts == Some(true) <==> st.cts == Some(true) || (st.isRunning && st.cts.Some?)
  {
  }

  // ---------------------------------------------------------------------------
  // The view model

  class ChatViewModel {
    var userInput: Option<string>
    var isCancelEnabled: bool
    var isRunning: bool
    var cts: Option<bool>
    var pending: seq<string>
    var current: Option<nat>
    var runMessage: Option<nat>
    var messages: seq<ChatMessage>
    var notices: seq<Notice>

    function State(): ChatState
      reads this
    {
      ChatState(userInput, isCancelEnabled, isRunning, cts, pending, current, runMessage, messages, notices)
    }

    /** The constructor: no messages, and `UserInput` set to the empty string
        through its setter (so it raises its notifications). */
    constructor ()
      ensures State() == WithUserInput(ChatState(None, false, false, None, [], None, None, [], []), Some(""))
      ensures ChatValid(State())
    {
      userInput, isCancelEnabled, isRunning, cts := None, false, false, None;
      pending, current, runMessage, messages, notices := [], None, None, [], [];
      new;
      SetUserInput(Some(""));
    }

    predicate CanRun()
      reads this
    {
      State().CanRun()
    }

    predicate CanCancel()
      reads this
    {
      State().CanCancel()
    }

    /** `OnPropertyChanged`: raises `PropertyChanged` for one property name. */
    method Notify(name: string)
      modifies this
      ensures State() == old(State()).(notices := old(notices) + [PropertyChanged(name)])
    {
      notices := notices + [PropertyChanged(name)];
    }

    method UpdateCommandStates()
      modifies this
      ensures State() == old(State()).(notices := old(notices) + CommandStatesChanged)
    {
      notices := notices + CommandStatesChanged;
    }

    /** The `UserInput` setter. */
    method SetUserInput(value: Option<string>)
      modifies this
      ensures State() == WithUserInput(old(State()), value)
    {
      if userInput != value {
        userInput := value;
        Notify("UserInput");
        UpdateCommandStates();
      }
    }

    /** The `IsCancelEnabled` setter. */
    method SetIsCancelEnabled(value: bool)
      modifies this
      ensures State() == WithCancelEnabled(old(State()), value)
    {
      if isCancelEnabled != value {
        isCancelEnabled := value;
        Notify("IsCancelEnabled");
        UpdateCommandStates();
      }
    }

    /** The `IsRunning` setter. */
    method SetIsRunning(value: bool)
      modifies this
      ensures State() == WithRunning(old(State()), value)
    {
      if isRunning != value {
        isRunning := value;
        Notify("IsRunning");
        SetIsCancelEnabled(isRunning);
        UpdateCommandStates();
      }
    }

    /** `FlushPendingContent`: drain the queue, oldest chunk first, into the current
        Assistant message. */
    method FlushPendingContent()
      requires ChatValid(State())
      modifies this
      ensures State() == Flushed(old(State()))
    {
      if current.None? || pending == [] {
        return;
      }
      ghost var queued := pending;
      var sb := "";
      while pending != []
        invariant sb + Concat(pending) == Concat(queued)
        invariant State() == old(State()).(pending := pending)
        decreases |pending|
      {
        var chunk := pending[0];
        pending := pending[1..];
        sb := sb + chunk;
      }
      assert sb == Concat(queued);
      if |sb| > 0 {
        var i := current.value;
        messages := messages[i := messages[i].(content := messages[i].content + sb)];
      }
    }

    /** `OnRun` up to sending the request; returns the prompt to send, or nothing
        when `CanRun` does not hold. */
    method OnRun() returns (prompt: Option<string>)
      requires ChatValid(State())
      modifies this
      ensures State() == Started(old(State()))
      ensures prompt == if old(State()).CanRun() then old(userInput) else None
    {
      if !CanRun() {
        return None;
      }
      prompt := userInput;
      messages := messages + [ChatMessage("User", prompt.value)];
      SetUserInput(Some(""));
      var assistant := |messages|;
      messages := messages + [ChatMessage("Assistant", "")];
      current := Some(assistant);
      runMessage := Some(assistant);
      SetIsRunning(true);
      cts := Some(false);
    }

    /** The output callback passed to `RunAsync`. */
    method Enqueue(output: string)
      modifies this
      ensures State() == Received(old(State()), output)
    {
      pending := pending + [output + "\n"];
    }

    /** `OnCancel`. */
    method OnCancel()
      modifies this
      ensures State() == CancelRequested(old(State()))
    {
      if CanCancel() && cts.Some? {
        cts := Some(true);
      }
    }

    /** The `catch` and `finally` part of `OnRun`, once `RunAsync` has ended. */
    method OnRunCompleted(outcome: Session.Completion)
      requires ChatValid(State()) && !outcome.Pending?
      modifies this
      ensures State() == Completed(old(State()), outcome)
    {
      if runMessage.None? {
        return;
      }
      var i := runMessage.value;
      ghost var st := State();
      if outcome.Raised? {
        FlushPendingContent();
        assert State() == Flushed(st);
        messages := messages[i := messages[i].(content := messages[i].content + Suffix(outcome))];
      }
      ghost var caught := State();
      assert ChatValid(caught);
      FlushPendingContent();
      assert State() == Flushed(caught);
      current := None;
      SetIsRunning(false);
      assert State() == WithRunning(Flushed(caught).(current := None), false);
      cts := None;
      runMessage := None;
    }
  }

  /** `RelayCommand`: an optional predicate deciding whether the command can run. */
  datatype RelayCommand<!P> = RelayCommand(canExecute: Option<P -> bool>)
  {
    /** `CanExecute`. */
    predicate CanExecute(parameter: P) {
      canExecute.None? || canExecute.value(parameter)
    }
  }

  /** A command without a predicate can always execute; with one, exactly when the
      predicate holds. */
  lemma CanExecuteWithoutPredicate<P>(c: RelayCommand<P>, parameter: P)
    ensures c.canExecute.None? ==> c.CanExecute(parameter)
    ensures c.canExecute.Some? ==> (c.CanExecute(parameter) <==> c.canExecute.value(parameter))
  {
  }
}
