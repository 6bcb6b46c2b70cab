/**
 * `ProcessResponseAsync` as a specification over a script of turns
 * (ClaudeCodeCommandService.cs). Each turn is what one iteration of the read loop
 * meets: the linked token already cancelled at the loop head, the health check
 * finding the process gone, or the outcome of `ReadLineWithCancellationAsync`.
 */
module ResponseLoop {
  import opened Wrappers
  import opened Text
  import opened Events
  import opened Faults

  /** How `ReadLineWithCancellationAsync` ends: a line, a null (stream closed), or
      the cancellation branch of the `Task.WhenAny` race winning. `byCaller` is whether
      the caller's own token (not the timeout) is cancelled when the exception is caught. */
  datatype ReadOutcome = Line(text: string) | Closed | Cancelled(byCaller: bool)

  datatype Turn =
    | HeadCancelled            // `!ct.IsCancellationRequested` is false at the loop head
    | ProcessGone              // `_process == null || _process.HasExited` holds before the read
    | Read(outcome: ReadOutcome)

  /** What the per-line callback throws, if it throws: an `OperationCanceledException`
      (`byCaller` is whether the caller's own token is cancelled when `RunAsync` catches
      it), or any other exception with its message. */
  datatype CallbackThrow = ThrowsCancellation(byCaller: bool) | ThrowsOther(message: string)

  /** How the loop ends; `Waiting` means the script ran out while a read was still pending. */
  datatype LoopEnd =
    | ResultReceived
    | CancelSeen
    | Waiting
    | ReadCanceled(byCaller: bool)
    | CallbackCanceled(byCaller: bool)
    | Threw(fault: Fault)

  /** The loop ended by an `OperationCanceledException`, from the read or from the callback. */
  predicate Canceled(end: LoopEnd) {
    end.ReadCanceled? || end.CallbackCanceled?
  }

  /** The loop ended because the callback threw. */
  predicate CallbackThrew(end: LoopEnd) {
    end.CallbackCanceled? || (end.Threw? && end.fault.CallbackFailed?)
  }

  /** How a throwing callback ends the loop. */
  function CallbackEnd(thrown: CallbackThrow): (end: LoopEnd)
    ensures CallbackThrew(end)
  {
    match thrown
    case ThrowsCancellation(byCaller) => CallbackCanceled(byCaller)
    case ThrowsOther(m) => Threw(CallbackFailed(m))
  }

  /** The `InvalidCastException` that `ShouldLogEvent` throws for a line whose
      `event.type` is not a scalar. */
  function CastFault(p: ParsedLine): Fault
    requires p.Parsed? && p.eventKind.Composite?
  {
    InvalidCast(InvalidCastMessage(p.eventKind.typeName))
  }

  /** What the loop has done so far: the modified-files set, the lines handed to the
      callback and the lines written to the log, in order. */
  datatype Progress = Progress(files: set<string>, delivered: seq<string>, logged: seq<string>)

  datatype LoopResult = LoopResult(progress: Progress, end: LoopEnd, consumed: nat)

  /** One non-blank line whose event type could be read: log it if it is log-worthy,
      track it, hand it to the callback. */
  function Deliver(acc: Progress, text: string, parse: string -> ParsedLine): Progress {
    var p := TryParseJsonLine(Some(text), parse);
    Progress(Track(acc.files, p), acc.delivered + [text],
             if ShouldLogEvent(p) == Some(true) then acc.logged + [text] else acc.logged)
  }

  /** A turn whose line reaches the callback: non-blank, and `ShouldLogEvent` does not throw on it. */
  predicate Delivered(t: Turn, parse: string -> ParsedLine) {
    t.Read? && t.outcome.Line? && !IsBlank(t.outcome.text) && ShouldLogEvent(parse(t.outcome.text)).Some?
  }

  /** A turn after which the loop goes round again: a blank line, or a delivered line
      that is not a result and whose callback returns normally. */
  predicate Continues(t: Turn, parse: string -> ParsedLine, callbackFault: string -> Option<CallbackThrow>) {
    t.Read? && t.outcome.Line? &&
    (IsBlank(t.outcome.text) ||
     (ShouldLogEvent(parse(t.outcome.text)).Some? && callbackFault(t.outcome.text).None? && !IsResult(parse(t.outcome.text))))
  }

  /** How a turn that does not continue ends the loop. */
  function Ending(t: Turn, parse: string -> ParsedLine, callbackFault: string -> Option<CallbackThrow>): LoopEnd
    requires !Continues(t, parse, callbackFault)
  {
    match t
    case HeadCancelled => CancelSeen
    case ProcessGone => Threw(InvalidOperation(TerminatedMessage))
    case Read(Closed) => Threw(InvalidOperation(StreamClosedMessage))
    case Read(Cancelled(byCaller)) => ReadCanceled(byCaller)
    case Read(Line(text)) =>
      if ShouldLogEvent(parse(text)).None? then Threw(CastFault(parse(text)))
      else if callbackFault(text).Some? then CallbackEnd(callbackFault(text).value)
      else ResultReceived
  }

  /** The loop from turn `i` on, with what it has done so far in `acc`. */
  function RespondFrom(turns: seq<Turn>, i: nat, acc: Progress, parse: string -> ParsedLine,
                       callbackFault: string -> Option<CallbackThrow>): (r: LoopResult)
    requires i <= |turns|
    ensures i <= r.consumed <= |turns|
    ensures r.end == Waiting ==> r.consumed == |turns|
    decreases |turns| - i
  {
    if i == |turns| then LoopResult(acc, Waiting, i)
    else match turns[i]
      case HeadCancelled => LoopResult(acc, CancelSeen, i + 1)
      case ProcessGone => LoopResult(acc, Threw(InvalidOperation(TerminatedMessage)), i + 1)
      case Read(Closed) => LoopResult(acc, Threw(InvalidOperation(StreamClosedMessage)), i + 1)
      case Read(Cancelled(byCaller)) => LoopResult(acc, ReadCanceled(byCaller), i + 1)
      case Read(Line(text)) =>
        if IsBlank(text) then RespondFrom(turns, i + 1, acc, parse, callbackFault)
        else if ShouldLogEvent(parse(text)).None? then LoopResult(acc, Threw(CastFault(parse(text))), i + 1)
        else
          var acc' := Deliver(acc, text, parse);
          match callbackFault(text)
          case Some(thrown) => LoopResult(acc', CallbackEnd(thrown), i + 1)
          case None =>
            if IsResult(parse(text)) then LoopResult(acc', ResultReceived, i + 1)
            else RespondFrom(turns, i + 1, acc', parse, callbackFault)
  }

  /** The whole loop for one run, starting from the run's modified-files set. */
  function Respond(turns: seq<Turn>, files: set<string>, parse: string -> ParsedLine,
                   callbackFault: string -> Option<CallbackThrow>): LoopResult
  {
    RespondFrom(turns, 0, Progress(files, [], []), parse, callbackFault)
  }

  /** The lines of a stretch of turns that reach the callback, in arrival order. */
  function DeliveredLines(ts: seq<Turn>, parse: string -> ParsedLine): (lines: seq<string>)
    ensures |lines| <= |ts|
  {
    if ts == [] then []
    else if Delivered(ts[0], parse) then [ts[0].outcome.text] + DeliveredLines(ts[1..], parse)
    else DeliveredLines(ts[1..], parse)
  }

  /** The lines `ShouldLogEvent` keeps, in order. */
  function LogWorthy(lines: seq<string>, parse: string -> ParsedLine): (kept: seq<string>)
    ensures |kept| <= |lines|
  {
    if lines == [] then []
    else if ShouldLogEvent(TryParseJsonLine(Some(lines[0]), parse)) == Some(true) then [lines[0]] + LogWorthy(lines[1..], parse)
    else LogWorthy(lines[1..], parse)
  }

  /** The loop stops at the first turn that does not continue, and that turn alone
      decides how it ends; if there is none, it is still waiting after the last turn. */
  lemma {:induction false} RespondStopsAtFirstStop(turns: seq<Turn>, i: nat, acc: Progress,
                                                   parse: string -> ParsedLine, callbackFault: string -> Option<CallbackThrow>)
    requires i <= |turns|
    ensures var r := RespondFrom(turns, i, acc, parse, callbackFault);
      && (r.end == Waiting <==> r.consumed == |turns| && forall j :: i <= j < |turns| ==> Continues(turns[j], parse, callbackFault))
      && (r.end != Waiting ==>
            && i < r.consumed
            && (forall j :: i <= j < r.consumed - 1 ==> Continues(turns[j], parse, callbackFault))
            && !Continues(turns[r.consumed - 1], parse, callbackFault)
            && r.end == Ending(turns[r.consumed - 1], parse, callbackFault))
    decreases |turns| - i
  {
    if i < |turns| {
      var t := turns[i];
      if Continues(t, parse, callbackFault) {
        var acc' := if IsBlank(t.outcome.text) then acc else Deliver(acc, t.outcome.text, parse);
        StepContinues(turns, i, acc, parse, callbackFault);
        RespondStopsAtFirstStop(turns, i + 1, acc', parse, callbackFault);
      } else {
        StepStops(turns, i, acc, parse, callbackFault);
      }
    }
  }

  /** A turn that continues hands the loop on to the next turn. */
  lemma StepContinues(turns: seq<Turn>, i: nat, acc: Progress, parse: string -> ParsedLine,
                      callbackFault: string -> Option<CallbackThrow>)
    requires i < |turns| && Continues(turns[i], parse, callbackFault)
    ensures var t := turns[i];
      RespondFrom(turns, i, acc, parse, callbackFault) ==
        RespondFrom(turns, i + 1, if IsBlank(t.outcome.text) then acc else Deliver(acc, t.outcome.text, parse),
                    parse, callbackFault)
  {
  }

  /** A turn that does not continue ends the loop as `Ending` says. */
  lemma StepStops(turns: seq<Turn>, i: nat, acc: Progress, parse: string -> ParsedLine,
                  callbackFault: string -> Option<CallbackThrow>)
    requires i < |turns| && !Continues(turns[i], parse, callbackFault)
    ensures var r := RespondFrom(turns, i, acc, parse, callbackFault);
      r.consumed == i + 1 && r.end == Ending(turns[i], parse, callbackFault)
  {
  }

  /** Every line read before the loop stops that is non-blank and whose event type
      could be read is handed to the callback and tracked, in arrival order, and
      exactly the log-worthy ones are logged. */
  lemma {:induction false} RespondDelivers(turns: seq<Turn>, i: nat, acc: Progress,
                                           parse: string -> ParsedLine, callbackFault: string -> Option<CallbackThrow>)
    requires i <= |turns|
    ensures var r := RespondFrom(turns, i, acc, parse, callbackFault);
      var lines := DeliveredLines(turns[i..r.consumed], parse);
      && r.progress.delivered == acc.delivered + lines
      && r.progress.logged == acc.logged + LogWorthy(lines, parse)
      && r.progress.files == TrackAll(acc.files, lines, parse)
    decreases |turns| - i
  {
    var r := RespondFrom(turns, i, acc, parse, callbackFault);
    if i < |turns| {
      var t := turns[i];
      var c := r.consumed;
      assert turns[i..c][0] == t;
      assert turns[i..c][1..] == turns[i + 1..c];
      if t.Read? && t.outcome.Line? && IsBlank(t.outcome.text) {
        RespondDelivers(turns, i + 1, acc, parse, callbackFault);
        assert DeliveredLines(turns[i..c], parse) == DeliveredLines(turns[i + 1..c], parse);
      } else if Delivered(t, parse) {
        var text := t.outcome.text;
        var acc' := Deliver(acc, text, parse);
        var rest := DeliveredLines(turns[i + 1..c], parse);
        assert DeliveredLines(turns[i..c], parse) == [text] + rest;
        if callbackFault(text).None? && !IsResult(parse(text)) {
          RespondDelivers(turns, i + 1, acc', parse, callbackFault);
        } else {
          assert turns[i + 1..c] == [];
          assert rest == [];
        }
        DeliverStep(acc, text, rest, parse);
      } else {
        assert turns[i + 1..c] == [];
        assert DeliveredLines(turns[i..c], parse) == [];
      }
    } else {
      assert turns[i..r.consumed] == [];
    }
  }

  /** Delivering one line and then the rest is delivering them all. */
  lemma DeliverStep(acc: Progress, text: string, rest: seq<string>, parse: string -> ParsedLine)
    requires !IsBlank(text)
    ensures var next := Deliver(acc, text, parse);
      && next.delivered + rest == acc.delivered + ([text] + rest)
      && next.logged + LogWorthy(rest, parse) == acc.logged + LogWorthy([text] + rest, parse)
      && TrackAll(next.files, rest, parse) == TrackAll(acc.files, [text] + rest, parse)
  {
    var p := parse(text);
    assert TryParseJsonLine(Some(text), parse) == p;
    var all := [text] + rest;
    assert all[0] == text && all[1..] == rest;
    assert TrackAll(acc.files, all, parse) == TrackAll(Track(acc.files, p), rest, parse);
    if ShouldLogEvent(p) == Some(true) {
      assert LogWorthy(all, parse) == [text] + LogWorthy(rest, parse);
      assert (acc.logged + [text]) + LogWorthy(rest, parse) == acc.logged + ([text] + LogWorthy(rest, parse));
    } else {
      assert LogWorthy(all, parse) == LogWorthy(rest, parse);
    }
    assert (acc.delivered + [text]) + rest == acc.delivered + all;
  }

  /** No line handed to the callback is blank, so each was parsed exactly once by the
      JSON parser, and `ShouldLogEvent` read its event type without throwing. */
  lemma DeliveredLinesAreParsed(turns: seq<Turn>, files: set<string>, parse: string -> ParsedLine,
                                callbackFault: string -> Option<CallbackThrow>, k: int)
    requires var d := Respond(turns, files, parse, callbackFault).progress.delivered; 0 <= k < |d|
    ensures var d := Respond(turns, files, parse, callbackFault).progress.delivered;
      && !IsBlank(d[k])
      && TryParseJsonLine(Some(d[k]), parse) == parse(d[k])
      && ShouldLogEvent(parse(d[k])).Some?
  {
    var r := Respond(turns, files, parse, callbackFault);
    RespondDelivers(turns, 0, Progress(files, [], []), parse, callbackFault);
    DeliveredLinesAreDelivered(turns[0..r.consumed], parse, k);
  }

  lemma {:induction false} DeliveredLinesAreDelivered(ts: seq<Turn>, parse: string -> ParsedLine, k: int)
    requires 0 <= k < |DeliveredLines(ts, parse)|
    ensures var d := DeliveredLines(ts, parse);
      !IsBlank(d[k]) && ShouldLogEvent(parse(d[k])).Some?
  {
    if !Delivered(ts[0], parse) {
      DeliveredLinesAreDelivered(ts[1..], parse, k);
    } else if k > 0 {
      DeliveredLinesAreDelivered(ts[1..], parse, k - 1);
    }
  }

  /** None of the lines is a result line or a line whose callback threw. */
  predicate Quiet(lines: seq<string>, parse: string -> ParsedLine, callbackFault: string -> Option<CallbackThrow>) {
    forall k :: 0 <= k < |lines| ==> !IsResult(parse(lines[k])) && callbackFault(lines[k]).None?
  }

  /** No line handed to the callback before the last one is a result line or a line
      whose callback threw; the loop ends normally on a result exactly when the last
      delivered line is one, and by the callback's exception exactly when the last
      line's callback threw it. */
  lemma ResultEndsTheLoop(turns: seq<Turn>, files: set<string>, parse: string -> ParsedLine,
                          callbackFault: string -> Option<CallbackThrow>, r: LoopResult)
    requires r == Respond(turns, files, parse, callbackFault)
    ensures var d := r.progress.delivered;
      && (r.end == ResultReceived ==> |d| > 0 && Quiet(d[..|d| - 1], parse, callbackFault)
                                      && IsResult(parse(d[|d| - 1])) && callbackFault(d[|d| - 1]).None?)
      && (CallbackThrew(r.end) ==>
            && |d| > 0 && Quiet(d[..|d| - 1], parse, callbackFault) && callbackFault(d[|d| - 1]).Some?
            && r.end == CallbackEnd(callbackFault(d[|d| - 1]).value))
      && (r.end != ResultReceived && !CallbackThrew(r.end) ==> Quiet(d, parse, callbackFault))
  {
    RespondEnding(turns, files, parse, callbackFault);
    RespondDeliveredLines(turns, files, parse, callbackFault);
    LastTurnDecides(turns, r.consumed, r.end, parse, callbackFault);
  }

  /** `RespondStopsAtFirstStop` for a whole run. */
  lemma RespondEnding(turns: seq<Turn>, files: set<string>, parse: string -> ParsedLine,
                      callbackFault: string -> Option<CallbackThrow>)
    ensures var r := Respond(turns, files, parse, callbackFault);
      && r.consumed <= |turns|
      && (r.end == Waiting ==> forall j :: 0 <= j < r.consumed ==> Continues(turns[j], parse, callbackFault))
      && (r.end != Waiting ==>
            && 0 < r.consumed
            && (forall j :: 0 <= j < r.consumed - 1 ==> Continues(turns[j], parse, callbackFault))
            && !Continues(turns[r.consumed - 1], parse, callbackFault)
            && r.end == Ending(turns[r.consumed - 1], parse, callbackFault))
  {
    RespondStopsAtFirstStop(turns, 0, Progress(files, [], []), parse, callbackFault);
  }

  /** `RespondDelivers` for a whole run: the delivered lines are those of the turns consumed. */
  lemma RespondDeliveredLines(turns: seq<Turn>, files: set<string>, parse: string -> ParsedLine,
                              callbackFault: string -> Option<CallbackThrow>)
    ensures var r := Respond(turns, files, parse, callbackFault);
      r.progress.delivered == DeliveredLines(turns[..r.consumed], parse)
  {
    var r := Respond(turns, files, parse, callbackFault);
    RespondDelivers(turns, 0, Progress(files, [], []), parse, callbackFault);
    assert turns[0..r.consumed] == turns[..r.consumed];
  }

  /** `ResultEndsTheLoop` for the first `n` turns, given how they end the loop. */
  lemma LastTurnDecides(turns: seq<Turn>, n: nat, end: LoopEnd, parse: string -> ParsedLine,
                        callbackFault: string -> Option<CallbackThrow>)
    requires n <= |turns|
    requires end == Waiting ==> forall j :: 0 <= j < n ==> Continues(turns[j], parse, callbackFault)
    requires end != Waiting ==>
      && 0 < n
      && (forall j :: 0 <= j < n - 1 ==> Continues(turns[j], parse, callbackFault))
      && !Continues(turns[n - 1], parse, callbackFault)
      && end == Ending(turns[n - 1], parse, callbackFault)
    ensures var d := DeliveredLines(turns[..n], parse);
      && (end == ResultReceived ==> |d| > 0 && Quiet(d[..|d| - 1], parse, callbackFault)
                                    && IsResult(parse(d[|d| - 1])) && callbackFault(d[|d| - 1]).None?)
      && (CallbackThrew(end) ==>
            && |d| > 0 && Quiet(d[..|d| - 1], parse, callbackFault) && callbackFault(d[|d| - 1]).Some?
            && end == CallbackEnd(callbackFault(d[|d| - 1]).value))
      && (end != ResultReceived && !CallbackThrew(end) ==> Quiet(d, parse, callbackFault))
  {
    var ts := turns[..n];
    var d := DeliveredLines(ts, parse);
    if end == Waiting {
      ContinuingLinesAreQuiet(ts, parse, callbackFault);
    } else {
      var prefix := turns[..n - 1];
      var last := turns[n - 1];
      assert ts == prefix + [last];
      DeliveredLinesAppend(prefix, last, parse);
      ContinuingLinesAreQuiet(prefix, parse, callbackFault);
      var quiet := DeliveredLines(prefix, parse);
      if Delivered(last, parse) {
        assert d == quiet + [last.outcome.text];
        assert d[..|d| - 1] == quiet;
      } else {
        assert d == quiet;
      }
    }
  }

  lemma {:induction false} ContinuingLinesAreQuiet(ts: seq<Turn>, parse: string -> ParsedLine,
                                                   callbackFault: string -> Option<CallbackThrow>)
    requires forall j :: 0 <= j < |ts| ==> Continues(ts[j], parse, callbackFault)
    ensures Quiet(DeliveredLines(ts, parse), parse, callbackFault)
  {
    if ts != [] {
      ContinuingLinesAreQuiet(ts[1..], parse, callbackFault);
    }
  }

  lemma {:induction false} DeliveredLinesAppend(ts: seq<Turn>, t: Turn, parse: string -> ParsedLine)
    ensures DeliveredLines(ts + [t], parse) ==
              DeliveredLines(ts, parse) + (if Delivered(t, parse) then [t.outcome.text] else [])
  {
    if ts == [] {
      assert [t][1..] == [];
    } else {
      assert (ts + [t])[1..] == ts[1..] + [t];
      DeliveredLinesAppend(ts[1..], t, parse);
    }
  }

  /** The `{"type":"result","subtype":"success"}` line ends the loop normally on the
      turn that read it, after handing it to the callback. */
  lemma ResultLineEndsLoopAtOnce(text: string, files: set<string>, parse: string -> ParsedLine,
                                 callbackFault: string -> Option<CallbackThrow>)
    requires !IsBlank(text) && callbackFault(text).None?
    requires parse(text) == Parsed(Some("result"), Missing, None, None)
    ensures var r := Respond([Read(Line(text))], files, parse, callbackFault);
      r.end == ResultReceived && r.consumed == 1 && r.progress.delivered == [text] && r.progress.logged == [text]
  {
    assert EqualsIgnoreCase("result", "result");
  }

  /** A `stream_event` line whose `event.type` is an object, such as
      `{"type":"stream_event","event":{"type":{}}}`, ends the loop with the
      `InvalidCastException` before it is logged, tracked or handed to the callback. */
  lemma ObjectEventTypeThrows(text: string, files: set<string>, parse: string -> ParsedLine,
                              callbackFault: string -> Option<CallbackThrow>)
    requires !IsBlank(text)
    requires parse(text) == Parsed(Some(StreamEvent), Composite("Newtonsoft.Json.Linq.JObject"), None, None)
    ensures Respond([Read(Line(text))], files, parse, callbackFault) ==
      LoopResult(Progress(files, [], []),
                 Threw(InvalidCast(InvalidCastMessage("Newtonsoft.Json.Linq.JObject"))), 1)
  {
    assert ShouldLogEvent(parse(text)).None?;
  }

  /** The loop itself only ever throws an invalid-operation exception (process gone,
      stream closed), the invalid cast of a non-scalar event type, or the callback's
      own exception; it never reports a timeout as a thrown fault, and a cancellation
      only as `ReadCanceled` or `CallbackCanceled`. */
  lemma RespondFaults(turns: seq<Turn>, files: set<string>, parse: string -> ParsedLine,
                      callbackFault: string -> Option<CallbackThrow>)
    ensures var r := Respond(turns, files, parse, callbackFault);
      && (r.end.Threw? ==>
            r.end.fault in {InvalidOperation(TerminatedMessage), InvalidOperation(StreamClosedMessage)}
            || r.end.fault.CallbackFailed?
            || (exists typeName :: r.end.fault == InvalidCast(InvalidCastMessage(typeName))))
      && (r.end.CallbackCanceled? ==> exists j :: 0 <= j < |turns| && Delivered(turns[j], parse)
                                        && callbackFault(turns[j].outcome.text) == Some(ThrowsCancellation(r.end.byCaller)))
  {
    var r := Respond(turns, files, parse, callbackFault);
    RespondStopsAtFirstStop(turns, 0, Progress(files, [], []), parse, callbackFault);
    if r.end.Threw? && r.end.fault.InvalidCast? {
      var p := parse(turns[r.consumed - 1].outcome.text);
      assert r.end.fault == InvalidCast(InvalidCastMessage(p.eventKind.typeName));
    }
    if r.end.CallbackCanceled? {
      assert Delivered(turns[r.consumed - 1], parse);
    }
  }
}
