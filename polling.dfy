/** The polling loop of main: start-up, and the de-duplicating state machine
    that decides, cycle after cycle, which notifications are sent. */
module Polling {
  import opened Wrappers
  import opened Errors
  import opened Homework

  const StatusNoticePrefix := "Новый статус домашки: "
  const ErrorNoticePrefix := "Сбой в работе программы: "
  const FatalMessage :=
    "Сбой в работе программы: " + "отсутсвуют обязательные переменные" + "окружения\n"
    + "Работа программы остановлена"

  /** The notification sent for a new status message. */
  function StatusNotice(homeworkMessage: string): string {
    StatusNoticePrefix + homeworkMessage
  }

  /** The notification built from an error caught by the loop. */
  function ErrorNotice(e: Error): string {
    ErrorNoticePrefix + ErrorText(e)
  }

  /** A text the loop can send: a status notice or an error notice. */
  predicate IsNotice(m: string) {
    StatusNoticePrefix <= m || ErrorNoticePrefix <= m
  }

  /** The two strings main keeps between cycles. */
  datatype PollState = PollState(prevHomeworkMessage: string, lastMessage: string)

  /** Both strings start empty. */
  const Initial := PollState("", "")

  /** What the statements inside main's `try` produce: a status message, or the error they raised. */
  type CycleResult = Result<string, Error>

  /** The results of the cycles run on the given answers, one per answer. */
  function CycleResults(answers: seq<Answer>): (results: seq<CycleResult>)
    ensures |results| == |answers|
    decreases |answers|
  {
    if answers == [] then []
    else CycleResults(answers[..|answers| - 1]) + [Cycle(answers[|answers| - 1])]
  }

  /** The k-th result is the cycle run on the k-th answer: the results are the cycles' results, in order. */
  lemma {:induction false} CycleResultsAt(answers: seq<Answer>)
    ensures forall k :: 0 <= k < |answers| ==> CycleResults(answers)[k] == Cycle(answers[k])
    decreases |answers|
  {
    if answers != [] {
      var n := |answers| - 1;
      CycleResultsAt(answers[..n]);
      assert forall k :: 0 <= k < n ==> answers[..n][k] == answers[k];
    }
  }

  /** The state after a number of cycles and the notifications sent during them, in order. */
  datatype Transition = Transition(next: PollState, sent: seq<string>)

  /** The rest of one pass of the loop body, once the cycle's result is known. */
  function Step(s: PollState, result: CycleResult): (t: Transition)
    ensures |t.sent| <= 1
  {
    match result
    case Ok(homeworkMessage) =>
      if s.prevHomeworkMessage != homeworkMessage then
        Transition(s.(prevHomeworkMessage := homeworkMessage), [StatusNotice(homeworkMessage)])
      else Transition(s, [])
    case Err(error) =>
      var message := ErrorNotice(error);
      if message != s.lastMessage then Transition(s.(lastMessage := message), [message])
      else Transition(s, [])
  }

  /** The loop run over a finite sequence of cycle results. */
  function Run(s: PollState, results: seq<CycleResult>): (t: Transition)
    ensures |t.sent| <= |results|
    decreases |results|
  {
    if results == [] then Transition(s, [])
    else
      var before := Run(s, results[..|results| - 1]);
      var last := Step(before.next, results[|results| - 1]);
      Transition(last.next, before.sent + last.sent)
  }

  lemma RunSnoc(s: PollState, results: seq<CycleResult>, result: CycleResult)
    ensures Run(s, results + [result]).next == Step(Run(s, results).next, result).next
    ensures Run(s, results + [result]).sent == Run(s, results).sent + Step(Run(s, results).next, result).sent
  {
    assert (results + [result])[..|results|] == results;
  }

  /** Everything the loop sends is a status notice or an error notice. */
  lemma {:induction false} RunSendsOnlyNotices(s: PollState, results: seq<CycleResult>)
    ensures forall k :: 0 <= k < |Run(s, results).sent| ==> IsNotice(Run(s, results).sent[k])
    decreases |results|
  {
    if results != [] {
      var n := |results| - 1;
      RunSendsOnlyNotices(s, results[..n]);
      var before := Run(s, results[..n]);
      var last := Step(before.next, results[n]);
      assert Run(s, results).sent == before.sent + last.sent;
      match results[n] {
        case Ok(homeworkMessage) =>
          assert forall k :: 0 <= k < |last.sent| ==> last.sent[k] == StatusNotice(homeworkMessage);
        case Err(error) =>
          assert forall k :: 0 <= k < |last.sent| ==> last.sent[k] == ErrorNotice(error);
      }
    }
  }

  // ---------------------------------------------------------------------------
  // One cycle

  /** A successful cycle notifies exactly when its message differs from the
      previous one, records the message, and leaves the error text alone. */
  lemma StepOnSuccess(s: PollState, result: CycleResult)
    requires result.Ok?
    ensures var t := Step(s, result);
            && t.next.prevHomeworkMessage == result.value
            && t.next.lastMessage == s.lastMessage
            && t.sent == if result.value == s.prevHomeworkMessage then [] else [StatusNotice(result.value)]
  {
  }

  /** A failed cycle notifies exactly when its error text differs from the last
      one sent, records the text, and leaves the status message alone. */
  lemma StepOnError(s: PollState, result: CycleResult)
    requires result.Err?
    ensures var t := Step(s, result);
            && t.next.prevHomeworkMessage == s.prevHomeworkMessage
            && t.next.lastMessage == ErrorNotice(result.error)
            && t.sent == if ErrorNotice(result.error) == s.lastMessage then [] else [ErrorNotice(result.error)]
  {
  }

  // ---------------------------------------------------------------------------
  // The loop's state is the last result of each kind

  /** The message of the last successful cycle, or `prev` if none succeeded. */
  function LastStatus(prev: string, results: seq<CycleResult>): string
    decreases |results|
  {
    if results == [] then prev
    else match results[|results| - 1]
      case Ok(homeworkMessage) => homeworkMessage
      case Err(_) => LastStatus(prev, results[..|results| - 1])
  }

  /** The error notice of the last failed cycle, or `last` if none failed. */
  function LastError(last: string, results: seq<CycleResult>): string
    decreases |results|
  {
    if results == [] then last
    else match results[|results| - 1]
      case Ok(_) => LastError(last, results[..|results| - 1])
      case Err(error) => ErrorNotice(error)
  }

  /** After any run, `prev_homework_message` holds the last message produced and
      `last_message` the last error notice: de-duplication never makes either
      lag behind, and each is touched only by cycles of its own kind. */
  lemma {:induction false} RunTracksLastResults(s: PollState, results: seq<CycleResult>)
    ensures Run(s, results).next == PollState(LastStatus(s.prevHomeworkMessage, results), LastError(s.lastMessage, results))
    decreases |results|
  {
    if results != [] {
      RunTracksLastResults(s, results[..|results| - 1]);
    }
  }

  /** Cycles that all succeed never change `last_message`. */
  lemma {:induction false} SuccessesKeepLastMessage(s: PollState, results: seq<CycleResult>, successes: seq<CycleResult>)
    requires forall k :: 0 <= k < |successes| ==> successes[k].Ok?
    ensures Run(s, results + successes).next.lastMessage == Run(s, results).next.lastMessage
    decreases |successes|
  {
    if successes == [] {
      assert results + successes == results;
    } else {
      var n := |successes| - 1;
      var prefix := results + successes[..n];
      assert results + successes == prefix + [successes[n]];
      RunSnoc(s, prefix, successes[n]);
      SuccessesKeepLastMessage(s, results, successes[..n]);
    }
  }

  /** Cycles that all fail never change `prev_homework_message`. */
  lemma {:induction false} ErrorsKeepPrevMessage(s: PollState, results: seq<CycleResult>, failures: seq<CycleResult>)
    requires forall k :: 0 <= k < |failures| ==> failures[k].Err?
    ensures Run(s, results + failures).next.prevHomeworkMessage == Run(s, results).next.prevHomeworkMessage
    decreases |failures|
  {
    if failures == [] {
      assert results + failures == results;
    } else {
      var n := |failures| - 1;
      var prefix := results + failures[..n];
      assert results + failures == prefix + [failures[n]];
      RunSnoc(s, prefix, failures[n]);
      ErrorsKeepPrevMessage(s, results, failures[..n]);
    }
  }

  // ---------------------------------------------------------------------------
  // De-duplication

  /** Once a result has been seen, any number of further cycles with the same
      result send nothing: a repeated status or error is notified once. */
  lemma {:induction false} RepeatedResultSilent(s: PollState, results: seq<CycleResult>, first: CycleResult, repeats: seq<CycleResult>)
    requires forall k :: 0 <= k < |repeats| ==> repeats[k] == first
    ensures Run(s, results + [first] + repeats).sent == Run(s, results + [first]).sent
    ensures Run(s, results + [first] + repeats).next == Run(s, results + [first]).next
    decreases |repeats|
  {
    if repeats == [] {
      assert results + [first] + repeats == results + [first];
    } else {
      var n := |repeats| - 1;
      var prefix := results + [first] + repeats[..n];
      assert results + [first] + repeats == prefix + [repeats[n]];
      RepeatedResultSilent(s, results, first, repeats[..n]);
      RunSnoc(s, prefix, repeats[n]);
      RunSnoc(s, results, first);
    }
  }

  /** Two consecutive cycles with the same result give one notification at most,
      and exactly one when the result is new. */
  lemma TwoIdenticalResultsNotifyOnce(s: PollState, result: CycleResult)
    ensures Run(s, [result, result]).sent == Step(s, result).sent
    ensures result.Ok? && result.value != s.prevHomeworkMessage ==>
              Run(s, [result, result]).sent == [StatusNotice(result.value)]
    ensures result.Err? && ErrorNotice(result.error) != s.lastMessage ==>
              Run(s, [result, result]).sent == [ErrorNotice(result.error)]
  {
    assert [result, result] == [] + [result] + [result];
    RepeatedResultSilent(s, [], result, [result]);
    assert [result] == [] + [result];
    RunSnoc(s, [], result);
  }

  /** Two consecutive failures with different error notices are both sent (when
      the first is not the one sent last). */
  lemma DistinctErrorsEachNotified(s: PollState, first: Error, second: Error)
    requires ErrorNotice(first) != s.lastMessage
    requires ErrorNotice(second) != ErrorNotice(first)
    ensures Run(s, [Err(first), Err(second)]).sent == [ErrorNotice(first), ErrorNotice(second)]
  {
    var a: CycleResult, b: CycleResult := Err(first), Err(second);
    assert [a, b] == [a] + [b];
    RunSnoc(s, [a], b);
    assert [a] == [] + [a];
    RunSnoc(s, [], a);
  }

  /** An error that recurs after any number of successful cycles is not sent
      again: successes never reset `last_message`. */
  lemma ErrorNotResentAfterSuccesses(s: PollState, results: seq<CycleResult>, failure: Error,
                                     successes: seq<CycleResult>, recurrence: Error)
    requires ErrorNotice(recurrence) == ErrorNotice(failure)
    requires forall k :: 0 <= k < |successes| ==> successes[k].Ok?
    ensures Run(s, results + [Err(failure)] + successes + [Err(recurrence)]).sent
            == Run(s, results + [Err(failure)] + successes).sent
  {
    SuccessesKeepLastMessage(s, results + [Err(failure)], successes);
    RunSnoc(s, results, Err(failure));
    RunSnoc(s, results + [Err(failure)] + successes, Err(recurrence));
  }

  /** From the initial state, the first successful cycle always notifies, whatever
      errors came before it: `prev_homework_message` is still empty, and no
      message a cycle produces is (see the contract of `Cycle`). */
  lemma FirstSuccessNotifies(failures: seq<CycleResult>, success: CycleResult)
    requires forall k :: 0 <= k < |failures| ==> failures[k].Err?
    requires success.Ok? && success.value != ""
    ensures Run(Initial, failures + [success]).sent == Run(Initial, failures).sent + [StatusNotice(success.value)]
  {
    assert failures == [] + failures;
    ErrorsKeepPrevMessage(Initial, [], failures);
    RunSnoc(Initial, failures, success);
  }

  // ---------------------------------------------------------------------------
  // main

  /** How main ends: `sys.exit` at start-up, or (for the finitely many cycles
      modelled) the notifications sent, the final state and the `from_date` of
      every request. */
  datatype Exit =
    | Exited(message: string)
    | Polled(sent: seq<string>, final: PollState, requested: seq<int>)

  /** The de-duplicating part of one pass of main's loop body: given what the
      statements inside `try` produced, send at most one notification and update
      the two strings. `send_message` swallows its own failures, so a send never
      affects the state. */
  method Notify(prevHomeworkMessage: string, lastMessage: string, sent: seq<string>, outcome: CycleResult)
    returns (prevHomeworkMessage': string, lastMessage': string, sent': seq<string>)
    ensures PollState(prevHomeworkMessage', lastMessage') == Step(PollState(prevHomeworkMessage, lastMessage), outcome).next
    ensures sent' == sent + Step(PollState(prevHomeworkMessage, lastMessage), outcome).sent
  {
    prevHomeworkMessage', lastMessage', sent' := prevHomeworkMessage, lastMessage, sent;
    match outcome {
      case Ok(homeworkMessage) =>
        if prevHomeworkMessage' != homeworkMessage {
          sent' := sent' + [StatusNotice(homeworkMessage)];
          prevHomeworkMessage' := homeworkMessage;
        }
      case Err(error) =>
        var message := ErrorNotice(error);
        if message != lastMessage' {
          lastMessage' := message;
          sent' := sent' + [message];
        }
    }
  }

  /** main, with the environment, the start time and the API's answer in each
      cycle given as inputs, and `send_message` recorded as an append to `sent`. */
  method RunBot(practicumToken: EnvValue, telegramChatId: EnvValue, telegramToken: EnvValue,
                now: int, answers: seq<Answer>) returns (r: Exit)
    ensures r.Exited? <==> !CheckTokens(practicumToken, telegramChatId, telegramToken)
    ensures r.Exited? ==> r.message == FatalMessage
    ensures r.Polled? ==> r.sent == Run(Initial, CycleResults(answers)).sent
                          && r.final == Run(Initial, CycleResults(answers)).next
    // The timestamp is taken once and never advanced.
    ensures r.Polled? ==> |r.requested| == |answers| && forall k :: 0 <= k < |r.requested| ==> r.requested[k] == now
  {
    if !CheckTokens(practicumToken, telegramChatId, telegramToken) {
      return Exited(FatalMessage);
    }
    var prevHomeworkMessage := "";
    var lastMessage := "";
    var timestamp := now;
    var sent: seq<string> := [];
    var requested: seq<int> := [];
    ghost var results: seq<CycleResult> := [];
    var i := 0;
    while i < |answers|
      invariant 0 <= i <= |answers|
      invariant results == CycleResults(answers[..i])
      invariant PollState(prevHomeworkMessage, lastMessage) == Run(Initial, results).next
      invariant sent == Run(Initial, results).sent
      invariant |requested| == i && forall k :: 0 <= k < i ==> requested[k] == timestamp
    {
      requested := requested + [timestamp];
      var outcome := Cycle(answers[i]);
      prevHomeworkMessage, lastMessage, sent := Notify(prevHomeworkMessage, lastMessage, sent, outcome);
      RunSnoc(Initial, results, outcome);
      assert answers[..i + 1][..i] == answers[..i];
      results := results + [outcome];
      i := i + 1;
    }
    assert answers[..|answers|] == answers;
    r := Polled(sent, PollState(prevHomeworkMessage, lastMessage), requested);
  }
}
