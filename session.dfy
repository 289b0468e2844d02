/** main.py lines 159-187: the conversation loop. Each round consults the
    model on the whole history, appends every candidate's content, runs
    each requested function call in order and appends its tool turn; the
    loop ends at the first response without function calls, or silently
    once `attempts`, starting at 20, drops below zero. */
module Session {
  import opened Dispatch

  /** What one consultation of the model yields: each candidate's content
      and the function calls it requests, in order. */
  datatype Response = Response(candidates: seq<string>, calls: seq<FunctionCall>)

  /** How the loop ended: a final response, the attempts used up, or an
      exception from a tool call ending the program. */
  datatype Status = Answered(final: Response) | Exhausted | Crashed

  datatype Outcome = Outcome(messages: seq<Turn>, status: Status, consultations: nat)

  const ATTEMPTS := 20

  function ModelTurns(candidates: seq<string>): (r: seq<Turn>)
    ensures |r| == |candidates|
    ensures forall i | 0 <= i < |r| :: r[i] == ModelTurn(candidates[i])
    decreases |candidates|
  {
    if candidates == [] then []
    else ModelTurns(candidates[..|candidates| - 1]) + [ModelTurn(candidates[|candidates| - 1])]
  }

  /** The tool turns appended for `calls`, up to the first call that
      raises, and whether one did. */
  datatype ToolRun = ToolRun(turns: seq<Turn>, crashed: bool)

  /** What answering one function call yields: call_function bound to the
      surroundings, see `Dispatcher`. */
  type CallHandler = FunctionCall -> CallOutcome

  function Dispatcher(env: Env): CallHandler {
    call => CallFunction(env, call)
  }

  /** Every answered call is a tool turn named after the call whose
      response has one key. */
  ghost predicate AnswersOneTurn(dispatch: CallHandler) {
    forall call :: dispatch(call).Returned? ==>
      dispatch(call).turn.ToolTurn? && dispatch(call).turn.name == call.name
      && |dispatch(call).turn.response| == 1
  }

  /** The inner loop's outcome: without a crash one tool turn per call; a
      crash leaves the raising call and those after it without a turn. */
  function ToolTurns(dispatch: CallHandler, calls: seq<FunctionCall>): (r: ToolRun)
    ensures !r.crashed ==> |r.turns| == |calls|
    ensures r.crashed ==> |r.turns| < |calls|
    decreases |calls|
  {
    if calls == [] then ToolRun([], false)
    else
      var before := ToolTurns(dispatch, calls[..|calls| - 1]);
      if before.crashed then before
      else match dispatch(calls[|calls| - 1])
        case Raised => ToolRun(before.turns, true)
        case Returned(t) => ToolRun(before.turns + [t], false)
  }

  /** The rounds still to come with `attempts` left, `consulted` rounds
      already done and `messages` as the history so far. The history only
      grows: what was there stays, in place. */
  function Rounds(dispatch: CallHandler, model: seq<Turn> -> Response, messages: seq<Turn>,
                  attempts: int, consulted: nat): (r: Outcome)
    ensures messages <= r.messages
    decreases attempts + 1
  {
    if attempts < 0 then Outcome(messages, Exhausted, consulted)
    else
      var response := model(messages);
      var run := ToolTurns(dispatch, response.calls);
      var history := messages + ModelTurns(response.candidates) + run.turns;
      if run.crashed then Outcome(history, Crashed, consulted + 1)
      else if response.calls == [] then Outcome(history, Answered(response), consulted + 1)
      else Rounds(dispatch, model, history, attempts - 1, consulted + 1)
  }

  /** The whole session for a user prompt, which stays the first message. */
  function Session(env: Env, model: seq<Turn> -> Response, prompt: string): (r: Outcome)
    ensures |r.messages| >= 1 && r.messages[0] == UserTurn(prompt)
  {
    Rounds(Dispatcher(env), model, [UserTurn(prompt)], ATTEMPTS, 0)
  }

  /** Once a call raises, later calls of the same response change nothing. */
  lemma {:induction false} CrashPersists(dispatch: CallHandler, calls: seq<FunctionCall>, j: nat)
    requires j <= |calls| && ToolTurns(dispatch, calls[..j]).crashed
    ensures ToolTurns(dispatch, calls) == ToolTurns(dispatch, calls[..j])
    decreases |calls| - j
  {
    if j < |calls| {
      assert calls[..j + 1][..j] == calls[..j];
      CrashPersists(dispatch, calls, j + 1);
    } else {
      assert calls[..j] == calls;
    }
  }

  /** The `for candidate in response.candidates` loop. */
  method AppendCandidates(messages: seq<Turn>, candidates: seq<string>) returns (r: seq<Turn>)
    ensures r == messages + ModelTurns(candidates)
  {
    r := messages;
    for i := 0 to |candidates|
      invariant r == messages + ModelTurns(candidates[..i])
    {
      assert candidates[..i + 1][..i] == candidates[..i];
      r := r + [ModelTurn(candidates[i])];
    }
    assert candidates[..|candidates|] == candidates;
  }

  /** The `for function_call in response.function_calls` loop, which stops
      at the first call that raises. */
  method CallEach(env: Env, messages: seq<Turn>, calls: seq<FunctionCall>)
    returns (r: seq<Turn>, crashed: bool)
    ensures r == messages + ToolTurns(Dispatcher(env), calls).turns
    ensures crashed == ToolTurns(Dispatcher(env), calls).crashed
  {
    r := messages;
    for j := 0 to |calls|
      invariant !ToolTurns(Dispatcher(env), calls[..j]).crashed
      invariant r == messages + ToolTurns(Dispatcher(env), calls[..j]).turns
    {
      assert calls[..j + 1][..j] == calls[..j];
      var outcome := CallFunction(env, calls[j]);
      assert outcome == Dispatcher(env)(calls[j]);
      if outcome.Raised? {
        CrashPersists(Dispatcher(env), calls, j + 1);
        return r, true;
      }
      r := r + [outcome.turn];
    }
    assert calls[..|calls|] == calls;
    crashed := false;
  }

  /** The loop of main.py, updating `messages` as it goes. */
  method RunSession(env: Env, model: seq<Turn> -> Response, prompt: string)
    returns (messages: seq<Turn>, status: Status, consultations: nat)
    ensures Outcome(messages, status, consultations) == Session(env, model, prompt)
  {
    messages := [UserTurn(prompt)];
    consultations := 0;
    var attempts := ATTEMPTS;
    ghost var session := Session(env, model, prompt);
    while attempts >= 0
      invariant Rounds(Dispatcher(env), model, messages, attempts, consultations) == session
      decreases attempts + 1
    {
      var response := model(messages);
      consultations := consultations + 1;
      messages := AppendCandidates(messages, response.candidates);
      var crashed;
      messages, crashed := CallEach(env, messages, response.calls);
      if crashed {
        status := Crashed;
        return;
      }
      attempts := attempts - 1;
      if response.calls == [] {
        status := Answered(response);
        return;
      }
    }
    status := Exhausted;
  }

  // ---- properties ----

  /** call_function answers every call it returns from with one tool turn
      named after the call, holding a one-key dict. */
  lemma DispatcherAnswersOneTurn(env: Env)
    ensures AnswersOneTurn(Dispatcher(env))
  {
    forall call | Dispatcher(env)(call).Returned?
      ensures Dispatcher(env)(call).turn.ToolTurn? && Dispatcher(env)(call).turn.name == call.name
      ensures |Dispatcher(env)(call).turn.response| == 1
    {
      ResponseHasOneKey(env, call);
    }
  }

  /** The turns are the calls' answers, in the order of the calls, and a
      crash comes from the call right after the last turn. */
  lemma {:induction false} ToolTurnsAnswerCalls(dispatch: CallHandler, calls: seq<FunctionCall>)
    ensures var run := ToolTurns(dispatch, calls);
      && (forall i | 0 <= i < |run.turns| :: dispatch(calls[i]) == Returned(run.turns[i]))
      && (run.crashed ==> dispatch(calls[|run.turns|]) == Raised)
    decreases |calls|
  {
    if calls != [] {
      var init, last := calls[..|calls| - 1], calls[|calls| - 1];
      ToolTurnsAnswerCalls(dispatch, init);
      var before := ToolTurns(dispatch, init);
      var run := ToolTurns(dispatch, calls);
      forall i | 0 <= i < |run.turns|
        ensures dispatch(calls[i]) == Returned(run.turns[i])
      {
        if i < |before.turns| {
          assert run.turns[i] == before.turns[i] && calls[i] == init[i];
        } else {
          assert run.turns[i] == dispatch(last).turn && calls[i] == last;
        }
      }
      if run.crashed && before.crashed {
        assert calls[|run.turns|] == init[|before.turns|];
      }
    }
  }

  /** With a handler that answers with one tool turn, each turn is the
      handler's answer to the call at its position, named after that call
      and holding a one-key dict. */
  lemma ToolTurnsMatchCalls(dispatch: CallHandler, calls: seq<FunctionCall>)
    requires AnswersOneTurn(dispatch)
    ensures var turns := ToolTurns(dispatch, calls).turns;
      forall i | 0 <= i < |turns| :: dispatch(calls[i]) == Returned(turns[i])
    ensures var turns := ToolTurns(dispatch, calls).turns;
      forall i | 0 <= i < |turns| ::
        turns[i].ToolTurn? && turns[i].name == calls[i].name && |turns[i].response| == 1
  {
    ToolTurnsAnswerCalls(dispatch, calls);
    var turns := ToolTurns(dispatch, calls).turns;
    forall i | 0 <= i < |turns|
      ensures turns[i].ToolTurn? && turns[i].name == calls[i].name && |turns[i].response| == 1
    {
      assert dispatch(calls[i]).turn == turns[i];
    }
  }

  /** The tool turns of a session's rounds are call_function's answers to
      the calls, in order, each named after its call with a one-key dict. */
  lemma SessionToolTurns(env: Env, calls: seq<FunctionCall>)
    ensures var turns := ToolTurns(Dispatcher(env), calls).turns;
      forall i | 0 <= i < |turns| :: CallFunction(env, calls[i]) == Returned(turns[i])
    ensures var turns := ToolTurns(Dispatcher(env), calls).turns;
      forall i | 0 <= i < |turns| ::
        turns[i].ToolTurn? && turns[i].name == calls[i].name && |turns[i].response| == 1
  {
    DispatcherAnswersOneTurn(env);
    ToolTurnsAnswerCalls(Dispatcher(env), calls);
    ToolTurnsMatchCalls(Dispatcher(env), calls);
    var turns := ToolTurns(Dispatcher(env), calls).turns;
    forall i | 0 <= i < |turns|
      ensures CallFunction(env, calls[i]) == Returned(turns[i])
    {
      assert Dispatcher(env)(calls[i]) == CallFunction(env, calls[i]);
    }
  }

  /** Every round consults the model once: at least one consultation, and
      at most one per value of `attempts` from its start down to zero. */
  lemma {:induction false} RoundsConsultations(dispatch: CallHandler, model: seq<Turn> -> Response, messages: seq<Turn>,
                                               attempts: int, consulted: nat)
    requires attempts >= -1
    ensures var o := Rounds(dispatch, model, messages, attempts, consulted);
      consulted <= o.consultations <= consulted + attempts + 1
    ensures attempts >= 0 ==> Rounds(dispatch, model, messages, attempts, consulted).consultations > consulted
    decreases attempts + 1
  {
    if attempts >= 0 {
      var response := model(messages);
      var run := ToolTurns(dispatch, response.calls);
      var history := messages + ModelTurns(response.candidates) + run.turns;
      if !run.crashed && response.calls != [] {
        RoundsConsultations(dispatch, model, history, attempts - 1, consulted + 1);
      }
    }
  }

  /** The model is consulted at least once and at most 21 times. */
  lemma SessionConsultations(env: Env, model: seq<Turn> -> Response, prompt: string)
    ensures 1 <= Session(env, model, prompt).consultations <= ATTEMPTS + 1
  {
    RoundsConsultations(Dispatcher(env), model, [UserTurn(prompt)], ATTEMPTS, 0);
  }

  /** At any round with attempts left, a response without function calls
      ends the loop with that response as the answer. */
  lemma AnswerEndsRounds(dispatch: CallHandler, model: seq<Turn> -> Response, messages: seq<Turn>,
                         attempts: int, consulted: nat)
    requires attempts >= 0 && model(messages).calls == []
    ensures Rounds(dispatch, model, messages, attempts, consulted)
         == Outcome(messages + ModelTurns(model(messages).candidates), Answered(model(messages)), consulted + 1)
  {
    var response := model(messages);
    assert ToolTurns(dispatch, response.calls) == ToolRun([], false);
    assert messages + ModelTurns(response.candidates) + [] == messages + ModelTurns(response.candidates);
  }

  /** A first response without function calls ends the session at once. */
  lemma FirstAnswerEnds(env: Env, model: seq<Turn> -> Response, prompt: string)
    requires model([UserTurn(prompt)]).calls == []
    ensures Session(env, model, prompt)
         == Outcome([UserTurn(prompt)] + ModelTurns(model([UserTurn(prompt)]).candidates),
                    Answered(model([UserTurn(prompt)])), 1)
  {
    AnswerEndsRounds(Dispatcher(env), model, [UserTurn(prompt)], ATTEMPTS, 0);
  }

  /** A final response is one without function calls. */
  lemma {:induction false} AnsweredHasNoCalls(dispatch: CallHandler, model: seq<Turn> -> Response, messages: seq<Turn>,
                                              attempts: int, consulted: nat)
    ensures var o := Rounds(dispatch, model, messages, attempts, consulted);
      o.status.Answered? ==> o.status.final.calls == []
    decreases attempts + 1
  {
    if attempts >= 0 {
      var response := model(messages);
      var run := ToolTurns(dispatch, response.calls);
      var history := messages + ModelTurns(response.candidates) + run.turns;
      if !run.crashed && response.calls != [] {
        AnsweredHasNoCalls(dispatch, model, history, attempts - 1, consulted + 1);
      }
    }
  }

  /** Running out of attempts takes every one of them: the rounds end
      Exhausted only after one consultation per attempt left. */
  lemma {:induction false} ExhaustedUsesAll(dispatch: CallHandler, model: seq<Turn> -> Response, messages: seq<Turn>,
                                            attempts: int, consulted: nat)
    requires attempts >= -1
    ensures var o := Rounds(dispatch, model, messages, attempts, consulted);
      o.status == Exhausted ==> o.consultations == consulted + attempts + 1
    decreases attempts + 1
  {
    if attempts >= 0 {
      var response := model(messages);
      var run := ToolTurns(dispatch, response.calls);
      var history := messages + ModelTurns(response.candidates) + run.turns;
      if !run.crashed && response.calls != [] {
        ExhaustedUsesAll(dispatch, model, history, attempts - 1, consulted + 1);
      }
    }
  }

  /** A session ends exhausted only after 21 consultations. */
  lemma SessionExhaustedUsesAll(env: Env, model: seq<Turn> -> Response, prompt: string)
    ensures Session(env, model, prompt).status == Exhausted ==> Session(env, model, prompt).consultations == ATTEMPTS + 1
  {
    ExhaustedUsesAll(Dispatcher(env), model, [UserTurn(prompt)], ATTEMPTS, 0);
  }

  /** A model that always asks for calls that all return is cut off,
      without a final response, after one consultation per attempt left. */
  lemma {:induction false} AlwaysCallingExhausts(dispatch: CallHandler, model: seq<Turn> -> Response, messages: seq<Turn>,
                                                 attempts: int, consulted: nat)
    requires attempts >= -1
    requires forall h :: model(h).calls != [] && !ToolTurns(dispatch, model(h).calls).crashed
    ensures Rounds(dispatch, model, messages, attempts, consulted).status == Exhausted
    ensures Rounds(dispatch, model, messages, attempts, consulted).consultations == consulted + attempts + 1
    decreases attempts + 1
  {
    if attempts >= 0 {
      var response := model(messages);
      var run := ToolTurns(dispatch, response.calls);
      var history := messages + ModelTurns(response.candidates) + run.turns;
      AlwaysCallingExhausts(dispatch, model, history, attempts - 1, consulted + 1);
    }
  }

  /** Such a model is cut off after exactly 21 consultations. */
  lemma SessionExhausts(env: Env, model: seq<Turn> -> Response, prompt: string)
    requires forall h :: model(h).calls != [] && !ToolTurns(Dispatcher(env), model(h).calls).crashed
    ensures Session(env, model, prompt).status == Exhausted
    ensures Session(env, model, prompt).consultations == ATTEMPTS + 1
  {
    AlwaysCallingExhausts(Dispatcher(env), model, [UserTurn(prompt)], ATTEMPTS, 0);
  }
}
