// StateMachine<T> (src/FuManchu/StateMachine.cs, FuManchu/StateResult.cs):
// a state returns either nothing (Stop) or a result naming the next state
// and, possibly, an output. One round of the Turn loop is TurnRound here; the
// loop itself lives with the tokenizer, whose states are methods over its
// reader.
module StateMachines {
  import opened Wrappers

  /** StateResult: whether the result carries an output, the output itself
      (null when absent) and the state to run next. */
  datatype StateResult<T, S> = StateResult(hasOutput: bool, output: Option<T>, next: S)

  /** What one round of Turn leaves: the loop returns an output (null when
      absent) with the state it ends in, or goes on with the next state. */
  datatype Round<T, S> = Finish(output: Option<T>, state: S) | Again(state: S)

  /** One round of Turn (StateMachine.cs:74-99): a stop (null result) ends the
      loop with no output and the state unchanged; otherwise the next state
      becomes current, and the loop ends exactly when the result announces an
      output. */
  function TurnRound<T, S>(current: S, result: Option<StateResult<T, S>>): (r: Round<T, S>)
    ensures result.None? ==> r == Finish(None, current)
    ensures result.Some? ==> r.state == result.value.next
    ensures r.Again? <==> result.Some? && !result.value.hasOutput
  {
    if result.None? then Finish(None, current)
    else if result.value.hasOutput then Finish(result.value.output, result.value.next)
    else Again(result.value.next)
  }

  /** Stay(): run the current state again, no output. */
  function Stay<T, S>(current: S): (r: StateResult<T, S>)
    ensures r.next == current && !r.hasOutput && r.output.None?
    ensures TurnRound(current, Some(r)) == Again(current)
  {
    StateResult(false, None, current)
  }

  /** Stay(output): run the current state again, with an output. */
  function StayWith<T, S>(output: Option<T>, current: S): (r: StateResult<T, S>)
    ensures r.next == current && r.hasOutput && r.output == output
    ensures TurnRound(current, Some(r)) == Finish(output, current)
  {
    StateResult(true, output, current)
  }

  /** Transition(newState): switch to another state, no output. */
  function Transition<T, S(!new)>(next: S): (r: StateResult<T, S>)
    ensures r.next == next && !r.hasOutput && r.output.None?
    ensures forall current: S :: TurnRound(current, Some(r)) == Again(next)
  {
    StateResult(false, None, next)
  }

  /** Transition(output, newState): switch to another state, with an output. */
  function TransitionWith<T, S(!new)>(output: Option<T>, next: S): (r: StateResult<T, S>)
    ensures r.next == next && r.hasOutput && r.output == output
    ensures forall current: S :: TurnRound(current, Some(r)) == Finish(output, next)
  {
    StateResult(true, output, next)
  }
}
