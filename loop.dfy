/** The shape shared by the three PATCH loops: the request's lines are
    processed in order, each accepted line is written to the store at once,
    and the first rejected line returns its error. Nothing written for the
    earlier lines is undone (there is no transaction). */
module LineLoop {
  import opened Common

  /** What one line does: commit its writes, or reject the request. */
  datatype StepResult<S> = Commit(state: S) | Reject(error: Response)

  /** What the loop leaves behind: either all lines were committed, or the
      line at index `at` was rejected after the lines before it were committed. */
  datatype RunResult<S> = Finished(state: S) | Aborted(state: S, at: nat, error: Response)

  function RunLines<S, L>(step: (S, L) -> StepResult<S>, s0: S, lines: seq<L>): (r: RunResult<S>)
    ensures r.Aborted? ==> r.at < |lines|
    ensures |lines| == 0 ==> r == Finished(s0)
    decreases |lines|
  {
    if |lines| == 0 then Finished(s0)
    else
      var prev := RunLines(step, s0, lines[..|lines| - 1]);
      if prev.Aborted? then prev
      else match step(prev.state, lines[|lines| - 1])
        case Reject(e) => Aborted(prev.state, |lines| - 1, e)
        case Commit(s) => Finished(s)
  }

  /** One more iteration of the loop: the next line either commits on top of
      the state reached so far or aborts the loop, keeping that state. */
  lemma Extend<S, L>(step: (S, L) -> StepResult<S>, s0: S, lines: seq<L>, i: nat)
    requires i < |lines| && RunLines(step, s0, lines[..i]).Finished?
    ensures var s := RunLines(step, s0, lines[..i]).state;
            RunLines(step, s0, lines[..i + 1])
              == match step(s, lines[i])
                 case Commit(s') => Finished(s')
                 case Reject(e) => Aborted(s, i, e)
  {
    assert lines[..i + 1][..i] == lines[..i];
  }

  /** Once a prefix of the lines has aborted, the later lines change nothing:
      the loop has already returned. */
  lemma {:induction false} AbortIsFinal<S, L>(step: (S, L) -> StepResult<S>, s0: S, lines: seq<L>, k: nat)
    requires k <= |lines|
    requires RunLines(step, s0, lines[..k]).Aborted?
    ensures RunLines(step, s0, lines) == RunLines(step, s0, lines[..k])
    decreases |lines|
  {
    if k < |lines| {
      var init := lines[..|lines| - 1];
      assert init[..k] == lines[..k];
      AbortIsFinal(step, s0, init, k);
    } else {
      assert lines[..k] == lines;
    }
  }

  /** An aborted run is exactly the committed prefix before the failing line
      followed by the failing line's rejection: the writes of lines 0..at-1
      stay in place and nothing of line `at` or later is written. */
  lemma {:induction false} AbortedAt<S, L>(step: (S, L) -> StepResult<S>, s0: S, lines: seq<L>)
    requires RunLines(step, s0, lines).Aborted?
    ensures var r := RunLines(step, s0, lines);
            && RunLines(step, s0, lines[..r.at]) == Finished(r.state)
            && step(r.state, lines[r.at]) == Reject(r.error)
    decreases |lines|
  {
    var init := lines[..|lines| - 1];
    var prev := RunLines(step, s0, init);
    if prev.Aborted? {
      AbortedAt(step, s0, init);
      assert init[..prev.at] == lines[..prev.at];
    } else {
      assert lines[..|lines| - 1] == init;
    }
  }

  /** A property every committed line preserves holds of the state the loop
      leaves behind, whether it finished or aborted. */
  lemma {:induction false} Preserved<S, L>(step: (S, L) -> StepResult<S>, inv: S -> bool, s0: S, lines: seq<L>)
    requires inv(s0)
    requires forall s, l :: inv(s) && step(s, l).Commit? ==> inv(step(s, l).state)
    ensures inv(RunLines(step, s0, lines).state)
    decreases |lines|
  {
    if |lines| > 0 {
      Preserved(step, inv, s0, lines[..|lines| - 1]);
    }
  }
}
