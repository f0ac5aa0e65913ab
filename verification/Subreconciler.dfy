// The result pair of a sub-reconciler and how a chain of them ends.
module Subreconciler {
  import opened Wrappers

  type Error = string

  datatype Requeue = Requeue(after: nat)

  // A nil result is None; so is a nil error.
  datatype Step = Step(result: Option<Requeue>, error: Option<Error>) {
    predicate Halts() { result.Some? || error.Some? }
    // A nil result comes only with a nil error.
    predicate WellFormed() { result.None? ==> error.None? }
  }

  function ContinueReconciling(): Step { Step(None, None) }
  function DoNotRequeue(): Step { Step(Some(Requeue(0)), None) }
  function RequeueWithError(e: Error): Step { Step(Some(Requeue(0)), Some(e)) }
  function RequeueWithDelay(d: nat): Step { Step(Some(Requeue(d)), None) }

  // Dereferences the result, so it must not be nil.
  function Evaluate(s: Step): (Requeue, Option<Error>)
    requires s.result.Some?
  {
    (s.result.value, s.error)
  }

  // The last lines of every Reconcile: only the error of the step that halted the chain survives.
  function Conclude(halted: Step): (Requeue, Option<Error>) {
    if halted.error.Some? then Evaluate(RequeueWithError(halted.error.value)) else Evaluate(DoNotRequeue())
  }

  // Whatever delay a sub-reconciler asked for is dropped.
  lemma DelaysAreDropped(halted: Step)
    ensures Conclude(halted).0.after == 0 && Conclude(halted).1 == halted.error
  {
  }
}
