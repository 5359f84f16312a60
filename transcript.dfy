/** The transcript accumulator: two pending texts, finalised into (user, model) pairs. */
module Transcript {
  import opened Types

  datatype Accumulator = Accumulator(transcript: seq<Turn>, pendingIn: string, pendingOut: string)

  function AppendInput(a: Accumulator, fragment: string): Accumulator {
    a.(pendingIn := a.pendingIn + fragment)
  }

  function AppendOutput(a: Accumulator, fragment: string): Accumulator {
    a.(pendingOut := a.pendingOut + fragment)
  }

  /** Turn both pending texts, empty or not, into a (user, model) pair at the end of the transcript. */
  function Finalize(a: Accumulator): Accumulator {
    Accumulator(a.transcript + [Turn(User, a.pendingIn), Turn(Model, a.pendingOut)], "", "")
  }

  /** A new conversation's accumulator. */
  function Empty(): Accumulator {
    Accumulator([], "", "")
  }
}
