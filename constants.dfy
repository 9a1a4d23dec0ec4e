/** The fixed symbols, state names, move codes, statuses and modes of the machine. */
module Constants {

  /** The blank: what every cell holds until something else is written there. */
  const Blank: char := 'λ'

  /** The state whose arrival ends a run. */
  const StopState: string := "!"

  const MoveLeft: string := "L"
  const MoveNone: string := "N"
  const MoveRight: string := "R"

  const SuccessfulStatus: string := "successful"
  const MaxIterationsReachedStatus: string := "max iterations reached"

  /** The default budget of tacts for one run. */
  const MaxIterations: int := 9999

  const NormalMode: string := "normal"
  const ByStepMode: string := "by step"
}
