/** The exceptions the tape and the machine raise, as values. */
module Faults {

  datatype Fault =
    | EmptySequence                                 // ValueError: min() or max() of no keys
    | MissingState(state: string)                   // KeyError: no row of rules for the state
    | MissingSymbol(state: string, symbol: char)    // KeyError: the row has no rule for the symbol
}
