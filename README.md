# Turing machine emulator: tape and run loop

A model of the execution engine of TuringMachineEmulator, a deterministic
single-tape Turing machine written in Python. It has two parts.

**The infinite tape.** This is a `defaultdict` from integer index to character,
whose default is the blank `λ`.
- Writing the blank deletes the entry.
- Reading an absent index inserts a blank there, because that is what a
  `defaultdict` read does.
- The bounds `[left, right)` drive `str()` and `string_with_position()`.

The repository holds two copies of the tape class:
- `turing_machine/tape.py` recomputes both bounds with `min`/`max` after every
  write. This copy is modelled as the class `SparseTape.Tape`.
- `turing_machine/turing_machine.py` updates the bounds incrementally. This copy is
  modelled as the class `Machine.Tape`, whose state as a value is a `Machine.Store`.

**The machine.** `TuringMachine.run` is a loop that does the following, once per tact:
1. reads the head's cell;
2. looks up `rules[q][c]`;
3. writes the rule's symbol;
4. in "by step" mode, records the step;
5. moves the head;
6. counts the tact;
7. enters the next state.

It stops in the stop state `!` or when `max_tacts` tacts have run. The class
`Machine.TuringMachine` implements this loop imperatively. Its contract ties the
method to `Machine.RunFrom`, a ghost function that iterates one tact
(`Machine.Tact`). The loop body is the method `Machine.TactOn`, proved to do what
`Machine.Tact` says. The lemmas prove the following about that function:
- the budget;
- the status rule;
- the step trace, including the symbol each record reads and writes;
- the effect of each tact;
- aborting on a missing rule;
- that the tape bounds stay the hull of the stored indices. This holds only for the
  corrected bounds update the model's tape uses (`Machine.RunKeepsTight`). The update
  as written in `turing_machine/turing_machine.py` does not keep them (see Findings).

Python's default arguments are kept as Dafny default parameters:
- `run(mode="normal", max_tacts=9999, initial_state="q0")`;
- `TuringMachine(*, alphabet, rules, tape='', position=0)`, whose keyword-only parameters are `nameonly`;
- `reset(tape, position=0)`;
- `Tape(input='')`, in both tape classes.

Modules:
- `Wrappers` and `Constants` hold the shared types and the constants.
- `Faults` holds Python's `KeyError`/`ValueError` as values.
- `Cells` holds what both tapes share: the cell read, the rendered text, the marked text, the blank-inserting reads, and `min`/`max` of the keys.
- `SparseTape` is `turing_machine/tape.py`.
- `Machine` is `turing_machine/turing_machine.py`.
- `IncrementalBounds` holds the incremental bounds update exactly as written, and the inputs on which it goes wrong (see Findings).
- `Scenarios` holds the runs and tape edits of `tests/test_turing_machine.py` and `tests/test_tape.py`. They are written as client methods, backed by general lemmas about scanning runs.

Points where the model departs from, or pins down, the program:
- **Status.** "successful" is decided by `tacts < max_tacts` alone, not by reaching the stop state. A machine that halts on exactly the `max_tacts`-th tact therefore reports "max iterations reached" (`Machine.RunStatus`, `Scenarios.StepMoveOnBudget`). A run started in the stop state with `max_tacts <= 0` does not report success either (`Machine.HaltedRunIsNoop`).
- **Stored blanks.** Reads store blanks. A read index therefore counts as a key when `tape.py` recomputes its bounds, so the bounds are not always those of the non-blank cells.
- **Move codes.** Any move code other than `R` and `L` leaves the head where it is.
- **`initial_state`.** `run` takes `initial_state`, while the constructor does not (turing_machine/turing_machine.py:58, 108). The tests pass it to the constructor. The scenarios pass it to `Run`.
- **Incremental bounds.** Here the model does not follow the code. The tape in `turing_machine/turing_machine.py`, and so the run, uses the corrected bounds update (`Machine.Write`). The update as written is `IncrementalBounds.WriteAsWritten`; the Findings list where the two differ.

## Model

| member | source | states |
|---|---|---|
| Cells.Cell | turing_machine/tape.py:27-28 | what the defaultdict read yields: the stored character, or the blank when the index is absent; no ensures of its own, its properties are Lookup and MaterializeOne |
| Cells.Enumerate | turing_machine/tape.py:14 | the store `enumerate(input)` fills, character i at index i; no ensures of its own, its properties are RenderEnumerate, RenderEnumerateSlice and MarkedEnumerate |
| Cells.Render | turing_machine/tape.py:39-40 | the join of the cells lo, ..., hi - 1; no ensures of its own, its properties are RenderAt, RenderSplit, RenderSameCells, RenderBlank and RenderEnumerate |
| Cells.Marked | turing_machine/tape.py:42-56 | the three cases of string_with_position; no ensures of its own, its properties are MarkedInside, MarkedBeforeBounds, MarkedAfterBounds and MarkedEnumerate |
| Cells.Materialize | turing_machine/tape.py:40 | reading every index of [lo, hi) stores each of them, adds no other key, and changes no cell's character |
| Cells.Least | turing_machine/tape.py:37 | min of the keys: None exactly for no keys (where Python raises ValueError), otherwise a key below or equal to every key |
| Cells.Greatest | turing_machine/tape.py:36 | max of the keys: None exactly for no keys, otherwise a key above or equal to every key |
| Cells.SpansUnique | turing_machine/tape.py:36-37 | a store has at most one hull [lo, hi) with both ends stored and no key outside |
| Cells.SpansLeastGreatest | turing_machine/tape.py:36-37 | [lo, hi) is the hull exactly when min(keys) == lo and max(keys) + 1 == hi |
| Cells.RenderAt | turing_machine/tape.py:39-40 | str() has hi - lo characters, the i-th being the cell lo + i |
| Cells.RenderSplit | turing_machine/tape.py:53-56 | the text of a range is the text of its two halves, one after the other |
| Cells.RenderSameCells | turing_machine/tape.py:39-40 | the text depends only on what the cells read, not on which blanks are stored |
| Cells.RenderBlank | turing_machine/tape.py:49 | a range of blank cells renders as that many blanks |
| Cells.RenderEnumerate | turing_machine/tape.py:12-16 | round trip: the tape built from s renders back as s |
| Cells.RenderEnumerateSlice | turing_machine/tape.py:12-16 | any range [lo, hi) of the tape built from s renders as s[lo..hi] |
| Cells.MarkedEnumerate | turing_machine/tape.py:53-56 | on the tape built from s, string_with_position(h) is s with s[h] in brackets |
| Cells.MarkedInside | turing_machine/tape.py:53-56 | for a head inside the bounds the text has two more characters, brackets exactly the head's cell, and dropping the brackets gives str() |
| Cells.MarkedBeforeBounds | turing_machine/tape.py:48-49 | a head left of the bounds marks a blank and fills the gap with blanks, as if the bounds reached the head |
| Cells.MarkedAfterBounds | turing_machine/tape.py:50-51 | a head right of the bounds fills the gap with blanks and marks a blank, as if the bounds reached the head |
| Cells.MaterializeThrough | turing_machine/tape.py:53-55 | reading [lo, mid) then [mid, hi) stores the same as reading [lo, hi) |
| Cells.MaterializeStored | turing_machine/tape.py:40 | reading cells that are all stored leaves the store unchanged |
| Cells.MaterializeOne | turing_machine/tape.py:54 | reading one index stores what it read there |
| Cells.Lookup | turing_machine/tape.py:27-28 | the read yields the cell's character (the blank when absent) and stores it at that index |
| Cells.Join | turing_machine/tape.py:39-40 | the join loop yields the rendered text and the store with [lo, hi) materialized |
| Cells.JoinMarked | turing_machine/tape.py:42-56 | all three cases yield the marked text and the store with exactly [lo, hi) materialized |
| Cells.MinKey | turing_machine/tape.py:37 | the loop over the keys returns min(keys), or None when there are none |
| Cells.MaxKey | turing_machine/tape.py:36 | the loop over the keys returns max(keys), or None when there are none |
| SparseTape.Kept | turing_machine/tape.py:20-22 | the entries filter keeps are exactly those whose character is in the alphabet, with their characters |
| SparseTape.Tape.constructor | turing_machine/tape.py:12-16 | character i of the input at index i, bounds [0, len) |
| SparseTape.Tape.Rebound | turing_machine/tape.py:36-37 | ValueError exactly when no key is left, and then the bounds stay; otherwise the bounds are the hull of the keys |
| SparseTape.Tape.Filter | turing_machine/tape.py:18-25 | the store becomes exactly the kept entries; ValueError exactly when none is kept; otherwise the bounds are the hull of the kept keys |
| SparseTape.Tape.Get | turing_machine/tape.py:27-28 | the cell's character, the blank for any index never written, which the read then stores |
| SparseTape.Tape.Set | turing_machine/tape.py:30-37 | a non-blank value is stored, the blank deletes the key; the cell then reads the value and no other cell changes; ValueError exactly when the store is left empty; otherwise the bounds are the hull of the keys |
| SparseTape.Tape.ToString | turing_machine/tape.py:39-40 | the text of [left, right), with those cells materialized |
| SparseTape.Tape.StringWithPosition | turing_machine/tape.py:42-56 | the marked text of the three cases, with [left, right) materialized |
| Machine.Init | turing_machine/turing_machine.py:17-22 | the fields of a fresh Tape(input) as one value: enumerate(input) with bounds [0, len(input)); no ensures of its own, its property is InitTight |
| Machine.TightIsSpans | turing_machine/turing_machine.py:27-39 | the hull invariant the tape's bounds mean to keep is Cells.Spans, or empty bounds on an empty store |
| Machine.Touch | turing_machine/turing_machine.py:24-25 | tape[k] on the defaultdict: the store after the read holds the character read at k |
| Machine.Write | turing_machine/turing_machine.py:27-39 | the incremental bounds update with the corrections of the Findings; no ensures of its own, its properties are WriteReadsBack, WriteKeepsOtherCells and WriteKeepsTight |
| Machine.WriteReadsBack | turing_machine/turing_machine.py:27-35 | a write leaves its value in its cell |
| Machine.WriteKeepsOtherCells | turing_machine/turing_machine.py:27-35 | a write leaves every other cell unchanged |
| Machine.InitTight | turing_machine/turing_machine.py:17-22 | a fresh tape's bounds are the hull of its stored indices |
| Machine.WriteKeepsTight | turing_machine/turing_machine.py:27-39 | reading then writing the head's cell, as a tact does, keeps the bounds the hull of the stored indices |
| Machine.TightShowsEveryCell | turing_machine/turing_machine.py:41-42 | on such a tape every non-blank character is inside the bounds and str() shows it at its offset |
| Machine.SettleKeepsTight | turing_machine/turing_machine.py:104-106 | get_tape_string keeps the bounds the hull and renders the same text again |
| Machine.Settle | turing_machine/turing_machine.py:104-106 | the store after get_tape_string's reads: every index of [left, right) stored, bounds unchanged; no ensures of its own, its property is SettleKeepsTight |
| Machine.Shift | turing_machine/turing_machine.py:128-131 | the head moves +1 for "R", -1 for "L", 0 for any other code; no ensures of its own, used by TactWritesThenMoves |
| Machine.Tact | turing_machine/turing_machine.py:114-134 | a tact counts one tact and appends exactly one record in by-step mode. The record carries the states before and after, the tact number, the symbol read (curr_character) and the symbol the cell then holds (next_character), and the head moves by its move; that the record is exactly the rule's (its move included) is TactWritesThenMoves. A tact that raises KeyError leaves the run's state as it was, apart from the blank the read stored |
| Machine.TactRaisesOnMissingRule | turing_machine/turing_machine.py:114-115 | a tact raises KeyError, after the read, exactly when the rule is missing; the error names the state when the state has no row, and otherwise the state and the symbol read |
| Machine.TactOn | turing_machine/turing_machine.py:114-134 | one pass of the loop body on the machine's tape does what Tact says: the same KeyError, or the same next state, head, tact count and steps, and the tape then holds Tact's store |
| Machine.RunFrom | turing_machine/turing_machine.py:113-134 | the loop from a configuration until the stop state, the budget or a KeyError; no ensures of its own, its properties are RunBudget, RunTrace, RunStatus, RunKeepsTight, MissingRuleAborts and HaltedRunIsNoop |
| Machine.Report | turing_machine/turing_machine.py:136-144 | the result dictionary built from where the loop ended; no ensures of its own, its properties are RunStatus and HaltedRunIsNoop |
| Machine.RuleText | turing_machine/turing_machine.py:75 | the plain cell text c_next + " " + q_next + " " + move; no ensures of its own, its property is RuleTextRoundTrip |
| Machine.CellToStr | turing_machine/turing_machine.py:70-75 | KeyError exactly when the rule is missing; otherwise the plain "c_next q_next move", abbreviated with prettify to the move (symbol and state kept) or the next state (symbol kept, no move) |
| Machine.RuleTextRoundTrip | turing_machine/turing_machine.py:75 | the plain cell text parses back into its rule when the state name has no space |
| Machine.PlainCellRoundTrip | turing_machine/turing_machine.py:70-75 | without prettify every present cell of the rules table reads back as its rule |
| Machine.Tape.constructor | turing_machine/turing_machine.py:17-22 | the store of the input at indices 0.., bounds [0, len) |
| Machine.Tape.Get | turing_machine/turing_machine.py:24-25 | the cell's character, stored by the read |
| Machine.Tape.Set | turing_machine/turing_machine.py:27-39 | the new tape is the corrected incremental write of the old one |
| Machine.Tape.ToString | turing_machine/turing_machine.py:41-42 | the text of [left, right), with those cells materialized |
| Machine.Tape.StringWithPosition | turing_machine/turing_machine.py:44-54 | the marked text, with [left, right) materialized |
| Machine.TuringMachine.constructor | turing_machine/turing_machine.py:58-62 | alphabet with the blank appended, the given rules, a fresh tape of the input, the given head |
| Machine.TuringMachine.Reset | turing_machine/turing_machine.py:99-102 | a fresh tape and the given head; alphabet and rules unchanged |
| Machine.TuringMachine.GetTapeString | turing_machine/turing_machine.py:104-106 | the tape's text, with its bounds materialized |
| Machine.TuringMachine.Run | turing_machine/turing_machine.py:108-146 | the loop ends where RunFrom from (tape, head, initial_state, 0 tacts) ends: on KeyError the fault and the tape and head at the raise; otherwise the reported result, with the head persisting on the machine |
| Machine.TactWritesThenMoves | turing_machine/turing_machine.py:114-134 | a tact that proceeds found a rule, wrote its symbol in the head's cell leaving all others, moved by +1 for R, -1 for L, 0 otherwise, and entered the rule's state; in by-step mode its record is the state, the rule's next state, the symbol read, the rule's symbol, the rule's move as is, and the tact number |
| Machine.MissingRuleAborts | turing_machine/turing_machine.py:115 | the converse at run level: a missing rule for the reached state or symbol always ends the run with that KeyError |
| Machine.RunBudget | turing_machine/turing_machine.py:113 | at most max_tacts tacts run, and a run ends without exception only in the stop state or with the budget used up |
| Machine.RunTrace | turing_machine/turing_machine.py:118-126 | by-step mode keeps one record per tact, numbered from the first tact, each leaving the state the next starts in; otherwise no record |
| Machine.RunStatus | turing_machine/turing_machine.py:136-144 | iterations within the budget; successful exactly when fewer than max_tacts tacts ran, which implies the stop state; steps present exactly in by-step mode, one per iteration numbered 0, 1, ... |
| Machine.RunKeepsTight | turing_machine/turing_machine.py:113-134 | a run ending without exception keeps the bounds the hull of the stored indices |
| Machine.HaltedRunIsNoop | turing_machine/turing_machine.py:109-113 | started in the stop state no tact runs and tape and head are unchanged; successful exactly when max_tacts > 0 |
| IncrementalBounds.WriteAsWritten | turing_machine/turing_machine.py:27-39 | the write as written stores or deletes like the corrected one; it raises ValueError only with an empty store |
| IncrementalBounds.AgreesAwayFromEnds | turing_machine/turing_machine.py:27-39 | whenever the bounds are non-empty, whether or not they are the hull of the stored indices, the written and corrected writes agree, except when erasing the first or last index of the bounds |
| IncrementalBounds.ErasingLastIndexHidesCell | turing_machine/turing_machine.py:36-37 | erasing the last of "ab" as written leaves bounds [0, 0) and the text "", where the corrected write gives "a" |
| IncrementalBounds.ErasingFirstIndexKeepsBlank | turing_machine/turing_machine.py:38-39 | erasing the first of "ab" as written keeps left at 0 and renders "λb", where the corrected write gives "b" |
| IncrementalBounds.WritingEmptyTapePadsWithBlanks | turing_machine/turing_machine.py:29-32 | writing 'x' at 3 (or -2) into an empty tape as written renders "λλλx" (or "xλ"), where the corrected write gives "x" |
| IncrementalBounds.ErasingOnlyCellRaises | turing_machine/turing_machine.py:37 | erasing the only character as written raises ValueError, where the corrected tape is empty |
| Scenarios.OverwriteInside | turing_machine/turing_machine.py:27-33 | a non-blank write inside a fresh tape's input gives the tape of the updated string |
| Scenarios.ScanTact | turing_machine/turing_machine.py:114-134 | one tact of a rightward scan rewrites the head's character and moves right |
| Scenarios.ScanUnfold | turing_machine/turing_machine.py:114-134 | a scan seen from its first tact on ends in the same configuration |
| Scenarios.Scan | turing_machine/turing_machine.py:113-134 | a scan from index p runs |s| - p tacts, leaves the scanned characters rewritten and the head on the first blank after the input |
| Scenarios.HaltAtEnd | turing_machine/turing_machine.py:113-134 | on the first blank after any input, the empty one included, a rule writing the blank back into the stop state ends the run one tact later with the tape unchanged |
| Scenarios.Idle | turing_machine/turing_machine.py:113-134 | past the end of the tape a blank-keeping right move into the same state uses up the budget, moving one cell per tact with the tape unchanged |
| Scenarios.FlipScan | tests/test_turing_machine.py:23-42 | the flip machine's seven tacts turn "aabbaba" into "bbaabab" |
| Scenarios.FlipTraceEnds | tests/test_turing_machine.py:44-56 | the flip run's eight records start with (q0, q0, a, b, R, 0) and end with (q0, !, λ, λ, N, 7) |
| Scenarios.FlipRun | tests/test_turing_machine.py:23-42 | the flip machine halts after 8 tacts with "bbaabab" and the head at 7 |
| Scenarios.StepMove | tests/test_turing_machine.py:23-56 | successful, 8 iterations, "bbaabab", head 7, 8 steps with the first and last as the test expects |
| Scenarios.StepMoveOnBudget | turing_machine/turing_machine.py:137 | the same run with max_tacts 8 halts on the eighth tact yet reports "max iterations reached" |
| Scenarios.AlternateScan | tests/test_turing_machine.py:58-84 | from index 1 in q1 five tacts turn "aabaab" into "abbbaa" |
| Scenarios.AlternateRun | tests/test_turing_machine.py:58-84 | that machine halts after 6 tacts with the head at 6 |
| Scenarios.InitialState | tests/test_turing_machine.py:58-84 | successful, 6 iterations, "abbbaa", head 6, no steps |
| Scenarios.RunawayRun | tests/test_turing_machine.py:86-105 | the right-mover on "abba" uses all 9999 tacts and ends with the head at 9999 |
| Scenarios.MaxIterationsReached | tests/test_turing_machine.py:86-105 | "max iterations reached", 9999 iterations, "abba", head 9999 |
| Scenarios.EmptyMachine | tests/test_turing_machine.py:9-21 | successful, 0 iterations, "", head 0, no steps |
| Scenarios.MissingRule | turing_machine/turing_machine.py:115 | a run reading 'c' with no rule for it returns KeyError (q0, 'c') |
| Scenarios.EmptyTape | tests/test_tape.py:8-13 | reads at 0, -10 and 1000 give the blank and the text is "" |
| Scenarios.InitTapeMarked | tests/test_tape.py:23 | the test string marked at 5 is "simpl" + "[e]" + " string for tape" |
| Scenarios.ReadEach | turing_machine/tape.py:27-28 | reading tape[i] for every i of the input gives back the input, and leaves the store as it was |
| Scenarios.InitTape | tests/test_tape.py:15-23 | each character reads back, the text is the input, and the head at 5 is bracketed in place |
| Scenarios.RenderCells | turing_machine/tape.py:39-40 | a range whose cells read as s renders as s |
| Scenarios.TapeChangeStores | tests/test_tape.py:25-37 | the hulls and texts of the stores test_tape_change passes through |
| Scenarios.SetOn | turing_machine/tape.py:30-37 | a write whose resulting store has hull [lo, hi) leaves exactly that store and those bounds |
| Scenarios.ShowOn | turing_machine/tape.py:39-40 | str() of bounds holding only stored cells is their text and inserts nothing |
| Scenarios.TapeChange | tests/test_tape.py:25-37 | "test", then "est" after erasing 5, then "wλλest" after writing at 3 |
| Scenarios.TapeChangeNegativeStores | tests/test_tape.py:39-51 | the hulls and texts of the stores test_tape_change_negative passes through |
| Scenarios.TapeChangeNegative | tests/test_tape.py:39-51 | the same texts written at negative indices |

## Left out

- The Tkinter GUI, the Flask web front end, its JavaScript, the command-line entry points and the localisation are left out. They are widgets, routes, file I/O and printing, with no part in the engine.
- `print_rules`, `print_tape` and the `__print_*` helpers are left out: they only print. The text of one rules-table cell, `__cell_to_str`, is modelled (`Machine.CellToStr`).
- `turing_machine/constants.py` repeats the constants at the top of `turing_machine/turing_machine.py`. They are modelled once, in the `Constants` module.
- Symbols are single characters and states are strings. A rule is a record, not a three-element list, so a malformed rule entry (the wrong length or type) cannot be expressed.
- The order in which a Python dict iterates is not modelled. It affects only the order in which `filter` pops keys, not its result.
- Machine.Tape.Set: models the corrected incremental bounds update (see Findings), not the code as written. The code as written is `IncrementalBounds.WriteAsWritten`.
- Machine.TuringMachine.Run: runs its loop on the corrected write, so on three kinds of input it does not do what the source's `run` does:
  - A tact that erases the only stored cell makes the source raise `ValueError` (line 37). Example: tape "a" with rule `q0: a -> (λ, N, !)`. The model's run goes on; for that example it reports "successful" with "".
  - A tact that erases the cell at either bound makes the source report different bounds and text. Example: tape "ab" with rules `a -> (a, R, q0)` and `b -> (λ, N, !)`. The source returns "", the model returns "a".
  - The first write of a symbol other than the blank, at an index other than 0, into a tape whose bounds are empty (lines 29-32). The source widens the bounds [0, 0) towards the index; the model's bounds hold only that index. Example: tape "", head 0, rules `q0: λ -> (λ, R, q1)` and `q1: λ -> (x, N, !)`. The source returns "λx", the model returns "x".
- Machine.TuringMachine.Run: takes `initial_state` as a parameter, as `run` does. It does not model the constructor keyword the tests pass, which the constructor does not accept.
- Python's exceptions are not propagated. A `KeyError` in `run` becomes a `Failure` result, and a `ValueError` in `tape.py` becomes a returned fault. The `ValueError` that the incremental tape's line 37 can raise inside `run` is not modelled (see the line above). Only `IncrementalBounds.WriteAsWritten` shows it.

## Findings

| source | as written | input that shows it | evidently intended | confidence | as-written member | corrected member |
|---|---|---|---|---|---|---|
| turing_machine/turing_machine.py:36-37 | erasing index right - 1 sets right to max(keys), without + 1 | tape "ab", erase index 1: bounds [0, 0), str() is "" although 'a' is stored | right = max(keys) + 1, so str() is "a" | high, not executed | IncrementalBounds.ErasingLastIndexHidesCell | Machine.WriteKeepsTight |
| turing_machine/turing_machine.py:38-39 | the left bound is recomputed only if value != LAMBDA, which never holds in the blank branch | tape "ab", erase index 0: left stays 0, str() is "λb" | left = min(keys), so str() is "b" | high, not executed | IncrementalBounds.ErasingFirstIndexKeepsBlank | Machine.WriteKeepsTight |
| turing_machine/turing_machine.py:29-32 | a write into an empty tape widens the empty bounds [0, 0) towards the index | empty tape, write 'x' at 3: bounds [0, 4), str() is "λλλx" | the bounds become [3, 4), so str() is "x" | medium, not executed | IncrementalBounds.WritingEmptyTapePadsWithBlanks | Machine.WriteKeepsTight |
| turing_machine/turing_machine.py:37 | erasing the only character calls max() on no keys | tape "a", erase index 0: ValueError | an empty tape with empty bounds | high, not executed | IncrementalBounds.ErasingOnlyCellRaises | Machine.WriteKeepsTight |
