/** Runs of whole machines: generic lemmas for a head that scans the input rightwards,
    halts on the first blank after it, or runs off into the blanks for ever; and, built
    on them, the runs of tests/test_turing_machine.py and the tape edits of
    tests/test_tape.py as client methods of the two tape classes and the machine. */
module Scenarios {
  import opened Wrappers
  import opened Constants
  import opened Faults
  import opened Cells
  import opened Machine
  import SparseTape

  /** From state q the rules take the head rightwards over the characters of u, each
      time writing a character that is not the blank and never entering the stop state
      before u is used up. */
  predicate Scans(rules: RuleTable, q: string, u: string)
    decreases |u|
  {
    u != [] ==>
      && q != StopState && q in rules && u[0] in rules[q]
      && rules[q][u[0]].write != Blank && rules[q][u[0]].move == MoveRight
      && Scans(rules, rules[q][u[0]].next, u[1..])
  }

  /** The characters such a scan leaves in place of u. */
  function Swept(rules: RuleTable, q: string, u: string): (w: string)
    requires Scans(rules, q, u)
    ensures |w| == |u|
    decreases |u|
  {
    if u == [] then [] else [rules[q][u[0]].write] + Swept(rules, rules[q][u[0]].next, u[1..])
  }

  /** The state such a scan ends in. */
  function ScanState(rules: RuleTable, q: string, u: string): string
    requires Scans(rules, q, u)
    decreases |u|
  {
    if u == [] then q else ScanState(rules, rules[q][u[0]].next, u[1..])
  }

  /** The records by-step mode keeps for such a scan, numbered from tact t on. */
  function ScanSteps(rules: RuleTable, q: string, u: string, t: int): (r: seq<StepRecord>)
    requires Scans(rules, q, u)
    ensures |r| == |u|
    decreases |u|
  {
    if u == [] then []
    else
      var rule := rules[q][u[0]];
      [StepRecord(q, rule.next, u[0], rule.write, rule.move, t)] + ScanSteps(rules, rule.next, u[1..], t + 1)
  }

  /** Writing a character that is not the blank inside a string's bounds leaves the
      store of the updated string. */
  lemma OverwriteInside(s: string, p: int, w: char)
    requires 0 <= p < |s| && w != Blank
    ensures Write(Touch(Init(s), p), p, w) == Init(s[p := w])
  {
    assert Enumerate(s)[p := Cell(Enumerate(s), p)][p := w] == Enumerate(s[p := w]);
  }

  /** The configuration a scan from index p in state q, at tact t, reaches. */
  function ScanEnd(rules: RuleTable, s: string, p: int, q: string, t: int, steps: seq<StepRecord>, record: bool): Config
    requires 0 <= p <= |s| && Scans(rules, q, s[p..])
  {
    Config(Init(s[..p] + Swept(rules, q, s[p..])), |s|, ScanState(rules, q, s[p..]), t + |s| - p,
           steps + if record then ScanSteps(rules, q, s[p..], t) else [])
  }

  /** The configuration after the first tact of a scan. */
  function ScanNext(rules: RuleTable, s: string, p: int, q: string, t: int, steps: seq<StepRecord>, record: bool): Config
    requires 0 <= p < |s| && Scans(rules, q, s[p..])
  {
    assert s[p..][0] == s[p];
    var rule := rules[q][s[p]];
    Config(Init(s[p := rule.write]), p + 1, rule.next, t + 1,
           if record then steps + [StepRecord(q, rule.next, s[p], rule.write, rule.move, t)] else steps)
  }

  /** One tact of a scan: the rule for the character under the head rewrites it and
      moves the head right, and the run goes on from there. */
  lemma ScanTact(rules: RuleTable, s: string, p: int, q: string, t: int, steps: seq<StepRecord>, maxTacts: int, record: bool)
    requires 0 <= p < |s| && Scans(rules, q, s[p..]) && t < maxTacts
    ensures Tact(rules, Config(Init(s), p, q, t, steps), record) == Ok(ScanNext(rules, s, p, q, t, steps, record))
  {
    assert s[p..][0] == s[p];
    assert Cell(Init(s).chars, p) == s[p];
    OverwriteInside(s, p, rules[q][s[p]].write);
  }

  /** Where a scan ends, seen from its first tact on. */
  lemma ScanUnfold(rules: RuleTable, s: string, p: int, q: string, t: int, steps: seq<StepRecord>, record: bool)
    requires 0 <= p < |s| && Scans(rules, q, s[p..])
    ensures var next := ScanNext(rules, s, p, q, t, steps, record); var s' := s[p := rules[q][s[p]].write];
      && next.store == Init(s')
      && Scans(rules, next.state, s'[p + 1..])
      && ScanEnd(rules, s', p + 1, next.state, t + 1, next.steps, record) == ScanEnd(rules, s, p, q, t, steps, record)
  {
    var u := s[p..];
    assert u[0] == s[p] && u[1..] == s[p + 1..];
    var rule := rules[q][s[p]];
    var s' := s[p := rule.write];
    assert s'[p + 1..] == s[p + 1..];
    assert s'[..p + 1] + Swept(rules, rule.next, s'[p + 1..]) == s[..p] + Swept(rules, q, u);
    if record {
      var rec := StepRecord(q, rule.next, s[p], rule.write, rule.move, t);
      assert ScanSteps(rules, q, u, t) == [rec] + ScanSteps(rules, rule.next, u[1..], t + 1);
      assert (steps + [rec]) + ScanSteps(rules, rule.next, u[1..], t + 1) == steps + ScanSteps(rules, q, u, t);
    }
  }

  /** A scan from index p to the end of the tape: |s| - p tacts that leave the scanned
      characters rewritten and the head on the first blank after the input. */
  lemma {:induction false} Scan(rules: RuleTable, s: string, p: int, q: string, t: int, steps: seq<StepRecord>, maxTacts: int, record: bool)
    requires 0 <= p <= |s| && Scans(rules, q, s[p..]) && t + |s| - p <= maxTacts
    ensures RunFrom(rules, Config(Init(s), p, q, t, steps), maxTacts, record)
         == RunFrom(rules, ScanEnd(rules, s, p, q, t, steps, record), maxTacts, record)
    decreases |s| - p
  {
    if p == |s| {
      assert s[p..] == [];
      assert s[..p] + Swept(rules, q, s[p..]) == s;
      assert steps + ScanSteps(rules, q, s[p..], t) == steps;
    } else {
      var next := ScanNext(rules, s, p, q, t, steps, record);
      ScanTact(rules, s, p, q, t, steps, maxTacts, record);
      ScanUnfold(rules, s, p, q, t, steps, record);
      Scan(rules, s[p := rules[q][s[p]].write], p + 1, next.state, t + 1, next.steps, maxTacts, record);
    }
  }

  /** On the first blank after the input, a rule that writes the blank back and enters
      the stop state without moving ends the run one tact later. */
  lemma HaltAtEnd(rules: RuleTable, s: string, q: string, t: int, steps: seq<StepRecord>, maxTacts: int, record: bool)
    requires t < maxTacts
    requires q != StopState && q in rules && Blank in rules[q] && rules[q][Blank] == Rule(Blank, MoveNone, StopState)
    ensures RunFrom(rules, Config(Init(s), |s|, q, t, steps), maxTacts, record)
         == Ok(Config(Init(s), |s|, StopState, t + 1,
                      steps + if record then [StepRecord(q, StopState, Blank, Blank, MoveNone, t)] else []))
  {
    var next := Config(Init(s), |s|, StopState, t + 1,
                       steps + if record then [StepRecord(q, StopState, Blank, Blank, MoveNone, t)] else []);
    assert Tact(rules, Config(Init(s), |s|, q, t, steps), record) == Ok(next) by {
      var st := Init(s);
      assert |s| !in st.chars;
      var touched := Touch(st, |s|);
      assert touched.chars - {|s|} == st.chars;
      assert Write(touched, |s|, Blank) == st;
      if !record {
        assert steps + [] == steps;
      }
    }
  }

  /** Past the end of a tight tape, a rule that writes the blank back and moves right
      into the same state runs until the budget is used up, each tact moving the head
      one cell and leaving the tape as it was. */
  lemma {:induction false} Idle(rules: RuleTable, st: Store, p: int, q: string, t: int, steps: seq<StepRecord>, maxTacts: int)
    requires Tight(st) && st.left < st.right <= p && t <= maxTacts
    requires q != StopState && q in rules && Blank in rules[q] && rules[q][Blank] == Rule(Blank, MoveRight, q)
    ensures RunFrom(rules, Config(st, p, q, t, steps), maxTacts, false)
         == Ok(Config(st, p + (maxTacts - t), q, maxTacts, steps))
    decreases maxTacts - t
  {
    if t < maxTacts {
      var touched := Touch(st, p);
      assert touched.chars - {p} == st.chars;
      assert Tact(rules, Config(st, p, q, t, steps), false) == Ok(Config(st, p + 1, q, t + 1, steps));
      Idle(rules, st, p + 1, q, t + 1, steps, maxTacts);
    }
  }

  // ---------------------------------------------------------------------------
  // The rules tables of tests/test_turing_machine.py

  /** Swaps a and b moving right, and stops on the blank. */
  function FlipRules(): RuleTable {
    map["q0" := map['a' := Rule('b', MoveRight, "q0"), 'b' := Rule('a', MoveRight, "q0"),
                    Blank := Rule(Blank, MoveNone, StopState)]]
  }

  /** Alternates between keeping (q0) and swapping (q1) the character, moving right. */
  function AlternateRules(): RuleTable {
    map["q0" := map['a' := Rule('a', MoveRight, "q1"), 'b' := Rule('b', MoveRight, "q1"),
                    Blank := Rule(Blank, MoveNone, StopState)],
        "q1" := map['a' := Rule('b', MoveRight, "q0"), 'b' := Rule('a', MoveRight, "q0"),
                    Blank := Rule(Blank, MoveNone, StopState)]]
  }

  /** Keeps every character and moves right for ever. */
  function RunawayRules(): RuleTable {
    map["q0" := map['a' := Rule('a', MoveRight, "q0"), 'b' := Rule('b', MoveRight, "q0"),
                    Blank := Rule(Blank, MoveRight, "q0")]]
  }

  /** The records of the flip machine's run on "aabbaba". */
  function FlipTrace(): seq<StepRecord> {
    ScanSteps(FlipRules(), "q0", "aabbaba", 0) + [StepRecord("q0", StopState, Blank, Blank, MoveNone, 7)]
  }

  /** The flip machine on "aabbaba": seven tacts swap the characters, the eighth halts on
      the blank after them. */
  lemma FlipScan(record: bool)
    ensures Scans(FlipRules(), "q0", "aabbaba"[0..])
    ensures ScanEnd(FlipRules(), "aabbaba", 0, "q0", 0, [], record)
         == Config(Init("bbaabab"), 7, "q0", 7, if record then ScanSteps(FlipRules(), "q0", "aabbaba", 0) else [])
  {
    var s := "aabbaba";
    assert s[0..] == s && s[..0] == [];
    assert Swept(FlipRules(), "q0", s) == "bbaabab";
  }

  /** The first and the last of the flip machine's eight records. */
  lemma FlipTraceEnds()
    ensures |FlipTrace()| == 8
    ensures FlipTrace()[0] == StepRecord("q0", "q0", 'a', 'b', MoveRight, 0)
    ensures FlipTrace()[7] == StepRecord("q0", StopState, Blank, Blank, MoveNone, 7)
  {
  }

  lemma FlipRun(maxTacts: int, record: bool)
    requires maxTacts >= 8
    ensures RunFrom(FlipRules(), Config(Init("aabbaba"), 0, "q0", 0, []), maxTacts, record)
         == Ok(Config(Init("bbaabab"), 7, StopState, 8, if record then FlipTrace() else []))
  {
    FlipScan(record);
    Scan(FlipRules(), "aabbaba", 0, "q0", 0, [], maxTacts, record);
    var trace := if record then ScanSteps(FlipRules(), "q0", "aabbaba", 0) else [];
    HaltAtEnd(FlipRules(), "bbaabab", "q0", 7, trace, maxTacts, record);
  }

  /** test_step_move: "aabbaba" swapped in 8 tacts, the eighth halting on the blank. */
  method StepMove() returns (r: Result<RunResult, Fault>)
    ensures r.Success? && r.value.status == SuccessfulStatus
    ensures r.value.iterations == 8 && r.value.result == "bbaabab" && r.value.headPosition == 7
    ensures r.value.steps.Some? && |r.value.steps.value| == 8
    ensures r.value.steps.value[0] == StepRecord("q0", "q0", 'a', 'b', MoveRight, 0)
    ensures r.value.steps.value[7] == StepRecord("q0", StopState, Blank, Blank, MoveNone, 7)
  {
    var m := new TuringMachine(alphabet := "ab", tape := "aabbaba", rules := FlipRules());
    FlipRun(MaxIterations, true);
    RenderEnumerate("bbaabab");
    FlipTraceEnds();
    r := m.Run(ByStepMode);
  }

  /** The same machine with a budget of exactly 8 tacts also halts on the eighth, yet
      reports "max iterations reached", since the status tests only the tacts count. */
  method StepMoveOnBudget() returns (r: Result<RunResult, Fault>)
    ensures r.Success? && r.value.status == MaxIterationsReachedStatus
    ensures r.value.iterations == 8 && r.value.result == "bbaabab" && r.value.headPosition == 7
  {
    var m := new TuringMachine(alphabet := "ab", tape := "aabbaba", rules := FlipRules());
    FlipRun(8, false);
    RenderEnumerate("bbaabab");
    r := m.Run(NormalMode, 8);
  }

  /** The alternating machine on "aabaab" from index 1 in state q1: five tacts rewrite
      "abaab" as "bbbaa", the sixth halts on the blank after them. */
  lemma AlternateScan()
    ensures Scans(AlternateRules(), "q1", "aabaab"[1..])
    ensures ScanEnd(AlternateRules(), "aabaab", 1, "q1", 0, [], false) == Config(Init("abbbaa"), 6, "q0", 5, [])
  {
    var s := "aabaab";
    assert s[1..] == "abaab" && s[..1] == "a";
    assert Swept(AlternateRules(), "q1", "abaab") == "bbbaa";
    assert "a" + "bbbaa" == "abbbaa";
  }

  lemma AlternateRun()
    ensures RunFrom(AlternateRules(), Config(Init("aabaab"), 1, "q1", 0, []), MaxIterations, false)
         == Ok(Config(Init("abbbaa"), 6, StopState, 6, []))
  {
    AlternateScan();
    Scan(AlternateRules(), "aabaab", 1, "q1", 0, [], MaxIterations, false);
    HaltAtEnd(AlternateRules(), "abbbaa", "q0", 5, [], MaxIterations, false);
  }

  /** test_initial_state: from index 1 in state q1, every other character of "aabaab"
      is swapped. */
  method InitialState() returns (r: Result<RunResult, Fault>)
    ensures r.Success? && r.value.status == SuccessfulStatus
    ensures r.value.iterations == 6 && r.value.result == "abbbaa" && r.value.headPosition == 6
    ensures r.value.steps.None?
  {
    var m := new TuringMachine(alphabet := "ab", tape := "aabaab", position := 1, rules := AlternateRules());
    AlternateRun();
    RenderEnumerate("abbbaa");
    r := m.Run(initialState := "q1");
  }

  /** The runaway machine on "abba": four tacts cross the input, the rest of the budget
      walks the blanks to the right. */
  lemma RunawayRun()
    ensures RunFrom(RunawayRules(), Config(Init("abba"), 0, "q0", 0, []), MaxIterations, false)
         == Ok(Config(Init("abba"), MaxIterations, "q0", MaxIterations, []))
  {
    var s := "abba";
    assert s[0..] == s && s[..0] == [];
    assert Scans(RunawayRules(), "q0", s);
    assert Swept(RunawayRules(), "q0", s) == s;
    assert ScanState(RunawayRules(), "q0", s) == "q0";
    Scan(RunawayRules(), s, 0, "q0", 0, [], MaxIterations, false);
    assert ScanEnd(RunawayRules(), s, 0, "q0", 0, [], false) == Config(Init(s), 4, "q0", 4, []);
    InitTight(s);
    Idle(RunawayRules(), Init(s), 4, "q0", 4, [], MaxIterations);
  }

  /** test_max_iterations: a machine that never stops uses up the default budget, the
      head ends MAX_ITERATIONS cells to the right and the tape keeps "abba". */
  method MaxIterationsReached() returns (r: Result<RunResult, Fault>)
    ensures r.Success? && r.value.status == MaxIterationsReachedStatus
    ensures r.value.iterations == MaxIterations && r.value.result == "abba"
    ensures r.value.headPosition == MaxIterations
  {
    var m := new TuringMachine(alphabet := "01", tape := "abba", rules := RunawayRules());
    RunawayRun();
    RenderEnumerate("abba");
    r := m.Run();
  }

  /** test_empty_machine: started in the stop state, no tact runs. */
  method EmptyMachine() returns (r: Result<RunResult, Fault>)
    ensures r == Success(RunResult(SuccessfulStatus, "", 0, 0, None))
  {
    var m := new TuringMachine(alphabet := "", rules := map[]);
    r := m.Run(NormalMode, initialState := StopState);
  }

  /** A missing rule: the flip machine has no rule for 'c', so a run on a tape that
      starts with 'c' raises KeyError at once. */
  method MissingRule() returns (r: Result<RunResult, Fault>)
    ensures r == Failure(MissingSymbol("q0", 'c'))
  {
    var m := new TuringMachine(alphabet := "abc", tape := "cab", rules := FlipRules());
    assert Cell(Init("cab").chars, 0) == 'c';
    r := m.Run();
  }

  // ---------------------------------------------------------------------------
  // tests/test_tape.py, on the tape that recomputes its bounds

  /** test_empty_tape: reads anywhere give the blank and the text stays empty. */
  method EmptyTape() returns (a: char, b: char, c: char, s: string)
    ensures a == Blank && b == Blank && c == Blank && s == ""
  {
    var tape := new SparseTape.Tape();
    a := tape.Get(0);
    b := tape.Get(-10);
    c := tape.Get(1000);
    s := tape.ToString();
  }

  /** The input of test_init_tape with its sixth character bracketed. */
  lemma InitTapeMarked()
    ensures Marked(Enumerate("simple string for tape"), 0, 22, 5) == "simpl" + "[e]" + " string for tape"
  {
    var input := "simple string for tape";
    MarkedEnumerate(input, 5);
    assert input[..5] == "simpl" && input[5] == 'e' && input[6..] == " string for tape";
  }

  /** tape[i] for i = 0, 1, ..., |input| - 1 on the tape built from input: each read gives
      back input[i] and, the index being stored already, leaves the store as it was. */
  method ReadEach(tape: SparseTape.Tape, input: string) returns (read: string)
    requires tape.chars == Enumerate(input)
    modifies tape`chars
    ensures read == input && tape.chars == Enumerate(input)
  {
    read := [];
    for i := 0 to |input|
      invariant read == input[..i] && tape.chars == Enumerate(input)
    {
      var c := tape.Get(i);
      assert tape.chars == Enumerate(input) by {
        assert tape.chars.Keys == Enumerate(input).Keys;
      }
      read := read + [c];
    }
  }

  /** test_init_tape: each character is read back, the text is the input, and the head's
      cell is bracketed in place. */
  method InitTape() returns (read: string, s: string, marked: string)
    ensures read == "simple string for tape"
    ensures s == "simple string for tape" && marked == "simpl" + "[e]" + " string for tape"
  {
    var input := "simple string for tape";
    var tape := new SparseTape.Tape(input);
    read := ReadEach(tape, input);
    RenderEnumerate(input);
    InitTapeMarked();
    s := tape.ToString();
    MaterializeStored(Enumerate(input), 0, |input|);
    marked := tape.StringWithPosition(5);
  }

  /** A range whose cells read as s renders as s. */
  lemma RenderCells(chars: Chars, lo: int, s: string)
    requires forall i :: 0 <= i < |s| ==> Cell(chars, lo + i) == s[i]
    ensures Render(chars, lo, lo + |s|) == s
  {
    RenderAt(chars, lo, lo + |s|);
  }

  /** The stores test_tape_change passes through, their hulls and their texts. */
  lemma TapeChangeStores()
    ensures Spans(map[5 := 't'], 5, 6)
    ensures Spans(map[5 := 't', 7 := 's'], 5, 8)
    ensures Spans(map[5 := 't', 7 := 's', 6 := 'e'], 5, 8)
    ensures var m := map[5 := 't', 7 := 's', 6 := 'e', 8 := 't'];
      Spans(m, 5, 9) && Render(m, 5, 9) == "test"
      && Spans(m - {5}, 6, 9) && Render(m - {5}, 6, 9) == "est"
      && Spans((m - {5})[3 := 'w'], 3, 9) && Render((m - {5})[3 := 'w'], 3, 9) == ['w', Blank, Blank, 'e', 's', 't']
  {
    var m := map[5 := 't', 7 := 's', 6 := 'e', 8 := 't'];
    RenderCells(m, 5, "test");
    RenderCells(m - {5}, 6, "est");
    RenderCells((m - {5})[3 := 'w'], 3, ['w', Blank, Blank, 'e', 's', 't']);
  }

  /** A tape holding exactly the given store, on which every write below lands. */
  method SetOn(tape: SparseTape.Tape, key: int, value: char, ghost before: Chars, ghost after: Chars, lo: int, hi: int)
    requires tape.chars == before && after == (if value != Blank then before[key := value] else before - {key})
    requires Spans(after, lo, hi)
    modifies tape
    ensures tape.chars == after && tape.left == lo && tape.right == hi
  {
    var f := tape.Set(key, value);
    assert lo in tape.chars;
    if f.Some? {
      assert false;
    }
    SpansUnique(tape.chars, tape.left, tape.right, lo, hi);
  }

  /** str() of a tape whose bounds hold only stored cells: the text, and no blank inserted. */
  method ShowOn(tape: SparseTape.Tape, ghost chars: Chars, lo: int, hi: int) returns (s: string)
    requires tape.chars == chars && tape.left == lo && tape.right == hi
    requires forall k :: lo <= k < hi ==> k in chars
    modifies tape`chars
    ensures s == Render(chars, lo, hi) && tape.chars == chars
  {
    MaterializeStored(chars, lo, hi);
    s := tape.ToString();
  }

  /** test_tape_change: writes at 5, 7, 6, 8 read "test"; erasing index 5 moves the left
      bound to 6; a write at 3 widens the bounds over two blank cells. */
  method TapeChange() returns (s1: string, s2: string, s3: string)
    ensures s1 == "test" && s2 == "est" && s3 == ['w', Blank, Blank, 'e', 's', 't']
  {
    var tape := new SparseTape.Tape();
    assert Enumerate("") == map[];
    var m := map[5 := 't', 7 := 's', 6 := 'e', 8 := 't'];
    TapeChangeStores();
    SetOn(tape, 5, 't', map[], map[5 := 't'], 5, 6);
    SetOn(tape, 7, 's', map[5 := 't'], map[5 := 't', 7 := 's'], 5, 8);
    SetOn(tape, 6, 'e', map[5 := 't', 7 := 's'], map[5 := 't', 7 := 's', 6 := 'e'], 5, 8);
    SetOn(tape, 8, 't', map[5 := 't', 7 := 's', 6 := 'e'], m, 5, 9);
    s1 := ShowOn(tape, m, 5, 9);
    SetOn(tape, 5, Blank, m, m - {5}, 6, 9);
    s2 := ShowOn(tape, m - {5}, 6, 9);
    SetOn(tape, 3, 'w', m - {5}, (m - {5})[3 := 'w'], 3, 9);
    s3 := tape.ToString();
  }

  /** The stores test_tape_change_negative passes through, their hulls and their texts. */
  lemma TapeChangeNegativeStores()
    ensures Spans(map[0 := 't'], 0, 1)
    ensures Spans(map[0 := 't', -1 := 's'], -1, 1)
    ensures Spans(map[0 := 't', -1 := 's', -2 := 'e'], -2, 1)
    ensures var m := map[0 := 't', -1 := 's', -2 := 'e', -3 := 't'];
      Spans(m, -3, 1) && Render(m, -3, 1) == "test"
      && Spans(m - {-3}, -2, 1) && Render(m - {-3}, -2, 1) == "est"
      && Spans((m - {-3})[-5 := 'w'], -5, 1) && Render((m - {-3})[-5 := 'w'], -5, 1) == ['w', Blank, Blank, 'e', 's', 't']
  {
    var m := map[0 := 't', -1 := 's', -2 := 'e', -3 := 't'];
    RenderCells(m, -3, "test");
    RenderCells(m - {-3}, -2, "est");
    RenderCells((m - {-3})[-5 := 'w'], -5, ['w', Blank, Blank, 'e', 's', 't']);
  }

  /** test_tape_change_negative: the same text written right to left at 0, -1, -2, -3;
      erasing index -3 moves the left bound to -2; a write at -5 lowers it over two
      blank cells. */
  method TapeChangeNegative() returns (s1: string, s2: string, s3: string)
    ensures s1 == "test" && s2 == "est" && s3 == ['w', Blank, Blank, 'e', 's', 't']
  {
    var tape := new SparseTape.Tape();
    assert Enumerate("") == map[];
    var m := map[0 := 't', -1 := 's', -2 := 'e', -3 := 't'];
    TapeChangeNegativeStores();
    SetOn(tape, 0, 't', map[], map[0 := 't'], 0, 1);
    SetOn(tape, -1, 's', map[0 := 't'], map[0 := 't', -1 := 's'], -1, 1);
    SetOn(tape, -2, 'e', map[0 := 't', -1 := 's'], map[0 := 't', -1 := 's', -2 := 'e'], -2, 1);
    SetOn(tape, -3, 't', map[0 := 't', -1 := 's', -2 := 'e'], m, -3, 1);
    s1 := ShowOn(tape, m, -3, 1);
    SetOn(tape, -3, Blank, m, m - {-3}, -2, 1);
    s2 := ShowOn(tape, m - {-3}, -2, 1);
    SetOn(tape, -5, 'w', m - {-3}, (m - {-3})[-5 := 'w'], -5, 1);
    s3 := tape.ToString();
  }
}
