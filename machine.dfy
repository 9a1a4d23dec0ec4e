/** turing_machine/turing_machine.py: the module's own tape, whose bounds are
    updated incrementally on each write, and the machine whose run loop reads,
    looks up a rule, writes, optionally records a step, moves and counts tacts
    until the stop state or the budget of tacts is reached. */
module Machine {
  import opened Wrappers
  import opened Constants
  import opened Faults
  import opened Cells

  /** One entry of the rules table, the triple [c_next, move, q_next]. */
  datatype Rule = Rule(write: char, move: string, next: string)

  /** rules[q][c]: the rule for state q reading symbol c. */
  type RuleTable = map<string, map<char, Rule>>

  /** One element of the "steps" list in by-step mode. */
  datatype StepRecord = StepRecord(
    currState: string, nextState: string,
    currCharacter: char, nextCharacter: char,
    move: string, tact: int)

  /** The dictionary run returns; steps is present only in by-step mode. */
  datatype RunResult = RunResult(
    status: string, result: string, iterations: int, headPosition: int,
    steps: Option<seq<StepRecord>>)

  /** The fields of the module's Tape as one value. */
  datatype Store = Store(chars: Chars, left: int, right: int)

  /** What a step that may raise leaves: the value reached, or the value at the
      moment the exception was raised together with the exception. */
  datatype Outcome<T> = Ok(value: T) | Raised(value: T, fault: Fault)

  /** Everything one run updates: the tape, the head, q, tacts and the steps list. */
  datatype Config = Config(store: Store, position: int, state: string, tacts: int, steps: seq<StepRecord>)

  function Max(a: int, b: int): int {
    if a < b then b else a
  }

  /** Tape(input): character i of the input at index i, bounds [0, |input|). */
  function Init(input: string): Store {
    Store(Enumerate(input), 0, |input|)
  }

  /** tape[k] on the defaultdict: the read stores what it read. */
  function Touch(st: Store, k: int): Store {
    st.(chars := st.chars[k := Cell(st.chars, k)])
  }

  /** The invariant both tape classes mean their bounds to keep: [left, right) is the
      hull of the stored indices, empty exactly when nothing is stored. */
  predicate Tight(st: Store) {
    && st.left <= st.right
    && (forall k :: k in st.chars ==> st.left <= k < st.right)
    && (st.left < st.right ==> st.left in st.chars && st.right - 1 in st.chars)
  }

  /** Tight is the hull of Cells.Spans, or empty bounds on an empty store. */
  lemma TightIsSpans(st: Store)
    ensures Tight(st) <==> Spans(st.chars, st.left, st.right) || (st.chars == map[] && st.left == st.right)
  {
    if Tight(st) && st.left == st.right {
      assert forall k :: k !in st.chars;
    }
  }

  /** tape[k] = v (lines 27-39), with the three corrections listed as findings. A
      non-blank value is stored and widens the bounds to k (to exactly [k, k + 1) when
      they were empty). The blank deletes a stored key; deleting index right - 1 sets
      right to max of the keys left plus one (the range becomes empty when none is
      left), and deleting index left sets left to min of the keys left. */
  ghost function Write(st: Store, k: int, v: char): Store {
    if v != Blank then
      var bounds :=
        if st.left >= st.right then st.(left := k, right := k + 1)
        else if k >= st.right then st.(right := k + 1)
        else if k < st.left then st.(left := k)
        else st;
      bounds.(chars := st.chars[k := v])
    else if k in st.chars then
      var chars := st.chars - {k};
      if k == st.right - 1 then
        match Greatest(chars.Keys)
        case None => Store(chars, st.left, st.left)
        case Some(g) => st.(chars := chars, right := g + 1)
      else if k == st.left then
        match Least(chars.Keys)
        case None => st.(chars := chars)
        case Some(m) => st.(chars := chars, left := m)
      else st.(chars := chars)
    else st
  }

  /** A write leaves its value in its cell. */
  lemma WriteReadsBack(st: Store, k: int, v: char)
    ensures Cell(Write(st, k, v).chars, k) == v
  {
  }

  /** A write leaves every other cell as it was. */
  lemma WriteKeepsOtherCells(st: Store, k: int, v: char)
    ensures forall i :: i != k ==> Cell(Write(st, k, v).chars, i) == Cell(st.chars, i)
  {
  }

  /** The store a fresh tape starts with is tight. */
  lemma InitTight(input: string)
    ensures Tight(Init(input))
  {
    if |input| > 0 {
      assert 0 in Enumerate(input) && |input| - 1 in Enumerate(input);
    }
  }

  /** Reading the head's cell and then writing there, as each tact does, keeps the bounds
      the hull of the stored indices. */
  lemma WriteKeepsTight(st: Store, k: int, v: char)
    requires Tight(st)
    ensures Tight(Write(Touch(st, k), k, v))
  {
    var touched := Touch(st, k);
    var r := Write(touched, k, v);
    if v == Blank {
      var chars := touched.chars - {k};
      assert forall i :: i in chars <==> i in st.chars && i != k;
      if k == st.right - 1 {
        if st.left < st.right && st.left != k {
          assert st.left in chars;
        }
      } else if k == st.left && st.left < st.right {
        assert st.right - 1 in chars;
      }
    }
  }

  /** Every character of a tight store that is not the blank lies inside the bounds, so
      str() shows it at its own offset. */
  lemma TightShowsEveryCell(st: Store, k: int)
    requires Tight(st) && Cell(st.chars, k) != Blank
    ensures st.left <= k < st.right
    ensures |Render(st.chars, st.left, st.right)| == st.right - st.left
    ensures Render(st.chars, st.left, st.right)[k - st.left] == Cell(st.chars, k)
  {
    RenderAt(st.chars, st.left, st.right);
  }

  /** The tape after get_tape_string, whose reads insert blanks over [left, right). */
  function Settle(st: Store): Store {
    st.(chars := Materialize(st.chars, st.left, st.right))
  }

  /** get_tape_string leaves a tight tape tight and renders the same text again. */
  lemma SettleKeepsTight(st: Store)
    requires Tight(st)
    ensures Tight(Settle(st))
    ensures Render(Settle(st).chars, st.left, st.right) == Render(st.chars, st.left, st.right)
  {
    RenderSameCells(Settle(st).chars, st.chars, st.left, st.right);
  }

  /** How far the head moves for a move code: "R" and "L" move it, any other code
      ("N", a lower-case letter, anything) leaves it. */
  function Shift(move: string): int {
    if move == MoveRight then 1 else if move == MoveLeft then -1 else 0
  }

  /** One pass of run's loop body (lines 114-134). */
  ghost function Tact(rules: RuleTable, cfg: Config, record: bool): (r: Outcome<Config>)
    ensures r.Ok? ==> r.value.tacts == cfg.tacts + 1
    ensures r.Ok? ==> cfg.steps <= r.value.steps && |r.value.steps| == |cfg.steps| + if record then 1 else 0
    ensures r.Ok? && record ==> var rec := r.value.steps[|cfg.steps|];
      && rec.currState == cfg.state && rec.nextState == r.value.state && rec.tact == cfg.tacts
      && rec.currCharacter == Cell(cfg.store.chars, cfg.position)
      && rec.nextCharacter == Cell(r.value.store.chars, cfg.position)
      && r.value.position == cfg.position + Shift(rec.move)
    ensures r.Raised? ==> r.value == cfg.(store := Touch(cfg.store, cfg.position))
  {
    var c := Cell(cfg.store.chars, cfg.position);
    var touched := Touch(cfg.store, cfg.position);
    if cfg.state !in rules then Raised(cfg.(store := touched), MissingState(cfg.state))
    else if c !in rules[cfg.state] then Raised(cfg.(store := touched), MissingSymbol(cfg.state, c))
    else
      var rule := rules[cfg.state][c];
      var steps :=
        if record then cfg.steps + [StepRecord(cfg.state, rule.next, c, rule.write, rule.move, cfg.tacts)]
        else cfg.steps;
      WriteReadsBack(touched, cfg.position, rule.write);
      Ok(Config(Write(touched, cfg.position, rule.write), cfg.position + Shift(rule.move), rule.next, cfg.tacts + 1, steps))
  }

  /** run's loop from a configuration on: it stops when q is the stop state or tacts
      reaches max_tacts, and an exception ends it where it was raised. */
  ghost function RunFrom(rules: RuleTable, cfg: Config, maxTacts: int, record: bool): Outcome<Config>
    decreases maxTacts - cfg.tacts
  {
    if cfg.state == StopState || cfg.tacts >= maxTacts then Ok(cfg)
    else
      match Tact(rules, cfg, record)
      case Raised(c, f) => Raised(c, f)
      case Ok(c) => RunFrom(rules, c, maxTacts, record)
  }

  /** The result dictionary built from where the loop ended (lines 136-144). */
  function Report(cfg: Config, maxTacts: int, mode: string): RunResult {
    RunResult(
      if cfg.tacts < maxTacts then SuccessfulStatus else MaxIterationsReachedStatus,
      Render(cfg.store.chars, cfg.store.left, cfg.store.right),
      cfg.tacts,
      cfg.position,
      if mode == ByStepMode then Some(cfg.steps) else None)
  }

  /** The text of one rules-table cell, c_next, q_next and move joined by spaces. */
  function RuleText(rule: Rule): string {
    [rule.write] + " " + rule.next + " " + rule.move
  }

  /** __cell_to_str(q, c, prettify): the cell for state q and symbol c, or KeyError when
      the table has no rule there. Without prettify it is the plain text of the rule. With
      prettify a rule that keeps the symbol is abbreviated: to its move when it also keeps
      the state, else to its next state when it does not move. */
  function CellToStr(rules: RuleTable, q: string, c: char, prettify: bool): (r: Result<string, Fault>)
    ensures r.Failure? <==> q !in rules || c !in rules[q]
    ensures r.Failure? ==> r.error == if q !in rules then MissingState(q) else MissingSymbol(q, c)
    ensures r.Success? && !prettify ==> r.value == RuleText(rules[q][c])
    ensures r.Success? && prettify ==> var rule := rules[q][c];
      || (rule.write == c && rule.next == q && r.value == rule.move)
      || (rule.write == c && rule.next != q && rule.move == MoveNone && r.value == rule.next)
      || (!(rule.write == c && (rule.next == q || rule.move == MoveNone)) && r.value == RuleText(rule))
  {
    if q !in rules then Failure(MissingState(q))
    else if c !in rules[q] then Failure(MissingSymbol(q, c))
    else
      var rule := rules[q][c];
      if prettify && rule.write == c && rule.next == q then Success(rule.move)
      else if prettify && rule.write == c && rule.move == MoveNone then Success(rule.next)
      else Success(RuleText(rule))
  }

  /** Splits a string at its first space. */
  function SplitAtSpace(s: string): Option<(string, string)> {
    if s == [] then None
    else if s[0] == ' ' then Some(([], s[1..]))
    else
      match SplitAtSpace(s[1..])
      case None => None
      case Some(parts) => Some(([s[0]] + parts.0, parts.1))
  }

  /** Reads a plain rules-table cell back into its rule. */
  function ParseRuleText(s: string): Option<Rule> {
    if |s| < 2 || s[1] != ' ' then None
    else
      match SplitAtSpace(s[2..])
      case None => None
      case Some(parts) => Some(Rule(s[0], parts.1, parts.0))
  }

  lemma {:induction false} SplitAtFirstSpace(a: string, b: string)
    requires ' ' !in a
    ensures SplitAtSpace(a + " " + b) == Some((a, b))
  {
    var s := a + " " + b;
    if a == [] {
      assert s[1..] == b;
    } else {
      assert s[0] == a[0] && s[1..] == a[1..] + " " + b;
      SplitAtFirstSpace(a[1..], b);
      assert [a[0]] + a[1..] == a;
    }
  }

  /** A plain cell reads back as the rule it shows, when the state name has no space. */
  lemma RuleTextRoundTrip(rule: Rule)
    requires ' ' !in rule.next
    ensures ParseRuleText(RuleText(rule)) == Some(rule)
  {
    var s := RuleText(rule);
    assert s[2..] == rule.next + " " + rule.move;
    SplitAtFirstSpace(rule.next, rule.move);
  }

  /** The plain rules table loses nothing: each present cell reads back as its rule. */
  lemma PlainCellRoundTrip(rules: RuleTable, q: string, c: char)
    requires q in rules && c in rules[q] && ' ' !in rules[q][c].next
    ensures CellToStr(rules, q, c, false).Success?
    ensures ParseRuleText(CellToStr(rules, q, c, false).value) == Some(rules[q][c])
  {
    RuleTextRoundTrip(rules[q][c]);
  }

  // ---------------------------------------------------------------------------
  // The module's Tape class

  class Tape {
    var chars: Chars
    var left: int
    var right: int

    ghost function Value(): Store
      reads this
    {
      Store(chars, left, right)
    }

    /** Tape(input=''). */
    constructor (input: string := "")
      ensures Value() == Init(input)
    {
      chars := Enumerate(input);
      left := 0;
      right := |input|;
    }

    /** tape[key]: the character there; an absent key is inserted as a blank. */
    method Get(key: int) returns (c: char)
      modifies this`chars
      ensures c == Cell(old(chars), key)
      ensures Value() == Touch(old(Value()), key)
    {
      c, chars := Lookup(chars, key);
    }

    /** tape[key] = value with the incremental bounds of lines 27-39, corrected. */
    method Set(key: int, value: char)
      modifies this
      ensures Value() == Write(old(Value()), key, value)
    {
      if value != Blank {
        if left >= right {
          left, right := key, key + 1;
        } else if key >= right {
          right := key + 1;
        } else if key < left {
          left := key;
        }
        chars := chars[key := value];
      } else if key in chars {
        chars := chars - {key};
        if key == right - 1 {
          var hi := MaxKey(chars.Keys);
          right := if hi.Some? then hi.value + 1 else left;
        } else if key == left {
          var lo := MinKey(chars.Keys);
          if lo.Some? {
            left := lo.value;
          }
        }
      }
    }

    /** str(tape). */
    method ToString() returns (s: string)
      modifies this`chars
      ensures s == Render(old(chars), left, right)
      ensures Value() == Settle(old(Value()))
    {
      s, chars := Join(chars, left, right);
    }

    /** string_with_position(head). */
    method StringWithPosition(head: int) returns (s: string)
      modifies this`chars
      ensures s == Marked(old(chars), left, right, head)
      ensures Value() == Settle(old(Value()))
    {
      s, chars := JoinMarked(chars, left, right, head);
    }
  }

  /** One pass of run's loop body (lines 114-134) on the tape t: read the head's cell,
      look up the rule, write, record the step in by-step mode and move. It does what
      Tact says: the KeyError it raises, or the next state, head and steps. */
  method TactOn(t: Tape, rules: RuleTable, q: string, position: int, tacts: int, steps: seq<StepRecord>, record: bool)
      returns (fault: Option<Fault>, next: string, moved: int, recorded: seq<StepRecord>)
    modifies t
    ensures var r := Tact(rules, Config(old(t.Value()), position, q, tacts, steps), record);
      && t.Value() == r.value.store
      && (r.Raised? <==> fault.Some?)
      && (r.Raised? ==> fault.value == r.fault)
      && (r.Ok? ==> r.value == Config(t.Value(), moved, next, tacts + 1, recorded))
  {
    var c := t.Get(position);
    if q !in rules {
      return Some(MissingState(q)), q, position, steps;
    }
    if c !in rules[q] {
      return Some(MissingSymbol(q, c)), q, position, steps;
    }
    var rule := rules[q][c];
    t.Set(position, rule.write);
    recorded := steps;
    if record {
      recorded := steps + [StepRecord(q, rule.next, c, rule.write, rule.move, tacts)];
    }
    moved := position;
    if rule.move == MoveRight {
      moved := position + 1;
    } else if rule.move == MoveLeft {
      moved := position - 1;
    }
    fault, next := None, rule.next;
  }

  // ---------------------------------------------------------------------------
  // The machine

  class TuringMachine {
    var alphabet: string
    var rules: RuleTable
    var tape: Tape
    var position: int

    /** TuringMachine(*, alphabet, rules, tape='', position=0), all by keyword: the blank
        is appended to the alphabet. */
    constructor (nameonly alphabet: string, nameonly rules: RuleTable, nameonly tape: string := "", nameonly position: int := 0)
      ensures this.alphabet == alphabet + [Blank] && this.rules == rules
      ensures fresh(this.tape) && this.tape.Value() == Init(tape) && this.position == position
    {
      this.alphabet := alphabet + [Blank];
      this.rules := rules;
      this.tape := new Tape(tape);
      this.position := position;
    }

    /** reset(tape, position=0): a new tape and head; alphabet and rules stay. */
    method Reset(input: string, position: int := 0)
      modifies this
      ensures alphabet == old(alphabet) && rules == old(rules)
      ensures fresh(tape) && tape.Value() == Init(input) && this.position == position
    {
      this.position := position;
      this.tape := new Tape(input);
    }

    /** get_tape_string(). */
    method GetTapeString() returns (s: string)
      modifies tape
      ensures s == Render(old(tape.chars), tape.left, tape.right)
      ensures tape.Value() == Settle(old(tape.Value()))
    {
      s := tape.ToString();
    }

    /** run(mode, max_tacts, initial_state). The state starts from initial_state on
        every call while the head starts where the last call left it. A missing rule
        raises KeyError, and then no result is returned. */
    method Run(mode: string := NormalMode, maxTacts: int := MaxIterations, initialState: string := "q0") returns (r: Result<RunResult, Fault>)
      modifies this, tape
      ensures tape == old(tape) && alphabet == old(alphabet) && rules == old(rules)
      ensures var out := RunFrom(rules, Config(old(tape.Value()), old(position), initialState, 0, []),
                                 maxTacts, mode == ByStepMode);
        && position == out.value.position
        && (out.Raised? ==> r == Failure(out.fault) && tape.Value() == out.value.store)
        && (out.Ok? ==> r == Success(Report(out.value, maxTacts, mode)) && tape.Value() == Settle(out.value.store))
    {
      var t, table, record := tape, rules, mode == ByStepMode;
      ghost var goal := RunFrom(table, Config(t.Value(), position, initialState, 0, []), maxTacts, record);
      var q, tacts, steps := initialState, 0, [];
      while q != StopState && tacts < maxTacts
        invariant tape == t && rules == table && alphabet == old(alphabet)
        invariant RunFrom(table, Config(t.Value(), position, q, tacts, steps), maxTacts, record) == goal
        decreases maxTacts - tacts
      {
        var fault, next, moved, recorded := TactOn(t, table, q, position, tacts, steps, record);
        if fault.Some? {
          return Failure(fault.value);
        }
        q, position, tacts, steps := next, moved, tacts + 1, recorded;
      }
      var text := t.ToString();
      r := Success(RunResult(
        if tacts < maxTacts then SuccessfulStatus else MaxIterationsReachedStatus,
        text, tacts, position, if record then Some(steps) else None));
    }
  }

  // ---------------------------------------------------------------------------
  // What a run promises

  /** One tact reads the head's cell, finds its rule, leaves the rule's symbol in that
      cell and no other cell changed, then moves the head by the rule's move and enters
      the rule's next state. */
  lemma TactWritesThenMoves(rules: RuleTable, cfg: Config, record: bool)
    requires Tact(rules, cfg, record).Ok?
    ensures var c := Cell(cfg.store.chars, cfg.position);
      && cfg.state in rules && c in rules[cfg.state]
      && var rule := rules[cfg.state][c]; var next := Tact(rules, cfg, record).value;
      && Cell(next.store.chars, cfg.position) == rule.write
      && (forall k :: k != cfg.position ==> Cell(next.store.chars, k) == Cell(cfg.store.chars, k))
      && next.position == cfg.position + Shift(rule.move)
      && next.state == rule.next
      && (record ==> next.steps[|cfg.steps|] == StepRecord(cfg.state, rule.next, c, rule.write, rule.move, cfg.tacts))
  {
  }

  /** A missing rule for the reached state and symbol aborts the run with KeyError. */
  lemma MissingRuleAborts(rules: RuleTable, cfg: Config, maxTacts: int, record: bool)
    requires cfg.state != StopState && cfg.tacts < maxTacts
    requires cfg.state !in rules || Cell(cfg.store.chars, cfg.position) !in rules[cfg.state]
    ensures var out := RunFrom(rules, cfg, maxTacts, record);
      && out.Raised?
      && out.fault == (if cfg.state !in rules then MissingState(cfg.state)
                       else MissingSymbol(cfg.state, Cell(cfg.store.chars, cfg.position)))
  {
  }

  /** A tact raises KeyError, after the read, exactly when the rule is missing: the
      error names the state when the state has no row, and otherwise the state and
      the symbol read. */
  lemma TactRaisesOnMissingRule(rules: RuleTable, cfg: Config, record: bool)
    ensures var r := Tact(rules, cfg, record);
      var c := Cell(cfg.store.chars, cfg.position);
      && (r.Raised? <==> cfg.state !in rules || c !in rules[cfg.state])
      && (r.Raised? ==> r.fault == (if cfg.state !in rules then MissingState(cfg.state) else MissingSymbol(cfg.state, c)))
  {
  }

  /** The budget: a run performs no more than max_tacts tacts (none when it is not
      positive), and it ends without exception only in the stop state or with the
      budget used up. */
  lemma {:induction false} RunBudget(rules: RuleTable, cfg: Config, maxTacts: int, record: bool)
    ensures var out := RunFrom(rules, cfg, maxTacts, record).value;
      cfg.tacts <= out.tacts <= Max(cfg.tacts, maxTacts)
    ensures var out := RunFrom(rules, cfg, maxTacts, record);
      out.Ok? ==> out.value.state == StopState || out.value.tacts == Max(cfg.tacts, maxTacts)
    decreases maxTacts - cfg.tacts
  {
    if cfg.state != StopState && cfg.tacts < maxTacts {
      var t := Tact(rules, cfg, record);
      if t.Ok? {
        RunBudget(rules, t.value, maxTacts, record);
      }
    }
  }

  /** From index n on, each record's next state is the state the following record starts
      from, and the last one's is the final state. */
  predicate Chained(steps: seq<StepRecord>, n: nat, final: string) {
    forall k :: n <= k < |steps| ==>
      steps[k].nextState == if k + 1 < |steps| then steps[k + 1].currState else final
  }

  /** The trace: in by-step mode one record per tact, numbered from the first tact on,
      each leaving the state the next one starts from; otherwise no record at all. */
  lemma {:induction false} RunTrace(rules: RuleTable, cfg: Config, maxTacts: int, record: bool)
    ensures var out := RunFrom(rules, cfg, maxTacts, record).value;
      cfg.steps <= out.steps && |out.steps| == |cfg.steps| + (if record then out.tacts - cfg.tacts else 0)
    ensures var out := RunFrom(rules, cfg, maxTacts, record).value; var n := |cfg.steps|;
      forall k :: n <= k < |out.steps| ==> out.steps[k].tact == cfg.tacts + (k - n)
    ensures var out := RunFrom(rules, cfg, maxTacts, record).value; Chained(out.steps, |cfg.steps|, out.state)
    ensures var out := RunFrom(rules, cfg, maxTacts, record).value;
      |out.steps| > |cfg.steps| ==> out.steps[|cfg.steps|].currState == cfg.state
    ensures var out := RunFrom(rules, cfg, maxTacts, record).value;
      out.tacts == cfg.tacts ==> out.state == cfg.state && out.position == cfg.position
    decreases maxTacts - cfg.tacts
  {
    if cfg.state != StopState && cfg.tacts < maxTacts {
      var t := Tact(rules, cfg, record);
      if t.Ok? {
        var next := t.value;
        assert RunFrom(rules, cfg, maxTacts, record) == RunFrom(rules, next, maxTacts, record);
        RunTrace(rules, next, maxTacts, record);
        RunBudget(rules, next, maxTacts, record);
        var out := RunFrom(rules, next, maxTacts, record).value;
        var n := |cfg.steps|;
        if record {
          assert out.steps[n] == next.steps[n];
          if n + 1 == |out.steps| {
            assert out.tacts == next.tacts;
          }
          assert Chained(out.steps, n + 1, out.state);
          assert out.steps[n].nextState == next.state;
          if n + 1 < |out.steps| {
            assert out.steps[n + 1].currState == next.state;
          }
        }
      }
    }
  }

  /** What run reports: at most max_tacts iterations, "successful" exactly when fewer
      tacts than max_tacts ran, which implies the stop state was reached (halting on the
      max_tacts-th tact therefore reports "max iterations reached"), and in by-step mode
      the steps numbered 0, 1, ... one per iteration. */
  lemma RunStatus(rules: RuleTable, st: Store, position: int, initialState: string, maxTacts: int, mode: string)
    ensures var out := RunFrom(rules, Config(st, position, initialState, 0, []), maxTacts, mode == ByStepMode);
      out.Ok? ==>
        var res := Report(out.value, maxTacts, mode);
        && 0 <= res.iterations <= Max(0, maxTacts)
        && (res.status == SuccessfulStatus <==> res.iterations < maxTacts)
        && (res.status == SuccessfulStatus ==> out.value.state == StopState)
        && (out.value.state != StopState ==> res.status == MaxIterationsReachedStatus)
        && (res.steps.Some? <==> mode == ByStepMode)
        && (res.steps.Some? ==>
              && |res.steps.value| == res.iterations
              && forall k :: 0 <= k < |res.steps.value| ==> res.steps.value[k].tact == k)
  {
    var cfg := Config(st, position, initialState, 0, []);
    RunBudget(rules, cfg, maxTacts, mode == ByStepMode);
    RunTrace(rules, cfg, maxTacts, mode == ByStepMode);
  }

  /** A run that ends without exception leaves a tight tape tight. */
  lemma {:induction false} RunKeepsTight(rules: RuleTable, cfg: Config, maxTacts: int, record: bool)
    requires Tight(cfg.store)
    ensures RunFrom(rules, cfg, maxTacts, record).Ok? ==> Tight(RunFrom(rules, cfg, maxTacts, record).value.store)
    decreases maxTacts - cfg.tacts
  {
    if cfg.state != StopState && cfg.tacts < maxTacts {
      var t := Tact(rules, cfg, record);
      if t.Ok? {
        var rule := rules[cfg.state][Cell(cfg.store.chars, cfg.position)];
        WriteKeepsTight(cfg.store, cfg.position, rule.write);
        RunKeepsTight(rules, t.value, maxTacts, record);
      }
    }
  }

  /** A run entered in the stop state does nothing: no tact, tape and head as they were,
      and "successful" exactly when max_tacts is positive. */
  lemma HaltedRunIsNoop(rules: RuleTable, st: Store, position: int, maxTacts: int, mode: string)
    ensures var cfg := Config(st, position, StopState, 0, []);
      && RunFrom(rules, cfg, maxTacts, mode == ByStepMode) == Ok(cfg)
      && (Report(cfg, maxTacts, mode).status == SuccessfulStatus <==> maxTacts > 0)
  {
  }
}
