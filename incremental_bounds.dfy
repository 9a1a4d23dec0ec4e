/** The bounds update of turing_machine/turing_machine.py, lines 27-39, exactly as
    written, set against the corrected Machine.Write: where the two agree, and the
    inputs on which the written one leaves bounds that are not the hull of the stored
    indices or raises. */
module IncrementalBounds {
  import opened Wrappers
  import opened Constants
  import opened Faults
  import opened Cells
  import opened Machine

  /** tape[k] = v as written. A non-blank value widens right to k + 1 when k >= right,
      else lowers left to k when k < left, even when the bounds were empty. The blank
      deletes a stored key; when that key was right - 1, right becomes max of the keys
      left without the + 1, raising ValueError when none is left. The recomputation of
      left at line 38 tests value != LAMBDA inside the blank case, so it never runs. */
  ghost function WriteAsWritten(st: Store, k: int, v: char): (r: Outcome<Store>)
    ensures Cell(r.value.chars, k) == v
    ensures forall i :: i != k ==> Cell(r.value.chars, i) == Cell(st.chars, i)
    ensures r.Raised? ==> r.fault == EmptySequence && r.value.chars == map[]
  {
    if v != Blank then
      var bounds :=
        if k >= st.right then st.(right := k + 1)
        else if k < st.left then st.(left := k)
        else st;
      Ok(bounds.(chars := st.chars[k := v]))
    else if k in st.chars then
      var chars := st.chars - {k};
      if k == st.right - 1 then
        match Greatest(chars.Keys)
        case None => Raised(st.(chars := chars), EmptySequence)
        case Some(g) => Ok(Store(chars, st.left, g))
      else Ok(st.(chars := chars))
    else Ok(st)
  }

  /** On a tape with non-empty bounds the written update is the corrected one, except
      for erasing the first or the last index of the bounds. */
  lemma AgreesAwayFromEnds(st: Store, k: int, v: char)
    requires st.left < st.right
    requires v == Blank ==> k != st.left && k != st.right - 1
    ensures WriteAsWritten(Touch(st, k), k, v) == Ok(Write(Touch(st, k), k, v))
  {
  }

  /** Line 37, as written: erasing the last character of "ab" sets right to 0, the index
      of the remaining 'a', so str() hides that 'a'; the corrected bounds show "a". */
  lemma ErasingLastIndexHidesCell()
    ensures var st := Touch(Init("ab"), 1);
      && WriteAsWritten(st, 1, Blank) == Ok(Store(map[0 := 'a'], 0, 0))
      && Render(WriteAsWritten(st, 1, Blank).value.chars, 0, 0) == ""
      && Write(st, 1, Blank) == Store(map[0 := 'a'], 0, 1)
      && Render(map[0 := 'a'], 0, 1) == "a"
  {
    var st := Touch(Init("ab"), 1);
    assert st.chars == map[0 := 'a', 1 := 'b'];
    assert st.chars - {1} == map[0 := 'a'];
    assert Greatest({0}) == Some(0);
  }

  /** Line 38, as written: erasing the first character of "ab" leaves left at 0, so
      str() shows a blank before the 'b'; the corrected bounds show "b". */
  lemma ErasingFirstIndexKeepsBlank()
    ensures var st := Touch(Init("ab"), 0);
      && WriteAsWritten(st, 0, Blank) == Ok(Store(map[1 := 'b'], 0, 2))
      && Render(map[1 := 'b'], 0, 2) == [Blank, 'b']
      && Write(st, 0, Blank) == Store(map[1 := 'b'], 1, 2)
      && Render(map[1 := 'b'], 1, 2) == "b"
  {
    var st := Touch(Init("ab"), 0);
    assert st.chars == map[0 := 'a', 1 := 'b'];
    assert (st.chars - {0}).Keys == {1};
    assert st.chars - {0} == map[1 := 'b'];
  }

  /** Lines 29-32, as written: on an empty tape the bounds [0, 0) are widened towards
      the written index instead of replaced, so writing 'x' at 3 shows three blanks
      before it, and writing it at -2 one blank after it; the corrected bounds show "x". */
  lemma WritingEmptyTapePadsWithBlanks()
    ensures var st := Touch(Init(""), 3);
      && WriteAsWritten(st, 3, 'x') == Ok(Store(map[3 := 'x'], 0, 4))
      && Render(map[3 := 'x'], 0, 4) == [Blank, Blank, Blank, 'x']
      && Write(st, 3, 'x') == Store(map[3 := 'x'], 3, 4)
      && Render(map[3 := 'x'], 3, 4) == "x"
    ensures var st := Touch(Init(""), -2);
      && WriteAsWritten(st, -2, 'x') == Ok(Store(map[-2 := 'x'], -2, 0))
      && Render(map[-2 := 'x'], -2, 0) == ['x', Blank]
      && Write(st, -2, 'x') == Store(map[-2 := 'x'], -2, -1)
      && Render(map[-2 := 'x'], -2, -1) == "x"
  {
    assert Enumerate("") == map[];
    assert Touch(Init(""), 3).chars[3 := 'x'] == map[3 := 'x'];
    assert Touch(Init(""), -2).chars[-2 := 'x'] == map[-2 := 'x'];
  }

  /** Line 37, as written: erasing the only character raises ValueError (max of no keys),
      so a machine that erases its whole input crashes; the corrected tape is empty. */
  lemma ErasingOnlyCellRaises()
    ensures var st := Touch(Init("a"), 0);
      && WriteAsWritten(st, 0, Blank) == Raised(Store(map[], 0, 1), EmptySequence)
      && Write(st, 0, Blank) == Store(map[], 0, 0)
      && Render(map[], 0, 0) == ""
  {
    var st := Touch(Init("a"), 0);
    assert st.chars == map[0 := 'a'];
    assert (st.chars - {0}).Keys == {};
  }
}
