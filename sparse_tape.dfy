/** The infinite tape of turing_machine/tape.py: a sparse store of characters
    whose bounds [left, right) are recomputed from the stored keys after every
    write and every filter. */
module SparseTape {
  import opened Wrappers
  import opened Constants
  import opened Faults
  import opened Cells

  /** The characters a filter by alphabet keeps. */
  function Kept(chars: Chars, alphabet: string): (m: Chars)
    ensures forall k :: k in m <==> k in chars && chars[k] in alphabet
    ensures forall k :: k in m ==> m[k] == chars[k]
  {
    map k | k in chars && chars[k] in alphabet :: chars[k]
  }

  class Tape {
    var chars: Chars
    var left: int
    var right: int

    /** Tape(input=''): character i of the input at index i, bounds [0, |input|). */
    constructor (input: string := "")
      ensures chars == Enumerate(input) && left == 0 && right == |input|
    {
      chars := Enumerate(input);
      left := 0;
      right := |input|;
    }

    /** right := max(keys) + 1, then left := min(keys); for no keys the first raises
        ValueError and neither bound changes. */
    method Rebound() returns (fault: Option<Fault>)
      modifies this`left, this`right
      ensures fault.Some? <==> chars == map[]
      ensures fault.Some? ==> fault.value == EmptySequence && left == old(left) && right == old(right)
      ensures fault.None? ==> Spans(chars, left, right)
    {
      var hi := MaxKey(chars.Keys);
      if hi.None? {
        assert chars.Keys == {};
        return Some(EmptySequence);
      }
      right := hi.value + 1;
      var lo := MinKey(chars.Keys);
      left := lo.value;
      fault := None;
    }

    /** filter(alphabet): removes every entry whose character is not in the alphabet,
        then recomputes both bounds. */
    method Filter(alphabet: string) returns (fault: Option<Fault>)
      modifies this
      ensures chars == Kept(old(chars), alphabet)
      ensures fault.Some? <==> chars == map[]
      ensures fault.Some? ==> fault.value == EmptySequence && left == old(left) && right == old(right)
      ensures fault.None? ==> Spans(chars, left, right)
    {
      var doomed := set i | i in chars && chars[i] !in alphabet;
      var done := false;
      while !done
        invariant doomed <= chars.Keys
        invariant forall i :: i in chars <==> i in old(chars) && (old(chars)[i] in alphabet || i in doomed)
        invariant forall i :: i in chars ==> chars[i] == old(chars)[i]
        invariant done ==> doomed == {}
        invariant left == old(left) && right == old(right)
        decreases doomed, !done
      {
        if i :| i in doomed {
          chars := chars - {i};
          doomed := doomed - {i};
        } else {
          assert forall i :: i !in doomed;
          done := true;
        }
      }
      ghost var kept := Kept(old(chars), alphabet);
      assert forall i :: i in chars <==> i in kept;
      assert forall i :: i in chars ==> chars[i] == kept[i];
      fault := Rebound();
    }

    /** tape[key]: the character there; an absent key is inserted as a blank. */
    method Get(key: int) returns (c: char)
      modifies this`chars
      ensures c == Cell(old(chars), key)
      ensures chars == old(chars)[key := c]
    {
      c, chars := Lookup(chars, key);
    }

    /** tape[key] = value: stores a non-blank value, deletes the key for the blank,
        then recomputes both bounds (ValueError when no key is left). */
    method Set(key: int, value: char) returns (fault: Option<Fault>)
      modifies this
      ensures chars == if value != Blank then old(chars)[key := value] else old(chars) - {key}
      ensures Cell(chars, key) == value
      ensures forall k :: k != key ==> Cell(chars, k) == Cell(old(chars), k)
      ensures fault.Some? <==> chars == map[]
      ensures fault.Some? ==> fault.value == EmptySequence && left == old(left) && right == old(right)
      ensures fault.None? ==> Spans(chars, left, right)
    {
      if value != Blank {
        chars := chars[key := value];
      } else if key in chars {
        chars := chars - {key};
      }
      fault := Rebound();
    }

    /** str(tape): the cells of [left, right) in order; the reads insert blanks. */
    method ToString() returns (s: string)
      modifies this`chars
      ensures s == Render(old(chars), left, right)
      ensures chars == Materialize(old(chars), left, right)
    {
      s, chars := Join(chars, left, right);
    }

    /** string_with_position(head): str(tape) with the head's cell in brackets. */
    method StringWithPosition(head: int) returns (s: string)
      modifies this`chars
      ensures s == Marked(old(chars), left, right, head)
      ensures chars == Materialize(old(chars), left, right)
    {
      s, chars := JoinMarked(chars, left, right, head);
    }
  }
}
