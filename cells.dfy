/** What both tape classes share: a store maps integer indices to characters
    and is read as a total function whose default is the blank. Reading an
    absent index through the store (a defaultdict) also inserts a blank there. */
module Cells {
  import opened Wrappers
  import opened Constants

  type Chars = map<int, char>

  /** The character a read of index k yields. */
  function Cell(chars: Chars, k: int): char {
    if k in chars then chars[k] else Blank
  }

  /** The store an initial string fills: character i sits at index i. */
  function Enumerate(s: string): Chars {
    map k | 0 <= k < |s| :: s[k]
  }

  /** n copies of the blank. */
  function Blanks(n: nat): string {
    seq(n, _ => Blank)
  }

  /** The head marker around one character. */
  function Bracket(c: char): string {
    ['[', c, ']']
  }

  /** The text str() joins from the cells lo, lo + 1, ..., hi - 1 (empty when hi <= lo). */
  function Render(chars: Chars, lo: int, hi: int): string
    decreases hi - lo
  {
    if hi <= lo then [] else Render(chars, lo, hi - 1) + [Cell(chars, hi - 1)]
  }

  /** The store after every index of [lo, hi) has been read through it. */
  function Materialize(chars: Chars, lo: int, hi: int): (m: Chars)
    ensures forall k :: lo <= k < hi ==> k in m
    ensures forall k :: k in m ==> k in chars || lo <= k < hi
    ensures forall k :: Cell(m, k) == Cell(chars, k)
  {
    chars + map k | lo <= k < hi && k !in chars :: Blank
  }

  /** The text string_with_position(head) produces for the bounds [lo, hi). */
  function Marked(chars: Chars, lo: int, hi: int, head: int): string {
    if head < lo then Bracket(Blank) + Blanks(lo - head - 1) + Render(chars, lo, hi)
    else if head >= hi then Render(chars, lo, hi) + Blanks(head - hi) + Bracket(Blank)
    else Render(chars, lo, head) + Bracket(Cell(chars, head)) + Render(chars, head + 1, hi)
  }

  /** [lo, hi) is the hull of the stored indices: both ends are stored and nothing
      lies outside. */
  predicate Spans(chars: Chars, lo: int, hi: int) {
    && lo in chars && hi - 1 in chars
    && forall k :: k in chars ==> lo <= k < hi
  }

  /** A store has at most one hull. */
  lemma SpansUnique(chars: Chars, lo: int, hi: int, lo': int, hi': int)
    requires Spans(chars, lo, hi) && Spans(chars, lo', hi')
    ensures lo == lo' && hi == hi'
  {
  }

  /** The hull is what min() and max() + 1 of the keys give. */
  lemma SpansLeastGreatest(chars: Chars, lo: int, hi: int)
    ensures Spans(chars, lo, hi) <==> Least(chars.Keys) == Some(lo) && Greatest(chars.Keys) == Some(hi - 1)
  {
  }

  /** min() of a set of keys: None for no keys, where Python raises ValueError. */
  ghost function Least(keys: set<int>): (r: Option<int>)
    ensures r.None? <==> keys == {}
    ensures r.Some? ==> r.value in keys && forall k :: k in keys ==> r.value <= k
  {
    if x :| x in keys then
      var rest := Least(keys - {x});
      assert forall k :: k in keys ==> k == x || k in keys - {x};
      if rest.None? || x < rest.value then Some(x) else rest
    else None
  }

  /** max() of a set of keys: None for no keys, where Python raises ValueError. */
  ghost function Greatest(keys: set<int>): (r: Option<int>)
    ensures r.None? <==> keys == {}
    ensures r.Some? ==> r.value in keys && forall k :: k in keys ==> k <= r.value
  {
    if x :| x in keys then
      var rest := Greatest(keys - {x});
      assert forall k :: k in keys ==> k == x || k in keys - {x};
      if rest.None? || x > rest.value then Some(x) else rest
    else None
  }

  // ---------------------------------------------------------------------------
  // Properties of the rendered text

  /** str() has one character per index of the range, each the cell's character, in index order. */
  lemma {:induction false} RenderAt(chars: Chars, lo: int, hi: int)
    ensures |Render(chars, lo, hi)| == if hi <= lo then 0 else hi - lo
    ensures forall i :: 0 <= i < hi - lo ==> Render(chars, lo, hi)[i] == Cell(chars, lo + i)
    decreases hi - lo
  {
    if hi > lo {
      RenderAt(chars, lo, hi - 1);
    }
  }

  /** The text of a range is the text of its two halves, one after the other. */
  lemma {:induction false} RenderSplit(chars: Chars, lo: int, mid: int, hi: int)
    requires lo <= mid <= hi
    ensures Render(chars, lo, hi) == Render(chars, lo, mid) + Render(chars, mid, hi)
    decreases hi - mid
  {
    if mid < hi {
      RenderSplit(chars, lo, mid, hi - 1);
    }
  }

  /** The text depends only on what the cells read, not on which blanks are stored. */
  lemma {:induction false} RenderSameCells(c1: Chars, c2: Chars, lo: int, hi: int)
    requires forall k :: lo <= k < hi ==> Cell(c1, k) == Cell(c2, k)
    ensures Render(c1, lo, hi) == Render(c2, lo, hi)
    decreases hi - lo
  {
    if hi > lo {
      RenderSameCells(c1, c2, lo, hi - 1);
    }
  }

  /** A range of blank cells renders as that many blanks. */
  lemma {:induction false} RenderBlank(chars: Chars, lo: int, hi: int)
    requires lo <= hi
    requires forall k :: lo <= k < hi ==> Cell(chars, k) == Blank
    ensures Render(chars, lo, hi) == Blanks(hi - lo)
    decreases hi - lo
  {
    if hi > lo {
      RenderBlank(chars, lo, hi - 1);
      assert Blanks(hi - lo) == Blanks(hi - 1 - lo) + [Blank];
    }
  }

  /** Round trip: the store an initial string fills renders back as that string. */
  lemma RenderEnumerate(s: string)
    ensures Render(Enumerate(s), 0, |s|) == s
  {
    RenderAt(Enumerate(s), 0, |s|);
  }

  /** Any range of the store an initial string fills renders as that part of the string. */
  lemma RenderEnumerateSlice(s: string, lo: int, hi: int)
    requires 0 <= lo <= hi <= |s|
    ensures Render(Enumerate(s), lo, hi) == s[lo..hi]
  {
    RenderAt(Enumerate(s), lo, hi);
  }

  /** On the store an initial string fills, the head's character is bracketed in place. */
  lemma MarkedEnumerate(s: string, head: int)
    requires 0 <= head < |s|
    ensures Marked(Enumerate(s), 0, |s|, head) == s[..head] + Bracket(s[head]) + s[head + 1..]
  {
    RenderEnumerateSlice(s, 0, head);
    RenderEnumerateSlice(s, head + 1, |s|);
  }

  /** A character bracketed between two texts sits at the first text's length, and
      dropping the brackets gives the three pieces joined. */
  lemma BracketBetween(a: string, x: char, b: string)
    ensures var r := a + Bracket(x) + b; var j := |a|;
      && |r| == |a| + |b| + 3
      && r[j] == '[' && r[j + 1] == x && r[j + 2] == ']'
      && r[..j] + [r[j + 1]] + r[j + 3..] == a + [x] + b
  {
    var r := a + Bracket(x) + b;
    assert r[..|a|] == a;
    assert r[|a| + 3..] == b;
  }

  /** Inside the bounds the marker brackets exactly the head's character; removing the two
      brackets gives back str(), so every other character is unchanged and in index order. */
  lemma MarkedInside(chars: Chars, lo: int, hi: int, head: int)
    requires lo <= head < hi
    ensures var r := Marked(chars, lo, hi, head); var j := head - lo;
      && |r| == hi - lo + 2
      && r[j] == '[' && r[j + 1] == Cell(chars, head) && r[j + 2] == ']'
      && r[..j] + [r[j + 1]] + r[j + 3..] == Render(chars, lo, hi)
  {
    var a, x, b := Render(chars, lo, head), Cell(chars, head), Render(chars, head + 1, hi);
    RenderAt(chars, lo, head);
    RenderAt(chars, head + 1, hi);
    RenderSplit(chars, lo, head, hi);
    RenderSplit(chars, head, head + 1, hi);
    assert Render(chars, head, head + 1) == [x];
    assert Render(chars, lo, hi) == a + [x] + b;
    BracketBetween(a, x, b);
  }

  /** Before the bounds: the same text as marking the bounds stretched left to the head,
      when the cells in between are blank (the gap is filled with blanks, not skipped). */
  lemma MarkedBeforeBounds(chars: Chars, lo: int, hi: int, head: int)
    requires head < lo <= hi
    requires forall k :: head <= k < lo ==> Cell(chars, k) == Blank
    ensures Marked(chars, lo, hi, head) == Marked(chars, head, hi, head)
  {
    RenderSplit(chars, head + 1, lo, hi);
    RenderBlank(chars, head + 1, lo);
  }

  /** After the bounds: the same text as marking the bounds stretched right to the head,
      when the cells in between are blank. */
  lemma MarkedAfterBounds(chars: Chars, lo: int, hi: int, head: int)
    requires lo <= hi <= head
    requires forall k :: hi <= k <= head ==> Cell(chars, k) == Blank
    ensures Marked(chars, lo, hi, head) == Marked(chars, lo, head + 1, head)
  {
    RenderSplit(chars, lo, hi, head);
    RenderBlank(chars, hi, head);
  }

  /** Reading [lo, mid) and then [mid, hi) inserts the same blanks as reading [lo, hi). */
  lemma MaterializeThrough(chars: Chars, lo: int, mid: int, hi: int)
    requires lo <= mid <= hi
    ensures Materialize(Materialize(chars, lo, mid), mid, hi) == Materialize(chars, lo, hi)
  {
    var a, b := Materialize(Materialize(chars, lo, mid), mid, hi), Materialize(chars, lo, hi);
    assert a.Keys == b.Keys;
  }

  /** Reading cells that are all stored changes nothing. */
  lemma MaterializeStored(chars: Chars, lo: int, hi: int)
    requires forall k :: lo <= k < hi ==> k in chars
    ensures Materialize(chars, lo, hi) == chars
  {
    assert Materialize(chars, lo, hi).Keys == chars.Keys;
  }

  /** Reading one index stores what it read there. */
  lemma MaterializeOne(chars: Chars, k: int)
    ensures Materialize(chars, k, k + 1) == chars[k := Cell(chars, k)]
  {
    assert Materialize(chars, k, k + 1).Keys == chars.Keys + {k};
  }

  // ---------------------------------------------------------------------------
  // The store's operations that loop or insert

  /** chars[key] on the defaultdict: yields the cell and stores it, inserting a blank if absent. */
  method Lookup(chars: Chars, key: int) returns (c: char, after: Chars)
    ensures c == Cell(chars, key)
    ensures after == chars[key := c]
  {
    after := chars;
    if key !in after {
      after := after[key := Blank];
    }
    c := after[key];
  }

  /** ''.join(chars[i] for i in range(lo, hi)): the text of the range, and the store after
      the reads have inserted a blank at each absent index of it. */
  method Join(chars: Chars, lo: int, hi: int) returns (s: string, after: Chars)
    ensures s == Render(chars, lo, hi)
    ensures after == Materialize(chars, lo, hi)
  {
    s, after := [], chars;
    var i := lo;
    while i < hi
      invariant lo <= i && (i <= hi || i == lo)
      invariant s == Render(chars, lo, i)
      invariant after == Materialize(chars, lo, i)
      decreases hi - i
    {
      var c;
      c, after := Lookup(after, i);
      MaterializeOne(Materialize(chars, lo, i), i);
      MaterializeThrough(chars, lo, i, i + 1);
      s := s + [c];
      i := i + 1;
    }
    assert Materialize(chars, lo, i) == Materialize(chars, lo, hi);
  }

  /** string_with_position's text for bounds [lo, hi), and the store after its reads, which
      in each of its three cases are exactly the indices of [lo, hi). */
  method JoinMarked(chars: Chars, lo: int, hi: int, head: int) returns (s: string, after: Chars)
    ensures s == Marked(chars, lo, hi, head)
    ensures after == Materialize(chars, lo, hi)
  {
    if head < lo {
      var text;
      text, after := Join(chars, lo, hi);
      s := Bracket(Blank) + Blanks(lo - head - 1) + text;
    } else if head >= hi {
      var text;
      text, after := Join(chars, lo, hi);
      s := text + Blanks(head - hi) + Bracket(Blank);
    } else {
      var before, mid, c, rest;
      before, mid := Join(chars, lo, head);
      c, mid := Lookup(mid, head);
      MaterializeOne(Materialize(chars, lo, head), head);
      MaterializeThrough(chars, lo, head, head + 1);
      rest, after := Join(mid, head + 1, hi);
      MaterializeThrough(chars, lo, head + 1, hi);
      RenderSameCells(mid, chars, head + 1, hi);
      assert rest == Render(chars, head + 1, hi);
      s := before + Bracket(c) + rest;
    }
  }

  /** min(keys): walks the keys keeping the least seen so far. */
  method MinKey(keys: set<int>) returns (r: Option<int>)
    ensures r == Least(keys)
  {
    if first :| first in keys {
      var m, rest, done := first, keys - {first}, false;
      while !done
        invariant rest <= keys && m in keys
        invariant forall k :: k in keys && k !in rest ==> m <= k
        invariant done ==> rest == {}
        decreases rest, !done
      {
        if k :| k in rest {
          if k < m {
            m := k;
          }
          rest := rest - {k};
        } else {
          done := true;
        }
      }
      r := Some(m);
    } else {
      r := None;
    }
  }

  /** max(keys): walks the keys keeping the greatest seen so far. */
  method MaxKey(keys: set<int>) returns (r: Option<int>)
    ensures r == Greatest(keys)
  {
    if first :| first in keys {
      var m, rest, done := first, keys - {first}, false;
      while !done
        invariant rest <= keys && m in keys
        invariant forall k :: k in keys && k !in rest ==> k <= m
        invariant done ==> rest == {}
        decreases rest, !done
      {
        if k :| k in rest {
          if k > m {
            m := k;
          }
          rest := rest - {k};
        } else {
          done := true;
        }
      }
      r := Some(m);
    } else {
      r := None;
    }
  }
}
