/**
 * The linear undo/redo history as values: a list of snapshots and the index of
 * the current one. `saveState` drops every entry after the current one,
 * appends the new snapshot, makes it current and, past the capacity of 50,
 * evicts the oldest entry. `undo` and `redo` only move the index; the engine
 * then restores the entry the index points at.
 */
module History {

  const Capacity: nat := 50

  datatype Log<T> = Log(entries: seq<T>, index: int)
  {
    /** Once the first snapshot is taken: the index points at an entry and the length is bounded. */
    predicate Valid()
    {
      0 <= index < |entries| <= Capacity
    }
  }

  /** The log of a freshly constructed engine, before its first snapshot (`historyIndex = -1`). */
  function Empty<T>(): Log<T>
  {
    Log([], -1)
  }

  /** The pre-state `saveState` accepts: valid, or the empty log. */
  predicate Saveable<T>(l: Log<T>)
  {
    -1 <= l.index < |l.entries| <= Capacity
  }

  /** `saveState` with snapshot `s`; `SaveKeepsRecent` says what it keeps. */
  function Save<T>(l: Log<T>, s: T): (r: Log<T>)
    requires Saveable(l)
    ensures r.Valid()
  {
    var kept := l.entries[..l.index + 1] + [s];
    if |kept| > Capacity then Log(kept[1..], l.index) else Log(kept, l.index + 1)
  }

  /**
   * After `saveState` with snapshot `s`, the current entry is `s`, it is the
   * last entry, and the entries before it are the most recent ones up to and
   * including the old current entry.
   */
  lemma SaveKeepsRecent<T>(l: Log<T>, s: T)
    requires Saveable(l)
    ensures var r := Save(l, s);
            && r.index == |r.entries| - 1 && r.entries[r.index] == s
            && |r.entries| == (if l.index + 2 <= Capacity then l.index + 2 else Capacity)
            && r.entries[..r.index] == l.entries[l.index + 1 - r.index .. l.index + 1]
  {
    var kept := l.entries[..l.index + 1] + [s];
    if |kept| > Capacity {
      assert kept[1..][..|kept| - 2] == l.entries[1..l.index + 1];
    } else {
      assert kept[..|kept| - 1] == l.entries[..l.index + 1];
    }
  }

  /** The first snapshot of a fresh engine is its only entry, and current. */
  lemma SaveFromEmpty<T>(s: T)
    ensures Save(Empty(), s) == Log([s], 0)
  {
    assert ([] + [s])[..0] == [];
  }

  /** `undo`: step back unless at the first entry. */
  function Undo<T>(l: Log<T>): (r: Log<T>)
    requires l.Valid()
    ensures r.Valid() && r.entries == l.entries
    ensures if l.index > 0 then r.index == l.index - 1 else r == l
  {
    if l.index > 0 then l.(index := l.index - 1) else l
  }

  /** `redo`: step forward unless at the last entry. */
  function Redo<T>(l: Log<T>): (r: Log<T>)
    requires l.Valid()
    ensures r.Valid() && r.entries == l.entries
    ensures if l.index < |l.entries| - 1 then r.index == l.index + 1 else r == l
  {
    if l.index < |l.entries| - 1 then l.(index := l.index + 1) else l
  }

  /** An undo that moved is reverted by a redo, and vice versa. */
  lemma UndoRedoRoundTrip<T>(l: Log<T>)
    requires l.Valid()
    ensures l.index > 0 ==> Redo(Undo(l)) == l
    ensures l.index < |l.entries| - 1 ==> Undo(Redo(l)) == l
  {
  }

  /** Right after a save there is nothing to redo. */
  lemma RedoAfterSaveIsNoOp<T>(l: Log<T>, s: T)
    requires Saveable(l)
    ensures Redo(Save(l, s)) == Save(l, s)
  {
    SaveKeepsRecent(l, s);
  }

  /**
   * A save after an undo discards the undone entry and everything after it:
   * from entries e at index i > 0, undo then save(s) leaves e[..i] + [s].
   */
  lemma SaveAfterUndoPrunes<T>(l: Log<T>, s: T)
    requires l.Valid() && l.index > 0
    ensures Save(Undo(l), s) == Log(l.entries[..l.index] + [s], l.index)
  {
    var r := Save(Undo(l), s);
    SaveKeepsRecent(Undo(l), s);
    assert |r.entries| == l.index + 1;
    assert r.entries == r.entries[..r.index] + [s];
  }

  /** The log after saving each of `ss` in turn. */
  function SaveAll<T>(l: Log<T>, ss: seq<T>): (r: Log<T>)
    requires Saveable(l)
    ensures Saveable(r)
    decreases |ss|
  {
    if ss == [] then l
    else
      var prev := SaveAll(l, ss[..|ss| - 1]);
      Save(prev, ss[|ss| - 1])
  }

  /** The most recent `Capacity` elements of `ss`. */
  function Window<T>(ss: seq<T>): (w: seq<T>)
    ensures |w| == if |ss| <= Capacity then |ss| else Capacity
  {
    if |ss| <= Capacity then ss else ss[|ss| - Capacity..]
  }

  /** One save moves the window of kept snapshots forward by one element. */
  lemma SaveSlidesWindow<T>(init: seq<T>, x: T)
    ensures Saveable(Log(Window(init), |Window(init)| - 1))
    ensures Save(Log(Window(init), |Window(init)| - 1), x) == Log(Window(init + [x]), |Window(init + [x])| - 1)
  {
    var r := Save(Log(Window(init), |Window(init)| - 1), x);
    SaveKeepsRecent(Log(Window(init), |Window(init)| - 1), x);
    if |init| < Capacity {
      assert r.entries == r.entries[..r.index] + [x];
    } else {
      var w := Window(init);
      assert r.entries[..r.index] == w[1..];
      assert r.entries == r.entries[..r.index] + [x];
      assert w[1..] + [x] == Window(init + [x]);
    }
  }

  /**
   * Saving the snapshots `ss` one after the other from the empty log keeps the
   * last (at most 50) of them, with the index on the newest.
   */
  lemma {:induction false} SaveAllFromEmpty<T>(ss: seq<T>)
    ensures SaveAll(Empty(), ss) == Log(Window(ss), |Window(ss)| - 1)
    decreases |ss|
  {
    if ss != [] {
      var init, x := ss[..|ss| - 1], ss[|ss| - 1];
      SaveAllFromEmpty(init);
      assert ss == init + [x];
      SaveSlidesWindow(init, x);
    }
  }

  /** N <= 50 saves from the empty log give N entries with the index at N - 1. */
  lemma FewSavesKeepAll<T>(ss: seq<T>)
    requires |ss| <= Capacity
    ensures SaveAll(Empty(), ss) == Log(ss, |ss| - 1)
  {
    SaveAllFromEmpty(ss);
  }

  /** After 51 saves the log is full and its oldest entry is the second snapshot ever taken. */
  lemma OverflowEvictsOldest<T>(ss: seq<T>)
    requires |ss| == Capacity + 1
    ensures var r := SaveAll(Empty(), ss);
            |r.entries| == Capacity && r.entries[0] == ss[1] && r.index == Capacity - 1
  {
    SaveAllFromEmpty(ss);
  }
}
