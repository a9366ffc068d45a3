/**
 * The undo/redo history of history.py: a deque of (undo, redo) pairs, an
 * integer cursor `_index` and a size limit `_max_size`.
 *
 * The module first states each operation as a function of the history's
 * state (PushStep, UndoStep, RedoStep) and proves what the code promises
 * about them; the class `History` then performs the same operations in place
 * and is proved to agree with those functions. Undo and redo actions are
 * opaque identifiers: invoking one is reported, not run.
 *
 * The last part, from `CState` on, is the evidently intended history (cursor
 * = number of applied entries, truncate-then-evict-then-append, no wrap-around)
 * with the undo/redo round trip proved about it.
 */
module History {
  import opened Wrappers
  import opened PySeq

  /** A callable stored in the history, as an opaque identifier. */
  datatype Action = Action(id: nat)

  /** One deque element: the pair `(undo, redo)` given to `push`. */
  datatype Entry = Entry(undo: Action, redo: Action)

  /** What `undo`/`redo` did: invoked an action, or printed "History is empty". */
  datatype Report = Invoked(action: Action) | HistoryEmpty

  /** The default of `max_size`. */
  const DefaultMaxSize: int := 64

  /**
   * The state of a History: the deque's elements from left (oldest) to right
   * (newest), `_index`, `_max_size` and the deque's own `maxlen`.
   */
  datatype HState = HState(entries: seq<Entry>, index: int, maxSize: int, maxLen: Option<nat>)

  /** The deque never holds more than its `maxlen`. */
  ghost predicate DequeBounded(h: HState) {
    h.maxLen.Some? ==> |h.entries| <= h.maxLen.value
  }

  /**
   * `_max_size` as chosen by `__init__`: the deque's `maxlen` when there is
   * one and `max_size <= maxlen`, otherwise `max_size`.
   */
  function Capacity(maxSize: int, maxLen: Option<nat>): (c: int)
    ensures maxLen.None? ==> c == maxSize
    ensures maxLen.Some? ==> c >= maxSize && c >= maxLen.value && (c == maxSize || c == maxLen.value)
  {
    if maxLen.Some? && maxSize <= maxLen.value then maxLen.value else maxSize
  }

  /** `History(max_size, maxlen=...)`: an empty deque and cursor 0. */
  function Initial(maxSize: int, maxLen: Option<nat>): HState {
    HState([], 0, Capacity(maxSize, maxLen), maxLen)
  }

  /**
   * The deque's `append`: when the deque has a `maxlen`, an append that
   * overflows it drops elements from the left.
   */
  function AppendBounded(s: seq<Entry>, e: Entry, maxLen: Option<nat>): (r: seq<Entry>)
    ensures maxLen.None? ==> r == s + [e]
    ensures maxLen.Some? && |s| < maxLen.value ==> r == s + [e]
    ensures maxLen.Some? ==> |r| <= maxLen.value
  {
    var t := s + [e];
    if maxLen.Some? && |t| > maxLen.value then t[|t| - maxLen.value..] else t
  }

  /** The state after `push`, and whether it raised IndexError. */
  datatype PushResult = PushResult(state: HState, raised: bool)

  /**
   * `push(undo, redo)`. The loop over `range(index + 1, len)` pops from the
   * right; when `index + 1` is negative it asks for more pops than there are
   * elements and the pop from the empty deque raises IndexError. At the size
   * limit the oldest element is dropped (popleft on an empty deque raises);
   * otherwise the cursor moves by 2 after a truncation and by 1 without one.
   */
  function PushStep(h: HState, e: Entry): PushResult {
    var n := |h.entries|;
    if h.index + 1 < 0 then
      PushResult(h.(entries := []), true)
    else
      var afterUndo := h.index + 1 < n;
      var kept := if afterUndo then h.entries[..h.index + 1] else h.entries;
      if |kept| >= h.maxSize then
        if kept == [] then PushResult(h.(entries := []), true)
        else PushResult(h.(entries := AppendBounded(kept[1..], e, h.maxLen)), false)
      else
        PushResult(h.(entries := AppendBounded(kept, e, h.maxLen),
                      index := h.index + if afterUndo then 2 else 1), false)
  }

  /** The state after `undo`/`redo` and what it reported. */
  datatype Moved = Moved(state: HState, report: Report)

  /** `undo`: move the cursor down, then invoke the UNDO action at the new cursor. */
  function UndoStep(h: HState): Moved {
    var i := h.index - 1;
    match PyIndex(|h.entries|, i)
    case Some(k) => Moved(h.(index := i), Invoked(h.entries[k].undo))
    case None => Moved(h.(index := i), HistoryEmpty)
  }

  /** `redo`: move the cursor up, then invoke the REDO action at the new cursor. */
  function RedoStep(h: HState): Moved {
    var i := h.index + 1;
    match PyIndex(|h.entries|, i)
    case Some(k) => Moved(h.(index := i), Invoked(h.entries[k].redo))
    case None => Moved(h.(index := i), HistoryEmpty)
  }

  // ---------------------------------------------------------------------
  // Properties of the code as written

  /** A fresh history is empty with cursor 0; its limit is `max_size` unless a larger `maxlen` is given. */
  lemma InitialState(maxSize: int, maxLen: Option<nat>)
    ensures Initial(maxSize, maxLen).entries == [] && Initial(maxSize, maxLen).index == 0
    ensures maxLen.None? ==> Initial(maxSize, maxLen).maxSize == maxSize
    ensures maxLen.Some? && maxSize <= maxLen.value ==> Initial(maxSize, maxLen).maxSize == maxLen.value
    ensures DequeBounded(Initial(maxSize, maxLen))
  {
  }

  /** With the default `max_size` the limit is 64, or a larger `maxlen`. */
  lemma DefaultLimit(maxLen: Option<nat>)
    ensures Initial(DefaultMaxSize, maxLen).maxSize ==
              if maxLen.Some? && 64 <= maxLen.value then maxLen.value else 64
  {
  }

  /** From the steady state (cursor at the tail, below the limit) push appends and advances by one. */
  lemma PushFromSteadyState(h: HState, e: Entry)
    requires h.index == |h.entries| < h.maxSize
    requires h.maxLen.None? || |h.entries| < h.maxLen.value
    ensures !PushStep(h, e).raised
    ensures PushStep(h, e).state.entries == h.entries + [e]
    ensures PushStep(h, e).state.index == h.index + 1 == |PushStep(h, e).state.entries|
  {
  }

  /**
   * The truncation keeps every entry up to and including the cursor's
   * position. So after exactly one undo from the tail nothing is discarded,
   * and the cursor ends one short of the new tail.
   */
  lemma PushKeepsEntryAtCursor(h: HState, e: Entry)
    requires 0 <= h.index < |h.entries|
    requires h.index + 1 < h.maxSize
    requires h.maxLen.None? || h.index + 1 < h.maxLen.value
    ensures !PushStep(h, e).raised
    ensures PushStep(h, e).state.entries == h.entries[..h.index + 1] + [e]
    ensures h.index == |h.entries| - 1 ==>
              PushStep(h, e).state.entries == h.entries + [e] &&
              PushStep(h, e).state.index == |PushStep(h, e).state.entries| - 1
  {
    if h.index + 1 == |h.entries| {
      assert h.entries[..h.index + 1] == h.entries;
    }
  }

  /** A push that discarded entries and did not evict advances the cursor by 2, onto the new tail. */
  lemma PushAfterDiscard(h: HState, e: Entry)
    requires -1 <= h.index && h.index + 1 < |h.entries|
    requires h.index + 1 < h.maxSize
    requires h.maxLen.None? || h.index + 1 < h.maxLen.value
    ensures !PushStep(h, e).raised
    ensures PushStep(h, e).state.entries == h.entries[..h.index + 1] + [e]
    ensures PushStep(h, e).state.index == h.index + 2 == |PushStep(h, e).state.entries|
  {
  }

  /** At the limit the oldest kept entry is dropped and the cursor does not move. */
  lemma PushEvictsOldest(h: HState, e: Entry)
    requires DequeBounded(h)
    requires h.index + 1 >= |h.entries| >= h.maxSize && h.entries != []
    ensures !PushStep(h, e).raised
    ensures PushStep(h, e).state.entries == h.entries[1..] + [e]
    ensures PushStep(h, e).state.index == h.index
  {
  }

  /** Push never takes the deque past the limit, and keeps it within `maxlen`. */
  lemma PushBounded(h: HState, e: Entry)
    requires DequeBounded(h) && |h.entries| <= h.maxSize
    ensures DequeBounded(PushStep(h, e).state)
    ensures |PushStep(h, e).state.entries| <= h.maxSize
    ensures PushStep(h, e).state.maxSize == h.maxSize
  {
  }

  /** With a cursor below -1 the truncation loop pops past the empty deque: IndexError, everything popped. */
  lemma PushAfterRunawayUndo(h: HState, e: Entry)
    requires h.index < -1
    ensures PushStep(h, e).raised
    ensures PushStep(h, e).state.entries == [] && PushStep(h, e).state.index == h.index
  {
  }

  /**
   * Undo moves the cursor down by one whatever happens; the entries do not
   * change. It undoes the entry at the new cursor, read as a Python index:
   * counted from the left for 0..len-1, from the right for -len..-1, and
   * outside that range it reports an empty history.
   */
  lemma UndoMovesCursor(h: HState)
    ensures UndoStep(h).state == h.(index := h.index - 1)
    ensures UndoStep(h).report.Invoked? <==> -|h.entries| <= h.index - 1 < |h.entries|
    ensures 1 <= h.index <= |h.entries| ==>
              UndoStep(h).report == Invoked(h.entries[h.index - 1].undo)
    ensures -|h.entries| <= h.index - 1 < 0 ==>
              UndoStep(h).report == Invoked(h.entries[|h.entries| + h.index - 1].undo)
    ensures (h.index - 1 < -|h.entries| || h.index > |h.entries|) ==>
              UndoStep(h).report == HistoryEmpty
  {
  }

  /** Undo at cursor 0 on a non-empty history wraps around to the newest entry. */
  lemma UndoAtZeroHitsNewest(h: HState)
    requires h.index == 0 && h.entries != []
    ensures UndoStep(h).report == Invoked(h.entries[|h.entries| - 1].undo)
    ensures UndoStep(h).state.index == -1
  {
  }

  /**
   * Redo moves the cursor up by one whatever happens; from the tail it is
   * always out of range. Below the tail it redoes the entry at the new
   * cursor read as a Python index, wrapping from the right for -len..-1, and
   * below -len it reports an empty history.
   */
  lemma RedoMovesCursor(h: HState)
    ensures RedoStep(h).state == h.(index := h.index + 1)
    ensures RedoStep(h).report.Invoked? <==> -|h.entries| <= h.index + 1 < |h.entries|
    ensures h.index >= |h.entries| - 1 ==> RedoStep(h).report == HistoryEmpty
    ensures 0 <= h.index + 1 < |h.entries| ==>
              RedoStep(h).report == Invoked(h.entries[h.index + 1].redo)
    ensures -|h.entries| <= h.index + 1 < 0 ==>
              RedoStep(h).report == Invoked(h.entries[|h.entries| + h.index + 1].redo)
    ensures h.index + 1 < -|h.entries| ==> RedoStep(h).report == HistoryEmpty
  {
  }

  // ---------------------------------------------------------------------
  // Concrete runs showing where the code departs from undo/redo semantics

  const A := Entry(Action(0), Action(1))
  const B := Entry(Action(2), Action(3))
  const C := Entry(Action(4), Action(5))

  /** push A; undo; redo: the redo reports an empty history instead of redoing A. */
  lemma RedoAfterUndoSkipsEntry()
    ensures var h1 := PushStep(Initial(DefaultMaxSize, None), A).state;
            var u := UndoStep(h1);
            u.report == Invoked(A.undo) && RedoStep(u.state).report == HistoryEmpty
  {
  }

  /** push A; push B; undo; push C: B stays in the history and the next undo undoes B a second time. */
  lemma SingleUndoThenPushKeepsUndone()
    ensures var h2 := PushStep(PushStep(Initial(DefaultMaxSize, None), A).state, B).state;
            var u := UndoStep(h2);
            var h3 := PushStep(u.state, C).state;
            u.report == Invoked(B.undo) &&
            h3.entries == [A, B, C] && h3.index == 2 &&
            UndoStep(h3).report == Invoked(B.undo)
  {
  }

  /** push A; undo; undo: the second undo wraps to index -1 and undoes A again. */
  lemma UndoPastStartWraps()
    ensures var h1 := PushStep(Initial(DefaultMaxSize, None), A).state;
            var u := UndoStep(h1);
            u.report == Invoked(A.undo) && UndoStep(u.state).report == Invoked(A.undo)
  {
  }

  // ---------------------------------------------------------------------
  // The history performed in place

  class History {
    var entries: seq<Entry>
    var index: int
    var maxSize: int
    const maxLen: Option<nat>

    ghost function State(): HState
      reads this
    {
      HState(entries, index, maxSize, maxLen)
    }

    /** `History(max_size, maxlen=...)`. */
    constructor (maxSize: int, maxLen: Option<nat>)
      ensures State() == Initial(maxSize, maxLen)
    {
      this.entries := [];
      this.index := 0;
      this.maxLen := maxLen;
      if maxLen.Some? && maxSize <= maxLen.value {
        this.maxSize := maxLen.value;
      } else {
        this.maxSize := maxSize;
      }
    }

    /** `push(undo, redo)`; `raised` is true when it ended in IndexError. */
    method Push(undo: Action, redo: Action) returns (raised: bool)
      modifies this
      ensures PushStep(old(State()), Entry(undo, redo)) == PushResult(State(), raised)
    {
      var afterUndo := false;
      var start, n := index + 1, |entries|;
      var i := start;
      while i < n
        invariant start <= i
        invariant i <= n || i == start
        invariant |entries| + (i - start) == n
        invariant entries == old(entries)[..|entries|]
        invariant afterUndo == (i > start)
        invariant index == old(index) && maxSize == old(maxSize)
      {
        afterUndo := true;
        if entries == [] {
          // deque.pop() on an empty deque
          return true;
        }
        entries := entries[..|entries| - 1];
        i := i + 1;
      }
      assert 0 <= start && afterUndo == (start < n);
      assert entries == if afterUndo then old(entries)[..start] else old(entries);
      if |entries| >= maxSize {
        if entries == [] {
          // deque.popleft() on an empty deque
          return true;
        }
        entries := entries[1..];
      } else if afterUndo {
        index := index + 2;
      } else {
        index := index + 1;
      }
      entries := AppendBounded(entries, Entry(undo, redo), maxLen);
      raised := false;
    }

    /** `undo()`; the result is what it invoked or reported. */
    method Undo() returns (report: Report)
      modifies this
      ensures UndoStep(old(State())) == Moved(State(), report)
    {
      index := index - 1;
      var n := |entries|;
      if 0 <= index < n {
        report := Invoked(entries[index].undo);
      } else if -n <= index < 0 {
        report := Invoked(entries[n + index].undo);
      } else {
        report := HistoryEmpty;
      }
    }

    /** `redo()`; the result is what it invoked or reported. */
    method Redo() returns (report: Report)
      modifies this
      ensures RedoStep(old(State())) == Moved(State(), report)
    {
      index := index + 1;
      var n := |entries|;
      if 0 <= index < n {
        report := Invoked(entries[index].redo);
      } else if -n <= index < 0 {
        report := Invoked(entries[n + index].redo);
      } else {
        report := HistoryEmpty;
      }
    }
  }

  // ---------------------------------------------------------------------
  // The intended history: the cursor counts the applied entries

  /** Entries, the number of them currently applied, and the size limit. */
  datatype CState = CState(entries: seq<Entry>, cursor: nat, capacity: nat)

  ghost predicate CValid(s: CState) {
    1 <= s.capacity && s.cursor <= |s.entries| <= s.capacity
  }

  function CInitial(capacity: nat): CState {
    CState([], 0, capacity)
  }

  /** Truncate past the cursor, append, evict the oldest beyond the limit, set the cursor to the tail. */
  function CorrectedPush(s: CState, e: Entry): (r: CState)
    requires CValid(s)
    ensures CValid(r) && r.capacity == s.capacity && r.cursor == |r.entries|
    ensures r.entries != [] && r.entries[|r.entries| - 1] == e
    ensures s.cursor < s.capacity ==> r.entries == s.entries[..s.cursor] + [e]
    ensures s.cursor == s.capacity ==> r.entries == s.entries[1..] + [e]
  {
    var t := s.entries[..s.cursor] + [e];
    var kept := if |t| > s.capacity then t[1..] else t;
    CState(kept, |kept|, s.capacity)
  }

  datatype CMoved = CMoved(state: CState, report: Report)

  /** Undo the entry before the cursor; at cursor 0 report an empty history and stay. */
  function CorrectedUndo(s: CState): (r: CMoved)
    requires CValid(s)
    ensures CValid(r.state) && r.state.entries == s.entries && r.state.capacity == s.capacity
    ensures r.report.Invoked? <==> s.cursor > 0
    ensures s.cursor > 0 ==> r.state.cursor + 1 == s.cursor && r.report == Invoked(s.entries[r.state.cursor].undo)
    ensures s.cursor == 0 ==> r.state == s
  {
    if s.cursor > 0 then
      CMoved(s.(cursor := s.cursor - 1), Invoked(s.entries[s.cursor - 1].undo))
    else CMoved(s, HistoryEmpty)
  }

  /** Redo the entry at the cursor; at the tail report an empty history and stay. */
  function CorrectedRedo(s: CState): (r: CMoved)
    requires CValid(s)
    ensures CValid(r.state) && r.state.entries == s.entries && r.state.capacity == s.capacity
    ensures r.report.Invoked? <==> s.cursor < |s.entries|
    ensures s.cursor < |s.entries| ==> r.state.cursor == s.cursor + 1 && r.report == Invoked(s.entries[s.cursor].redo)
    ensures s.cursor == |s.entries| ==> r.state == s
  {
    if s.cursor < |s.entries| then
      CMoved(s.(cursor := s.cursor + 1), Invoked(s.entries[s.cursor].redo))
    else CMoved(s, HistoryEmpty)
  }

  function CPushAll(s: CState, es: seq<Entry>): (r: CState)
    decreases |es|
    requires CValid(s)
    ensures CValid(r) && r.capacity == s.capacity
  {
    if es == [] then s else CPushAll(CorrectedPush(s, es[0]), es[1..])
  }

  /** Undo k times; the reports in order. */
  function CUndoN(s: CState, k: nat): (r: (CState, seq<Report>))
    decreases k
    requires CValid(s)
    ensures CValid(r.0) && r.0.entries == s.entries && r.0.capacity == s.capacity
  {
    if k == 0 then (s, [])
    else
      var m := CorrectedUndo(s);
      var rest := CUndoN(m.state, k - 1);
      (rest.0, [m.report] + rest.1)
  }

  /** Redo k times; the reports in order. */
  function CRedoN(s: CState, k: nat): (r: (CState, seq<Report>))
    decreases k
    requires CValid(s)
    ensures CValid(r.0) && r.0.entries == s.entries && r.0.capacity == s.capacity
  {
    if k == 0 then (s, [])
    else
      var m := CorrectedRedo(s);
      var rest := CRedoN(m.state, k - 1);
      (rest.0, [m.report] + rest.1)
  }

  function UndoReports(es: seq<Entry>): seq<Report> {
    if es == [] then [] else [Invoked(es[|es| - 1].undo)] + UndoReports(es[..|es| - 1])
  }

  function RedoReports(es: seq<Entry>): seq<Report> {
    if es == [] then [] else [Invoked(es[0].redo)] + RedoReports(es[1..])
  }

  /** Pushing up to `capacity` entries into an empty history keeps all of them, cursor at the tail. */
  lemma {:induction false} CorrectedPushes(s: CState, es: seq<Entry>)
    decreases |es|
    requires CValid(s) && s.cursor == |s.entries|
    requires |s.entries| + |es| <= s.capacity
    ensures CPushAll(s, es) == CState(s.entries + es, |s.entries| + |es|, s.capacity)
  {
    if es != [] {
      var s1 := CorrectedPush(s, es[0]);
      assert s.entries[..s.cursor] == s.entries;
      assert s1 == CState(s.entries + [es[0]], |s.entries| + 1, s.capacity);
      CorrectedPushes(s1, es[1..]);
      assert s.entries + [es[0]] + es[1..] == s.entries + es;
    }
  }

  /** Undoing `cursor` times undoes every applied entry, newest first, and reaches cursor 0. */
  lemma {:induction false} CorrectedUndoAll(s: CState)
    requires CValid(s)
    ensures CUndoN(s, s.cursor).0 == s.(cursor := 0)
    ensures CUndoN(s, s.cursor).1 == UndoReports(s.entries[..s.cursor])
    decreases s.cursor
  {
    if s.cursor > 0 {
      var s1 := s.(cursor := s.cursor - 1);
      assert CorrectedUndo(s) == CMoved(s1, Invoked(s.entries[s.cursor - 1].undo));
      CorrectedUndoAll(s1);
      assert s.entries[..s.cursor][..s.cursor - 1] == s.entries[..s.cursor - 1];
    }
  }

  /** Redoing from cursor c to the tail redoes the remaining entries, oldest first. */
  lemma {:induction false} CorrectedRedoAll(s: CState)
    requires CValid(s)
    ensures CRedoN(s, |s.entries| - s.cursor).0 == s.(cursor := |s.entries|)
    ensures CRedoN(s, |s.entries| - s.cursor).1 == RedoReports(s.entries[s.cursor..])
    decreases |s.entries| - s.cursor
  {
    if s.cursor < |s.entries| {
      var s1 := s.(cursor := s.cursor + 1);
      assert CorrectedRedo(s) == CMoved(s1, Invoked(s.entries[s.cursor].redo));
      CorrectedRedoAll(s1);
      assert s.entries[s.cursor..][1..] == s.entries[s.cursor + 1..];
    }
  }

  /**
   * Pushing N <= capacity entries, undoing N times and redoing N times undoes
   * them newest first, redoes them oldest first and ends where it started.
   */
  lemma CorrectedRoundTrip(capacity: nat, es: seq<Entry>)
    requires 1 <= capacity && |es| <= capacity
    ensures var pushed := CPushAll(CInitial(capacity), es);
            var undone := CUndoN(pushed, |es|);
            var redone := CRedoN(undone.0, |es|);
            pushed == CState(es, |es|, capacity) &&
            undone.1 == UndoReports(es) &&
            redone.1 == RedoReports(es) &&
            redone.0 == pushed
  {
    CorrectedPushesFromEmpty(capacity, es);
    CorrectedUndoFromTail(capacity, es);
    CorrectedRedoFromStart(capacity, es);
  }

  lemma CorrectedPushesFromEmpty(capacity: nat, es: seq<Entry>)
    requires 1 <= capacity && |es| <= capacity
    ensures CPushAll(CInitial(capacity), es) == CState(es, |es|, capacity)
  {
    CorrectedPushes(CInitial(capacity), es);
    assert [] + es == es;
  }

  lemma CorrectedUndoFromTail(capacity: nat, es: seq<Entry>)
    requires 1 <= capacity && |es| <= capacity
    ensures CUndoN(CState(es, |es|, capacity), |es|) == (CState(es, 0, capacity), UndoReports(es))
  {
    CorrectedUndoAll(CState(es, |es|, capacity));
    assert es[..|es|] == es;
  }

  lemma CorrectedRedoFromStart(capacity: nat, es: seq<Entry>)
    requires 1 <= capacity && |es| <= capacity
    ensures CRedoN(CState(es, 0, capacity), |es|) == (CState(es, |es|, capacity), RedoReports(es))
  {
    CorrectedRedoAll(CState(es, 0, capacity));
    assert es[0..] == es;
  }

  /** A push after an undo discards the undone entries: there is nothing left to redo. */
  lemma CorrectedPushDiscardsRedo(s: CState, e: Entry)
    requires CValid(s) && s.cursor < |s.entries|
    ensures CorrectedPush(s, e).entries == s.entries[..s.cursor] + [e]
    ensures CorrectedRedo(CorrectedPush(s, e)).report == HistoryEmpty
    ensures CorrectedUndo(CorrectedPush(s, e)).report == Invoked(e.undo)
  {
  }

  /** Undo at cursor 0 reports an empty history and leaves the state alone: no wrap-around. */
  lemma CorrectedUndoStopsAtStart(s: CState)
    requires CValid(s) && s.cursor == 0
    ensures CorrectedUndo(s) == CMoved(s, HistoryEmpty)
  {
  }
}
