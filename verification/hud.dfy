/**
 * The head-up display text of hud.py: a deque of time-stamped messages,
 * newest on the left, whose oldest message expires `interval` after it was
 * written; the display shows the newest message in one text object and the
 * others, one per line, in a second.
 *
 * The clock is an integer argument of `write` and `update`. The two text
 * objects are modelled by the strings they hold.
 */
module Hud {

  /** `(time, message)` as appended by `write`. */
  datatype Message = Message(time: int, text: string)

  /**
   * The state of a Text: the deque (left = newest), the `_updated` and
   * `_empty` flags, the misspelt attribute `_udpated` that expiry sets, and
   * the two displayed strings.
   */
  datatype TextState = TextState(
    messages: seq<Message>,
    updated: bool,
    udpated: bool,
    empty: bool,
    first: string,
    other: string,
    interval: int)

  /** `'\n'.join(lines)`. */
  function Join(lines: seq<string>): (r: string)
    ensures lines == [] ==> r == ""
  {
    if lines == [] then ""
    else if |lines| == 1 then lines[0]
    else lines[0] + "\n" + Join(lines[1..])
  }

  /** `str.split('\n')`: the lines between newline characters. */
  function Split(s: string): (r: seq<string>)
    ensures |r| >= 1
  {
    if s == [] then [""]
    else
      var rest := Split(s[1..]);
      if s[0] == '\n' then [""] + rest
      else [[s[0]] + rest[0]] + rest[1..]
  }

  /** The texts of a run of messages, in deque order. */
  function Texts(ms: seq<Message>): (r: seq<string>)
    ensures |r| == |ms|
    ensures forall i :: 0 <= i < |ms| ==> r[i] == ms[i].text
  {
    seq(|ms|, i requires 0 <= i < |ms| => ms[i].text)
  }

  /** The two displayed strings for a deque: the newest text, and the others joined by newlines. */
  function Render(ms: seq<Message>): (string, string) {
    if ms == [] then ("", "") else (ms[0].text, Join(Texts(ms[1..])))
  }

  /** The display shows the deque. */
  ghost predicate Displayed(s: TextState) {
    (s.first, s.other) == Render(s.messages)
  }

  /** `Text(first, other, time_getter, interval)`: no messages, not updated, empty. */
  function Initial(first: string, other: string, interval: int): TextState {
    TextState([], false, false, true, first, other, interval)
  }

  /** `write(message)` at time `now`. */
  function WriteStep(s: TextState, now: int, text: string): TextState {
    s.(messages := [Message(now, text)] + s.messages, updated := true, empty := false)
  }

  /**
   * The first half of `update`: an expired oldest message is popped (setting
   * only `_udpated`); an empty deque that was not yet known to be empty
   * sets `_updated` and `_empty`.
   */
  function Expire(s: TextState, now: int): TextState {
    if s.messages != [] then
      if s.messages[|s.messages| - 1].time + s.interval <= now then
        s.(messages := s.messages[..|s.messages| - 1], udpated := true)
      else s
    else if !s.empty then s.(updated := true, empty := true)
    else s
  }

  /** The second half of `update`: when `_updated` is set, rewrite both strings and clear it. */
  function Redraw(s: TextState): TextState {
    if s.updated then
      var texts := Render(s.messages);
      s.(first := texts.0, other := texts.1, updated := false)
    else s
  }

  /** `update()` at time `now`. */
  function UpdateStep(s: TextState, now: int): TextState {
    Redraw(Expire(s, now))
  }

  // ---------------------------------------------------------------------
  // Properties of the code as written

  /** Write puts the new message at the left end, sets `_updated`, clears `_empty`, and nothing else. */
  lemma WriteIsNewest(s: TextState, now: int, text: string)
    ensures var t := WriteStep(s, now, text);
            t.messages[0] == Message(now, text) && t.messages[1..] == s.messages &&
            t.updated && !t.empty &&
            t.first == s.first && t.other == s.other && t.udpated == s.udpated && t.interval == s.interval
  {
  }

  /** Update removes at most one message, the oldest (right-end) one, and only once it has expired. */
  lemma UpdateRemovesOnlyExpiredOldest(s: TextState, now: int)
    ensures var t := UpdateStep(s, now);
            (t.messages == s.messages) ||
            (s.messages != [] && t.messages == s.messages[..|s.messages| - 1] &&
             s.messages[|s.messages| - 1].time + s.interval <= now)
    ensures s.messages != [] && s.messages[|s.messages| - 1].time + s.interval <= now ==>
            UpdateStep(s, now).messages == s.messages[..|s.messages| - 1]
  {
  }

  /**
   * Expiry alone does not redraw: the popped message stays on display, and
   * `_updated` stays false.
   */
  lemma ExpiryDoesNotRedraw(s: TextState, now: int)
    requires !s.updated && s.messages != []
    requires s.messages[|s.messages| - 1].time + s.interval <= now
    ensures UpdateStep(s, now).first == s.first && UpdateStep(s, now).other == s.other
    ensures !UpdateStep(s, now).updated && UpdateStep(s, now).udpated
  {
  }

  /** On an empty deque not yet known to be empty, update blanks both strings and sets `_empty`. */
  lemma UpdateBlanksEmptyDeque(s: TextState, now: int)
    requires s.messages == [] && !s.empty
    ensures UpdateStep(s, now) == s.(updated := false, empty := true, first := "", other := "")
  {
  }

  /** On an empty deque known to be empty and nothing to redraw, update changes nothing. */
  lemma UpdateIdleWhenEmpty(s: TextState, now: int)
    requires s.messages == [] && s.empty && !s.updated
    ensures UpdateStep(s, now) == s
  {
  }

  /**
   * A redraw shows the newest message in the first string and the remaining
   * ones, newest first, in the second, one per line; both are empty without
   * messages; `_updated` is cleared.
   */
  lemma RedrawShowsDeque(s: TextState)
    requires s.updated
    ensures Displayed(Redraw(s)) && !Redraw(s).updated
    ensures s.messages == [] ==> Redraw(s).first == "" && Redraw(s).other == ""
    ensures s.messages != [] ==> Redraw(s).first == s.messages[0].text
    ensures |s.messages| >= 2 && (forall m :: m in s.messages ==> '\n' !in m.text) ==>
            Split(Redraw(s).other) == Texts(s.messages[1..])
  {
    if |s.messages| >= 2 && (forall m :: m in s.messages ==> '\n' !in m.text) {
      var rest := Texts(s.messages[1..]);
      forall l | l in rest
        ensures '\n' !in l
      {
        var i :| 0 <= i < |rest| && rest[i] == l;
        assert s.messages[1..][i] in s.messages;
      }
      SplitJoin(rest);
    }
  }

  /** After the last message expires, the next update blanks the display. */
  lemma LastExpiryBlanksOnNextUpdate(s: TextState, now: int, later: int)
    requires !s.updated && !s.empty && |s.messages| == 1
    requires s.messages[0].time + s.interval <= now
    ensures UpdateStep(s, now).messages == []
    ensures UpdateStep(UpdateStep(s, now), later).first == ""
    ensures UpdateStep(UpdateStep(s, now), later).other == ""
  {
  }

  /** Time stamps never increase from left (newest) to right, and none is later than the clock. */
  ghost predicate Chronological(s: TextState, clock: int) {
    (forall i, j :: 0 <= i < j < |s.messages| ==> s.messages[i].time >= s.messages[j].time) &&
    (forall i :: 0 <= i < |s.messages| ==> s.messages[i].time <= clock)
  }

  /** With a clock that never goes back, write and update keep the deque in time order. */
  lemma ChronologicalPreserved(s: TextState, clock: int, now: int, text: string)
    requires Chronological(s, clock) && clock <= now
    ensures Chronological(WriteStep(s, now, text), now)
    ensures Chronological(UpdateStep(s, now), now)
  {
    var w := WriteStep(s, now, text);
    forall i, j | 0 <= i < j < |w.messages|
      ensures w.messages[i].time >= w.messages[j].time
    {
      if i > 0 {
        assert w.messages[i] == s.messages[i - 1] && w.messages[j] == s.messages[j - 1];
      } else {
        assert w.messages[j] == s.messages[j - 1];
      }
    }
  }

  /** `'\n'.join` then `split('\n')` gives the lines back when no line holds a newline. */
  lemma {:induction false} SplitJoin(lines: seq<string>)
    requires |lines| >= 1
    requires forall l :: l in lines ==> '\n' !in l
    ensures Split(Join(lines)) == lines
    decreases |lines|
  {
    if |lines| == 1 {
      SplitLine(lines[0]);
    } else {
      SplitJoin(lines[1..]);
      SplitAfterLine(lines[0], Join(lines[1..]));
    }
  }

  lemma {:induction false} SplitLine(l: string)
    requires '\n' !in l
    ensures Split(l) == [l]
    decreases |l|
  {
    if l != [] {
      assert l[0] in l;
      assert forall c :: c in l[1..] ==> c in l;
      SplitLine(l[1..]);
      assert [l[0]] + l[1..] == l;
    }
  }

  lemma {:induction false} SplitAfterLine(l: string, t: string)
    requires '\n' !in l
    ensures Split(l + "\n" + t) == [l] + Split(t)
    decreases |l|
  {
    if l == [] {
      assert l + "\n" + t == "\n" + t;
      assert ("\n" + t)[1..] == t;
    } else {
      assert l[0] in l;
      assert forall c :: c in l[1..] ==> c in l;
      SplitAfterLine(l[1..], t);
      assert (l + "\n" + t)[1..] == l[1..] + "\n" + t;
      assert [l[0]] + l[1..] == l;
    }
  }

  // ---------------------------------------------------------------------
  // A concrete run: the older of two messages expires and stays on screen

  /**
   * write "a" at 0, write "b" at 1, update at 1 (shows "b" over "a"), then
   * update at 10 with interval 10: "a" has left the deque but is still
   * displayed.
   */
  lemma ExpiredMessageStaysDisplayed()
    ensures var s0 := Initial("", "", 10);
            var s1 := UpdateStep(WriteStep(WriteStep(s0, 0, "a"), 1, "b"), 1);
            var s2 := UpdateStep(s1, 10);
            s1.first == "b" && s1.other == "a" &&
            s2.messages == [Message(1, "b")] && s2.other == "a" && !Displayed(s2)
  {
    var s0 := Initial("", "", 10);
    var s1 := UpdateStep(WriteStep(WriteStep(s0, 0, "a"), 1, "b"), 1);
    assert s1.messages == [Message(1, "b"), Message(0, "a")];
    assert Texts(s1.messages[1..]) == ["a"];
    var s2 := UpdateStep(s1, 10);
    assert s2.messages == [Message(1, "b")];
    assert Texts(s2.messages[1..]) == [];
  }

  // ---------------------------------------------------------------------
  // The intended update: expiry sets `_updated`

  function ExpireCorrected(s: TextState, now: int): TextState {
    if s.messages != [] then
      if s.messages[|s.messages| - 1].time + s.interval <= now then
        s.(messages := s.messages[..|s.messages| - 1], updated := true)
      else s
    else if !s.empty then s.(updated := true, empty := true)
    else s
  }

  function UpdateStepCorrected(s: TextState, now: int): TextState {
    Redraw(ExpireCorrected(s, now))
  }

  /**
   * The display is current, or a redraw is pending, or nothing was ever
   * written (the text objects still hold their initial strings).
   */
  ghost predicate Current(s: TextState) {
    Displayed(s) || s.updated || (s.messages == [] && s.empty)
  }

  /**
   * With the intended update the display always shows the deque after an
   * update, except before the first message was written; write keeps this.
   */
  lemma CorrectedUpdateShowsDeque(s: TextState, now: int, text: string)
    requires Current(s)
    ensures Current(UpdateStepCorrected(s, now)) && !UpdateStepCorrected(s, now).updated
    ensures Displayed(UpdateStepCorrected(s, now)) ||
            (UpdateStepCorrected(s, now).messages == [] && UpdateStepCorrected(s, now).empty)
    ensures Current(WriteStep(s, now, text))
  {
  }

  /** The run of ExpiredMessageStaysDisplayed redraws with the intended update. */
  lemma CorrectedExpiryRedraws()
    ensures var s0 := Initial("", "", 10);
            var s1 := UpdateStepCorrected(WriteStep(WriteStep(s0, 0, "a"), 1, "b"), 1);
            var s2 := UpdateStepCorrected(s1, 10);
            s2.messages == [Message(1, "b")] && s2.first == "b" && s2.other == "" && Displayed(s2)
  {
    var s0 := Initial("", "", 10);
    var s1 := UpdateStepCorrected(WriteStep(WriteStep(s0, 0, "a"), 1, "b"), 1);
    assert s1.messages == [Message(1, "b"), Message(0, "a")];
    var s2 := UpdateStepCorrected(s1, 10);
    assert s2.messages == [Message(1, "b")];
    assert Texts(s2.messages[1..]) == [];
  }

  // ---------------------------------------------------------------------
  // The text performed in place

  class Text {
    var messages: seq<Message>
    var updated: bool
    var udpated: bool
    var empty: bool
    /** What the two text objects display. */
    var first: string
    var other: string
    const interval: int

    ghost function State(): TextState
      reads this
    {
      TextState(messages, updated, udpated, empty, first, other, interval)
    }

    /** `Text(...)`; `first` and `other` are what the text objects show beforehand. */
    constructor (first: string, other: string, interval: int)
      ensures State() == Initial(first, other, interval)
    {
      this.messages := [];
      this.updated := false;
      this.udpated := false;
      this.empty := true;
      this.first := first;
      this.other := other;
      this.interval := interval;
    }

    /** `update()`, with `now` the value of the time getter. */
    method Update(now: int)
      modifies this
      ensures State() == UpdateStep(old(State()), now)
    {
      if messages != [] {
        if messages[|messages| - 1].time + interval <= now {
          messages := messages[..|messages| - 1];
          udpated := true;
        }
      } else if !empty {
        updated := true;
        empty := true;
      }
      if updated {
        if messages == [] {
          first, other := "", "";
        } else {
          first := messages[0].text;
          other := Join(Texts(messages[1..]));
        }
        updated := false;
      }
    }

    /** `write(message)`, with `now` the value of the time getter. */
    method Write(now: int, text: string)
      modifies this
      ensures State() == WriteStep(old(State()), now, text)
    {
      messages := [Message(now, text)] + messages;
      updated := true;
      empty := false;
    }
  }
}
