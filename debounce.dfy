/** The debounced suggestion lookup, reduced to its one timer slot. Whenever the
    query text changes, React runs the previous effect's cleanup (which clears
    the scheduled timer) and then the effect again, which either clears the
    suggestions (short text) or schedules a new timer whose callback captured
    the new text. The slot holds the text captured by the one scheduled,
    not yet fired, callback. */
module Debounce {
  import opened Options
  import opened JsString

  /** The effect's guard: a query shorter than two UTF-16 code units. The empty
      query is short; a one-character query is short unless its character lies
      outside the Basic Multilingual Plane; a query of two or more characters
      never is. */
  function IsShortQuery(text: string): (short: bool)
    ensures text == [] ==> short
    ensures short ==> |text| <= 1
    ensures |text| == 1 ==> (short <==> text[0] as int < 0x1_0000)
  {
    assert |text| == 1 ==> text[1..] == [];
    JsLength(text) < 2
  }

  /** The slot is consistent with the query text: the only scheduled callback,
      if any, captured the current text, and that text is not short. */
  predicate Settled(text: string, slot: Option<string>) {
    slot.Some? ==> slot.value == text && !IsShortQuery(text)
  }

  /** The slot after the query changes from `text` to `next`. Setting the same
      value again does not re-run the effect, so the slot is kept. */
  function Reschedule(text: string, slot: Option<string>, next: string): (r: Option<string>)
    ensures Settled(text, slot) ==> Settled(next, r)
    ensures next == text ==> r == slot
    ensures next != text ==> (r.Some? <==> !IsShortQuery(next)) && Settled(next, r)
  {
    if next == text then slot
    else if IsShortQuery(next) then None
    else Some(next)
  }

  /** The slot after the query text takes the values `nexts` in turn, starting
      from `text` with slot `slot`, with no timer firing in between. A timer
      left scheduled is either the one scheduled before the changes or one
      for a text that was typed among them and is not short. */
  function AfterChanges(text: string, slot: Option<string>, nexts: seq<string>): (r: Option<string>)
    ensures r.Some? ==> r == slot || (r.value in nexts && !IsShortQuery(r.value))
    decreases |nexts|
  {
    if nexts == [] then slot
    else
      var r := AfterChanges(nexts[0], Reschedule(text, slot, nexts[0]), nexts[1..]);
      assert r.Some? && r.value in nexts[1..] ==> r.value in nexts;
      r
  }

  /** The query text after the changes `nexts`. */
  function Latest(text: string, nexts: seq<string>): string {
    if nexts == [] then text else nexts[|nexts| - 1]
  }

  /** Applying one more change to a sequence of changes. */
  lemma {:induction false} AfterChangesSnoc(text: string, slot: Option<string>, nexts: seq<string>, next: string)
    ensures AfterChanges(text, slot, nexts + [next])
         == Reschedule(Latest(text, nexts), AfterChanges(text, slot, nexts), next)
    decreases |nexts|
  {
    if nexts == [] {
      assert ([] + [next])[1..] == [];
    } else {
      assert (nexts + [next])[1..] == nexts[1..] + [next];
      AfterChangesSnoc(nexts[0], Reschedule(text, slot, nexts[0]), nexts[1..], next);
      assert Latest(nexts[0], nexts[1..]) == Latest(text, nexts);
    }
  }

  /** Debounce: after any sequence of query changes there is at most one scheduled
      callback, and it carries the latest text, which is not short. When the
      last change really changed the text, a callback is scheduled exactly when
      that text is not short, whatever was scheduled before. */
  lemma {:induction false} DebounceKeepsLatest(text: string, slot: Option<string>, nexts: seq<string>)
    requires Settled(text, slot)
    ensures Settled(Latest(text, nexts), AfterChanges(text, slot, nexts))
    ensures nexts != [] && Latest(text, nexts) != Latest(text, nexts[..|nexts| - 1]) ==>
              (AfterChanges(text, slot, nexts) == Some(Latest(text, nexts))
               <==> !IsShortQuery(Latest(text, nexts)))
    decreases |nexts|
  {
    if nexts != [] {
      var init, last := nexts[..|nexts| - 1], nexts[|nexts| - 1];
      assert nexts == init + [last];
      DebounceKeepsLatest(text, slot, init);
      AfterChangesSnoc(text, slot, init, last);
    }
  }
}
