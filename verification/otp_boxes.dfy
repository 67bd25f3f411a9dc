/**
 * The four-box one-time-passcode entry (`OTPBoxes`). The boxes are the
 * caller's `otp` array, edited in place; `focusedIndex` is the box that has
 * the keyboard, or none.
 */
module OtpEntry {
  import opened Wrappers

  /** `length`: the number of boxes. */
  const Length: nat := 4

  /** Swift's `Character.isNumber`, restricted to the ASCII digits. */
  predicate IsNumber(c: char)
  {
    '0' <= c <= '9'
  }

  /** `newValue.filter { $0.isNumber }` */
  function KeepNumbers(s: string): (r: string)
    ensures |r| <= |s|
    ensures forall i :: 0 <= i < |r| ==> IsNumber(r[i])
    ensures forall c :: c in r ==> c in s
    ensures forall i :: 0 <= i < |s| && IsNumber(s[i]) ==> s[i] in r
    ensures (forall i :: 0 <= i < |s| ==> IsNumber(s[i])) ==> r == s
  {
    if s == [] then []
    else
      var rest := KeepNumbers(s[1..]);
      assert forall i :: 1 <= i < |s| ==> s[i] == s[1..][i - 1];
      if IsNumber(s[0]) then [s[0]] + rest else rest
  }

  /**
   * Filtering keeps the digits in their order: it distributes over
   * concatenation and keeps a single character exactly when it is a digit.
   * These two facts determine the filter on every string.
   */
  lemma {:induction false} KeepNumbersOfConcat(a: string, b: string)
    ensures KeepNumbers(a + b) == KeepNumbers(a) + KeepNumbers(b)
    ensures |a| == 1 ==> KeepNumbers(a) == if IsNumber(a[0]) then a else []
    decreases |a|
  {
    if a == [] {
      assert a + b == b;
    } else {
      assert (a + b)[0] == a[0];
      assert (a + b)[1..] == a[1..] + b;
      KeepNumbersOfConcat(a[1..], b);
      if |a| == 1 {
        assert a[1..] == [];
      }
    }
  }

  /** Filtering keeps every digit as many times as it occurs, and nothing else. */
  lemma {:induction false} KeepNumbersCounts(s: string)
    ensures multiset(KeepNumbers(s)) <= multiset(s)
    ensures forall c :: IsNumber(c) ==> multiset(KeepNumbers(s))[c] == multiset(s)[c]
    ensures forall c :: !IsNumber(c) ==> multiset(KeepNumbers(s))[c] == 0
    decreases |s|
  {
    if s != [] {
      KeepNumbersCounts(s[1..]);
      assert s == [s[0]] + s[1..];
    }
  }

  /** For example, "a12" filters to "12", not to "21". */
  lemma KeepNumbersExample()
    ensures KeepNumbers("a12") == "12"
  {
    var a, one, two := "a", "1", "2";
    assert "a12" == (a + one) + two;
    KeepNumbersOfConcat(a + one, two);
    KeepNumbersOfConcat(a, one);
    KeepNumbersOfConcat(two, []);
    assert two + [] == two;
  }

  /** A box holds nothing or exactly one numeric character. */
  predicate IsBox(b: string)
  {
    b == "" || (|b| == 1 && IsNumber(b[0]))
  }

  predicate WellFormed(boxes: seq<string>)
  {
    |boxes| == Length && forall k :: 0 <= k < |boxes| ==> IsBox(boxes[k])
  }

  predicate FocusInRange(focus: Option<int>)
  {
    focus.None? || 0 <= focus.value < Length
  }

  /** The boxes and the focus, as values. */
  datatype Entry = Entry(boxes: seq<string>, focus: Option<int>)

  /**
   * The paste loop: box `index + offset` receives digit `offset`, for as many
   * digits as there are boxes from `index` on (`prefix(length - index)`).
   */
  function Spread(boxes: seq<string>, digits: string, index: nat): (r: seq<string>)
    requires |boxes| == Length && index <= Length
    ensures |r| == Length
    ensures forall k :: 0 <= k < Length ==>
      r[k] == if index <= k < index + |digits| then [digits[k - index]] else boxes[k]
    decreases |digits|
  {
    if digits == [] || index == Length then boxes
    else Spread(boxes[index := [digits[0]]], digits[1..], index + 1)
  }

  /** The state after `updateOTP(newValue, at: index)`. */
  function AfterUpdate(e: Entry, newValue: string, index: nat): (r: Entry)
    requires |e.boxes| == Length && index < Length
    ensures |r.boxes| == Length
  {
    var filtered := KeepNumbers(newValue);
    if filtered == e.boxes[index] then e
    else if |filtered| > 1 then
      var nextIndex := index + |filtered|;
      Entry(Spread(e.boxes, filtered, index), if nextIndex < Length then Some(nextIndex) else None)
    else if filtered == "" then
      var hadValue := e.boxes[index] != "";
      Entry(e.boxes[index := ""], if hadValue && index > 0 then Some(index - 1) else e.focus)
    else
      Entry(e.boxes[index := filtered], if index < Length - 1 then Some(index + 1) else None)
  }

  /** The state after `handleBackspace(at: index)`. */
  function AfterBackspace(e: Entry, index: nat): (r: Entry)
    requires |e.boxes| == Length && index < Length
    ensures |r.boxes| == Length
  {
    Entry(if e.boxes[index] != "" then e.boxes[index := ""] else e.boxes,
          if index > 0 then Some(index - 1) else e.focus)
  }

  // ---------------------------------------------------------------------
  // Properties of the two edits

  /** An update keeps every box empty or a single digit, and the focus on a box or nowhere. */
  lemma UpdatePreservesWellFormed(e: Entry, newValue: string, index: nat)
    requires WellFormed(e.boxes) && FocusInRange(e.focus) && index < Length
    ensures WellFormed(AfterUpdate(e, newValue, index).boxes)
    ensures FocusInRange(AfterUpdate(e, newValue, index).focus)
  {
    var r := AfterUpdate(e, newValue, index);
    forall k | 0 <= k < Length
      ensures IsBox(r.boxes[k])
    {
    }
  }

  /** When the filtered value is what the box already holds, nothing changes, focus included. */
  lemma UpdateWithSameValueChangesNothing(e: Entry, newValue: string, index: nat)
    requires |e.boxes| == Length && index < Length
    requires KeepNumbers(newValue) == e.boxes[index]
    ensures AfterUpdate(e, newValue, index) == e
  {
  }

  /** Re-entering a box's own content is a no-op: the filter keeps a digit as it is. */
  lemma RetypingABoxChangesNothing(e: Entry, index: nat)
    requires WellFormed(e.boxes) && index < Length
    ensures AfterUpdate(e, e.boxes[index], index) == e
  {
    assert IsBox(e.boxes[index]);
    assert KeepNumbers(e.boxes[index]) == e.boxes[index];
  }

  /** One new digit: it goes into box `index`, and focus moves to the next box or leaves the last. */
  lemma UpdateWithOneDigit(e: Entry, newValue: string, index: nat)
    requires |e.boxes| == Length && index < Length
    requires |KeepNumbers(newValue)| == 1 && KeepNumbers(newValue) != e.boxes[index]
    ensures var r := AfterUpdate(e, newValue, index);
      && r.boxes[index] == KeepNumbers(newValue)
      && (forall k :: 0 <= k < Length && k != index ==> r.boxes[k] == e.boxes[k])
      && r.focus == (if index + 1 < Length then Some(index + 1) else None)
  {
  }

  /**
   * No digits: the box is emptied. The guard has already ruled out an empty
   * box, so the box always had a value and focus moves back unless this is the
   * first box.
   */
  lemma UpdateWithNoDigits(e: Entry, newValue: string, index: nat)
    requires |e.boxes| == Length && index < Length
    requires KeepNumbers(newValue) == ""
    ensures var r := AfterUpdate(e, newValue, index);
      && r.boxes == e.boxes[index := ""]
      && (e.boxes[index] == "" ==> r == e)
      && (e.boxes[index] != "" ==> r.focus == if index > 0 then Some(index - 1) else e.focus)
  {
  }

  /**
   * Several digits: the first `Length - index` of them fill the boxes from
   * `index` on, the boxes before `index` keep their values, and focus goes
   * `|digits|` boxes on, or nowhere when that is past the last box.
   */
  lemma UpdateWithSeveralDigits(e: Entry, newValue: string, index: nat)
    requires |e.boxes| == Length && index < Length
    requires |KeepNumbers(newValue)| > 1 && IsBox(e.boxes[index])
    ensures var digits := KeepNumbers(newValue);
      var r := AfterUpdate(e, newValue, index);
      && (forall k :: 0 <= k < index ==> r.boxes[k] == e.boxes[k])
      && (forall k :: index <= k < Length && k < index + |digits| ==> r.boxes[k] == [digits[k - index]])
      && (forall k :: index + |digits| <= k < Length ==> r.boxes[k] == e.boxes[k])
      && r.focus == (if index + |digits| < Length then Some(index + |digits|) else None)
  {
    assert KeepNumbers(newValue) != e.boxes[index];
  }

  /** Pasting a whole code into the first box fills every box and releases focus. */
  lemma PastingFourDigitsFillsAllBoxes(e: Entry, code: string)
    requires WellFormed(e.boxes) && |code| == Length
    requires forall i :: 0 <= i < |code| ==> IsNumber(code[i])
    ensures AfterUpdate(e, code, 0) == Entry([[code[0]], [code[1]], [code[2]], [code[3]]], None)
  {
    assert KeepNumbers(code) == code;
    assert IsBox(e.boxes[0]);
    var r := AfterUpdate(e, code, 0);
    assert r.boxes == [[code[0]], [code[1]], [code[2]], [code[3]]];
  }

  /**
   * Typing a digit into a box that already holds one: the text field hands
   * over both characters, so the update takes the paste path and the new
   * digit spills into the next box.
   */
  lemma TypingIntoAFilledBoxSpills(e: Entry, index: nat, oldDigit: char, typed: char)
    requires |e.boxes| == Length && index < Length - 1
    requires e.boxes[index] == [oldDigit] && IsNumber(oldDigit) && IsNumber(typed)
    ensures var r := AfterUpdate(e, [oldDigit, typed], index);
      && r.boxes[index] == [oldDigit] && r.boxes[index + 1] == [typed]
      && r.focus == (if index + 2 < Length then Some(index + 2) else None)
  {
    assert KeepNumbers([oldDigit, typed]) == [oldDigit, typed] by {
      var s := [oldDigit, typed];
      assert forall i :: 0 <= i < |s| ==> IsNumber(s[i]);
    }
  }

  /** Backspace empties box `index` and nothing else, and moves focus back unless at the first box. */
  lemma BackspaceClearsOneBox(e: Entry, index: nat)
    requires |e.boxes| == Length && index < Length
    ensures var r := AfterBackspace(e, index);
      && r.boxes[index] == ""
      && (forall k :: 0 <= k < Length && k != index ==> r.boxes[k] == e.boxes[k])
      && r.focus == (if index > 0 then Some(index - 1) else e.focus)
  {
  }

  lemma BackspacePreservesWellFormed(e: Entry, index: nat)
    requires WellFormed(e.boxes) && FocusInRange(e.focus) && index < Length
    ensures WellFormed(AfterBackspace(e, index).boxes)
    ensures FocusInRange(AfterBackspace(e, index).focus)
  {
  }

  /** `n` backspaces, each in the focused box. */
  function BackspaceRun(e: Entry, n: nat): (r: Entry)
    requires |e.boxes| == Length && FocusInRange(e.focus)
    ensures |r.boxes| == Length && FocusInRange(r.focus)
    decreases n
  {
    if n == 0 || e.focus.None? then e
    else BackspaceRun(AfterBackspace(e, e.focus.value), n - 1)
  }

  /**
   * Holding backspace from box `i` clears box `i` and every box before it,
   * leaves the later boxes alone and ends on the first box.
   */
  lemma {:induction false} BackspaceRunClearsToStart(e: Entry, n: nat)
    requires |e.boxes| == Length && e.focus.Some? && 0 <= e.focus.value < Length
    requires n > e.focus.value
    ensures var r := BackspaceRun(e, n);
      && (forall k :: 0 <= k <= e.focus.value ==> r.boxes[k] == "")
      && (forall k :: e.focus.value < k < Length ==> r.boxes[k] == e.boxes[k])
      && r.focus == Some(0)
    decreases n
  {
    var i := e.focus.value;
    var e' := AfterBackspace(e, i);
    BackspaceClearsOneBox(e, i);
    if i == 0 {
      if n > 1 {
        BackspaceRunAtFirstBox(e', n - 1);
      }
    } else {
      BackspaceRunClearsToStart(e', n - 1);
    }
  }

  /** Backspace in the first box only keeps it empty. */
  lemma {:induction false} BackspaceRunAtFirstBox(e: Entry, n: nat)
    requires |e.boxes| == Length && e.focus == Some(0) && e.boxes[0] == ""
    ensures BackspaceRun(e, n) == e
    decreases n
  {
    if n > 0 {
      assert AfterBackspace(e, 0) == e;
      BackspaceRunAtFirstBox(e, n - 1);
    }
  }

  // ---------------------------------------------------------------------
  // The component

  class OtpBoxes {
    /** The `@Binding var otp: [String]`: the parent view's storage. */
    const otp: array<string>
    /** `@FocusState focusedIndex: Int?` */
    var focusedIndex: Option<int>

    ghost predicate Valid()
      reads this
    {
      otp.Length == Length && FocusInRange(focusedIndex)
    }

    ghost function State(): Entry
      reads this, otp
    {
      Entry(otp[..], focusedIndex)
    }

    constructor (otp: array<string>)
      requires otp.Length == Length
      ensures Valid() && this.otp == otp && focusedIndex == None
    {
      this.otp := otp;
      focusedIndex := None;
    }

    /** `onAppear`: focus the first box. */
    method Appear()
      requires Valid()
      modifies this
      ensures Valid() && focusedIndex == Some(0)
    {
      focusedIndex := Some(0);
    }

    method HandleBackspace(index: nat)
      requires Valid() && index < Length
      modifies this, otp
      ensures Valid()
      ensures State() == AfterBackspace(old(State()), index)
    {
      if otp[index] != "" {
        otp[index] := "";
      }
      if index > 0 {
        focusedIndex := Some(index - 1);
      }
    }

    method UpdateOtp(newValue: string, index: nat)
      requires Valid() && index < Length
      modifies this, otp
      ensures Valid()
      ensures State() == AfterUpdate(old(State()), newValue, index)
    {
      var filtered := KeepNumbers(newValue);
      if filtered == otp[index] {
        return;
      }
      if |filtered| > 1 {
        var capped := if |filtered| < Length - index then |filtered| else Length - index;
        var digits := filtered[..capped];
        for offset := 0 to |digits|
          invariant forall k :: 0 <= k < Length ==>
            otp[k] == if index <= k < index + offset then [filtered[k - index]] else old(otp[k])
        {
          otp[index + offset] := [digits[offset]];
        }
        assert otp[..] == Spread(old(otp[..]), filtered, index);
        var nextIndex := index + |filtered|;
        focusedIndex := if nextIndex < Length then Some(nextIndex) else None;
      } else {
        if filtered == "" {
          var hadValue := otp[index] != "";
          otp[index] := "";
          if hadValue && index > 0 {
            focusedIndex := Some(index - 1);
          }
        } else {
          otp[index] := filtered;
          if index < Length - 1 {
            focusedIndex := Some(index + 1);
          } else {
            focusedIndex := None;
          }
        }
      }
    }
  }
}
