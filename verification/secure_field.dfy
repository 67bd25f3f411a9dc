/**
 * The UIKit-backed secure field (`SecureCompatibleTextField`): edits are
 * spliced into the bound text by the delegate, and the displayed text is
 * either the text itself or a run of mask characters that briefly reveals
 * the character just typed.
 */
module SecureEntry {
  import opened Wrappers
  import Bindings

  /** The mask character, U+2022, shown for each hidden character. */
  const Bullet: string := "\U{2022}"

  // ---------------------------------------------------------------------
  // Editing

  /** `replacingCharacters(in:with:)` on the characters `location ..< location + length`. */
  function Splice(text: string, location: nat, length: nat, replacement: string): (r: string)
    requires location + length <= |text|
    ensures |r| == |text| - length + |replacement|
    ensures r[..location] == text[..location]
    ensures r[location..location + |replacement|] == replacement
    ensures r[location + |replacement|..] == text[location + length..]
  {
    text[..location] + replacement + text[location + length..]
  }

  /** Putting the replaced characters back undoes an edit. */
  lemma SpliceUndo(text: string, location: nat, length: nat, replacement: string)
    requires location + length <= |text|
    ensures var edited := Splice(text, location, length, replacement);
      Splice(edited, location, |replacement|, text[location..location + length]) == text
  {
    var edited := Splice(text, location, length, replacement);
    var back := Splice(edited, location, |replacement|, text[location..location + length]);
    assert edited[location + |replacement|..] == text[location + length..];
    assert back == text[..location] + text[location..location + length] + text[location + length..];
    assert text == text[..location] + text[location..location + length] + text[location + length..];
  }

  /** Typing at the end appends; deleting at the end drops the last character. */
  lemma SpliceAtEnd(text: string, typed: string)
    ensures Splice(text, |text|, 0, typed) == text + typed
    ensures |text| >= 1 ==> Splice(text, |text| - 1, 1, "") == text[..|text| - 1]
  {
    assert text[|text|..] == [];
  }

  // ---------------------------------------------------------------------
  // Masking

  /** `String(repeating: unit, count: n)` */
  function Repeat(unit: string, n: nat): (r: string)
    ensures |r| == n * |unit|
    ensures |unit| == 1 ==> forall i :: 0 <= i < |r| ==> r[i] == unit[0]
  {
    if n == 0 then "" else Repeat(unit, n - 1) + unit
  }

  /**
   * What `setText` writes into the UIKit field, given the characters it
   * currently shows: the text itself outside secure mode; in secure mode one
   * bullet per character, with the last bullet swapped for the last
   * character of the text when the text has grown past the display.
   */
  function Display(text: string, shown: string, isSecureEntry: bool): (r: string)
    ensures |r| == |text|
    ensures !isSecureEntry ==> r == text
    ensures isSecureEntry ==> forall i :: 0 <= i < |r| - 1 ==> r[i] == '\U{2022}'
    ensures isSecureEntry && |shown| < |text| ==> r[|r| - 1] == text[|text| - 1]
    ensures isSecureEntry && |shown| >= |text| ==> r == Repeat(Bullet, |text|)
  {
    if !isSecureEntry then text
    else
      var secured := Repeat(Bullet, |text|);
      if |shown| < |text| then secured[..|secured| - 1] + [text[|text| - 1]]
      else secured
  }

  /** Whether `setText` schedules the task that re-masks the revealed character. */
  predicate SchedulesReveal(text: string, shown: string, isSecureEntry: bool)
  {
    isSecureEntry && |shown| < |text|
  }

  /**
   * Secure mode never shows a character of the text other than the last one,
   * and shows that one exactly when the text has grown past the display.
   */
  lemma SecureDisplayHidesText(text: string, shown: string, i: nat)
    requires i < |text|
    ensures var r := Display(text, shown, true);
      r[i] == text[i] && text[i] != '\U{2022}' ==> i == |text| - 1 && |shown| < |text|
  {
  }

  /** Typing "a" then "b" shows "a", then "•b", then "••" once the reveal ends. */
  lemma TypingTwoCharacters()
    ensures var first := Display("a", "", true);
      && first == "a"
      && SchedulesReveal("ab", first, true)
      && Display("ab", first, true) == "\U{2022}b"
      && Repeat(Bullet, 2) == "\U{2022}\U{2022}"
  {
  }

  // ---------------------------------------------------------------------
  // The field and its coordinator

  class SecureTextField {
    /** `@Binding text`: the parent's storage. */
    const text: Bindings.Binding<string>
    var isSecureEntry: bool
    /** `textField.text`: what UIKit shows. */
    var shown: string
    /** `updateCharacterTask`, while not cancelled: the fully masked text it will write. */
    var pendingMask: Option<string>

    /** A pending re-mask only ever replaces the one revealed, last character. */
    ghost predicate Valid()
      reads this
    {
      pendingMask.Some? ==>
        && |shown| >= 1
        && pendingMask.value == Repeat(Bullet, |shown|)
        && shown[..|shown| - 1] == pendingMask.value[..|shown| - 1]
    }

    /** `makeUIView`: an empty field, then the first `setText`. */
    constructor (text: Bindings.Binding<string>, isSecureEntry: bool)
      ensures Valid() && this.text == text && this.isSecureEntry == isSecureEntry
      ensures shown == Display(text.value, "", isSecureEntry)
      ensures pendingMask.Some? <==> SchedulesReveal(text.value, "", isSecureEntry)
    {
      this.text := text;
      this.isSecureEntry := isSecureEntry;
      shown := "";
      pendingMask := None;
      new;
      SetText();
    }

    /**
     * `textField(_:shouldChangeCharactersIn:replacementString:)`: cancels the
     * pending re-mask, splices the edit into the bound text when the range
     * lies within it, and refuses to let UIKit apply the edit itself.
     */
    method ShouldChangeCharacters(location: nat, length: nat, replacement: string) returns (accept: bool)
      requires Valid()
      modifies this, text
      ensures Valid() && !accept && pendingMask == None
      ensures location + length <= |old(text.value)| ==>
        text.value == Splice(old(text.value), location, length, replacement)
      ensures location + length > |old(text.value)| ==> text.value == old(text.value)
      ensures shown == old(shown) && isSecureEntry == old(isSecureEntry)
    {
      pendingMask := None;
      if location + length <= |text.value| {
        text.value := text.value[..location] + replacement + text.value[location + length..];
      }
      accept := false;
    }

    /** `textFieldShouldClear`: cancels the pending re-mask and empties the bound text. */
    method ShouldClear() returns (accept: bool)
      requires Valid()
      modifies this, text
      ensures Valid() && !accept && pendingMask == None && text.value == ""
      ensures shown == old(shown) && isSecureEntry == old(isSecureEntry)
    {
      pendingMask := None;
      text.value := "";
      accept := false;
    }

    /** `setText`: redraws the display from the bound text. */
    method SetText()
      modifies this
      ensures Valid()
      ensures shown == Display(text.value, old(shown), isSecureEntry)
      ensures pendingMask.Some? <==> SchedulesReveal(text.value, old(shown), isSecureEntry)
      ensures pendingMask.Some? ==> pendingMask.value == Repeat(Bullet, |text.value|)
      ensures isSecureEntry == old(isSecureEntry)
    {
      pendingMask := None;
      if isSecureEntry {
        var secured := Repeat(Bullet, |text.value|);
        if |shown| < |text.value| {
          shown := secured[..|secured| - 1] + [text.value[|text.value| - 1]];
          pendingMask := Some(secured);
        } else {
          shown := secured;
        }
      } else {
        shown := text.value;
      }
    }

    /** `updateUIView`: the parent's new `isSecureEntry`, then `setText`. */
    method Update(isSecureEntry: bool)
      modifies this
      ensures Valid() && this.isSecureEntry == isSecureEntry
      ensures shown == Display(text.value, old(shown), isSecureEntry)
      ensures pendingMask.Some? <==> SchedulesReveal(text.value, old(shown), isSecureEntry)
    {
      this.isSecureEntry := isSecureEntry;
      SetText();
    }

    /** The pending task's 0.4 s sleep ends without cancellation: the display is fully masked again. */
    method RevealElapsed()
      requires Valid()
      modifies this
      ensures Valid() && pendingMask == None && |shown| == |old(shown)|
      ensures old(pendingMask).Some? ==> shown == old(pendingMask).value
      ensures old(pendingMask).None? ==> shown == old(shown)
      ensures isSecureEntry == old(isSecureEntry)
    {
      if pendingMask.Some? {
        shown := pendingMask.value;
        pendingMask := None;
      }
    }
  }

  /**
   * A keystroke at the end of a secure field: the bound text gains the
   * character, the display shows bullets and the character for a moment,
   * and then bullets only, one per character.
   */
  method TypeAtEnd(field: SecureTextField, c: char)
    requires field.Valid() && field.isSecureEntry && |field.shown| == |field.text.value|
    modifies field, field.text
    ensures field.Valid() && field.text.value == old(field.text.value) + [c]
    ensures field.shown == Repeat(Bullet, |field.text.value|) && field.pendingMask == None
  {
    var accepted := field.ShouldChangeCharacters(|field.text.value|, 0, [c]);
    SpliceAtEnd(old(field.text.value), [c]);
    field.Update(true);
    assert field.shown[|field.shown| - 1] == c;
    field.RevealElapsed();
  }
}
