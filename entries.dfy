/**
  Keybind entries and the edits the editor screen makes to the ordered list
  of entries: a validated append, a modifier toggle, and a removal.
 */
module Entries {
  import opened JavaStrings

  /** One binding: a key name, the chat message it sends, and the modifiers it requires. */
  datatype Entry = Entry(key: string, message: string, ctrl: bool, shift: bool)

  /** The modifier flags an entry carries. */
  datatype Modifier = Ctrl | Shift

  /** A freshly constructed entry requires no modifier. */
  function NewEntry(key: string, message: string): (e: Entry)
    ensures e.key == key && e.message == message
    ensures !e.ctrl && !e.shift
  {
    Entry(key, message, false, false)
  }

  /**
    The identifier under which the tick callback remembers that an entry was
    active: the key, the Ctrl flag and the Shift flag joined by colons.
   */
  function Id(e: Entry): string {
    e.key + ":" + BoolToString(e.ctrl) + ":" + BoolToString(e.shift)
  }

  /** `a:x` determines `a` and the boolean `x`: "true" and "false" differ in their last five characters. */
  lemma SplitLastField(a: string, x: bool, b: string, y: bool)
    requires a + ":" + BoolToString(x) == b + ":" + BoolToString(y)
    ensures a == b && x == y
  {
    var s := a + ":" + BoolToString(x);
    assert x == y by {
      assert s[|s| - 5] == (if x then ':' else 'f');
      assert s[|s| - 5] == (if y then ':' else 'f');
    }
    assert |a| == |b|;
    assert a == s[..|a|];
    assert b == s[..|b|];
  }

  /** Two entries share an identifier exactly when they agree on key, Ctrl and Shift. */
  lemma IdInjective(e1: Entry, e2: Entry)
    ensures Id(e1) == Id(e2) <==> e1.key == e2.key && e1.ctrl == e2.ctrl && e1.shift == e2.shift
  {
    if Id(e1) == Id(e2) {
      SplitLastField(e1.key + ":" + BoolToString(e1.ctrl), e1.shift,
                     e2.key + ":" + BoolToString(e2.ctrl), e2.shift);
      SplitLastField(e1.key, e1.ctrl, e2.key, e2.ctrl);
    }
  }

  /** Flipping a modifier of an entry gives it a different identifier. */
  lemma FlipChangesId(e: Entry, m: Modifier)
    ensures Id(Flip(e, m)) != Id(e)
  {
    IdInjective(Flip(e, m), e);
  }

  /** The "Bind Key" button's test: the upper-cased key is one UTF-16 unit long and the message is not empty. */
  predicate AcceptsBinding(keyText: string, message: string) {
    Utf16Length(ToUpperCase(keyText)) == 1 && message != ""
  }

  /**
    A binding is accepted exactly when the typed key is a single character of
    the Basic Multilingual Plane whose upper case does not expand to several
    characters, and the message is not empty.
   */
  lemma AcceptsBindingIff(keyText: string, message: string)
    ensures AcceptsBinding(keyText, message)
            <==> |keyText| == 1 && !Expands(keyText[0]) && keyText[0] as int < 0x1_0000 && message != ""
  {
    UpperCaseIsOneUnit(keyText);
  }

  /** The list after pressing "Bind Key" with the given field contents. */
  function AddBinding(es: seq<Entry>, keyText: string, message: string): (r: seq<Entry>)
    ensures AcceptsBinding(keyText, message) ==> |r| == |es| + 1
    ensures !AcceptsBinding(keyText, message) ==> r == es
    ensures r[..|es|] == es
    ensures |r| == |es| + 1 ==> r[|es|].key == ToUpperCase(keyText)
    ensures |r| == |es| + 1 ==>
              var e := r[|es|];
              |e.key| == 1 && ToUpperCase(e.key) == e.key && e.message == message && e.message != "" &&
              !e.ctrl && !e.shift
  {
    if AcceptsBinding(keyText, message) then
      var key := ToUpperCase(keyText);
      UpperCaseIsOneUnit(keyText);
      Utf16LengthOne(key);
      ToUpperCaseIdempotent(keyText);
      es + [NewEntry(key, message)]
    else
      es
  }

  /** The entry with one modifier flag inverted: exactly the chosen flag changes. */
  function Flip(e: Entry, m: Modifier): (r: Entry)
    ensures r.key == e.key && r.message == e.message
    ensures (r.ctrl != e.ctrl) == (m == Ctrl)
    ensures (r.shift != e.shift) == (m == Shift)
  {
    match m
    case Ctrl => e.(ctrl := !e.ctrl)
    case Shift => e.(shift := !e.shift)
  }

  /** The list after pressing the Ctrl or Shift toggle of entry `i`. */
  function ToggleAt(es: seq<Entry>, i: nat, m: Modifier): (r: seq<Entry>)
    requires i < |es|
    ensures |r| == |es|
    ensures forall j :: 0 <= j < |es| && j != i ==> r[j] == es[j]
    ensures r[i].key == es[i].key && r[i].message == es[i].message
    ensures r[i].ctrl == (if m == Ctrl then !es[i].ctrl else es[i].ctrl)
    ensures r[i].shift == (if m == Shift then !es[i].shift else es[i].shift)
  {
    es[i := Flip(es[i], m)]
  }

  /** Toggling the same flag of the same entry twice restores the list. */
  lemma ToggleTwice(es: seq<Entry>, i: nat, m: Modifier)
    requires i < |es|
    ensures ToggleAt(ToggleAt(es, i, m), i, m) == es
  {
  }

  /** The list after pressing the delete button of entry `i`. */
  function RemoveAt(es: seq<Entry>, i: nat): (r: seq<Entry>)
    requires i < |es|
    ensures |r| == |es| - 1
    ensures forall j :: 0 <= j < i ==> r[j] == es[j]
    ensures forall j :: i <= j < |r| ==> r[j] == es[j + 1]
    ensures multiset(r) + multiset{es[i]} == multiset(es)
  {
    assert es == es[..i] + [es[i]] + es[i + 1..];
    es[..i] + es[i + 1..]
  }
}
