/**
  What one end-of-tick evaluation computes: which entries match the keyboard
  state, which of them fire on a rising edge, and which identifiers are
  remembered as active for the next tick.
 */
module Trigger {
  import opened JavaStrings
  import opened Entries

  /**
    GLFW key codes of the modifier keys, and the code this model assumes the
    host gives a key name it cannot resolve.
   */
  const LeftShift := 340
  const LeftCtrl := 341
  const RightShift := 344
  const RightCtrl := 345
  const UnknownKey := -1

  /**
    The host's state at the end of a tick: whether a screen is open, the key
    codes held down, and the host's lookup from a translation key such as
    "key.keyboard.r" to a key code.
   */
  datatype Input = Input(screenOpen: bool, down: set<int>, codeOf: string -> int)

  /** The translation key under which the host knows an entry's key: the prefix, then the key with its ASCII capitals lowered. */
  function TranslationKey(key: string): (t: string)
    ensures |t| == 13 + |key| && t[..13] == "key.keyboard."
    ensures forall i :: 13 <= i < |t| ==> t[i] == LowerChar(key[i - 13]) && !('A' <= t[i] <= 'Z')
  {
    "key.keyboard." + ToLowerCase(key)
  }

  /** Two key names are looked up under the same translation key exactly when they differ only in the case of ASCII letters. */
  lemma TranslationKeyIgnoresCase(k1: string, k2: string)
    ensures TranslationKey(k1) == TranslationKey(k2)
            <==> |k1| == |k2| && forall i :: 0 <= i < |k1| ==> LowerChar(k1[i]) == LowerChar(k2[i])
  {
    var t1, t2 := TranslationKey(k1), TranslationKey(k2);
    if |k1| == |k2| && forall i :: 0 <= i < |k1| ==> LowerChar(k1[i]) == LowerChar(k2[i]) {
      assert forall i :: 0 <= i < |t1| ==> t1[i] == t2[i];
    }
    if t1 == t2 {
      forall i | 0 <= i < |k1| ensures LowerChar(k1[i]) == LowerChar(k2[i]) {
        assert t1[13 + i] == t2[13 + i];
      }
    }
  }

  /**
    A letter typed in either case is stored as the same capital, and that
    stored key is looked up under the letter's small form: typing "r" or "R"
    binds the key the host calls "key.keyboard.r".
   */
  lemma LetterKeyLookup(c: char)
    requires 'a' <= c <= 'z' || 'A' <= c <= 'Z'
    ensures ToUpperCase([c]) == ToUpperCase([LowerChar(c)]) == [(LowerChar(c) as int - 32) as char]
    ensures TranslationKey(ToUpperCase([c])) == "key.keyboard." + [LowerChar(c)]
  {
    var u := ToUpperCase([c]);
    assert |u| == 1;
    assert TranslationKey(u)[13] == LowerChar(u[0]);
  }

  /** A key code is held; under the model's assumption a key name the host cannot resolve is never held. */
  predicate IsKeyPressed(input: Input, code: int) {
    code != UnknownKey && code in input.down
  }

  /** The key an entry names is held. */
  predicate KeyDown(input: Input, key: string) {
    IsKeyPressed(input, input.codeOf(TranslationKey(key)))
  }

  /** Either Shift key is held. */
  predicate ShiftDown(input: Input) {
    IsKeyPressed(input, LeftShift) || IsKeyPressed(input, RightShift)
  }

  /** Either Ctrl key is held. */
  predicate CtrlDown(input: Input) {
    IsKeyPressed(input, LeftCtrl) || IsKeyPressed(input, RightCtrl)
  }

  /** The entry's key is held and every modifier it requires is held. */
  predicate Matches(e: Entry, input: Input) {
    KeyDown(input, e.key) && (!e.shift || ShiftDown(input)) && (!e.ctrl || CtrlDown(input))
  }

  /** The entry matches and its identifier was not active on the previous tick. */
  predicate Fires(e: Entry, prev: set<string>, input: Input) {
    Matches(e, input) && Id(e) !in prev
  }

  /**
    The positions of the entries whose messages an unblocked tick sends, in
    the order they are sent: exactly the firing entries, in list order.
   */
  function Firing(es: seq<Entry>, prev: set<string>, input: Input): (r: seq<nat>)
    ensures forall j :: 0 <= j < |r| ==> r[j] < |es|
    ensures forall j, k :: 0 <= j < k < |r| ==> r[j] < r[k]
    ensures forall i :: 0 <= i < |es| ==> (i in r <==> Fires(es[i], prev, input))
    decreases |es|
  {
    if es == [] then []
    else
      var n := |es| - 1;
      assert forall i :: 0 <= i < n ==> es[..n][i] == es[i];
      Firing(es[..n], prev, input) + (if Fires(es[n], prev, input) then [n] else [])
  }

  /** The messages of the entries at the given positions, in that order. */
  function Messages(es: seq<Entry>, positions: seq<nat>): (r: seq<string>)
    requires forall j :: 0 <= j < |positions| ==> positions[j] < |es|
  {
    seq(|positions|, j requires 0 <= j < |positions| => es[positions[j]].message)
  }

  /** The identifiers an unblocked tick remembers: those of the matching entries. */
  function ActiveIds(es: seq<Entry>, input: Input): (r: set<string>)
    ensures forall id :: id in r <==> exists i :: 0 <= i < |es| && Matches(es[i], input) && Id(es[i]) == id
    decreases |es|
  {
    if es == [] then {}
    else
      var n := |es| - 1;
      assert forall i :: 0 <= i < n ==> es[..n][i] == es[i];
      ActiveIds(es[..n], input) + (if Matches(es[n], input) then {Id(es[n])} else {})
  }

  /** Evaluating one more entry appends its position when it fires. */
  lemma FiringStep(es: seq<Entry>, i: nat, prev: set<string>, input: Input)
    requires i < |es|
    ensures Firing(es[..i + 1], prev, input)
            == Firing(es[..i], prev, input) + (if Fires(es[i], prev, input) then [i] else [])
  {
    assert es[..i + 1][..i] == es[..i];
  }

  /** Evaluating one more entry adds its identifier when it matches. */
  lemma ActiveIdsStep(es: seq<Entry>, i: nat, input: Input)
    requires i < |es|
    ensures ActiveIds(es[..i + 1], input)
            == ActiveIds(es[..i], input) + (if Matches(es[i], input) then {Id(es[i])} else {})
  {
    assert es[..i + 1][..i] == es[..i];
  }

  /** Sending one more position appends that entry's message. */
  lemma MessagesAppend(es: seq<Entry>, positions: seq<nat>, i: nat)
    requires forall j :: 0 <= j < |positions| ==> positions[j] < |es|
    requires i < |es|
    ensures Messages(es, positions + [i]) == Messages(es, positions) + [es[i].message]
  {
  }

  /** Entries that share an identifier match the same inputs. */
  lemma SameIdSameMatch(e1: Entry, e2: Entry, input: Input)
    requires Id(e1) == Id(e2)
    ensures Matches(e1, input) == Matches(e2, input)
  {
    IdInjective(e1, e2);
  }

  /** When no entry fires, an unblocked tick sends nothing. */
  lemma {:induction false} NoneFiring(es: seq<Entry>, prev: set<string>, input: Input)
    requires forall i :: 0 <= i < |es| ==> !Fires(es[i], prev, input)
    ensures Firing(es, prev, input) == []
  {
    if es != [] {
      var n := |es| - 1;
      assert forall i :: 0 <= i < n ==> es[..n][i] == es[i];
      NoneFiring(es[..n], prev, input);
    }
  }

  /** An entry whose combination is still held on the next tick, with the same input, does not fire again. */
  lemma NoRefireWhileHeld(es: seq<Entry>, input: Input)
    ensures Firing(es, ActiveIds(es, input), input) == []
  {
    var active := ActiveIds(es, input);
    forall i | 0 <= i < |es| ensures !Fires(es[i], active, input) {
      if Matches(es[i], input) {
        assert Id(es[i]) in active;
      }
    }
    NoneFiring(es, active, input);
  }

  /**
    An entry that did not match on one tick fires on the next tick in which it
    matches: releasing the key or a required modifier re-arms it.
   */
  lemma RearmAfterRelease(es: seq<Entry>, i: nat, before: Input, after: Input)
    requires i < |es|
    requires !Matches(es[i], before)
    requires Matches(es[i], after)
    ensures i in Firing(es, ActiveIds(es, before), after)
  {
    if Id(es[i]) in ActiveIds(es, before) {
      var j :| 0 <= j < |es| && Matches(es[j], before) && Id(es[j]) == Id(es[i]);
      SameIdSameMatch(es[j], es[i], before);
      assert false;
    }
  }

  /** After a tick with a screen open, which clears the active set, every matching entry fires. */
  lemma RearmAfterBlocked(es: seq<Entry>, input: Input)
    ensures forall i :: 0 <= i < |es| ==> (i in Firing(es, {}, input) <==> Matches(es[i], input))
  {
  }

  /**
    Two entries with the same identifier fire together: the test is against
    the previous tick's set, not against the set being built.
   */
  lemma DuplicatesFireTogether(es: seq<Entry>, i: nat, j: nat, prev: set<string>, input: Input)
    requires i < |es| && j < |es|
    requires Id(es[i]) == Id(es[j])
    requires i in Firing(es, prev, input)
    ensures j in Firing(es, prev, input)
  {
    SameIdSameMatch(es[i], es[j], input);
  }

  /**
    Two entries on the same key, one requiring Ctrl and one requiring no
    modifier, both inactive before: with Ctrl held both fire, without Ctrl
    only the unmodified one fires.
   */
  lemma CtrlDisambiguation(es: seq<Entry>, i: nat, j: nat, prev: set<string>, input: Input)
    requires i < |es| && j < |es|
    requires es[i].key == es[j].key && KeyDown(input, es[i].key)
    requires es[i].ctrl && !es[i].shift && !es[j].ctrl && !es[j].shift
    requires Id(es[i]) !in prev && Id(es[j]) !in prev
    ensures j in Firing(es, prev, input)
    ensures i in Firing(es, prev, input) <==> CtrlDown(input)
  {
  }

  /** An entry whose key name the host cannot resolve never fires and is never remembered. */
  lemma UnresolvedKeyIsInert(es: seq<Entry>, i: nat, prev: set<string>, input: Input)
    requires i < |es|
    requires input.codeOf(TranslationKey(es[i].key)) == UnknownKey
    ensures i !in Firing(es, prev, input)
    ensures Id(es[i]) in ActiveIds(es, input) ==>
              exists j :: 0 <= j < |es| && j != i && Id(es[j]) == Id(es[i]) && Matches(es[j], input)
  {
  }
}
