/**
  The keybind editor screen's state: the ordered list of bindings that the
  editor's buttons change, the identifiers that were active at the end of the
  previous tick, and the end-of-tick callback that sends the bound messages.
 */
module Screen {
  import opened JavaStrings
  import opened Entries
  import opened Trigger

  class KeybindScreen {
    /** The bindings, in insertion order, which is also display and evaluation order. */
    var keybinds: seq<Entry>
    /** Identifiers of the entries that matched on the previous evaluated tick. */
    var keysPressed: set<string>
    /** Every list handed to the configuration writer, oldest first. */
    ghost var saved: seq<seq<Entry>>

    /** A new screen starts from the bindings read from the configuration file (none when it is absent). */
    constructor (loaded: seq<Entry>)
      ensures keybinds == loaded && keysPressed == {} && saved == []
    {
      keybinds := loaded;
      keysPressed := {};
      saved := [];
    }

    /** Writes the whole current list to the configuration file. */
    method Save()
      modifies this
      ensures keybinds == old(keybinds) && keysPressed == old(keysPressed)
      ensures saved == old(saved) + [keybinds]
    {
      saved := saved + [keybinds];
    }

    /**
      The "Bind Key" button: appends an entry with the upper-cased key and no
      modifiers, and saves, when the upper-cased key is one character long and
      the message is not empty; otherwise changes nothing.
     */
    method Add(keyText: string, message: string) returns (added: bool)
      modifies this
      ensures added == AcceptsBinding(keyText, message)
      ensures keybinds == AddBinding(old(keybinds), keyText, message)
      ensures keysPressed == old(keysPressed)
      ensures saved == if added then old(saved) + [keybinds] else old(saved)
    {
      var key := ToUpperCase(keyText);
      added := Utf16Length(key) == 1 && message != "";
      if added {
        keybinds := keybinds + [NewEntry(key, message)];
        Save();
      }
    }

    /** The "Ctrl" toggle of entry `i`: inverts its Ctrl requirement and saves. */
    method ToggleCtrl(i: nat)
      requires i < |keybinds|
      modifies this
      ensures keybinds == ToggleAt(old(keybinds), i, Ctrl)
      ensures keysPressed == old(keysPressed)
      ensures saved == old(saved) + [keybinds]
    {
      var entry := keybinds[i];
      keybinds := keybinds[i := entry.(ctrl := !entry.ctrl)];
      Save();
    }

    /** The "Shift" toggle of entry `i`: inverts its Shift requirement and saves. */
    method ToggleShift(i: nat)
      requires i < |keybinds|
      modifies this
      ensures keybinds == ToggleAt(old(keybinds), i, Shift)
      ensures keysPressed == old(keysPressed)
      ensures saved == old(saved) + [keybinds]
    {
      var entry := keybinds[i];
      keybinds := keybinds[i := entry.(shift := !entry.shift)];
      Save();
    }

    /** The delete button of entry `i`: removes that entry and saves. */
    method Remove(i: nat)
      requires i < |keybinds|
      modifies this
      ensures keybinds == RemoveAt(old(keybinds), i)
      ensures keysPressed == old(keysPressed)
      ensures saved == old(saved) + [keybinds]
    {
      keybinds := keybinds[..i] + keybinds[i + 1..];
      Save();
    }

    /**
      The end-of-tick callback. With a screen open it sends nothing and forgets
      every active identifier. Otherwise it sends, in list order, the message of
      every entry that matches and whose identifier was not active on the
      previous tick, and remembers the identifiers of all matching entries.
      The list of bindings is never changed.
     */
    method Tick(input: Input) returns (sent: seq<string>)
      modifies this
      ensures keybinds == old(keybinds) && saved == old(saved)
      ensures input.screenOpen ==> sent == [] && keysPressed == {}
      ensures !input.screenOpen ==>
                sent == Messages(keybinds, Firing(keybinds, old(keysPressed), input)) &&
                keysPressed == ActiveIds(keybinds, input)
    {
      sent := [];
      if !input.screenOpen {
        var currentlyPressed: set<string> := {};
        var i := 0;
        while i < |keybinds|
          invariant unchanged(this)
          invariant 0 <= i <= |keybinds|
          invariant currentlyPressed == ActiveIds(keybinds[..i], input)
          invariant sent == Messages(keybinds, Firing(keybinds[..i], keysPressed, input))
        {
          var entry := keybinds[i];
          var keyPressed := IsKeyPressed(input, input.codeOf(TranslationKey(entry.key)));
          var shiftDown := IsKeyPressed(input, LeftShift) || IsKeyPressed(input, RightShift);
          var ctrlDown := IsKeyPressed(input, LeftCtrl) || IsKeyPressed(input, RightCtrl);
          var shiftMatch := !entry.shift || shiftDown;
          var ctrlMatch := !entry.ctrl || ctrlDown;
          var keyIdentifier := Id(entry);
          FiringStep(keybinds, i, keysPressed, input);
          ActiveIdsStep(keybinds, i, input);
          ghost var before := Firing(keybinds[..i], keysPressed, input);
          if keyPressed && shiftMatch && ctrlMatch {
            currentlyPressed := currentlyPressed + {keyIdentifier};
            if keyIdentifier !in keysPressed {
              MessagesAppend(keybinds, before, i);
              sent := sent + [entry.message];
            }
          }
          i := i + 1;
        }
        assert keybinds[..i] == keybinds;
        keysPressed := currentlyPressed;
      } else {
        keysPressed := {};
      }
    }
  }

  /** One unblocked tick of a screen holding the single entry `e`. */
  method SingleTick(screen: KeybindScreen, e: Entry, input: Input) returns (sent: seq<string>)
    requires screen.keybinds == [e] && !input.screenOpen
    modifies screen
    ensures screen.keybinds == [e]
    ensures sent == if Fires(e, old(screen.keysPressed), input) then [e.message] else []
    ensures screen.keysPressed == if Matches(e, input) then {Id(e)} else {}
  {
    assert [e][..0] == [];
    sent := screen.Tick(input);
  }

  /** GLFW key code of the R key. */
  const KeyR := 82

  /** The host's key table for the scenario below: only "key.keyboard.r" resolves. */
  function ScenarioCodes(translationKey: string): int {
    if translationKey == "key.keyboard.r" then KeyR else UnknownKey
  }

  /**
    A binding of R with Shift to a message, driven through successive ticks:
    editor open, R alone, R with Shift, still held, Shift alone, R with the
    other Shift. The message goes out on the press and again after the release,
    never while the combination stays held.
   */
  method ShiftBindingScenario(message: string) returns (sent: seq<seq<string>>)
    requires message != ""
    ensures sent == [[], [], [message], [], [], [message]]
  {
    var screen := new KeybindScreen([]);
    var added := screen.Add("r", message);
    AcceptsBindingIff("r", message);
    assert added;
    assert ToUpperCase("r") == "R";
    screen.ToggleShift(0);
    assert screen.keybinds == [Entry("R", message, false, true)];
    assert TranslationKey("R") == "key.keyboard.r";
    var e := Entry("R", message, false, true);
    var codes := ScenarioCodes;
    var s0 := screen.Tick(Input(true, {KeyR, LeftShift}, codes));
    assert screen.keysPressed == {};
    var s1 := SingleTick(screen, e, Input(false, {KeyR}, codes));
    var s2 := SingleTick(screen, e, Input(false, {KeyR, LeftShift}, codes));
    var s3 := SingleTick(screen, e, Input(false, {KeyR, LeftShift}, codes));
    var s4 := SingleTick(screen, e, Input(false, {LeftShift}, codes));
    var s5 := SingleTick(screen, e, Input(false, {KeyR, RightShift}, codes));
    sent := [s0, s1, s2, s3, s4, s5];
  }
}
