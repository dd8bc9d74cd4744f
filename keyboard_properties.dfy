/** Properties of the key dispatcher: the shift latch, the one-shot
    modifiers, deletion, the extended keys, layout switching and the
    delete-repeat flag. */
module KeyboardProperties {
  import opened TextUnits
  import opened Keyboard

  /** The invariant every operation of the input method keeps: caps lock
      implies shift, a posted repeat implies the repeat is armed, and a
      language layout on screen is the one of the language preference. The
      last part assumes the preference changes only through `switchLanguage`. */
  predicate Valid(s: ImeState)
  {
    (s.capsLock ==> s.caps)
    && (s.pendingRepeats > 0 ==> s.isDeleting)
    && ((s.keyboard == En || s.keyboard == Ru) ==> s.keyboard == LanguageLayout(s.language))
  }

  lemma InitialStateValid(language: string)
    ensures Valid(InitialState(language))
    ensures InitialState(language).keyboard == LanguageLayout(language)
  {
  }

  // ---------------------------------------------------------------- onKey

  /** Without an input connection `onKey` returns at once: no feedback,
      no action, no change. */
  lemma NoConnectionNoEffect(s: ImeState, code: int)
    ensures Dispatch(s, code, None) == Step(s, [])
  {
  }

  /** With a connection the feedback request always comes first. */
  lemma FeedbackFirst(s: ImeState, code: int, before: Text)
    ensures var step := Dispatch(s, code, Some(before));
            |step.actions| >= 1 && step.actions[0] == Feedback(SoundFor(code))
  {
  }

  /** Every key keeps the invariant. */
  lemma DispatchKeepsValid(s: ImeState, code: int, connection: Option<Text>)
    requires Valid(s)
    ensures Valid(Dispatch(s, code, connection).state)
    ensures Dispatch(s, code, connection).state.language == s.language
    ensures Dispatch(s, code, connection).state.isDeleting == s.isDeleting
    ensures Dispatch(s, code, connection).state.pendingRepeats == s.pendingRepeats
  {
  }

  // ---------------------------------------------------------------- shift

  /** One tap of shift: caps lock still implies shift, the layout on screen
      shows the new shift state, and nothing but the latch changes. */
  lemma ShiftShowsCaps(s: ImeState)
    ensures var r := ShiftStep(s).state;
            (r.capsLock ==> r.caps) && (r.keyboard in r.shifted <==> r.caps)
            && r == s.(caps := r.caps, capsLock := r.capsLock, shifted := r.shifted)
            && r.shifted - {r.keyboard} == s.shifted - {s.keyboard}
  {
  }

  /** plain -> shifted -> caps-locked -> plain, with the caps-lock notices
      on the second and third tap. */
  lemma ShiftLatchSequence(s: ImeState)
    requires !s.caps && !s.capsLock
    ensures var s1 := ShiftStep(s); var s2 := ShiftStep(s1.state); var s3 := ShiftStep(s2.state);
            s1.state.caps && !s1.state.capsLock && s1.actions == []
            && s2.state.caps && s2.state.capsLock && s2.actions == [Notice(CapsLockOnNotice)]
            && !s3.state.caps && !s3.state.capsLock && s3.actions == [Notice(CapsLockOffNotice)]
  {
  }

  /** From any latch state that keeps the invariant, three taps come back. */
  lemma ShiftCycle(s: ImeState)
    requires s.capsLock ==> s.caps
    ensures var r := ShiftStep(ShiftStep(ShiftStep(s).state).state).state;
            r.caps == s.caps && r.capsLock == s.capsLock
  {
  }

  /** The shift key goes through `handleShift` and nothing else. */
  lemma ShiftKeyIsLatch(s: ImeState, before: Text)
    ensures Dispatch(s, KeycodeShift, Some(before))
            == Step(ShiftStep(s).state, [Feedback(StandardSound)] + ShiftStep(s).actions)
  {
  }

  // ---------------------------------------------------------------- printable keys

  /** The codes of the editing keys, the modifier toggles and the extended
      keys are the only ones `onKey` does not commit as a character. */
  lemma NonNegativeCodesAreOther(code: int)
    requires code >= 0
    ensures IsOtherCode(code)
  {
  }

  /** An unmatched negative code such as -117 is committed as its 16-bit
      character, not ignored. */
  lemma UnmatchedCodeCommits(s: ImeState, before: Text)
    requires !s.ctrlPressed && !s.altPressed
    ensures Dispatch(s, -117, Some(before)).actions
            == [Feedback(StandardSound), CommitText([0xFF8B])]
  {
  }

  /** With no modifier armed a code is committed as one character,
      upper-cased exactly when it is a letter and shift or caps lock is on;
      a plain shift is used up by this one character, caps lock is not. */
  lemma PrintableCommit(s: ImeState, code: int, before: Text)
    requires IsOtherCode(code) && !s.ctrlPressed && !s.altPressed
    ensures var step := Dispatch(s, code, Some(before));
            var c := ToChar(code);
            step.actions == [Feedback(SoundFor(code)),
                             CommitText([if IsLetter(c) && (s.caps || s.capsLock) then ToUpper(c) else c])]
            && step.state.caps == (s.caps && s.capsLock)
            && step.state.capsLock == s.capsLock
            && (s.caps && !s.capsLock ==> s.keyboard !in step.state.shifted)
            && step.state == s.(caps := step.state.caps, shifted := step.state.shifted)
  {
  }

  /** A non-letter is committed unchanged whatever the shift state. */
  lemma NonLetterUnchanged(s: ImeState, code: int, before: Text)
    requires IsOtherCode(code) && !s.ctrlPressed && !s.altPressed
    requires !IsLetter(ToChar(code))
    ensures Dispatch(s, code, Some(before)).actions[1] == CommitText([ToChar(code)])
  {
  }

  /** A lower-case letter typed under shift or caps lock is committed as the
      capital of that same letter. */
  lemma ShiftedLetterUpperCase(s: ImeState, code: int, before: Text)
    requires IsOtherCode(code) && !s.ctrlPressed && !s.altPressed
    requires IsLetter(ToChar(code)) && IsLowerCase(ToChar(code)) && (s.caps || s.capsLock)
    ensures var committed := Dispatch(s, code, Some(before)).actions[1];
            committed == CommitText([ToUpper(ToChar(code))])
            && IsLetter(committed.text[0]) && !IsLowerCase(committed.text[0])
            && ToLower(committed.text[0]) == ToChar(code)
  {
  }

  /** With Ctrl armed a code is sent once as Ctrl+code, nothing is
      committed, and only the Ctrl flag is cleared: Alt stays armed. */
  lemma CtrlCombination(s: ImeState, code: int, before: Text)
    requires IsOtherCode(code) && s.ctrlPressed
    ensures var step := Dispatch(s, code, Some(before));
            step.state == s.(ctrlPressed := false)
            && step.actions == [Feedback(SoundFor(code)), SendCombo(code, Ctrl)]
                               + (if s.altPressed then [Notice("Alt" + ActiveSuffix)] else [])
            && forall a | a in step.actions :: !a.CommitText?
  {
  }

  /** With only Alt armed a code is sent once as Alt+code and Alt is cleared. */
  lemma AltCombination(s: ImeState, code: int, before: Text)
    requires IsOtherCode(code) && !s.ctrlPressed && s.altPressed
    ensures var step := Dispatch(s, code, Some(before));
            step.state == s.(altPressed := false)
            && step.actions == [Feedback(SoundFor(code)), SendCombo(code, Alt)]
  {
  }

  /** Tapping Ctrl arms it and announces the armed modifiers; a second tap
      disarms it and restores the state. */
  lemma CtrlToggleTwice(s: ImeState, before: Text)
    ensures var s1 := Dispatch(s, CtrlToggle, Some(before));
            var s2 := Dispatch(s1.state, CtrlToggle, Some(before));
            s1.state == s.(ctrlPressed := !s.ctrlPressed)
            && s1.actions == [Feedback(StandardSound)] + NoticeActions(ModifierNotice(!s.ctrlPressed, s.altPressed))
            && s2.state == s
  {
  }

  lemma AltToggleTwice(s: ImeState, before: Text)
    ensures var s1 := Dispatch(s, AltToggle, Some(before));
            var s2 := Dispatch(s1.state, AltToggle, Some(before));
            s1.state == s.(altPressed := !s.altPressed)
            && s1.actions == [Feedback(StandardSound)] + NoticeActions(ModifierNotice(s.ctrlPressed, !s.altPressed))
            && s2.state == s
  {
  }

  // ---------------------------------------------------------------- delete

  /** Delete without Ctrl removes exactly one unit; with Ctrl it removes
      the trailing word, and Ctrl stays armed. No flag changes either way. */
  lemma DeleteKey(s: ImeState, before: Text)
    ensures var step := Dispatch(s, KeycodeDelete, Some(before));
            step.state == s
            && step.actions == [Feedback(DeleteSound)]
                               + (if s.ctrlPressed then DeleteWordActions(before) else [DeleteBefore(1)])
  {
  }

  /** `TrailingRun` is the one count that satisfies `IsTrailingRun`. */
  lemma {:induction false} TrailingRunCharacterized(t: Text, n: nat)
    ensures IsTrailingRun(t, n) <==> n == TrailingRun(t)
  {
    if |t| > 0 && !IsWhitespace(t[|t| - 1]) {
      var init := t[..|t| - 1];
      if n > 0 {
        TrailingRunCharacterized(init, n - 1);
        if IsTrailingRun(t, n) {
          assert IsTrailingRun(init, n - 1) by {
            forall j | |init| - (n - 1) <= j < |init|
              ensures !IsWhitespace(init[j])
            {
              assert init[j] == t[j];
            }
          }
        }
        if n == TrailingRun(t) {
          assert IsTrailingRun(init, n - 1);
          forall j | |t| - n <= j < |t|
            ensures !IsWhitespace(t[j])
          {
            if j < |t| - 1 {
              assert t[j] == init[j];
            }
          }
        }
      } else {
        TrailingRunCharacterized(init, 0);
      }
    }
  }

  /** Ctrl+Delete on "hello world" deletes "world" but not the space. */
  lemma DeleteWordHelloWorld()
    ensures DeleteWordActions(Lit("hello world")) == [DeleteBefore(5)]
  {
    var t := Lit("hello world");
    HelloWorldRun();
    assert t == [104, 101, 108, 108, 111, 32, 119, 111, 114, 108, 100];
    assert TakeLast(t, WordLookback) == t;
  }

  /** The trailing word of "hello world" is "world". */
  lemma HelloWorldRun()
    ensures TrailingRun([104, 101, 108, 108, 111, 32, 119, 111, 114, 108, 100]) == 5
  {
    var t: Text := [104, 101, 108, 108, 111, 32, 119, 111, 114, 108, 100];
    assert IsTrailingRun(t, 5);
    TrailingRunCharacterized(t, 5);
  }

  /** Text that ends in whitespace gives a deletion of zero units; no text
      at all gives no deletion. */
  lemma DeleteWordAtWhitespace(before: Text)
    ensures before == [] ==> DeleteWordActions(before) == []
    ensures before != [] && IsWhitespace(before[|before| - 1])
            ==> DeleteWordActions(before) == [DeleteBefore(0)]
  {
  }

  /** The word deletion never reaches past the 100-unit lookback and
      removes only non-whitespace that ends the text. */
  lemma DeleteWordBounded(before: Text)
    ensures forall a | a in DeleteWordActions(before) ::
              a.DeleteBefore? && a.count <= WordLookback && a.count <= |before|
              && forall j | |before| - a.count <= j < |before| :: !IsWhitespace(before[j])
  {
    var lookback := TakeLast(before, WordLookback);
    if |lookback| > 0 {
      var n := TrailingRun(lookback);
      TrailingRunCharacterized(lookback, n);
      forall j | |before| - n <= j < |before|
        ensures !IsWhitespace(before[j])
      {
        assert before[j] == lookback[j - (|before| - |lookback|)];
      }
    }
  }

  // ---------------------------------------------------------------- extended keys

  /** The extended keys never touch caps, caps lock, Ctrl, Alt or anything
      else. */
  lemma ExtendedKeysKeepState(s: ImeState, code: int, connection: Option<Text>)
    requires -116 <= code <= -103 || -131 <= code <= -120 || code == CopyCode || code == PasteCode
    ensures Dispatch(s, code, connection).state == s
  {
  }

  /** Code -120 - k sends function key F(k+1): -120 is F1, -131 is F12. */
  lemma FunctionKeys(s: ImeState, k: nat, before: Text)
    requires k < 12
    ensures Dispatch(s, -120 - k, Some(before)).actions
            == [Feedback(StandardSound), SendKey(KeyEventF1 + k)]
  {
  }

  /** Copy and paste send Ctrl+C and Ctrl+V whatever is armed. */
  lemma CopyPasteIgnoreModifiers(s: ImeState, before: Text)
    ensures Dispatch(s, CopyCode, Some(before)).actions
            == [Feedback(StandardSound), SendCombo(KeyEventC, Ctrl)]
    ensures Dispatch(s, PasteCode, Some(before)).actions
            == [Feedback(StandardSound), SendCombo(KeyEventV, Ctrl)]
  {
  }

  // ---------------------------------------------------------------- layouts

  /** Selecting a mode twice from the layout of the current language comes
      back to it. */
  lemma ModeToggleTwice(mode: string, language: string)
    requires mode == "code" || mode == "symbols"
    ensures var home := LanguageLayout(language);
            ModeLayout(mode, ModeLayout(mode, home, language), language) == home
  {
  }

  /** The panel's "</>" and "123" buttons keep the invariant. */
  lemma ModeButtonsKeepValid(s: ImeState, mode: string)
    requires Valid(s) && (mode == "code" || mode == "symbols")
    ensures Valid(s.(keyboard := ModeLayout(mode, s.keyboard, s.language)))
  {
  }

  /** The mode-change key toggles the symbols layout and touches nothing else. */
  lemma ModeChangeKey(s: ImeState, before: Text)
    ensures var step := Dispatch(s, KeycodeModeChange, Some(before));
            step.actions == [Feedback(StandardSound)]
            && step.state == s.(keyboard := if s.keyboard == Symbols then LanguageLayout(s.language) else Symbols)
  {
  }

  /** Switching language keeps the invariant, always shows the layout of
      the new language, and a second switch restores "en" or "ru". */
  lemma LanguageSwitchedTwice(s: ImeState)
    requires Valid(s)
    ensures Valid(LanguageSwitched(s))
    ensures LanguageSwitched(s).keyboard == LanguageLayout(LanguageSwitched(s).language)
    ensures s.language == "en" || s.language == "ru"
            ==> LanguageSwitched(LanguageSwitched(s)).language == s.language
  {
  }

  // ---------------------------------------------------------------- delete repeat

  /** Pressing delete again while it is held posts a second repeat: there
      is no guard against re-arming. */
  lemma PressDeleteTwice(s: ImeState)
    ensures var r := Pressed(Pressed(s, KeycodeDelete), KeycodeDelete);
            r.isDeleting && r.pendingRepeats == s.pendingRepeats + 2
  {
  }

  /** Releasing delete leaves no repeat pending; other keys change nothing. */
  lemma ReleaseDisarms(s: ImeState, code: int)
    requires Valid(s)
    ensures code == KeycodeDelete ==> !Released(s, code).isDeleting && Released(s, code).pendingRepeats == 0
    ensures code != KeycodeDelete ==> Released(s, code) == s
    ensures Valid(Released(s, code))
  {
  }

  lemma PressKeepsValid(s: ImeState, code: int)
    requires Valid(s)
    ensures Valid(Pressed(s, code))
    ensures code != KeycodeDelete ==> Pressed(s, code) == s
  {
  }
}
