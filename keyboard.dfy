/** The key dispatcher of KeyboardIME.kt: the modifier flags, the active
    layout and the delete-repeat flag, and what each key code makes the
    input method send to the editor. */
module Keyboard {
  import opened TextUnits
  import opened Clipboard

  datatype Option<T> = None | Some(value: T)

  // Codes of android.inputmethodservice.Keyboard.
  const KeycodeShift: int := -1
  const KeycodeModeChange: int := -2
  const KeycodeCancel: int := -3
  const KeycodeDone: int := -4
  const KeycodeDelete: int := -5

  // Codes the layouts assign to the extended keys.
  const CtrlToggle: int := -101
  const AltToggle: int := -102
  const CopyCode: int := -200
  const PasteCode: int := -201

  // Values of android.view.KeyEvent.KEYCODE_*.
  const KeyEventDpadUp: int := 19
  const KeyEventDpadDown: int := 20
  const KeyEventDpadLeft: int := 21
  const KeyEventDpadRight: int := 22
  const KeyEventC: int := 31
  const KeyEventV: int := 50
  const KeyEventTab: int := 61
  const KeyEventEnter: int := 66
  const KeyEventPageUp: int := 92
  const KeyEventPageDown: int := 93
  const KeyEventEscape: int := 111
  const KeyEventMoveHome: int := 122
  const KeyEventMoveEnd: int := 123
  const KeyEventF1: int := 131

  /** How many units `getTextBeforeCursor` is asked for by deleteWord. */
  const WordLookback: nat := 100

  /** Longest history entry the clipboard menu shows untruncated. */
  const LabelLength: nat := 30

  const ActiveSuffix: string := " активен"
  const CapsLockOnNotice: string := "CAPS LOCK ВКЛ"
  const CapsLockOffNotice: string := "CAPS LOCK ВЫКЛ"
  const RussianNotice: string := "Русский 🇷🇺"
  const EnglishNotice: string := "English 🇬🇧"

  /** The four Keyboard objects built from the layout XML files. */
  datatype Layout = En | Ru | Prog | Symbols

  datatype Modifier = Ctrl | Alt

  /** The system sound effect `playFeedback` asks for. */
  datatype Sound = DeleteSound | ReturnSound | SpaceSound | StandardSound

  /** What the input method asks of the editor and of the system. */
  datatype Action =
    | Feedback(sound: Sound)                     // vibration and key-click request
    | CommitText(text: Text)                     // commitText(text, 1)
    | SendKey(keyCode: int)                      // key down and key up, no meta state
    | SendCombo(keyCode: int, modifier: Modifier)// key down with META_CTRL_ON / META_ALT_ON, key up
    | DeleteBefore(count: nat)                   // deleteSurroundingText(count, 0)
    | Hide                                       // requestHideSelf(0)
    | Notice(message: string)                    // a short Toast

  /** The fields of the input method service the dispatcher reads and
      writes. `shifted` holds the layouts whose `isShifted` flag is set:
      each Keyboard object keeps its own. `pendingRepeats` counts the
      delete-repeat callbacks posted to the main looper. */
  datatype ImeState = ImeState(
    caps: bool,
    capsLock: bool,
    ctrlPressed: bool,
    altPressed: bool,
    keyboard: Layout,
    shifted: set<Layout>,
    language: string,
    isDeleting: bool,
    pendingRepeats: nat)

  /** The state after a call and the actions it emitted, in order. */
  datatype Step = Step(state: ImeState, actions: seq<Action>)

  /** The layout of a language preference: "ru" is Russian, anything else English. */
  function LanguageLayout(language: string): (l: Layout)
    ensures l == En || l == Ru
    ensures l == Ru <==> language == "ru"
  {
    if language == "ru" then Ru else En
  }

  /** The state once the input view is created: no modifier, the layout of
      the saved language, no layout shifted, no delete repeat. */
  function InitialState(language: string): ImeState
  {
    ImeState(false, false, false, false, LanguageLayout(language), {}, language, false, 0)
  }

  /** The language `switchLanguage` stores: "en" becomes "ru", anything else "en". */
  function SwitchedLanguage(language: string): (next: string)
    ensures next == "en" || next == "ru"
    ensures next == "ru" <==> language == "en"
  {
    if language == "en" then "ru" else "en"
  }

  /** `switchLanguage`: flip the language preference and show its layout. */
  function LanguageSwitched(s: ImeState): (r: ImeState)
    ensures r.language != s.language && r.keyboard == LanguageLayout(r.language)
    ensures r.(language := s.language, keyboard := s.keyboard) == s
  {
    var language := SwitchedLanguage(s.language);
    s.(language := language, keyboard := LanguageLayout(language))
  }

  /** The layout `switchToMode(mode)` selects from `current`. */
  function ModeLayout(mode: string, current: Layout, language: string): (l: Layout)
    ensures mode == "code" ==> (l == Prog <==> current != Prog)
    ensures mode == "symbols" ==> (l == Symbols <==> current != Symbols)
    ensures (mode == "code" && current == Prog) || (mode == "symbols" && current == Symbols)
            ==> l == LanguageLayout(language)
    ensures mode != "code" && mode != "symbols" ==> l == En
  {
    match mode
    case "code" => if current == Prog then LanguageLayout(language) else Prog
    case "symbols" => if current == Symbols then LanguageLayout(language) else Symbols
    case _ => En
  }

  /** The names of the armed modifiers joined by "+", Ctrl first. */
  function ModifierNames(ctrl: bool, alt: bool): seq<string>
  {
    (if ctrl then ["Ctrl"] else []) + (if alt then ["Alt"] else [])
  }

  function JoinPlus(parts: seq<string>): string
  {
    if |parts| == 0 then ""
    else if |parts| == 1 then parts[0]
    else parts[0] + "+" + JoinPlus(parts[1..])
  }

  /** The Toast `showModifierState` shows, if any. */
  function ModifierNotice(ctrl: bool, alt: bool): (r: Option<string>)
    ensures r == None <==> !ctrl && !alt
    ensures ctrl && !alt ==> r == Some("Ctrl" + ActiveSuffix)
    ensures !ctrl && alt ==> r == Some("Alt" + ActiveSuffix)
    ensures ctrl && alt ==> r == Some("Ctrl+Alt" + ActiveSuffix)
  {
    var names := ModifierNames(ctrl, alt);
    if |names| == 0 then None
    else
      assert ctrl && alt ==> names == ["Ctrl", "Alt"] && JoinPlus(names) == "Ctrl+Alt";
      Some(JoinPlus(names) + ActiveSuffix)
  }

  function NoticeActions(notice: Option<string>): seq<Action>
  {
    match notice
    case None => []
    case Some(m) => [Notice(m)]
  }

  /** The length of the run of non-whitespace units that ends `t`. */
  function TrailingRun(t: Text): (n: nat)
    ensures n <= |t|
  {
    if |t| == 0 || IsWhitespace(t[|t| - 1]) then 0
    else 1 + TrailingRun(t[..|t| - 1])
  }

  /** `n` is the length of the whole non-whitespace run ending `t`. */
  predicate IsTrailingRun(t: Text, n: nat)
  {
    n <= |t|
    && (forall j | |t| - n <= j < |t| :: !IsWhitespace(t[j]))
    && (n < |t| ==> IsWhitespace(t[|t| - 1 - n]))
  }

  /** What `deleteWord` sends: nothing when there is no text before the
      cursor, otherwise the deletion of the trailing word of the last 100
      units (possibly a deletion of 0 units). */
  function DeleteWordActions(before: Text): (acts: seq<Action>)
    ensures acts == [] <==> before == []
    ensures acts != [] ==> |acts| == 1 && acts[0].DeleteBefore?
                           && acts[0].count <= WordLookback && acts[0].count <= |before|
  {
    var lookback := TakeLast(before, WordLookback);
    if |lookback| == 0 then [] else [DeleteBefore(TrailingRun(lookback))]
  }

  /** The function key a code of the block -131 .. -120 sends. */
  function FunctionKey(code: int): (k: int)
    requires -131 <= code <= -120
    ensures KeyEventF1 <= k <= KeyEventF1 + 11
    ensures k - KeyEventF1 == -120 - code
  {
    KeyEventF1 + (-120 - code)
  }

  /** The actions of the extended keys that do not touch any flag. */
  function FixedAction(code: int): (r: Option<Action>)
    ensures r.Some? <==> -116 <= code <= -103 || -131 <= code <= -120 || code == CopyCode || code == PasteCode
  {
    if code == -103 then Some(SendKey(KeyEventTab))
    else if code == -104 then Some(SendKey(KeyEventEscape))
    else if code == -105 then Some(CommitText(Lit("->")))
    else if code == -106 then Some(CommitText(Lit("{}")))
    else if code == -107 then Some(CommitText(Lit("[]")))
    else if code == -108 then Some(CommitText(Lit("()")))
    else if code == -109 then Some(SendKey(KeyEventMoveHome))
    else if code == -110 then Some(SendKey(KeyEventMoveEnd))
    else if code == -111 then Some(SendKey(KeyEventDpadLeft))
    else if code == -112 then Some(SendKey(KeyEventDpadRight))
    else if code == -113 then Some(SendKey(KeyEventDpadUp))
    else if code == -114 then Some(SendKey(KeyEventDpadDown))
    else if code == -115 then Some(SendKey(KeyEventPageUp))
    else if code == -116 then Some(SendKey(KeyEventPageDown))
    else if -131 <= code <= -120 then Some(SendKey(FunctionKey(code)))
    else if code == CopyCode then Some(SendCombo(KeyEventC, Ctrl))
    else if code == PasteCode then Some(SendCombo(KeyEventV, Ctrl))
    else None
  }

  /** The codes that reach the `else` branch of `onKey`. */
  predicate IsOtherCode(code: int)
  {
    code !in {KeycodeDelete, KeycodeShift, KeycodeDone, KeycodeModeChange, KeycodeCancel, CtrlToggle, AltToggle}
    && FixedAction(code).None?
  }

  function SoundFor(code: int): Sound
  {
    if code == KeycodeDelete then DeleteSound
    else if code == KeycodeDone then ReturnSound
    else if code == 32 then SpaceSound
    else StandardSound
  }

  /** The three-state shift latch of `handleShift`. */
  function ShiftStep(s: ImeState): (r: Step)
    ensures r.state.capsLock ==> r.state.caps
    ensures r.state.keyboard in r.state.shifted <==> r.state.caps
    ensures r.state.caps != s.caps || r.state.capsLock != s.capsLock
  {
    var (caps, capsLock, notice) :=
      if s.capsLock then (false, false, [Notice(CapsLockOffNotice)])
      else if s.caps then (true, true, [Notice(CapsLockOnNotice)])
      else (true, false, []);
    var shifted := if caps then s.shifted + {s.keyboard} else s.shifted - {s.keyboard};
    Step(s.(caps := caps, capsLock := capsLock, shifted := shifted), notice)
  }

  /** The `else` branch: a combination when a one-shot modifier is armed,
      otherwise the character, upper-cased under shift or caps lock. */
  function OtherKeyStep(s: ImeState, code: int): (r: Step)
    ensures |r.actions| >= 1
    ensures (s.ctrlPressed || s.altPressed) <==> r.actions[0].SendCombo?
    ensures r.state.capsLock == s.capsLock && r.state.keyboard == s.keyboard
  {
    if s.ctrlPressed then
      var s' := s.(ctrlPressed := false);
      Step(s', [SendCombo(code, Ctrl)] + NoticeActions(ModifierNotice(s'.ctrlPressed, s'.altPressed)))
    else if s.altPressed then
      var s' := s.(altPressed := false);
      Step(s', [SendCombo(code, Alt)] + NoticeActions(ModifierNotice(s'.ctrlPressed, s'.altPressed)))
    else
      var c := ToChar(code);
      var shown := if IsLetter(c) && (s.caps || s.capsLock) then ToUpper(c) else c;
      var s' := if s.caps && !s.capsLock then s.(caps := false, shifted := s.shifted - {s.keyboard}) else s;
      Step(s', [CommitText([shown])])
  }

  /** What `onKey` does once an input connection exists; `before` is the
      text before the cursor. */
  function KeyStep(s: ImeState, code: int, before: Text): (r: Step)
    ensures r.state.language == s.language
    ensures r.state.isDeleting == s.isDeleting && r.state.pendingRepeats == s.pendingRepeats
    ensures (s.capsLock ==> s.caps) ==> (r.state.capsLock ==> r.state.caps)
  {
    if code == KeycodeDelete then
      Step(s, if s.ctrlPressed then DeleteWordActions(before) else [DeleteBefore(1)])
    else if code == KeycodeShift then ShiftStep(s)
    else if code == KeycodeDone then Step(s, [SendKey(KeyEventEnter)])
    else if code == KeycodeModeChange then
      Step(s.(keyboard := ModeLayout("symbols", s.keyboard, s.language)), [])
    else if code == KeycodeCancel then Step(s, [Hide])
    else if code == CtrlToggle then
      var s' := s.(ctrlPressed := !s.ctrlPressed);
      Step(s', NoticeActions(ModifierNotice(s'.ctrlPressed, s'.altPressed)))
    else if code == AltToggle then
      var s' := s.(altPressed := !s.altPressed);
      Step(s', NoticeActions(ModifierNotice(s'.ctrlPressed, s'.altPressed)))
    else if FixedAction(code).Some? then Step(s, [FixedAction(code).value])
    else OtherKeyStep(s, code)
  }

  /** `onKey`: without an input connection nothing happens; otherwise the
      feedback request comes first, then the key's own actions. */
  function Dispatch(s: ImeState, code: int, connection: Option<Text>): Step
  {
    match connection
    case None => Step(s, [])
    case Some(before) =>
      var step := KeyStep(s, code, before);
      Step(step.state, [Feedback(SoundFor(code))] + step.actions)
  }

  /** `onPress`: the delete key arms the repeat and posts one more callback. */
  function Pressed(s: ImeState, code: int): ImeState
  {
    if code == KeycodeDelete then s.(isDeleting := true, pendingRepeats := s.pendingRepeats + 1)
    else s
  }

  /** `onRelease`: releasing delete while deleting disarms the repeat and
      removes every posted callback. */
  function Released(s: ImeState, code: int): ImeState
  {
    if code == KeycodeDelete && s.isDeleting then s.(isDeleting := false, pendingRepeats := 0)
    else s
  }

  /** How the clipboard menu shows an entry: at most 30 units, then "...". */
  function Label(entry: Text): (shown: Text)
    ensures |shown| <= LabelLength + 3
    ensures forall i | 0 <= i < |entry| && i < LabelLength :: i < |shown| && shown[i] == entry[i]
    ensures |entry| <= LabelLength ==> shown == entry
    ensures |entry| > LabelLength ==> |shown| == LabelLength + 3 && shown[LabelLength..] == Lit("...")
  {
    if |entry| > LabelLength then Take(entry, LabelLength) + Lit("...") else entry
  }

  /** The clipboard dialog: a notice when the history is empty, otherwise
      one label per entry and the entries that choosing a label commits. */
  datatype ClipboardMenu = EmptyHistory | Items(labels: seq<Text>, entries: seq<Text>)

  function MenuFor(history: seq<Text>): (menu: ClipboardMenu)
    ensures menu.EmptyHistory? <==> history == []
    ensures menu.Items? ==> menu.entries == history && |menu.labels| == |history|
    ensures menu.Items? ==> forall i | 0 <= i < |history| :: menu.labels[i] == Label(history[i])
  {
    if history == [] then EmptyHistory
    else Items(seq(|history|, i requires 0 <= i < |history| => Label(history[i])), history)
  }

  class KeyboardIme {
    var caps: bool
    var capsLock: bool
    var ctrlPressed: bool
    var altPressed: bool
    var keyboard: Layout
    var shifted: set<Layout>
    /** The `currentLanguage` preference. */
    var language: string
    var isDeleting: bool
    var pendingRepeats: nat

    function State(): ImeState
      reads this
    {
      ImeState(caps, capsLock, ctrlPressed, altPressed, keyboard, shifted, language, isDeleting, pendingRepeats)
    }

    /** `onCreateInputView`: the layout follows the saved language. */
    constructor (savedLanguage: string)
      ensures State() == InitialState(savedLanguage)
    {
      caps, capsLock, ctrlPressed, altPressed := false, false, false, false;
      keyboard := LanguageLayout(savedLanguage);
      shifted := {};
      language := savedLanguage;
      isDeleting, pendingRepeats := false, 0;
    }

    method SwitchLanguage() returns (notice: string)
      modifies this
      ensures State() == LanguageSwitched(old(State()))
      ensures notice == if language == "ru" then RussianNotice else EnglishNotice
    {
      language := SwitchedLanguage(language);
      keyboard := LanguageLayout(language);
      notice := if language == "ru" then RussianNotice else EnglishNotice;
    }

    method SwitchToMode(mode: string)
      modifies this
      ensures State() == old(State()).(keyboard := ModeLayout(mode, old(keyboard), language))
    {
      if mode == "code" {
        keyboard := if keyboard == Prog then LanguageLayout(language) else Prog;
      } else if mode == "symbols" {
        keyboard := if keyboard == Symbols then LanguageLayout(language) else Symbols;
      } else {
        keyboard := En;
      }
    }

    method HandleShift() returns (acts: seq<Action>)
      modifies this
      ensures Step(State(), acts) == ShiftStep(old(State()))
    {
      acts := [];
      if capsLock {
        capsLock := false;
        caps := false;
        acts := [Notice(CapsLockOffNotice)];
      } else if caps {
        capsLock := true;
        caps := true;
        acts := [Notice(CapsLockOnNotice)];
      } else {
        caps := true;
        capsLock := false;
      }
      shifted := if caps then shifted + {keyboard} else shifted - {keyboard};
    }

    /** Scans back from the cursor over at most 100 units and counts the
        units up to the first whitespace. */
    method DeleteWord(before: Text) returns (acts: seq<Action>)
      ensures acts == DeleteWordActions(before)
      ensures acts == [] <==> before == []
      ensures acts != [] ==> |acts| == 1 && acts[0].DeleteBefore?
                             && IsTrailingRun(TakeLast(before, WordLookback), acts[0].count)
    {
      var textBefore := TakeLast(before, WordLookback);
      if |textBefore| == 0 {
        return [];
      }
      var deleteCount := 0;
      var i := |textBefore| - 1;
      assert textBefore[..i + 1] == textBefore;
      while i >= 0
        invariant -1 <= i < |textBefore|
        invariant deleteCount == |textBefore| - 1 - i
        invariant forall j | i < j < |textBefore| :: !IsWhitespace(textBefore[j])
        invariant TrailingRun(textBefore) == deleteCount + TrailingRun(textBefore[..i + 1])
      {
        if IsWhitespace(textBefore[i]) {
          break;
        }
        assert textBefore[..i + 1][..i] == textBefore[..i];
        deleteCount := deleteCount + 1;
        i := i - 1;
      }
      assert TrailingRun(textBefore[..i + 1]) == 0;
      acts := [DeleteBefore(deleteCount)];
      assert acts == DeleteWordActions(before);
    }

    method ShowModifierState() returns (acts: seq<Action>)
      ensures acts == NoticeActions(ModifierNotice(ctrlPressed, altPressed))
      ensures acts == [] <==> !ctrlPressed && !altPressed
    {
      var state: seq<string> := [];
      if ctrlPressed {
        state := state + ["Ctrl"];
      }
      if altPressed {
        state := state + ["Alt"];
      }
      acts := [];
      if |state| > 0 {
        acts := [Notice(JoinPlus(state) + ActiveSuffix)];
      }
    }

    method OnKey(code: int, connection: Option<Text>) returns (acts: seq<Action>)
      modifies this
      ensures Step(State(), acts) == Dispatch(old(State()), code, connection)
    {
      if connection.None? {
        return [];
      }
      var keyActs := HandleKey(code, connection.value);
      acts := [Feedback(SoundFor(code))] + keyActs;
    }

    /** The `when (primaryCode)` of `onKey`. */
    method HandleKey(code: int, before: Text) returns (acts: seq<Action>)
      modifies this
      ensures Step(State(), acts) == KeyStep(old(State()), code, before)
    {
      acts := [];
      if code == KeycodeDelete {
        if ctrlPressed {
          acts := DeleteWord(before);
        } else {
          acts := [DeleteBefore(1)];
        }
      } else if code == KeycodeShift {
        acts := HandleShift();
      } else if code == KeycodeDone {
        acts := [SendKey(KeyEventEnter)];
      } else if code == KeycodeModeChange {
        SwitchToMode("symbols");
      } else if code == KeycodeCancel {
        acts := [Hide];
      } else if code == CtrlToggle {
        ctrlPressed := !ctrlPressed;
        acts := ShowModifierState();
      } else if code == AltToggle {
        altPressed := !altPressed;
        acts := ShowModifierState();
      } else if FixedAction(code).Some? {
        acts := [FixedAction(code).value];
      } else {
        acts := OtherKey(code);
      }
    }

    /** The `else` branch of `onKey`. */
    method OtherKey(code: int) returns (acts: seq<Action>)
      modifies this
      ensures Step(State(), acts) == OtherKeyStep(old(State()), code)
    {
      var c := ToChar(code);
      if ctrlPressed {
        acts := [SendCombo(code, Ctrl)];
        ctrlPressed := false;
        var notice := ShowModifierState();
        acts := acts + notice;
      } else if altPressed {
        acts := [SendCombo(code, Alt)];
        altPressed := false;
        var notice := ShowModifierState();
        acts := acts + notice;
      } else {
        if IsLetter(c) && (caps || capsLock) {
          c := ToUpper(c);
        }
        acts := [CommitText([c])];
        if caps && !capsLock {
          caps := false;
          shifted := shifted - {keyboard};
        }
      }
    }

    method OnPress(code: int)
      modifies this
      ensures State() == Pressed(old(State()), code)
    {
      if code == KeycodeDelete {
        isDeleting := true;
        pendingRepeats := pendingRepeats + 1;
      }
    }

    method OnRelease(code: int)
      modifies this
      ensures State() == Released(old(State()), code)
    {
      if code == KeycodeDelete && isDeleting {
        isDeleting := false;
        pendingRepeats := 0;
      }
    }

    /** One posted delete-repeat callback runs: it deletes one unit when an
        input connection exists and posts itself again. It can run only while
        a callback is pending; `KeyboardProperties.ReleaseDisarms` shows that
        none is pending once delete is released, so no tick follows a release. */
    method RepeatTick(connection: Option<Text>) returns (acts: seq<Action>)
      requires pendingRepeats > 0
      ensures acts == if connection.Some? then [DeleteBefore(1)] else []
      ensures pendingRepeats > 0
    {
      acts := if connection.Some? then [DeleteBefore(1)] else [];
    }

    method ShowClipboardMenu(clipboard: ClipboardHistory) returns (menu: ClipboardMenu)
      ensures menu == MenuFor(History(clipboard.store))
    {
      var history := clipboard.GetHistory();
      if history == [] {
        return EmptyHistory;
      }
      var items := [];
      for i := 0 to |history|
        invariant |items| == i
        invariant forall j | 0 <= j < i :: items[j] == Label(history[j])
      {
        items := items + [Label(history[i])];
      }
      menu := Items(items, history);
    }
  }
}
