/**
 * Key events as the terminal reports them: a key, and the modifier keys
 * held with it.
 */
module TerminalEvents {
  datatype KeyCode =
    | Null | Esc | Backspace | Enter | Left | Right | Up | Down | Home | End
    | PageUp | PageDown | Tab | BackTab | Delete | Insert
    | F(number: nat)
    | Char(c: char)

  datatype Modifiers = Modifiers(shift: bool, control: bool, alt: bool)

  datatype KeyEvent = KeyEvent(code: KeyCode, modifiers: Modifiers)
}

/**
 * The terminal client turns each terminal key event into the keyboard
 * input events the engine expects: the held modifiers go down, then the
 * key's own events, then everything comes back up in reverse order.
 */
module KeyboardTransform {
  import opened Common
  import T = TerminalEvents

  /** The engine's key codes that the terminal keys map to. */
  datatype KeyCode =
    | Escape | Back | Return | Left | Right | Up | Down | Home | End | PageUp | PageDown
    | Tab | Delete | Insert
    | F(number: nat)          // F1 .. F24
    | Letter(upper: char)     // A .. Z
    | Key(digit: nat)         // Key0 .. Key9
    | Space | Grave | Minus | Equals | LBracket | RBracket | Backslash | Semicolon
    | Apostrophe | Colon | Comma | Period | Slash | Underline | Plus | At | Caret | Asterisk
    | LShift | RShift | LControl | LAlt

  datatype KeyboardInput = KeyboardInput(scanCode: nat, keyCode: Option<KeyCode>, pressed: bool)

  function Press(k: KeyCode, scanCode: nat): KeyboardInput {
    KeyboardInput(scanCode, Some(k), true)
  }

  /** The presses for a printable character; the last one carries the character's code as its scan code. */
  function CharKeys(c: char): (r: seq<KeyboardInput>)
    ensures |r| <= 2 && forall i | 0 <= i < |r| :: r[i].pressed && r[i].keyCode.Some?
    ensures r != [] ==> r[|r| - 1].scanCode == c as nat
    ensures |r| == 2 ==> r[0] == Press(RShift, 0)
  {
    if 'A' <= c <= 'Z' then UpperCaseKeys(c)
    else if 'a' <= c <= 'z' then LowerCaseKeys(c)
    else if '0' <= c <= '9' then DigitKeys(c)
    else SymbolKeys(c)
  }

  /** Upper-case letters come with the right shift key. */
  function UpperCaseKeys(c: char): (r: seq<KeyboardInput>)
    requires 'A' <= c <= 'Z'
    ensures r == [Press(RShift, 0), Press(Letter(c), c as nat)]
  {
    match c
    case 'A' => [Press(RShift, 0), Press(Letter('A'), 65)]
    case 'B' => [Press(RShift, 0), Press(Letter('B'), 66)]
    case 'C' => [Press(RShift, 0), Press(Letter('C'), 67)]
    case 'D' => [Press(RShift, 0), Press(Letter('D'), 68)]
    case 'E' => [Press(RShift, 0), Press(Letter('E'), 69)]
    case 'F' => [Press(RShift, 0), Press(Letter('F'), 70)]
    case 'G' => [Press(RShift, 0), Press(Letter('G'), 71)]
    case 'H' => [Press(RShift, 0), Press(Letter('H'), 72)]
    case 'I' => [Press(RShift, 0), Press(Letter('I'), 73)]
    case 'J' => [Press(RShift, 0), Press(Letter('J'), 74)]
    case 'K' => [Press(RShift, 0), Press(Letter('K'), 75)]
    case 'L' => [Press(RShift, 0), Press(Letter('L'), 76)]
    case 'M' => [Press(RShift, 0), Press(Letter('M'), 77)]
    case 'N' => [Press(RShift, 0), Press(Letter('N'), 78)]
    case 'O' => [Press(RShift, 0), Press(Letter('O'), 79)]
    case 'P' => [Press(RShift, 0), Press(Letter('P'), 80)]
    case 'Q' => [Press(RShift, 0), Press(Letter('Q'), 81)]
    case 'R' => [Press(RShift, 0), Press(Letter('R'), 82)]
    case 'S' => [Press(RShift, 0), Press(Letter('S'), 83)]
    case 'T' => [Press(RShift, 0), Press(Letter('T'), 84)]
    case 'U' => [Press(RShift, 0), Press(Letter('U'), 85)]
    case 'V' => [Press(RShift, 0), Press(Letter('V'), 86)]
    case 'W' => [Press(RShift, 0), Press(Letter('W'), 87)]
    case 'X' => [Press(RShift, 0), Press(Letter('X'), 88)]
    case 'Y' => [Press(RShift, 0), Press(Letter('Y'), 89)]
    case 'Z' => [Press(RShift, 0), Press(Letter('Z'), 90)]
  }

  /** Lower-case letters use the same key code as their upper-case form, without the shift. */
  function LowerCaseKeys(c: char): (r: seq<KeyboardInput>)
    requires 'a' <= c <= 'z'
    ensures r == [Press(Letter((c as int - 32) as char), c as nat)]
  {
    match c
    case 'a' => [Press(Letter('A'), 97)]
    case 'b' => [Press(Letter('B'), 98)]
    case 'c' => [Press(Letter('C'), 99)]
    case 'd' => [Press(Letter('D'), 100)]
    case 'e' => [Press(Letter('E'), 101)]
    case 'f' => [Press(Letter('F'), 102)]
    case 'g' => [Press(Letter('G'), 103)]
    case 'h' => [Press(Letter('H'), 104)]
    case 'i' => [Press(Letter('I'), 105)]
    case 'j' => [Press(Letter('J'), 106)]
    case 'k' => [Press(Letter('K'), 107)]
    case 'l' => [Press(Letter('L'), 108)]
    case 'm' => [Press(Letter('M'), 109)]
    case 'n' => [Press(Letter('N'), 110)]
    case 'o' => [Press(Letter('O'), 111)]
    case 'p' => [Press(Letter('P'), 112)]
    case 'q' => [Press(Letter('Q'), 113)]
    case 'r' => [Press(Letter('R'), 114)]
    case 's' => [Press(Letter('S'), 115)]
    case 't' => [Press(Letter('T'), 116)]
    case 'u' => [Press(Letter('U'), 117)]
    case 'v' => [Press(Letter('V'), 118)]
    case 'w' => [Press(Letter('W'), 119)]
    case 'x' => [Press(Letter('X'), 120)]
    case 'y' => [Press(Letter('Y'), 121)]
    case 'z' => [Press(Letter('Z'), 122)]
  }

  function DigitKeys(c: char): (r: seq<KeyboardInput>)
    requires '0' <= c <= '9'
    ensures r == [Press(Key(c as nat - '0' as nat), c as nat)]
  {
    match c
    case '0' => [Press(Key(0), 48)]
    case '1' => [Press(Key(1), 49)]
    case '2' => [Press(Key(2), 50)]
    case '3' => [Press(Key(3), 51)]
    case '4' => [Press(Key(4), 52)]
    case '5' => [Press(Key(5), 53)]
    case '6' => [Press(Key(6), 54)]
    case '7' => [Press(Key(7), 55)]
    case '8' => [Press(Key(8), 56)]
    case '9' => [Press(Key(9), 57)]
  }

  function SymbolKeys(c: char): (r: seq<KeyboardInput>)
    ensures |r| <= 2 && forall i | 0 <= i < |r| :: r[i].pressed && r[i].keyCode.Some?
    ensures r != [] ==> r[|r| - 1].scanCode == c as nat
    ensures |r| == 2 ==> r[0] == Press(RShift, 0)
  {
    match c
    case ' ' => [Press(Space, 32)]
    case '`' => [Press(Grave, 96)]
    case '-' => [Press(Minus, 45)]
    case '=' => [Press(Equals, 61)]
    case '[' => [Press(LBracket, 91)]
    case ']' => [Press(RBracket, 93)]
    case '\\' => [Press(Backslash, 92)]
    case ';' => [Press(Semicolon, 59)]
    case '\'' => [Press(Apostrophe, 39)]
    case '"' => [Press(RShift, 0), Press(Apostrophe, 34)]
    case ':' => [Press(Colon, 58)]
    case ',' => [Press(Comma, 44)]
    case '.' => [Press(Period, 46)]
    case '/' => [Press(Slash, 47)]
    case '_' => [Press(Underline, 95)]
    case '+' => [Press(Plus, 43)]
    case '{' => [Press(RShift, 0), Press(LBracket, 123)]
    case '}' => [Press(RShift, 0), Press(RBracket, 125)]
    case '|' => [Press(RShift, 0), Press(Backslash, 124)]
    case '<' => [Press(LBracket, 60)]
    case '>' => [Press(RBracket, 62)]
    case '?' => [Press(Slash, 63)]
    case '~' => [Press(RShift, 0), Press(Grave, 126)]
    case '!' => [Press(RShift, 0), Press(Key(1), 33)]
    case '@' => [Press(At, 64)]
    case '#' => [Press(RShift, 0), Press(Key(3), 35)]
    case '$' => [Press(RShift, 0), Press(Key(4), 36)]
    case '%' => [Press(RShift, 0), Press(Key(5), 37)]
    case '^' => [Press(Caret, 94)]
    case '&' => [Press(RShift, 0), Press(Key(7), 38)]
    case '*' => [Press(Asterisk, 42)]
    case '(' => [Press(RShift, 0), Press(Key(9), 40)]
    case ')' => [Press(RShift, 0), Press(Key(0), 41)]
    case _ => []
  }

  /**
   * The table as written, which gives the backslash the scan code of the
   * vertical bar.
   */
  function CharKeysAsWritten(c: char): (r: seq<KeyboardInput>)
    ensures c != '\\' ==> r == CharKeys(c)
  {
    if c == '\\' then [Press(Backslash, 124)] else CharKeys(c)
  }

  /** As written, the backslash breaks the scan-code rule and is indistinguishable by scan code from '|'. */
  lemma BackslashScanCodeAsWritten()
    ensures CharKeysAsWritten('\\')[0].scanCode != '\\' as nat
    ensures CharKeysAsWritten('\\')[0] == CharKeysAsWritten('|')[1]
  {
  }

  /** The presses for one terminal key, without its modifiers. */
  function KeyPresses(code: T.KeyCode): (r: seq<KeyboardInput>)
    ensures forall i | 0 <= i < |r| :: r[i].pressed
    ensures code == T.Null ==> r == [KeyboardInput(0, None, true)]
    ensures code == T.BackTab ==> r == [Press(LShift, 0), Press(Tab, 9)]
    ensures code.F? ==> r == if 1 <= code.number <= 24 then [Press(F(code.number), 265 + code.number)] else []
  {
    match code
    case Null => [KeyboardInput(0, None, true)]
    case Esc => [Press(Escape, 27)]
    case Backspace => [Press(Back, 8)]
    case Enter => [Press(Return, 10)]
    case Left => [Press(Left, 256)]
    case Right => [Press(Right, 257)]
    case Up => [Press(Up, 258)]
    case Down => [Press(Down, 259)]
    case Home => [Press(Home, 260)]
    case End => [Press(End, 261)]
    case PageUp => [Press(PageUp, 262)]
    case PageDown => [Press(PageDown, 263)]
    case Tab => [Press(Tab, 9)]
    case BackTab => [Press(LShift, 0), Press(Tab, 9)]
    case Delete => [Press(Delete, 127)]
    case Insert => [Press(Insert, 264)]
    case F(n) => FunctionKey(n)
    case Char(c) => CharKeys(c)
  }

  function FunctionKey(n: nat): seq<KeyboardInput> {
    match n
      case 1 => [Press(F(1), 266)]
      case 2 => [Press(F(2), 267)]
      case 3 => [Press(F(3), 268)]
      case 4 => [Press(F(4), 269)]
      case 5 => [Press(F(5), 270)]
      case 6 => [Press(F(6), 271)]
      case 7 => [Press(F(7), 272)]
      case 8 => [Press(F(8), 273)]
      case 9 => [Press(F(9), 274)]
      case 10 => [Press(F(10), 275)]
      case 11 => [Press(F(11), 276)]
      case 12 => [Press(F(12), 277)]
      case 13 => [Press(F(13), 278)]
      case 14 => [Press(F(14), 279)]
      case 15 => [Press(F(15), 280)]
      case 16 => [Press(F(16), 281)]
      case 17 => [Press(F(17), 282)]
      case 18 => [Press(F(18), 283)]
      case 19 => [Press(F(19), 284)]
      case 20 => [Press(F(20), 285)]
      case 21 => [Press(F(21), 286)]
      case 22 => [Press(F(22), 287)]
      case 23 => [Press(F(23), 288)]
      case 24 => [Press(F(24), 289)]
      case _ => []
  }

  /** The modifier keys held, as the nested test on the three modifier bits selects them. */
  function ModifierKeys(m: T.Modifiers): (r: seq<KeyCode>)
    ensures r == (if m.shift then [LShift] else []) + (if m.control then [LControl] else []) + (if m.alt then [LAlt] else [])
  {
    if m.shift then
      if m.control then
        if m.alt then [LShift, LControl, LAlt] else [LShift, LControl]
      else
        if m.alt then [LShift, LAlt] else [LShift]
    else
      if m.control then
        if m.alt then [LControl, LAlt] else [LControl]
      else
        if m.alt then [LAlt] else []
  }

  /** Every modifier goes down with scan code 0. */
  function ModifierPresses(ks: seq<KeyCode>): (r: seq<KeyboardInput>)
    ensures |r| == |ks| && forall i | 0 <= i < |ks| :: r[i] == Press(ks[i], 0)
  {
    seq(|ks|, i requires 0 <= i < |ks| => Press(ks[i], 0))
  }

  /** The matching releases, last press first. */
  function Releases(es: seq<KeyboardInput>): (r: seq<KeyboardInput>)
    ensures |r| == |es| && forall i | 0 <= i < |es| :: r[i] == es[|es| - 1 - i].(pressed := false)
    decreases |es|
  {
    if es == [] then [] else Releases(es[1..]) + [es[0].(pressed := false)]
  }

  lemma {:induction false} ReleasesAppend(a: seq<KeyboardInput>, b: seq<KeyboardInput>)
    ensures Releases(a + b) == Releases(b) + Releases(a)
  {
    var l, r := Releases(a + b), Releases(b) + Releases(a);
    assert |l| == |r|;
    forall i | 0 <= i < |l|
      ensures l[i] == r[i]
    {
      if i < |b| {
        assert (a + b)[|a + b| - 1 - i] == b[|b| - 1 - i];
      } else {
        assert (a + b)[|a + b| - 1 - i] == a[|a| - 1 - (i - |b|)];
      }
    }
  }

  /**
   * `to_bevy_iterator`: modifier presses, key presses, key releases in
   * reverse, modifier releases in reverse.
   */
  function ToEngineEvents(key: T.KeyEvent): (r: seq<KeyboardInput>)
    ensures var mods := ModifierPresses(ModifierKeys(key.modifiers));
      var presses := mods + KeyPresses(key.code);
      var n := |presses|;
      && |r| == 2 * n
      && r[..n] == presses
      && (forall i | 0 <= i < n :: r[i].pressed && r[2 * n - 1 - i] == r[i].(pressed := false))
      && (forall i | 0 <= i < |mods| :: r[i].scanCode == 0 && r[i].keyCode.Some? && r[i].keyCode.value in {LShift, LControl, LAlt})
  {
    var held := ModifierKeys(key.modifiers);
    var mods := ModifierPresses(held);
    var keys := KeyPresses(key.code);
    assert forall i | 0 <= i < |held| :: held[i] in {LShift, LControl, LAlt};
    Bracketed(held, keys);
    mods + keys + Releases(keys) + Releases(mods)
  }

  /** Modifier presses, then key presses, then all of their releases in reverse. */
  lemma Bracketed(held: seq<KeyCode>, keys: seq<KeyboardInput>)
    requires forall i | 0 <= i < |held| :: held[i] in {LShift, LControl, LAlt}
    requires forall i | 0 <= i < |keys| :: keys[i].pressed
    ensures var mods := ModifierPresses(held);
      var presses := mods + keys;
      var r := mods + keys + Releases(keys) + Releases(mods);
      var n := |presses|;
      && |r| == 2 * n
      && r[..n] == presses
      && (forall i | 0 <= i < n :: r[i].pressed && r[2 * n - 1 - i] == r[i].(pressed := false))
      && (forall i | 0 <= i < |mods| :: r[i].scanCode == 0 && r[i].keyCode.Some? && r[i].keyCode.value in {LShift, LControl, LAlt})
  {
    var mods := ModifierPresses(held);
    var r := mods + keys + Releases(keys) + Releases(mods);
    assert r == (mods + keys) + Releases(mods + keys) by {
      ReleasesAppend(mods, keys);
    }
    assert forall i | 0 <= i < |mods| :: r[i] == mods[i];
    PressesThenReleases(mods + keys);
  }

  lemma PressesThenReleases(p: seq<KeyboardInput>)
    requires forall i | 0 <= i < |p| :: p[i].pressed
    ensures var r, n := p + Releases(p), |p|;
      && |r| == 2 * n
      && r[..n] == p
      && (forall i | 0 <= i < n :: r[i].pressed && r[2 * n - 1 - i] == r[i].(pressed := false))
  {
    var r, n := p + Releases(p), |p|;
    assert r[..n] == p;
    forall i | 0 <= i < n
      ensures r[2 * n - 1 - i] == r[i].(pressed := false)
    {
      assert r[2 * n - 1 - i] == Releases(p)[n - 1 - i];
    }
  }

  /** Whatever the key, every event that goes down comes back up, innermost first. */
  lemma PressesAreBracketed(key: T.KeyEvent, i: nat)
    requires i < |ToEngineEvents(key)| / 2
    ensures var r := ToEngineEvents(key);
      r[i].pressed && !r[|r| - 1 - i].pressed
      && r[|r| - 1 - i].keyCode == r[i].keyCode && r[|r| - 1 - i].scanCode == r[i].scanCode
  {
  }

  /** A key the table does not know still sends its modifiers down and up. */
  lemma UnknownKeyOnlyModifiers(key: T.KeyEvent)
    requires KeyPresses(key.code) == []
    ensures var mods := ModifierPresses(ModifierKeys(key.modifiers));
      ToEngineEvents(key) == mods + Releases(mods)
  {
  }
}
