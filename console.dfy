/**
 * The in-game terminal of `src/console.rs`: the command-line state machine that edits the current
 * command and the history per key press, and the 15-line screen built from them.
 */
module Console {

  type Letter = x: int | 0 <= x < 26
  type DigitValue = x: int | 0 <= x < 10

  /** The keys the console reacts to; every other key is `Other`. */
  datatype KeyCode =
    | Key(letter: Letter)
    | Digit(digit: DigitValue)
    | Space
    | Backspace
    | ShiftRight
    | ControlRight
    | Enter
    | Other

  datatype ConsoleState = IsNotUsingConsole | IsUsingConsole

  /** The line ShiftRight pushes. */
  const HelloWorld: string := "HELLO WORLD"

  /** The command that empties the history once submitted. */
  const Clear: string := "clear"

  /** The text each character key appends: its lower-case letter, its digit, or a blank. */
  function CharOf(k: KeyCode): char
    requires k.Key? || k.Digit? || k.Space?
  {
    match k
    case Key(l) => (('a' as int) + l) as char
    case Digit(d) => (('0' as int) + d) as char
    case Space => ' '
  }

  predicate IsCharKey(k: KeyCode) {
    k.Key? || k.Digit? || k.Space?
  }

  /** The keys that touch the history. */
  predicate IsHistoryKey(k: KeyCode) {
    k.Enter? || k.ShiftRight? || k.ControlRight?
  }

  /** `Terminal.text` and `CurrentCommand.text` as one value. */
  datatype Screen = Screen(history: seq<string>, command: string)

  /** One arm of the `match key` of `use_console`. */
  function KeyStep(s: Screen, k: KeyCode): Screen {
    match k
    case Key(_) => s.(command := s.command + [CharOf(k)])
    case Digit(_) => s.(command := s.command + [CharOf(k)])
    case Space => s.(command := s.command + [CharOf(k)])
    case Backspace => if |s.command| == 0 then s else s.(command := s.command[..|s.command| - 1])
    case ShiftRight => s.(history := s.history + [HelloWorld])
    case ControlRight => if |s.history| == 0 then s else s.(history := s.history[..|s.history| - 1])
    case Enter => Screen(if s.command == Clear then [] else s.history + [s.command], "")
    case Other => s
  }

  /** The keys of one frame in the order they are handled. */
  function Replay(s: Screen, keys: seq<KeyCode>): Screen {
    if |keys| == 0 then s else KeyStep(Replay(s, keys[..|keys| - 1]), keys[|keys| - 1])
  }

  class Terminal {
    var text: seq<string>

    constructor (text: seq<string>)
      ensures this.text == text
    {
      this.text := text;
    }
  }

  class CurrentCommand {
    var text: string

    constructor (text: string)
      ensures this.text == text
    {
      this.text := text;
    }
  }

  /** `use_console`: in the using state, every key just pressed edits the command or the history. */
  method UseConsole(terminal: Terminal, current: CurrentCommand, state: ConsoleState, keys: seq<KeyCode>)
    modifies terminal, current
    ensures state == IsNotUsingConsole ==> terminal.text == old(terminal.text) && current.text == old(current.text)
    ensures state == IsUsingConsole ==>
      Screen(terminal.text, current.text) == Replay(Screen(old(terminal.text), old(current.text)), keys)
  {
    match state {
      case IsUsingConsole =>
        for i := 0 to |keys|
          invariant Screen(terminal.text, current.text) ==
            Replay(Screen(old(terminal.text), old(current.text)), keys[..i])
        {
          var key := keys[i];
          match key {
            case Key(_) => current.text := current.text + [CharOf(key)];
            case Digit(_) => current.text := current.text + [CharOf(key)];
            case Space => current.text := current.text + [CharOf(key)];
            case Backspace =>
              if |current.text| > 0 {
                current.text := current.text[..|current.text| - 1];
              }
            case ShiftRight => terminal.text := terminal.text + [HelloWorld];
            case ControlRight =>
              if |terminal.text| > 0 {
                terminal.text := terminal.text[..|terminal.text| - 1];
              }
            case Enter =>
              var command := current.text;
              terminal.text := terminal.text + [current.text];
              current.text := "";
              if command == Clear {
                terminal.text := [];
              }
            case Other =>
          }
          assert keys[..i + 1][..i] == keys[..i];
        }
        assert keys[..|keys|] == keys;
      case IsNotUsingConsole =>
    }
  }

  /** `update_terminal`'s line list: history lines kept, dot padding, then the command line. */
  method UpdateTerminal(terminal: Terminal, current: CurrentCommand) returns (lines: seq<string>)
    ensures |lines| == 15
    ensures var h := terminal.text;
      var kept := if |h| > 13 then 13 else |h|;
      forall i :: 0 <= i < 13 ==> lines[i] == if i < kept then h[|h| - kept + i] else "."
    ensures lines[13] == "> " + current.text
    ensures lines[14] == "."
  {
    var textList: seq<string> := [];
    for i := 0 to |terminal.text|
      invariant textList == terminal.text[..i]
    {
      textList := textList + [terminal.text[i]];
    }
    assert textList == terminal.text;
    if |textList| > 13 {
      var s := |textList| - 13;
      textList := textList[s..];
    }
    ghost var kept := textList;
    var leftover: nat := 14 - |textList|;
    for x := 0 to leftover
      invariant textList == kept + seq(x, _ => ".")
    {
      textList := textList + ["."];
    }
    var commandLine := "> " + current.text;
    textList := textList[..13] + [commandLine] + textList[13..];
    lines := textList;
  }

  // ---------------------------------------------------------------------------------------
  // Properties of the key handler
  // ---------------------------------------------------------------------------------------

  /** A letter, digit or Space key appends exactly its character to the command and leaves the history alone. */
  lemma CharKeyAppends(s: Screen, k: KeyCode)
    requires IsCharKey(k)
    ensures KeyStep(s, k).history == s.history
    ensures KeyStep(s, k).command == s.command + [CharOf(k)]
  {
  }

  /** Backspace removes the last character, and does nothing to an empty command. */
  lemma BackspaceDrops(s: Screen)
    ensures KeyStep(s, Backspace).history == s.history
    ensures |s.command| == 0 ==> KeyStep(s, Backspace).command == ""
    ensures |s.command| > 0 ==> KeyStep(s, Backspace).command + [s.command[|s.command| - 1]] == s.command
  {
  }

  /** Enter submits the command to the history and resets it; a submitted `clear` empties the history. */
  lemma EnterSubmits(s: Screen)
    ensures KeyStep(s, Enter).command == ""
    ensures s.command == Clear ==> KeyStep(s, Enter).history == []
    ensures s.command != Clear ==> KeyStep(s, Enter).history == s.history + [s.command]
  {
  }

  /** ShiftRight pushes the greeting line; ControlRight drops the last line, if any; other keys do nothing. */
  lemma HistoryKeys(s: Screen)
    ensures KeyStep(s, ShiftRight) == Screen(s.history + [HelloWorld], s.command)
    ensures |s.history| == 0 ==> KeyStep(s, ControlRight) == s
    ensures |s.history| > 0 ==>
      && KeyStep(s, ControlRight).command == s.command
      && KeyStep(s, ControlRight).history + [s.history[|s.history| - 1]] == s.history
    ensures KeyStep(s, Other) == s
  {
  }

  /** The characters the character keys among `keys` type, in order. */
  function Typed(keys: seq<KeyCode>): string {
    if |keys| == 0 then ""
    else
      var last := keys[|keys| - 1];
      Typed(keys[..|keys| - 1]) + if IsCharKey(last) then [CharOf(last)] else ""
  }

  /** A run of character keys appends what they type to the command and never touches the history. */
  lemma {:induction false} TypingAppends(s: Screen, keys: seq<KeyCode>)
    requires forall i :: 0 <= i < |keys| ==> IsCharKey(keys[i])
    ensures Replay(s, keys) == Screen(s.history, s.command + Typed(keys))
  {
    if |keys| > 0 {
      var init := keys[..|keys| - 1];
      TypingAppends(s, init);
      assert Typed(keys) == Typed(init) + [CharOf(keys[|keys| - 1])];
      assert s.command + Typed(init) + [CharOf(keys[|keys| - 1])] == s.command + Typed(keys);
    }
  }

  /** Without Enter, ShiftRight or ControlRight, the keys of a frame leave the history unchanged. */
  lemma {:induction false} HistoryNeedsHistoryKey(s: Screen, keys: seq<KeyCode>)
    requires forall i :: 0 <= i < |keys| ==> !IsHistoryKey(keys[i])
    ensures Replay(s, keys).history == s.history
  {
    if |keys| > 0 {
      HistoryNeedsHistoryKey(s, keys[..|keys| - 1]);
    }
  }

  /** The keys of a frame are handled one after another: replaying a concatenation replays each part. */
  lemma {:induction false} ReplayConcat(s: Screen, a: seq<KeyCode>, b: seq<KeyCode>)
    ensures Replay(s, a + b) == Replay(Replay(s, a), b)
  {
    if |b| == 0 {
      assert a + b == a;
    } else {
      var init := b[..|b| - 1];
      assert (a + b)[..|a + b| - 1] == a + init;
      ReplayConcat(s, a, init);
    }
  }

  /** Whatever came before, a submitted `clear` followed by character keys leaves an empty history. */
  lemma ClearThenType(s: Screen, keys: seq<KeyCode>)
    requires s.command == Clear
    requires forall i :: 0 <= i < |keys| ==> IsCharKey(keys[i])
    ensures Replay(s, [Enter] + keys) == Screen([], Typed(keys))
  {
    ReplayConcat(s, [Enter], keys);
    assert Replay(s, [Enter]) == Screen([], "");
    TypingAppends(Screen([], ""), keys);
  }
}
