/**
 * The command console (`TerminalSection` in components/TerminalSection.tsx):
 * a list of echoed inputs and responses, the text being typed, and the
 * dispatcher run when a key is pressed in the input.
 */
module Terminal {
  import opened Wrappers
  import opened Types
  import Text
  import Certificate

  /** The content of a response line; the markup around it is not modelled. */
  datatype Response =
    | Banner
    | Hint
    | Help
    | Status(name: string, level: int, xp: nat, score: nat, rank: string)
    | About
    | WhoAmI(name: string)
    | Ping
    | NotFound(cmd: string)

  /** A line of the console: an echoed input (as typed, before trimming) or a response. */
  datatype Line = Echo(text: string) | Output(response: Response)

  /** The two lines the console opens with. */
  const Greeting: seq<Line> := [Output(Banner), Output(Hint)]

  /** The command an input stands for: trimmed, then lower-cased. */
  function Command(input: string): string {
    Text.ToLower(Text.Trim(input))
  }

  /**
   * The response to a command other than `clear`: nothing for the empty
   * command, the named response for a known one, and a not-found line naming
   * the command otherwise.
   */
  function Respond(cmd: string, user: UserState): (r: Option<Response>)
    requires cmd != "clear"
    ensures r.None? <==> cmd == ""
    ensures cmd == "help" <==> r == Some(Help)
    ensures cmd == "status" <==>
              r == Some(Status(user.name, user.level, user.xp, user.score, Certificate.GetRank(user.score)))
    ensures cmd == "wnt" <==> r == Some(About)
    ensures cmd == "whoami" <==> r == Some(WhoAmI(user.name))
    ensures cmd == "ping" <==> r == Some(Ping)
    ensures cmd !in {"help", "status", "wnt", "whoami", "ping", ""} ==> r == Some(NotFound(cmd))
  {
    if cmd == "help" then Some(Help)
    else if cmd == "status" then Some(Status(user.name, user.level, user.xp, user.score, Certificate.GetRank(user.score)))
    else if cmd == "wnt" then Some(About)
    else if cmd == "whoami" then Some(WhoAmI(user.name))
    else if cmd == "ping" then Some(Ping)
    else if cmd == "" then None
    else Some(NotFound(cmd))
  }

  /**
   * The lines after Enter: `clear` empties the console; any other command
   * appends the echo of the typed text and then its response, if it has one.
   */
  function AfterEnter(lines: seq<Line>, input: string, user: UserState): seq<Line> {
    var cmd := Command(input);
    if cmd == "clear" then []
    else
      var echoed := lines + [Echo(input)];
      match Respond(cmd, user)
      case None => echoed
      case Some(r) => echoed + [Output(r)]
  }

  /**
   * Apart from `clear`, Enter keeps every earlier line, echoes the input
   * next, and adds one line more exactly when the command has a response.
   */
  lemma AfterEnterGrows(lines: seq<Line>, input: string, user: UserState)
    requires Command(input) != "clear"
    ensures var r := AfterEnter(lines, input, user);
            && |lines| + 1 <= |r| <= |lines| + 2
            && r[..|lines|] == lines && r[|lines|] == Echo(input)
            && (|r| == |lines| + 1 <==> Command(input) == "")
  {
  }

  /** An input that is blank once trimmed only echoes. */
  lemma BlankInputOnlyEchoes(lines: seq<Line>, input: string, user: UserState)
    requires Text.AllSpace(input)
    ensures AfterEnter(lines, input, user) == lines + [Echo(input)]
  {
    Text.TrimEmptyIffAllSpace(input);
  }

  /** However it is spaced or capitalised, `clear` empties the console. */
  lemma ClearAnyCase(lines: seq<Line>, user: UserState, before: string, word: string, after: string)
    requires Text.AllSpace(before) && Text.AllSpace(after)
    requires Text.ToLower(word) == "clear"
    ensures AfterEnter(lines, before + word + after, user) == []
  {
    assert Text.LowerChar(word[0]) == 'c' && Text.LowerChar(word[4]) == 'r';
    assert before + word + after == before + (word + after);
    Text.TrimStartPadded(before, word + after);
    Text.TrimEndPadded(word, after);
  }

  class TerminalSection {
    var lines: seq<Line>
    var input: string
    /** Set on the first Enter; it only enables scrolling to the bottom. */
    var interacted: bool

    constructor ()
      ensures lines == Greeting && input == "" && !interacted
    {
      lines := Greeting;
      input := "";
      interacted := false;
    }

    /** The input's `onChange`. */
    method SetInput(text: string)
      modifies this`input
      ensures input == text
    {
      input := text;
    }

    /**
     * `handleCommand`: any key but Enter does nothing; Enter runs the
     * command the input stands for and empties the input.
     */
    method HandleCommand(key: string, user: UserState)
      modifies this`lines, this`input, this`interacted
      ensures key != "Enter" ==> lines == old(lines) && input == old(input) && interacted == old(interacted)
      ensures key == "Enter" ==> lines == AfterEnter(old(lines), old(input), user) && input == "" && interacted
    {
      if key == "Enter" {
        interacted := true;
        var cmd := Text.ToLower(Text.Trim(input));
        lines := lines + [Echo(input)];
        var response: Option<Response>;
        if cmd == "help" {
          response := Some(Help);
        } else if cmd == "status" {
          response := Some(Status(user.name, user.level, user.xp, user.score, Certificate.GetRank(user.score)));
        } else if cmd == "wnt" {
          response := Some(About);
        } else if cmd == "whoami" {
          response := Some(WhoAmI(user.name));
        } else if cmd == "ping" {
          response := Some(Ping);
        } else if cmd == "clear" {
          lines := [];
          input := "";
          return;
        } else if cmd == "" {
          response := None;
        } else {
          response := Some(NotFound(cmd));
        }
        if response.Some? {
          lines := lines + [Output(response.value)];
        }
        input := "";
      }
    }
  }
}
