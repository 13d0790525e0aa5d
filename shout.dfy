/** The console logger: a time stamp padded to two digits per field, log
    tokens joined into one message, the framing of each kind of log line, and
    the desktop notification that a flag switches off. Colours are not
    modelled (every chalk is the identity); the clock is a parameter and the
    console and the notifier are left to the caller. */
module Shout {
  import opened Wrappers
  import opened Strings

  /** `padZeroToDoubleDigits(x)`: a leading `0` below ten, then the decimal
      form; two characters for every value below one hundred, and it reads
      back as `x`. */
  function DoubleDigits(x: nat): (r: string)
    ensures x < 10 ==> r == ['0', DigitChar(x)]
    ensures x >= 10 ==> r == NatToString(x)
    ensures x < 100 ==> |r| == 2
    ensures forall i :: 0 <= i < |r| ==> IsDigit(r[i])
    ensures ParseNat(r) == x
  {
    ParseNatToString(x);
    if x < 10 then
      var r := "0" + NatToString(x);
      assert r[..1] == "0" && r[..1][..0] == [];
      r
    else
      assert x < 100 ==> NatToString(x) == NatToString(x / 10) + [DigitChar(x % 10)];
      NatToString(x)
  }

  /** `padZeroToDoubleDigits`, building the string step by step. */
  method PadZeroToDoubleDigits(x: nat) returns (s: string)
    ensures s == DoubleDigits(x)
  {
    s := "";
    if x < 10 {
      s := s + "0";
    }
    s := s + NatToString(x);
  }

  /** `nowFormatted`: hours, minutes and seconds of the clock reading,
      each padded, separated by colons. */
  function NowFormatted(hours: nat, minutes: nat, seconds: nat): string {
    DoubleDigits(hours) + ":" + DoubleDigits(minutes) + ":" + DoubleDigits(seconds)
  }

  /** For any clock reading the stamp is `hh:mm:ss`, eight characters whose
      fields read back as the reading. */
  lemma NowFormattedReadsBack(hours: nat, minutes: nat, seconds: nat)
    requires hours < 24 && minutes < 60 && seconds < 60
    ensures var r := NowFormatted(hours, minutes, seconds);
            && |r| == 8 && r[2] == ':' && r[5] == ':'
            && (forall i :: 0 <= i < 8 && i != 2 && i != 5 ==> IsDigit(r[i]))
            && ParseNat(r[0..2]) == hours && ParseNat(r[3..5]) == minutes && ParseNat(r[6..8]) == seconds
  {
    var h, m, s := DoubleDigits(hours), DoubleDigits(minutes), DoubleDigits(seconds);
    var r := NowFormatted(hours, minutes, seconds);
    assert r == h + ":" + m + ":" + s;
    assert r[0..2] == h && r[3..5] == m && r[6..8] == s;
  }

  /** A log token: an `Error`, with its stack (empty when it has none) and
      its `toString()`, or anything else, by its string form. */
  datatype Token = Text(text: string) | Error(stack: string, asString: string)

  /** What one token adds to a message: a space and the text, or a line
      break and the error's stack, falling back to its `toString()`. */
  function TokenPiece(t: Token): (r: string)
    ensures t.Text? ==> r == " " + t.text
    ensures t.Error? && t.stack != "" ==> r == "\n" + t.stack
    ensures t.Error? && t.stack == "" ==> r == "\n" + t.asString
  {
    match t
    case Text(text) => " " + text
    case Error(stack, asString) => "\n" + (if stack != "" then stack else asString)
  }

  /** The pieces of a list, in order, one after another. Stated for any
      piece function, so that proofs about it do not see how a piece is
      built. */
  function Pieces<T>(s: seq<T>, piece: T -> string): string
    decreases |s|
  {
    if |s| == 0 then ""
    else Pieces(s[..|s| - 1], piece) + piece(s[|s| - 1])
  }

  /** The message `concatenateTokens` builds: the pieces of the tokens, in
      order. */
  function ConcatenatedTokens(tokens: seq<Token>): string
  {
    Pieces(tokens, TokenPiece)
  }

  /** `concatenateTokens`: appends each token's piece to the message. */
  method ConcatenateTokens(tokens: seq<Token>) returns (message: string)
    ensures message == ConcatenatedTokens(tokens)
  {
    message := "";
    var i := 0;
    while i < |tokens|
      invariant 0 <= i <= |tokens|
      invariant message == ConcatenatedTokens(tokens[..i])
    {
      var token := tokens[i];
      match token {
        case Error(stack, asString) =>
          if stack != "" {
            message := message + ("\n" + stack);
          } else {
            message := message + ("\n" + asString);
          }
        case Text(text) =>
          message := message + (" " + text);
      }
      assert tokens[..i + 1][..i] == tokens[..i];
      i := i + 1;
    }
    assert tokens[..i] == tokens;
  }

  /** Appending a token appends its piece. */
  lemma ConcatenatedTokensSnoc(tokens: seq<Token>, t: Token)
    ensures ConcatenatedTokens(tokens + [t]) == ConcatenatedTokens(tokens) + TokenPiece(t)
  {
    assert (tokens + [t])[..|tokens|] == tokens;
  }

  /** Joining pieces distributes over appending lists. */
  lemma {:induction false} PiecesAppend<T>(a: seq<T>, b: seq<T>, piece: T -> string)
    ensures Pieces(a + b, piece) == Pieces(a, piece) + Pieces(b, piece)
    decreases |b|
  {
    if |b| == 0 {
      assert a + b == a;
    } else {
      var n := |b| - 1;
      assert (a + b)[..|a + b| - 1] == a + b[..n];
      PiecesAppend(a, b[..n], piece);
      var x, y, p := Pieces(a, piece), Pieces(b[..n], piece), piece(b[n]);
      assert Pieces(b, piece) == y + p;
      assert Pieces(a + b, piece) == x + (y + p);
    }
  }

  /** Concatenation distributes over appending token lists. */
  lemma ConcatenatedTokensAppend(a: seq<Token>, b: seq<Token>)
    ensures ConcatenatedTokens(a + b) == ConcatenatedTokens(a) + ConcatenatedTokens(b)
  {
    PiecesAppend(a, b, TokenPiece);
  }

  /** The message of plain tokens is each token after a space: its length
      adds up, and every token starts a piece with a space. */
  lemma {:induction false} PlainTokensLength(tokens: seq<Token>)
    requires forall i :: 0 <= i < |tokens| ==> tokens[i].Text?
    ensures |ConcatenatedTokens(tokens)| == |tokens| + TextLength(tokens)
    ensures tokens != [] ==> ConcatenatedTokens(tokens)[0] == ' '
    decreases |tokens|
  {
    if tokens != [] {
      var n := |tokens| - 1;
      PlainTokensLength(tokens[..n]);
      if n == 0 {
        assert tokens[..n] == [];
      }
    }
  }

  function TextLength(tokens: seq<Token>): nat
    requires forall i :: 0 <= i < |tokens| ==> tokens[i].Text?
    decreases |tokens|
  {
    if tokens == [] then 0 else TextLength(tokens[..|tokens| - 1]) + |tokens[|tokens| - 1].text|
  }

  /** `timed`: the time stamp in brackets, then the message. */
  function TimedLine(time: string, tokens: seq<Token>): (r: string)
  {
    "[" + time + "]" + ConcatenatedTokens(tokens)
  }

  /** The time stamp and the message can be read back from a timed line. */
  lemma TimedLineParts(time: string, tokens: seq<Token>)
    ensures var r := TimedLine(time, tokens);
            && |r| == |time| + 2 + |ConcatenatedTokens(tokens)|
            && r[0] == '[' && r[1..|time| + 1] == time && r[|time| + 1] == ']'
            && r[|time| + 2..] == ConcatenatedTokens(tokens)
  {
    var r := TimedLine(time, tokens);
    assert r == ['['] + time + [']'] + ConcatenatedTokens(tokens);
  }

  /** `error` and `fatal`: a blank line, the heading, the message and a line
      break. */
  function ErrorLine(heading: string, tokens: seq<Token>): (r: string)
  {
    "\n" + heading + ConcatenatedTokens(tokens) + "\n"
  }

  const ErrorLabel := "ERROR"
  const FatalLabel := "FATAL ERROR"

  /** The message can be read back from an error line between the heading and
      the final line break. */
  lemma ErrorLineParts(heading: string, tokens: seq<Token>)
    ensures var r := ErrorLine(heading, tokens);
            var m := ConcatenatedTokens(tokens);
            && |r| == |heading| + |m| + 2
            && r[0] == '\n' && r[|r| - 1] == '\n'
            && r[1..|heading| + 1] == heading
            && r[|heading| + 1..|r| - 1] == m
  {
    var r := ErrorLine(heading, tokens);
    var m := ConcatenatedTokens(tokens);
    assert r == ['\n'] + heading + m + ['\n'];
  }

  /** `warning`, `typescript` and `sass`: the heading, then the message. */
  function LabelledLine(heading: string, tokens: seq<Token>): (r: string)
    ensures StartsWith(r, heading)
    ensures r[|heading|..] == ConcatenatedTokens(tokens)
  {
    var r := heading + ConcatenatedTokens(tokens);
    assert r[..|heading|] == heading;
    r
  }

  const WarningLabel := "WARNING"
  const TypeScriptLabel := "TypeScript"
  const SassLabel := "Sass"

  /** A desktop notification. */
  datatype Notification = Notification(title: string, message: string, sound: bool)

  /** The logger's mutable flags: notifications on, verbose output off. */
  class ShoutState {
    var enableNotification: bool
    var displayVerboseOutput: bool

    constructor()
      ensures enableNotification && !displayVerboseOutput
    {
      enableNotification := true;
      displayVerboseOutput := false;
    }

    /** `notify`: nothing while notifications are switched off; otherwise a
        silent `instapack` notification carrying the message, or `...` when
        there are no tokens. */
    method Notify(tokens: seq<Token>) returns (sent: Option<Notification>)
      ensures sent.None? <==> !enableNotification
      ensures sent.Some? ==> sent.value.title == "instapack" && !sent.value.sound
      ensures sent.Some? && tokens == [] ==> sent.value.message == "..."
      ensures sent.Some? && tokens != [] ==> sent.value.message == ConcatenatedTokens(tokens)
    {
      if !enableNotification {
        return None;
      }
      var message := "...";
      if |tokens| > 0 {
        message := ConcatenateTokens(tokens);
      }
      sent := Some(Notification("instapack", message, false));
    }
  }

  /** A build worker applies its variables to the logger: `verbose` turns
      verbose output on, `muteNotification` turns notifications off, and
      neither turns anything back. */
  method ApplyWorkerVariables(shout: ShoutState, verbose: bool, muteNotification: bool)
    modifies shout
    ensures shout.displayVerboseOutput == (old(shout.displayVerboseOutput) || verbose)
    ensures shout.enableNotification == (old(shout.enableNotification) && !muteNotification)
  {
    if verbose {
      shout.displayVerboseOutput := true;
    }
    if muteNotification {
      shout.enableNotification := false;
    }
  }
}
