/** `on_message` of discord/discord_bot.py: ignore bots, hand the message text to the `llm` command line through
    a shell, and send one reply chosen by how the run ended. The process run is the parameter `run`; whether the
    chat service accepts a send is the parameter `accepts`, asked with the attempt number (0 for the first send
    of a message, 1 for the `ERROR` sent after it failed) and the text. */
module Relay {
  import opened Text

  const LlmCommand := "uv run llm --key $LLM_API_KEY --model $LLM_MODEL"
  const FunctionArg := "--functions tools/google_calendar.py"
  const TimeoutSeconds := 10
  const TimeoutReply := "Command timed out"
  const ErrorReply := "ERROR"
  /** The attempt numbers `accepts` is asked with. */
  const FirstSend := 0
  const FallbackSend := 1

  datatype Message = Message(authorIsBot: bool, content: string, channel: string)

  /** The `subprocess.run` call: a shell command line, run in the working directory with a time limit. */
  datatype RunRequest = RunRequest(command: string, shell: bool, timeoutSeconds: nat, cwd: string)

  /** How the run ended: the process completed (whatever its exit status), the time limit expired,
      or some other exception was raised (its text). */
  datatype Outcome = Completed(returncode: int, stdout: string, stderr: string) | TimedOut | Raised(text: string)

  /** One text delivered to a channel. */
  datatype Sent = Sent(channel: string, text: string)

  const CommandPrefix := LlmCommand + " " + FunctionArg + " '"

  /** The command line: the fixed `llm` invocation, then the message text between single quotes, unescaped. */
  function Command(content: string): (c: string)
    ensures |c| == |CommandPrefix| + |content| + 1
    ensures c[..|CommandPrefix|] == CommandPrefix
    ensures c[|CommandPrefix|..|c| - 1] == content
    ensures c[|c| - 1] == '\''
  {
    LlmCommand + " " + FunctionArg + " '" + content + "'"
  }

  /** Reads the message text back out of a command line; the inverse of `Command`. */
  function ContentOf(command: string): (r: string)
    requires |command| > |CommandPrefix|
  {
    command[|CommandPrefix|..|command| - 1]
  }

  /** The text is inserted verbatim: it can be recovered exactly, so different messages give different commands. */
  lemma CommandKeepsContent(content: string, other: string)
    ensures ContentOf(Command(content)) == content
    ensures Command(content) == Command(other) ==> content == other
  {
  }

  /** A single quote in the message is not escaped: the command line holds it raw, at a position strictly between
      the two quotes that delimit the argument, so the line has at least three quotes. */
  lemma QuoteInContentIsNotEscaped(content: string, k: nat)
    requires k < |content| && content[k] == '\''
    ensures var c := Command(content); var open, inner, close := |CommandPrefix| - 1, |CommandPrefix| + k, |c| - 1;
      open < inner < close && c[open] == '\'' && c[inner] == '\'' && c[close] == '\''
  {
    var c := Command(content);
    assert c[|CommandPrefix|..|c| - 1][k] == content[k];
    assert c[|CommandPrefix| - 1] == c[..|CommandPrefix|][|CommandPrefix| - 1];
  }

  function Request(content: string): (r: RunRequest)
    ensures r.command == Command(content) && r.shell && r.timeoutSeconds == 10 && r.cwd == "."
  {
    RunRequest(Command(content), true, TimeoutSeconds, ".")
  }

  /** The text the handler tries to send first for each outcome. */
  function ReplyText(outcome: Outcome): (r: string)
    ensures !outcome.Completed? ==> r == "Command timed out" || r == "ERROR"
    ensures outcome.Raised? ==> r == "ERROR"
    ensures outcome.Completed? ==> |r| <= |outcome.stdout|
  {
    match outcome
    case Completed(_, stdout, _) => Strip(stdout)
    case TimedOut => TimeoutReply
    case Raised(_) => ErrorReply
  }

  /** A completed run is relayed as its stripped output, whatever its exit status and even when empty;
      the error output is never relayed. */
  lemma CompletedRunRelaysStdout(code: int, stdout: string, stderr: string)
    ensures ReplyText(Completed(code, stdout, stderr)) == Strip(stdout)
    ensures AllSpace(stdout) ==> ReplyText(Completed(code, stdout, stderr)) == ""
  {
    StripEmptyIffAllSpace(stdout);
  }

  /** An exception's text never reaches the channel: every exception gives the same reply, and so does a timeout. */
  lemma ExceptionTextNotSent(text: string, other: string)
    ensures ReplyText(Raised(text)) == ReplyText(Raised(other)) == "ERROR"
    ensures ReplyText(TimedOut) == "Command timed out"
  {
  }

  /** The runs the handler starts for one message: none for a bot's message, otherwise exactly one. */
  function Launches(msg: Message): (r: seq<RunRequest>)
    ensures msg.authorIsBot <==> r == []
    ensures !msg.authorIsBot ==> r == [Request(msg.content)]
  {
    if msg.authorIsBot then [] else [Request(msg.content)]
  }

  /** What reaches the channel for one message. The first send sits inside the `try`, so when the chat service
      rejects a completed run's output the `except Exception` branch tries `ERROR`; a rejected send inside an
      `except` branch escapes the handler and nothing is delivered. */
  function Replies(msg: Message, outcome: Outcome, accepts: (nat, string) -> bool): (r: seq<Sent>)
    ensures |r| <= 1
    ensures msg.authorIsBot ==> r == []
    ensures forall k :: 0 <= k < |r| ==> r[k].channel == msg.channel
    ensures forall k :: 0 <= k < |r| ==> r[k].text == ReplyText(outcome) || r[k].text == "ERROR"
    ensures !msg.authorIsBot && accepts(0, ReplyText(outcome)) ==> r == [Sent(msg.channel, ReplyText(outcome))]
    ensures !msg.authorIsBot && !accepts(0, ReplyText(outcome)) ==>
              r == (if outcome.Completed? && accepts(1, "ERROR") then [Sent(msg.channel, "ERROR")] else [])
  {
    if msg.authorIsBot then []
    else if accepts(FirstSend, ReplyText(outcome)) then [Sent(msg.channel, ReplyText(outcome))]
    else if outcome.Completed? && accepts(FallbackSend, ErrorReply) then [Sent(msg.channel, ErrorReply)]
    else []
  }

  /** The bot's chat side: the texts delivered so far and the command lines started so far. */
  class Relay {
    var outbox: seq<Sent>
    var launched: seq<RunRequest>

    constructor ()
      ensures outbox == [] && launched == []
    {
      outbox := [];
      launched := [];
    }

    /** Handles one inbound message. */
    method OnMessage(msg: Message, run: RunRequest -> Outcome, accepts: (nat, string) -> bool)
      modifies this
      ensures launched == old(launched) + Launches(msg)
      ensures outbox == old(outbox) + Replies(msg, run(Request(msg.content)), accepts)
    {
      if msg.authorIsBot {
        return;
      }
      var request := Request(msg.content);
      launched := launched + [request];
      var outcome := run(request);
      var text := ReplyText(outcome);
      if accepts(FirstSend, text) {
        outbox := outbox + [Sent(msg.channel, text)];
      } else if outcome.Completed? && accepts(FallbackSend, ErrorReply) {
        outbox := outbox + [Sent(msg.channel, ErrorReply)];
      }
    }
  }

  /** A bot's message starts no run and gets no reply. */
  lemma BotMessagesIgnored(msg: Message, outcome: Outcome, accepts: (nat, string) -> bool)
    requires msg.authorIsBot
    ensures Launches(msg) == [] && Replies(msg, outcome, accepts) == []
  {
  }

  /** A completed run whose output is itself `ERROR` and whose first send fails still delivers `ERROR` when the
      second send succeeds: the two sends are separate requests. */
  lemma RetryAfterRejectedErrorText(msg: Message, code: int, stdout: string, stderr: string, accepts: (nat, string) -> bool)
    requires !msg.authorIsBot && Strip(stdout) == "ERROR"
    requires !accepts(0, "ERROR") && accepts(1, "ERROR")
    ensures Replies(msg, Completed(code, stdout, stderr), accepts) == [Sent(msg.channel, "ERROR")]
  {
  }

  /** When the chat service accepts what is sent, each other message gets exactly one reply, chosen by the outcome. */
  lemma OneReplyPerMessage(msg: Message, outcome: Outcome, accepts: (nat, string) -> bool)
    requires !msg.authorIsBot
    requires forall t :: accepts(FirstSend, t)
    ensures Replies(msg, outcome, accepts) == [Sent(msg.channel, ReplyText(outcome))]
  {
  }
}
