/** Command classification and the executor that answers one command with a fixed
    pattern of response events. */
module Commands {
  import Text
  import Sessions
  import opened Wrappers

  /** What the user asked for. */
  datatype Cmd = Greeting | Exit | Message(text: string)

  /** One response event on the executor's channel. */
  datatype CmdRes = Content(chunk: string) | Over | Exit

  /** The reply to a greeting. */
  const GreetingReply: string := "Hello, what can I do for you?"

  /** `From<&str> for Cmd`: the lower-cased input is matched exactly against the two
      reserved phrases; anything else is a message carrying the input as typed. */
  function Classify(value: string): (c: Cmd)
    ensures c == Greeting <==> Text.ToLower(value) == "hi echo"
    ensures c == Cmd.Exit <==> Text.ToLower(value) == "exit"
    ensures c.Message? ==> c.text == value
  {
    match Text.ToLower(value)
    case "hi echo" => Greeting
    case "exit" => Cmd.Exit
    case _ => Message(value)
  }

  /** Case does not matter: inputs that agree once lower-cased classify alike, up to the
      text a message carries. */
  lemma ClassifyIgnoresCase(a: string, b: string)
    requires Text.ToLower(a) == Text.ToLower(b)
    ensures Classify(a).Message? == Classify(b).Message?
    ensures !Classify(a).Message? ==> Classify(a) == Classify(b)
  {
  }

  /** Classification does not trim: input with whitespace at either end is always a
      message, whatever it says. */
  lemma ClassifyDoesNotTrim(value: string)
    requires value != [] && (Text.IsWhitespace(value[0]) || Text.IsWhitespace(value[|value| - 1]))
    ensures Classify(value) == Message(value)
  {
    var low := Text.ToLower(value);
    if Text.IsWhitespace(value[0]) {
      Text.LowerKeepsWhitespace(value[0]);
      assert Text.IsWhitespace(low[0]);
    } else {
      Text.LowerKeepsWhitespace(value[|value| - 1]);
      assert Text.IsWhitespace(low[|low| - 1]);
    }
    assert low != "hi echo" && low != "exit";
  }

  /** What the native `predict` call does, seen from outside: the tokens it passes to the
      callback, and whether it then returns `Ok` or an error. */
  datatype Prediction =
    | Completed(tokens: seq<string>)
    | Failed(tokens: seq<string>, error: string)

  /** The events `apply` sends itself, awaiting each send in turn. */
  function AwaitedSends(cmd: Cmd, predict: string -> Prediction): seq<CmdRes>
  {
    match cmd
    case Greeting => [Content(GreetingReply)]
    case Exit => [CmdRes.Exit]
    case Message(m) => if predict(Sessions.GenPrompt(m)).Completed? then [Over] else []
  }

  /** The chunks `apply` hands to one spawned send task per token. */
  function SpawnedSends(cmd: Cmd, predict: string -> Prediction): seq<string>
  {
    if cmd.Message? then predict(Sessions.GenPrompt(cmd.text)).tokens else []
  }

  /** A greeting sends its reply and nothing else: no `Over`, no spawned chunk. */
  lemma GreetingSends(predict: string -> Prediction)
    ensures AwaitedSends(Greeting, predict) == [Content("Hello, what can I do for you?")]
    ensures Over !in AwaitedSends(Greeting, predict) && SpawnedSends(Greeting, predict) == []
  {
  }

  /** An exit sends exactly one `Exit` event. */
  lemma ExitSends(predict: string -> Prediction)
    ensures AwaitedSends(Cmd.Exit, predict) == [CmdRes.Exit] && SpawnedSends(Cmd.Exit, predict) == []
  {
  }

  /** `Over` is sent exactly when the command is a message whose engine call returned `Ok`;
      no command sends more than one event itself. */
  lemma OverOnlyAfterSuccess(cmd: Cmd, predict: string -> Prediction)
    ensures Over in AwaitedSends(cmd, predict)
        <==> cmd.Message? && predict(Sessions.GenPrompt(cmd.text)).Completed?
    ensures |AwaitedSends(cmd, predict)| <= 1
  {
  }

  /** The sending half of the response channel. Sends awaited by the executor land in
      `sent` in order; the per-token sends run as independent tasks, so only the
      multiset of their chunks is determined. */
  class Channel {
    var sent: seq<CmdRes>
    var spawned: multiset<string>

    /** `mpsc::channel`: nothing sent yet. */
    constructor ()
      ensures sent == [] && spawned == multiset{}
    {
      sent, spawned := [], multiset{};
    }

    /** `send(..).await`. */
    method Send(event: CmdRes)
      modifies this
      ensures sent == old(sent) + [event] && spawned == old(spawned)
    {
      sent := sent + [event];
    }

    /** `tokio::spawn(async move { sender.send(CmdRes::Content(token)).await })`. */
    method SpawnSend(chunk: string)
      modifies this
      ensures spawned == old(spawned) + multiset{chunk} && sent == old(sent)
    {
      spawned := spawned + multiset{chunk};
    }
  }

  /** One command bound to the channel it answers on. */
  class Executor {
    const cmd: Cmd
    const resultSender: Channel

    /** `Executor::new`: classifies the input; it never fails. */
    constructor (userInput: string, sender: Channel)
      ensures cmd == Classify(userInput) && resultSender == sender
    {
      cmd := Classify(userInput);
      resultSender := sender;
    }

    /** The token callback given to the engine: forward the token on a spawned task and
        always let generation continue. */
    method TokenCallback(token: string) returns (keepGoing: bool)
      modifies resultSender
      ensures keepGoing
      ensures resultSender.spawned == old(resultSender.spawned) + multiset{token}
      ensures resultSender.sent == old(resultSender.sent)
    {
      resultSender.SpawnSend(token);
      keepGoing := true;
    }

    /** `LOCAL_LLAMA.predict(prompt, options)` with the token callback above. The engine
        hands each token it produces to the callback in turn, and would stop early if the
        callback asked it to. */
    method Predict(predict: string -> Prediction, prompt: string) returns (prediction: Prediction)
      modifies resultSender
      ensures prediction == predict(prompt)
      ensures resultSender.spawned == old(resultSender.spawned) + multiset(prediction.tokens)
      ensures resultSender.sent == old(resultSender.sent)
    {
      prediction := predict(prompt);
      var i, keepGoing := 0, true;
      while i < |prediction.tokens| && keepGoing
        invariant 0 <= i <= |prediction.tokens|
        invariant keepGoing
        invariant resultSender.spawned == old(resultSender.spawned) + multiset(prediction.tokens[..i])
        invariant resultSender.sent == old(resultSender.sent)
      {
        assert prediction.tokens[..i + 1] == prediction.tokens[..i] + [prediction.tokens[i]];
        keepGoing := TokenCallback(prediction.tokens[i]);
        i := i + 1;
      }
      assert prediction.tokens[..i] == prediction.tokens;
    }

    /** `apply`. A greeting sends its reply, an exit sends `Exit`; a message builds the
        stateless prompt, runs the engine with the callback above and sends `Over` only if
        the engine returns `Ok`, else returns the engine's error. */
    method Apply(predict: string -> Prediction) returns (r: Result<(), string>)
      modifies resultSender
      ensures resultSender.sent == old(resultSender.sent) + AwaitedSends(cmd, predict)
      ensures resultSender.spawned == old(resultSender.spawned) + multiset(SpawnedSends(cmd, predict))
      ensures r.Err? <==> cmd.Message? && predict(Sessions.GenPrompt(cmd.text)).Failed?
      ensures r.Err? ==> r.error == predict(Sessions.GenPrompt(cmd.text)).error
    {
      match cmd {
        case Greeting =>
          resultSender.Send(Content("Hello, what can I do for you?"));
        case Exit =>
          resultSender.Send(CmdRes.Exit);
        case Message(message) =>
          var prompt := "Instruct: " + message + "\nOutput:";
          var prediction := Predict(predict, prompt);
          if prediction.Failed? {
            return Err(prediction.error);
          }
          resultSender.Send(Over);
      }
      r := Ok(());
    }
  }
}
