# echoma: terminal chat loop, commands, session prompts and configuration

echoma is a small chat front-end for a local language model. The user types a line
at a `User:` prompt. The client trims the line and hands it to an `Executor`. The
executor classifies the line as a command:

- `hi echo` gets a fixed greeting;
- `exit` ends the program;
- anything else goes to the engine as an `Instruct: …\nOutput:` prompt.

Each generated token is sent back over a channel as `Content`. A successful
completion is followed by `Over`. After `Echo:` the client prints each `Content` it
reads before `Over`, `Exit` or the channel closing. After `Over` or the channel closing
it prompts again. On `Exit` it prints `Bye Bye!` and leaves the loop for good.

This project models that core in Dafny:

- `Text`: the string operations the core relies on. These are Rust's `trim`
  (Unicode White_Space), `to_lowercase` for the two command words, and the decimal
  rendering of a `u16`.
- `Sessions` (`src/session.rs`): the conversation history, a `class Session` over a
  `seq<IOPair>`. Also the two prompt formats: the stateless instruct prompt, and the
  context prompt that keeps only the last turn.
- `Commands` (`src/cmd.rs`): `Cmd`, `CmdRes` and their classification, plus the
  `Executor`.
  - The channel is a class with two fields. The ordered events that `apply` itself
    awaits are in `sent`. The multiset of chunks handed to one spawned task per
    token is in `spawned`.
  - The engine is a parameter `predict: string -> Prediction`. It yields the tokens
    it streams to the callback, and either completes or fails with an error.
- `Configuration` (`src/config.rs`): the process-wide `GLOBAL_CONFIG` as a
  `class GlobalConfig` with one `Option<Config>` field. The log-level and `*_or_default`
  getters read it.
- `Client` (`src/client.rs`): `Client::start` as a method with the outer `loop`, and
  an inner method for the `while let` over the channel.
  - Both are proved against a specification function `Run`. It gives the printed
    output, the trimmed inputs dispatched, and how the loop ended, for a finite
    sequence of stdin reads.
  - What the channel yields for a line is a parameter. It depends on the line's
    position in the input as well as its text, so the same text sent twice can be
    interleaved differently. The exchange lemmas connect it to the executor: every event
    that `apply` sends, awaited or spawned, in any order.

What the code does not do:

- A greeting does not clear the session and is not followed by `Over`.
- A message does not append a turn to the session. The executor builds the
  stateless instruct prompt, not the context prompt.
- No tags are filtered out of the streamed tokens.
- Tokens are not guaranteed to arrive in order. Each one is sent by its own spawned task.

## Model

| member | source | states |
|---|---|---|
| Sessions.GenPrompt | src/session.rs:35-37 | the prompt is exactly `Instruct: `, then the user's text unchanged, then `\nOutput:` (18 extra characters) |
| Sessions.GenPromptInjective | src/session.rs:35-37 | different texts give different instruct prompts, so the engine sees the message verbatim |
| Sessions.Session.constructor | src/session.rs:21-24 | a new session has no pairs |
| Sessions.Session.Append | src/session.rs:26-32 | the new pair goes at the end, and the earlier pairs are unchanged |
| Sessions.Session.Clear | src/session.rs:67-69 | afterwards the session has no pairs |
| Sessions.Session.GenPromptWithContext | src/session.rs:40-65 | the returned prompt equals the context prompt of the current pairs; the method changes nothing |
| Sessions.ContextPromptEmpty | src/session.rs:41-47 | with no history, the prompt is the greeting exchange followed by the user's open turn |
| Sessions.ContextPromptLastOnly | src/session.rs:48-64 | only the most recent pair is rendered, so older history does not affect the prompt |
| Sessions.ContextPromptShape | src/session.rs:40-65 | every context prompt starts with the greeting exchange and ends with the open `User…: prompt\nAI:` turn |
| Commands.Classify | src/cmd.rs:20-27 | Greeting exactly when the lower-cased line is `hi echo`, and Exit exactly when it is `exit`; otherwise a Message carrying the line unchanged (not lower-cased) |
| Commands.ClassifyIgnoresCase | src/cmd.rs:22-24 | lines that differ only in letter case are classified as the same command |
| Commands.ClassifyDoesNotTrim | src/cmd.rs:20-27 | a line with whitespace at either end is never a command word |
| Commands.GreetingSends | src/cmd.rs:45-49 | a greeting sends only the fixed reply: no `Over`, no token |
| Commands.ExitSends | src/cmd.rs:50 | exit sends only `Exit` |
| Commands.OverOnlyAfterSuccess | src/cmd.rs:51-66 | `Over` is sent exactly when the command is a message and the engine call succeeds; at most one event is awaited |
| Commands.Channel.constructor | src/client.rs:28 | a fresh channel holds no sends |
| Commands.Channel.Send | src/cmd.rs:64 | an awaited send is appended to the ordered sends |
| Commands.Channel.SpawnSend | src/cmd.rs:57-58 | a spawned send adds its chunk to the unordered sends only |
| Commands.Executor.constructor | src/cmd.rs:36-41 | the executor's command is the classification of the input, and it keeps the given sender |
| Commands.Executor.TokenCallback | src/cmd.rs:56-60 | each token spawns one send of that token, and the callback asks the engine to go on |
| Commands.Executor.Predict | src/cmd.rs:54-63 | the engine's outcome is returned, and every token it streamed has been handed to a spawned send |
| Commands.Executor.Apply | src/cmd.rs:43-68 | the awaited sends are exactly the command's (reply, `Exit`, or `Over` after success), and the spawned ones are the tokens; the result is an error exactly when a message's engine call fails, carrying that error |
| Configuration.LevelOf | src/config.rs:36-46 | each of the seven level names maps to its position, and any other name maps to 0 (`off`) |
| Configuration.GlobalConfig.constructor | src/config.rs:16 | no configuration is installed at start |
| Configuration.GlobalConfig.SetGlobalConfig | src/config.rs:18-22 | the given configuration replaces the installed one, and every getter then returns its field or the default |
| Configuration.GlobalConfig.LogLevelStr | src/config.rs:24-33 | the configured level name, or `info` when there is none |
| Configuration.GlobalConfig.LogLevel | src/config.rs:35-47 | the position of the configured name among the seven level names (`debug` gives 5), 0 for an unrecognised name, and 4 when nothing is configured |
| Configuration.GlobalConfig.LogFile | src/config.rs:49-58 | the configured log file, or `smail-server.log` |
| Configuration.GlobalConfig.WebListenOrDefault | src/config.rs:60-70 | the configured listen address, or `0.0.0.0` |
| Configuration.GlobalConfig.WebPortOrDefault | src/config.rs:72-82 | the canonical decimal rendering of the configured port (digits only, no leading zero, reads back as the port), or `8633` |
| Configuration.GlobalConfig.ModelOrDefault | src/config.rs:84-94 | the configured model file, or `phi-2.Q4_0.gguf` |
| Text.Trim | src/client.rs:26 | the trimmed line neither starts nor ends with whitespace |
| Text.TrimIsSlice | src/client.rs:26 | the trimmed line is a contiguous slice of the input, and everything cut off on either side is whitespace |
| Text.TrimIdempotent | src/client.rs:26 | trimming an already trimmed line changes nothing |
| Text.ToLower | src/cmd.rs:22 | lower-casing keeps the length and lowers each character on its own |
| Text.DecimalRoundTrip | src/config.rs:76 | reading back the decimal rendering of a port gives the port |
| Client.Receive | src/client.rs:36-45 | the inner loop prints and stops exactly as the channel-consumption function says |
| Client.ConsumeReadsUpToStop | src/client.rs:36-45 | the chunks printed are exactly those before the first `Over` or `Exit`, in arrival order; the stop reason is that event, or the channel closing |
| Client.ConsumeIgnoresRest | src/client.rs:39-43 | events after an `Over` or `Exit` are never read |
| Client.Start | src/client.rs:18-51 | the whole loop's output, dispatched inputs and ending equal the reference transcript of the reads |
| Client.RunStep | src/client.rs:22-48 | one iteration: it prompts; a read error panics; end of input prompts again; a line prints `Echo:`, its chunks, and then `Bye Bye!` and ends, or a newline and goes on |
| Client.RunDispatchesTrimmed | src/client.rs:25-29 | every input handed to an executor is trimmed |
| Client.RunEnding | src/client.rs:22-48 | the loop only runs out of input when no read is a read error and no line's channel yields `Exit` before `Over` |
| Client.RunLastPrint | src/client.rs:40-43 | the last thing printed is `Bye Bye!` when the loop ended on `Exit`, and the `User:` prompt otherwise |
| Client.GreetingExchange | src/cmd.rs:45-49 | for a greeting the client prints just the reply and then sees the channel close (no `Over`) |
| Client.ExitExchange | src/client.rs:40-43 | for `exit` the client prints nothing from the channel and stops on `Exit` |
| Client.CompletedExchange | src/cmd.rs:51-64 | for a successful message the client stops at `Over`, and prints a sub-multiset of the generated tokens |
| Client.FailedExchange | src/cmd.rs:63 | for a failed message no `Over` comes: the channel closes and every generated token has been printed |
| Client.SpawnedTokensMayReorder | src/cmd.rs:56-58 | a completion `a, b` may be printed as `b, a` |
| Client.SpawnedTokenMayBeDropped | src/cmd.rs:56-64 | a token whose send lands after `Over` is never printed |

## Left out

- Concurrency is not modelled: the tokio runtime, `tokio::spawn`, `.await` and the
  5-slot channel's back-pressure. The client sees the executor's sends as one finite
  sequence. Any interleaving of the awaited sends with the spawned ones is allowed, and
  it may differ each time a line is sent.
- Commands.Channel.Send: a send never fails. In the source, a send fails once the client
  has dropped the receiver, and `apply` then returns early with an error that nobody reads.
- Commands.Executor.Apply: the engine is a function of the prompt. `LOCAL_LLAMA`, its
  loading, `PredictOptions` and the model's sampling are not modelled.
- Text.ToLower: only ASCII letters are lowered. For Rust's Unicode `to_lowercase`, only
  the Kelvin sign lowers to an ASCII letter (`k`). Neither command word contains `k`,
  so classification is the same.
- Client.Start: stdin is a finite sequence of reads. At end of input the source keeps
  prompting forever. The model stops with `OutOfInput` after the final `User:` prompt.
- Client.Start: a read error ends the model with `ReadPanic`. The panic message and
  the unwinding are not modelled.
- `Client::new` always succeeds and has no state. `Executor::new` cannot fail.
  Neither error path is modelled.
- The `CURRENT_SESSION` mutex and `lazy_static` initialisation: the session is a plain object.
- `USER_CHATTING_NAME_SHORT`, the `LOGGER` setup in `src/lib.rs`, `build.rs` and
  `src/bin/main.rs` (which only builds a `Client` and calls `start`) are not part of
  this model. Nothing in the code shown calls `set_global_config`.
- Reading `Config` from a file with serde is not modelled. A `Config` is built directly.
- The process-wide `static mut` is modelled as one object. Unsynchronised access
  from several threads is not modelled.
- Client.FailedExchange: the model assumes the engine releases the token callback when
  `predict` returns. The callback holds a clone of the sender. The channel closes only
  after that clone and the spawned sends' clones are dropped, and the engine's own code
  is not part of this model.
