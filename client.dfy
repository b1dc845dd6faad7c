/** The terminal loop: read a line, hand its trimmed text to an executor, print what
    comes back on the channel until `Over`, `Exit` or the channel closes. */
module Client {
  import Text
  import Sessions
  import opened Commands

  /** One call of `next_line`: a line, end of input (`Ok(None)`), or a read error. */
  datatype Read = Line(text: string) | Eof | Broken

  /** Why the inner loop stopped reading the channel. */
  datatype Stop = SawOver | SawExit | Closed

  /** The chunks the inner loop printed, and why it stopped. */
  datatype Drain = Drain(printed: seq<string>, stop: Stop)

  /** How the outer loop ended: `Exit` was received, the modelled input ran out (the real
      loop would prompt and wait again), or `expect` panicked on a read error. */
  datatype Ending = Farewell | OutOfInput | ReadPanic

  /** Everything the loop printed (one element per print), the trimmed inputs it handed to
      executors, and how it ended. */
  datatype Transcript = Transcript(stdout: seq<string>, dispatched: seq<string>, ending: Ending)

  /** The position of the first `Over` or `Exit`, or the length when there is none. */
  function StopIndex(events: seq<CmdRes>): (k: nat)
    ensures k <= |events|
    ensures forall i :: 0 <= i < k ==> events[i].Content?
    ensures k < |events| ==> !events[k].Content?
  {
    if events == [] || !events[0].Content? then 0 else 1 + StopIndex(events[1..])
  }

  /** The chunks carried by a run of `Content` events, in order. */
  function Chunks(events: seq<CmdRes>): (r: seq<string>)
    requires forall i :: 0 <= i < |events| ==> events[i].Content?
  {
    seq(|events|, i requires 0 <= i < |events| => events[i].chunk)
  }

  /** The inner loop `while let Some(cmd_res) = rx.recv()`: `Content` is printed, `Over`
      and `Exit` stop it, and so does the channel closing. */
  function Consume(events: seq<CmdRes>): (d: Drain)
    ensures |d.printed| <= |events|
  {
    if events == [] then Drain([], Closed)
    else match events[0]
      case Content(c) =>
        var rest := Consume(events[1..]);
        Drain([c] + rest.printed, rest.stop)
      case Over => Drain([], SawOver)
      case Exit => Drain([], SawExit)
  }

  /** The inner loop prints exactly the chunks before the first `Over` or `Exit`, in the
      order received, and stops for the reason that event gives (or because the channel
      closed when there is none). */
  lemma {:induction false} ConsumeReadsUpToStop(events: seq<CmdRes>)
    ensures var k := StopIndex(events);
      Consume(events)
      == Drain(Chunks(events[..k]),
               if k == |events| then Closed else if events[k].Over? then SawOver else SawExit)
  {
    if events != [] && events[0].Content? {
      var k := StopIndex(events);
      ConsumeReadsUpToStop(events[1..]);
      assert events[1..][..k - 1] == events[1..k];
      assert Chunks(events[..k]) == [events[0].chunk] + Chunks(events[1..k]);
    }
  }

  /** Events behind an `Over` or `Exit` are never read: appending more changes nothing. */
  lemma {:induction false} ConsumeIgnoresRest(events: seq<CmdRes>, rest: seq<CmdRes>)
    requires StopIndex(events) < |events|
    ensures Consume(events + rest) == Consume(events)
  {
    if events[0].Content? {
      assert (events + rest)[1..] == events[1..] + rest;
      ConsumeIgnoresRest(events[1..], rest);
    }
  }

  const UserPrompt: string := "User:\n"
  const EchoPrompt: string := "Echo:\n"
  const FarewellLine: string := "Bye Bye!\n"
  const Newline: string := "\n"

  /** Prepends output and dispatched inputs to the transcript of the rest of the loop. */
  function Prepend(stdout: seq<string>, dispatched: seq<string>, t: Transcript): Transcript
  {
    Transcript(stdout + t.stdout, dispatched + t.dispatched, t.ending)
  }

  lemma PrependTwice(a: seq<string>, b: seq<string>, c: seq<string>, d: seq<string>, t: Transcript)
    ensures Prepend(a, b, Prepend(c, d, t)) == Prepend(a + c, b + d, t)
  {
    assert a + (c + t.stdout) == (a + c) + t.stdout;
    assert b + (d + t.dispatched) == (b + d) + t.dispatched;
  }

  /** The outer loop from the `n`-th read of `input` on, with `deliver(k, u)` the events
      the channel yields, before it closes, for the trimmed input `u` read at position `k`.
      The position lets the same text get a different interleaving each time it is sent. */
  function Run(input: seq<Read>, n: nat, deliver: (nat, string) -> seq<CmdRes>): Transcript
    requires n <= |input|
    decreases |input| - n
  {
    if n == |input| then Transcript([UserPrompt], [], OutOfInput)
    else match input[n]
      case Broken => Transcript([UserPrompt], [], ReadPanic)
      case Eof => Prepend([UserPrompt], [], Run(input, n + 1, deliver))
      case Line(text) => Exchange(Text.Trim(text), Consume(deliver(n, Text.Trim(text))), Run(input, n + 1, deliver))
  }

  /** The part of the transcript that one line contributes, given the trimmed input, what
      the inner loop did with its channel, and the transcript of the rest of the loop. */
  function Exchange(userInput: string, d: Drain, rest: Transcript): Transcript
  {
    if d.stop == SawExit then Transcript([UserPrompt, EchoPrompt] + d.printed + [FarewellLine], [userInput], Farewell)
    else Prepend([UserPrompt, EchoPrompt] + d.printed + [Newline], [userInput], rest)
  }

  /** `Client::start`: the labelled outer loop with its inner `while let`. */
  method Start(input: seq<Read>, deliver: (nat, string) -> seq<CmdRes>)
    returns (stdout: seq<string>, dispatched: seq<string>, ending: Ending)
    ensures Transcript(stdout, dispatched, ending) == Run(input, 0, deliver)
  {
    stdout, dispatched := [], [];
    var n := 0;
    while true
      invariant 0 <= n <= |input|
      invariant Run(input, 0, deliver) == Prepend(stdout, dispatched, Run(input, n, deliver))
      decreases |input| - n
    {
      ghost var stdout0, dispatched0, n0 := stdout, dispatched, n;
      stdout := stdout + [UserPrompt];
      if n == |input| {
        ending := OutOfInput;
        break;
      }
      var read, at := input[n], n;
      n := n + 1;
      match read {
        case Broken =>
          ending := ReadPanic;
          assert Run(input, n0, deliver) == Transcript([UserPrompt], [], ReadPanic) by {
            RunStep(input, n0, deliver);
          }
          assert dispatched0 + [] == dispatched0;
          break;
        case Eof =>
          assert Prepend(stdout0, dispatched0, Run(input, n0, deliver)) == Prepend(stdout, dispatched, Run(input, n, deliver)) by {
            RunStep(input, n0, deliver);
            PrependTwice(stdout0, dispatched0, [UserPrompt], [], Run(input, n, deliver));
            assert dispatched0 + [] == dispatched0;
          }
        case Line(line) =>
          var userInput := Text.Trim(line);
          dispatched := dispatched + [userInput];
          stdout := stdout + [EchoPrompt];
          var printed, stop := Receive(deliver(at, userInput));
          stdout := stdout + printed;
          LineStep(input, n0, deliver, printed, stop);
          if stop == SawExit {
            stdout := stdout + [FarewellLine];
            ending := Farewell;
            Regroup(stdout0, printed, FarewellLine);
            break;
          }
          stdout := stdout + [Newline];
          Regroup(stdout0, printed, Newline);
          PrependTwice(stdout0, dispatched0, [UserPrompt, EchoPrompt] + printed + [Newline], [userInput],
                       Run(input, n, deliver));
      }
    }
  }

  /** What `Start` prints for one line, regrouped as one piece. */
  lemma Regroup(before: seq<string>, printed: seq<string>, last: string)
    ensures before + [UserPrompt] + [EchoPrompt] + printed + [last] == before + ([UserPrompt, EchoPrompt] + printed + [last])
  {
  }

  /** The step of `Start` for a line, in terms of what its inner loop printed and why it
      stopped. */
  lemma LineStep(input: seq<Read>, n: nat, deliver: (nat, string) -> seq<CmdRes>, printed: seq<string>, stop: Stop)
    requires n < |input| && input[n].Line?
    requires Drain(printed, stop) == Consume(deliver(n, Text.Trim(input[n].text)))
    ensures stop == SawExit ==>
      Run(input, n, deliver) == Transcript([UserPrompt, EchoPrompt] + printed + [FarewellLine], [Text.Trim(input[n].text)], Farewell)
    ensures stop != SawExit ==>
      Run(input, n, deliver) == Prepend([UserPrompt, EchoPrompt] + printed + [Newline], [Text.Trim(input[n].text)], Run(input, n + 1, deliver))
  {
  }

  /** The inner `while let Some(cmd_res) = rx.recv()` loop over the events the channel
      yields: prints each `Content` chunk, stops at `Over` or `Exit`, or when the channel
      closes. */
  method Receive(events: seq<CmdRes>) returns (printed: seq<string>, stop: Stop)
    ensures Drain(printed, stop) == Consume(events)
  {
    printed := [];
    var j := 0;
    while j < |events|
      invariant 0 <= j <= |events|
      invariant Consume(events) == Drain(printed + Consume(events[j..]).printed, Consume(events[j..]).stop)
    {
      assert events[j..][1..] == events[j + 1..];
      match events[j] {
        case Content(content) =>
          printed := printed + [content];
        case Over =>
          return printed, SawOver;
        case Exit =>
          return printed, SawExit;
      }
      j := j + 1;
    }
    stop := Closed;
  }

  /** Every input handed to an executor has been trimmed. */
  lemma {:induction false} RunDispatchesTrimmed(input: seq<Read>, n: nat, deliver: (nat, string) -> seq<CmdRes>)
    requires n <= |input|
    ensures forall k :: 0 <= k < |Run(input, n, deliver).dispatched| ==> Text.IsTrimmed(Run(input, n, deliver).dispatched[k])
    decreases |input| - n
  {
    if n < |input| && !input[n].Broken? {
      RunDispatchesTrimmed(input, n + 1, deliver);
      var rest := Run(input, n + 1, deliver);
      if input[n].Line? {
        var u := Text.Trim(input[n].text);
        var d := Consume(deliver(n, u));
        LineRun(input, n, deliver);
        ExchangeDispatches(u, d, rest);
        TrimmedCons(u, rest.dispatched, Exchange(u, d, rest).dispatched);
      } else {
        assert Run(input, n, deliver).dispatched == [] + rest.dispatched;
      }
    }
  }

  /** A line's step of the loop is its exchange followed by the rest of the loop. */
  lemma LineRun(input: seq<Read>, n: nat, deliver: (nat, string) -> seq<CmdRes>)
    requires n < |input| && input[n].Line?
    ensures Run(input, n, deliver)
         == Exchange(Text.Trim(input[n].text), Consume(deliver(n, Text.Trim(input[n].text))), Run(input, n + 1, deliver))
  {
  }

  /** A line dispatches its trimmed input, followed by the rest's unless it ended the loop. */
  lemma ExchangeDispatches(u: string, d: Drain, rest: Transcript)
    ensures d.stop == SawExit ==> Exchange(u, d, rest).dispatched == [u]
    ensures d.stop != SawExit ==> Exchange(u, d, rest).dispatched == [u] + rest.dispatched
  {
  }

  /** A trimmed input followed by nothing or by trimmed inputs keeps every input trimmed. */
  lemma TrimmedCons(u: string, rest: seq<string>, here: seq<string>)
    requires Text.IsTrimmed(u) && (here == [u] || here == [u] + rest)
    requires forall k :: 0 <= k < |rest| ==> Text.IsTrimmed(rest[k])
    ensures forall k :: 0 <= k < |here| ==> Text.IsTrimmed(here[k])
  {
    forall k | 0 <= k < |here|
      ensures Text.IsTrimmed(here[k])
    {
      if k > 0 {
        assert here[k] == rest[k - 1];
      }
    }
  }

  /** A read at position `at` that ends the program: a read error, or a line whose channel
      yields `Exit` before any `Over`. */
  predicate EndsProgram(read: Read, at: nat, deliver: (nat, string) -> seq<CmdRes>)
  {
    read.Broken? || (read.Line? && Consume(deliver(at, Text.Trim(read.text))).stop == SawExit)
  }

  /** The loop keeps prompting (after end of input, after `Over`, after a closed channel)
      until it meets a read that ends the program. */
  lemma {:induction false} RunEnding(input: seq<Read>, n: nat, deliver: (nat, string) -> seq<CmdRes>)
    requires n <= |input|
    ensures Run(input, n, deliver).ending == OutOfInput
        <==> forall k :: n <= k < |input| ==> !EndsProgram(input[k], k, deliver)
    decreases |input| - n
  {
    if n < |input| {
      RunStep(input, n, deliver);
      if !EndsProgram(input[n], n, deliver) {
        RunEnding(input, n + 1, deliver);
        assert Run(input, n, deliver).ending == Run(input, n + 1, deliver).ending;
      }
    }
  }

  /** The last thing the loop prints is "Bye Bye!" when it ended on `Exit`, and otherwise
      the "User:" prompt of the read it stopped at. */
  lemma {:induction false} RunLastPrint(input: seq<Read>, n: nat, deliver: (nat, string) -> seq<CmdRes>)
    requires n <= |input|
    ensures Run(input, n, deliver).stdout != []
    ensures Run(input, n, deliver).ending == Farewell ==> Last(Run(input, n, deliver).stdout) == FarewellLine
    ensures Run(input, n, deliver).ending != Farewell ==> Last(Run(input, n, deliver).stdout) == UserPrompt
    decreases |input| - n
  {
    if n < |input| {
      RunStep(input, n, deliver);
      if !EndsProgram(input[n], n, deliver) {
        RunLastPrint(input, n + 1, deliver);
        var rest := Run(input, n + 1, deliver);
        var head := if input[n].Eof? then [UserPrompt]
                    else [UserPrompt, EchoPrompt] + Consume(deliver(n, Text.Trim(input[n].text))).printed + [Newline];
        assert Run(input, n, deliver).stdout == head + rest.stdout;
        LastOfConcat(head, rest.stdout);
      }
    }
  }

  lemma LastOfConcat(a: seq<string>, b: seq<string>)
    requires b != []
    ensures Last(a + b) == Last(b)
  {
  }

  function Last(s: seq<string>): string
    requires s != []
  {
    s[|s| - 1]
  }

  /** One iteration of the outer loop. It always prints the prompt. A read error ends the
      loop. End of input only prompts again. A line prints "Echo:" and the chunks. Then
      either "Bye Bye!" ends the loop, or a newline is printed and the loop goes on. */
  lemma RunStep(input: seq<Read>, n: nat, deliver: (nat, string) -> seq<CmdRes>)
    requires n < |input|
    ensures input[n].Broken? ==> Run(input, n, deliver) == Transcript([UserPrompt], [], ReadPanic)
    ensures input[n].Eof? ==> Run(input, n, deliver) == Prepend([UserPrompt], [], Run(input, n + 1, deliver))
    ensures input[n].Line? && EndsProgram(input[n], n, deliver) ==>
      Run(input, n, deliver)
      == Transcript([UserPrompt, EchoPrompt] + Consume(deliver(n, Text.Trim(input[n].text))).printed + [FarewellLine],
                    [Text.Trim(input[n].text)], Farewell)
    ensures input[n].Line? && !EndsProgram(input[n], n, deliver) ==>
      Run(input, n, deliver)
      == Prepend([UserPrompt, EchoPrompt] + Consume(deliver(n, Text.Trim(input[n].text))).printed + [Newline],
                 [Text.Trim(input[n].text)], Run(input, n + 1, deliver))
  {
  }

  /** The event sequences the channel can yield for `cmd`: every event `apply` sends, the
      awaited ones and the spawned chunks, in any order. */
  predicate Deliverable(events: seq<CmdRes>, cmd: Cmd, predict: string -> Prediction)
  {
    multiset(events) == multiset(AwaitedSends(cmd, predict) + ContentsOf(SpawnedSends(cmd, predict)))
  }

  function ContentsOf(chunks: seq<string>): seq<CmdRes>
  {
    seq(|chunks|, i requires 0 <= i < |chunks| => Content(chunks[i]))
  }

  /** Wrapping chunks in `Content` keeps each chunk's multiplicity. */
  lemma {:induction false} ContentsOfCount(chunks: seq<string>, c: string)
    ensures multiset(ContentsOf(chunks))[Content(c)] == multiset(chunks)[c]
  {
    if chunks != [] {
      assert chunks == [chunks[0]] + chunks[1..];
      assert ContentsOf(chunks) == [Content(chunks[0])] + ContentsOf(chunks[1..]);
      ContentsOfCount(chunks[1..], c);
    }
  }

  /** A run of `Content` events is the wrapping of its chunks. */
  lemma ChunksWrap(events: seq<CmdRes>)
    requires forall i :: 0 <= i < |events| ==> events[i].Content?
    ensures ContentsOf(Chunks(events)) == events
  {
  }

  /** What the chunks printed before the stop can be: each comes from the channel. */
  lemma PrintedFromChannel(events: seq<CmdRes>, c: string)
    ensures multiset(Consume(events).printed)[c] <= multiset(events)[Content(c)]
  {
    var k := StopIndex(events);
    ConsumeReadsUpToStop(events);
    var p := events[..k];
    assert Consume(events).printed == Chunks(p);
    ChunksWrap(p);
    ContentsOfCount(Chunks(p), c);
    PrefixCount(events, k, Content(c));
  }

  /** A prefix holds each value at most as often as the whole sequence. */
  lemma PrefixCount<T>(s: seq<T>, k: nat, x: T)
    requires k <= |s|
    ensures multiset(s[..k])[x] <= multiset(s)[x]
  {
    assert s == s[..k] + s[k..];
  }

  /** A greeting's channel yields just the reply and then closes: the client prints the
      reply, sees no `Over`, and goes on to the next prompt. */
  lemma GreetingExchange(events: seq<CmdRes>, predict: string -> Prediction)
    requires Deliverable(events, Greeting, predict)
    ensures Consume(events) == Drain([GreetingReply], Closed)
  {
    assert ContentsOf([]) == [];
    assert multiset(events) == multiset{Content(GreetingReply)};
    assert |events| == 1;
    assert events[0] in multiset(events);
    assert events == [Content(GreetingReply)];
  }

  /** An exit's channel yields `Exit`: the client prints nothing from it and ends. */
  lemma ExitExchange(events: seq<CmdRes>, predict: string -> Prediction)
    requires Deliverable(events, Cmd.Exit, predict)
    ensures Consume(events) == Drain([], SawExit)
  {
    assert ContentsOf([]) == [];
    assert multiset(events) == multiset{CmdRes.Exit};
    assert |events| == 1;
    assert events[0] in multiset(events);
  }

  /** A channel that yields one `Over` among `Content` events stops the client at `Over`. */
  lemma StopsAtOver(events: seq<CmdRes>, chunks: seq<string>)
    requires multiset(events) == multiset([Over] + ContentsOf(chunks))
    ensures Consume(events).stop == SawOver
  {
    assert Over in multiset(events);
    assert CmdRes.Exit !in multiset(ContentsOf(chunks));
    assert CmdRes.Exit !in multiset(events);
    var k := StopIndex(events);
    ConsumeReadsUpToStop(events);
    var i :| 0 <= i < |events| && events[i] == Over;
    assert k <= i;
    assert events[k] in multiset(events);
  }

  /** A message whose engine call succeeds: the client stops at `Over`, never at `Exit`, and
      prints some of the generated tokens (possibly out of order, as each one is sent by
      its own task, and possibly not all of them, as some may arrive after `Over`). */
  lemma CompletedExchange(events: seq<CmdRes>, m: string, predict: string -> Prediction)
    requires predict(Sessions.GenPrompt(m)).Completed?
    requires Deliverable(events, Message(m), predict)
    ensures Consume(events).stop == SawOver
    ensures multiset(Consume(events).printed) <= multiset(predict(Sessions.GenPrompt(m)).tokens)
  {
    var tokens := predict(Sessions.GenPrompt(m)).tokens;
    assert multiset(events) == multiset([Over] + ContentsOf(tokens));
    StopsAtOver(events, tokens);
    forall c | true
      ensures multiset(Consume(events).printed)[c] <= multiset(tokens)[c]
    {
      PrintedFromChannel(events, c);
      ContentsOfCount(tokens, c);
      assert multiset(events)[Content(c)] == multiset(ContentsOf(tokens))[Content(c)];
    }
  }

  /** A message whose engine call fails: no `Over` comes, the channel closes once every
      spawned send is done, and the client has printed every generated token and prompts
      again instead of hanging. */
  lemma FailedExchange(events: seq<CmdRes>, m: string, predict: string -> Prediction)
    requires predict(Sessions.GenPrompt(m)).Failed?
    requires Deliverable(events, Message(m), predict)
    ensures Consume(events).stop == Closed
    ensures multiset(Consume(events).printed) == multiset(predict(Sessions.GenPrompt(m)).tokens)
  {
    var tokens := predict(Sessions.GenPrompt(m)).tokens;
    assert multiset(events) == multiset(ContentsOf(tokens));
    AllContent(events, tokens);
    ConsumeReadsUpToStop(events);
    assert events[..|events|] == events;
    ChunksWrap(events);
    forall c | true
      ensures multiset(Consume(events).printed)[c] == multiset(tokens)[c]
    {
      ContentsOfCount(tokens, c);
      ContentsOfCount(Chunks(events), c);
    }
  }

  /** A channel holding only wrapped chunks yields only `Content` events. */
  lemma AllContent(events: seq<CmdRes>, chunks: seq<string>)
    requires multiset(events) == multiset(ContentsOf(chunks))
    ensures forall i :: 0 <= i < |events| ==> events[i].Content?
  {
    forall i | 0 <= i < |events|
      ensures events[i].Content?
    {
      assert events[i] in multiset(ContentsOf(chunks));
    }
  }

  /** Because every token is sent by its own task, a successful message can be printed
      out of order: with tokens "a" and "b", the channel may yield `b, a, Over`. */
  lemma SpawnedTokensMayReorder(m: string, predict: string -> Prediction)
    requires predict(Sessions.GenPrompt(m)) == Completed(["a", "b"])
    ensures Deliverable([Content("b"), Content("a"), Over], Message(m), predict)
    ensures Consume([Content("b"), Content("a"), Over]) == Drain(["b", "a"], SawOver)
  {
    SendsOfTwoTokens(m, predict);
    SameMultiset(Over, Content("a"), Content("b"));
    assert [Content("a"), Over][1..] == [Over];
    assert Consume([Content("a"), Over]) == Drain(["a"], SawOver);
    assert [Content("b"), Content("a"), Over][1..] == [Content("a"), Over];
  }

  /** A token whose task sends after `Over` is never printed: with tokens "a" and "b",
      the channel may yield `a, Over, b`, and only "a" reaches the terminal. */
  lemma SpawnedTokenMayBeDropped(m: string, predict: string -> Prediction)
    requires predict(Sessions.GenPrompt(m)) == Completed(["a", "b"])
    ensures Deliverable([Content("a"), Over, Content("b")], Message(m), predict)
    ensures Consume([Content("a"), Over, Content("b")]) == Drain(["a"], SawOver)
  {
    SendsOfTwoTokens(m, predict);
    SameMultiset(Over, Content("a"), Content("b"));
    assert [Content("a"), Over, Content("b")][1..] == [Over, Content("b")];
  }

  /** What `apply` sends for a message whose completion is the tokens "a" and "b". */
  lemma SendsOfTwoTokens(m: string, predict: string -> Prediction)
    requires predict(Sessions.GenPrompt(m)) == Completed(["a", "b"])
    ensures AwaitedSends(Message(m), predict) + ContentsOf(SpawnedSends(Message(m), predict))
            == [Over, Content("a"), Content("b")]
  {
    assert ContentsOf(["a", "b"]) == [Content("a"), Content("b")];
  }

  /** Three sends have the same multiset in each of the orders used above. */
  lemma SameMultiset<T>(x: T, y: T, z: T)
    ensures multiset([z, y, x]) == multiset([x, y, z]) == multiset([y, x, z])
  {
    ThreeAsDisplay(z, y, x);
    ThreeAsDisplay(x, y, z);
    ThreeAsDisplay(y, x, z);
    ReorderDisplay(x, y, z);
  }

  lemma ThreeAsDisplay<T>(x: T, y: T, z: T)
    ensures multiset([x, y, z]) == multiset{x, y, z}
  {
  }

  lemma ReorderDisplay<T>(x: T, y: T, z: T)
    ensures multiset{z, y, x} == multiset{x, y, z} == multiset{y, x, z}
  {
  }
}
