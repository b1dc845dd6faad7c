/** The conversation session: the ordered list of completed exchanges and the two
    ways of turning the next user input into a prompt for the engine. */
module Sessions {
  import Lib

  /** One completed exchange. */
  datatype IOPair = IOPair(input: string, output: string)

  /** The fixed greeting exchange every context-aware prompt starts with. */
  const GreetingPrefix: string := Lib.UserChattingName + ": Hi.\nAI: Hi, what can I do for you?\n"

  /** The closing line of a context-aware prompt: the new input under the speaker tag,
      with the assistant's turn left open. */
  function OpenTurn(prompt: string): string
  {
    Lib.UserChattingName + ": " + prompt + "\nAI:"
  }

  /** One earlier exchange as it appears inside a context-aware prompt (no space after "AI:"). */
  function Chat(pair: IOPair): string
  {
    Lib.UserChattingName + ": " + pair.input + "\nAI:" + pair.output + "\n"
  }

  /** The exchanges rendered one after another, oldest first. */
  function RenderPairs(pairs: seq<IOPair>): string
  {
    if pairs == [] then "" else RenderPairs(pairs[..|pairs| - 1]) + Chat(pairs[|pairs| - 1])
  }

  /** `gen_prompt`: the stateless instruction template. The source method takes the
      session (`&mut self`) but never reads it, so the model drops that parameter. The
      input sits verbatim between two fixed markers. */
  function GenPrompt(prompt: string): (r: string)
    ensures |r| == |prompt| + 18
    ensures r[..10] == "Instruct: " && r[10..|r| - 8] == prompt && r[|r| - 8..] == "\nOutput:"
  {
    "Instruct: " + prompt + "\nOutput:"
  }

  /** Distinct inputs give distinct stateless prompts: the template loses nothing. */
  lemma GenPromptInjective(p: string, q: string)
    requires GenPrompt(p) == GenPrompt(q)
    ensures p == q
  {
    var r := GenPrompt(p);
    assert p == r[10..|r| - 8];
  }

  /** What `gen_prompt_with_context` promises: the greeting prefix, then the most recent
      exchange if there is one, then the open turn for the new input. */
  function ContextPrompt(pairs: seq<IOPair>, prompt: string): string
  {
    if pairs == [] then GreetingPrefix + OpenTurn(prompt)
    else GreetingPrefix + Chat(pairs[|pairs| - 1]) + OpenTurn(prompt)
  }

  /** With no history the prompt is the greeting prefix followed by the open turn. */
  lemma ContextPromptEmpty(prompt: string)
    ensures ContextPrompt([], prompt)
         == Lib.UserChattingName + ": Hi.\nAI: Hi, what can I do for you?\n"
          + Lib.UserChattingName + ": " + prompt + "\nAI:"
  {
  }

  /** Only the last exchange contributes: older exchanges do not change the prompt. */
  lemma ContextPromptLastOnly(older1: seq<IOPair>, older2: seq<IOPair>, last: IOPair, prompt: string)
    ensures ContextPrompt(older1 + [last], prompt) == ContextPrompt(older2 + [last], prompt)
    ensures ContextPrompt(older1 + [last], prompt)
         == GreetingPrefix + Lib.UserChattingName + ": " + last.input + "\nAI:" + last.output + "\n"
          + OpenTurn(prompt)
  {
  }

  /** Every context-aware prompt starts with the greeting prefix and ends with the open turn. */
  lemma ContextPromptShape(pairs: seq<IOPair>, prompt: string)
    ensures var r := ContextPrompt(pairs, prompt);
      |GreetingPrefix| + |OpenTurn(prompt)| <= |r|
      && r[..|GreetingPrefix|] == GreetingPrefix
      && r[|r| - |OpenTurn(prompt)|..] == OpenTurn(prompt)
  {
    var r := ContextPrompt(pairs, prompt);
    var mid := if pairs == [] then "" else Chat(pairs[|pairs| - 1]);
    assert r == GreetingPrefix + mid + OpenTurn(prompt);
  }

  /** The process-wide session: the completed exchanges, most recent last. */
  class Session {
    var pairs: seq<IOPair>

    /** `Session::new`: an empty history. */
    constructor ()
      ensures pairs == []
    {
      pairs := [];
    }

    /** `append`: pushes one exchange; the earlier ones are untouched. */
    method Append(input: string, output: string)
      modifies this
      ensures pairs == old(pairs) + [IOPair(input, output)]
      ensures |pairs| == |old(pairs)| + 1 && pairs[|pairs| - 1] == IOPair(input, output)
      ensures pairs[..|old(pairs)|] == old(pairs)
    {
      pairs := pairs + [IOPair(input, output)];
    }

    /** `clear`: empties the history; a second call leaves it as the first did. */
    method Clear()
      modifies this
      ensures pairs == []
    {
      pairs := [];
    }

    /** `gen_prompt_with_context`. It changes nothing (no `modifies`), and its result is
        the prompt `ContextPrompt` describes. */
    method GenPromptWithContext(prompt: string) returns (r: string)
      ensures r == ContextPrompt(pairs, prompt)
    {
      var prefix := GreetingPrefix;
      if |pairs| == 0 {
        return prefix + OpenTurn(prompt);
      }
      // The source still tests for fewer than one pair here; that branch is unreachable.
      assert |pairs| >= 1;
      var recent := if |pairs| < 1 then pairs else pairs[|pairs| - 1..];
      var context := "";
      for i := 0 to |recent|
        invariant context == RenderPairs(recent[..i])
      {
        assert recent[..i + 1][..i] == recent[..i];
        context := context + Chat(recent[i]);
      }
      assert recent[..|recent|] == recent == [pairs[|pairs| - 1]];
      assert RenderPairs(recent) == Chat(pairs[|pairs| - 1]) by {
        assert recent[..0] == [];
      }
      r := prefix + context + OpenTurn(prompt);
    }
  }
}
