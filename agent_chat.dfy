/** openservClient.js: picking the agent's answer out of a chat history. */
module AgentChat {
  import opened Wrappers
  import opened Text

  /** One element of an agent-chat history; `author` and `message` may be missing. */
  datatype ChatMessage = ChatMessage(author: Option<string>, message: Option<string>)

  /** An element (possibly `null`) the agent wrote, with a non-empty text. */
  predicate IsAgentReply(e: Option<ChatMessage>) {
    e.Some? && e.value.author == Some("agent") && Truthy(e.value.message)
  }

  /** The text of the latest agent reply in `s`, if there is any. */
  function LastAgentReply(s: seq<Option<ChatMessage>>): (r: Option<string>)
    ensures r.Some? ==>
      exists k :: 0 <= k < |s| && IsAgentReply(s[k]) && r.value == s[k].value.message.value &&
        forall j :: k < j < |s| ==> !IsAgentReply(s[j])
    ensures r.None? <==> forall k :: 0 <= k < |s| ==> !IsAgentReply(s[k])
  {
    if s == [] then None
    else if IsAgentReply(s[|s| - 1]) then Some(s[|s| - 1].value.message.value)
    else
      var r := LastAgentReply(s[..|s| - 1]);
      assert forall k :: 0 <= k < |s| - 1 ==> s[..|s| - 1][k] == s[k];
      r
  }

  /** `getLastAgentMessage`: walks the history from the end and returns the first
      agent reply it meets; a missing (non-array) or empty history gives `null`. */
  method GetLastAgentMessage(messages: Option<seq<Option<ChatMessage>>>) returns (r: Option<string>)
    ensures messages.None? ==> r.None?
    ensures messages.Some? ==> r == LastAgentReply(messages.value)
  {
    if messages.None? || |messages.value| == 0 {
      return None;
    }
    var m := messages.value;
    var i := |m| - 1;
    assert m[..i + 1] == m;
    while i >= 0
      invariant -1 <= i < |m|
      invariant LastAgentReply(m) == LastAgentReply(m[..i + 1])
    {
      if IsAgentReply(m[i]) {
        assert m[..i + 1][i] == m[i];
        return Some(m[i].value.message.value);
      }
      assert m[..i + 1][..i] == m[..i];
      i := i - 1;
    }
    assert m[..i + 1] == [];
    return None;
  }

  /** A message that is not an agent reply, appended to the history, does not change
      which reply is the latest. */
  lemma {:induction false} AppendNonReply(s: seq<Option<ChatMessage>>, e: Option<ChatMessage>)
    requires !IsAgentReply(e)
    ensures LastAgentReply(s + [e]) == LastAgentReply(s)
  {
    assert (s + [e])[..|s|] == s;
  }

  /** An agent reply appended to the history becomes the latest one. */
  lemma {:induction false} AppendReply(s: seq<Option<ChatMessage>>, e: Option<ChatMessage>)
    requires IsAgentReply(e)
    ensures LastAgentReply(s + [e]) == Some(e.value.message.value)
  {
    assert (s + [e])[|s|] == e;
  }
}
