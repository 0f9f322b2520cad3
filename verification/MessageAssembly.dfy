/** The loop that assembles a message, and what it makes of any stream. */
module MessageAssembly {
  import opened Options
  import opened StreamAssembly
  import opened StreamBlocks
  import opened WhiteSpace

  // Some text of the stream is left after trimming.
  predicate HasText(s: seq<Part>) {
    exists part <- s :: part.Text? && exists c <- part.text :: !IsWhiteSpace(c)
  }

  datatype Result =
    | Message(content: seq<Part>, toolCalls: seq<ToolCall>)
    | EmptyResponse
    | ThinkOnlyResponse

  class Assembler {
    var pendingPart: Option<Part>
    var content: seq<Part>
    var toolCalls: seq<ToolCall>
    var toolCallIndexMap: map<Index, nat>

    function Model(): State
      reads this
    {
      State(pendingPart, content, toolCalls, toolCallIndexMap)
    }

    constructor ()
      ensures Model() == EMPTY
    {
      pendingPart, content, toolCalls, toolCallIndexMap := None, [], [], map[];
    }

    // Merge a part into the pending one, in place, if their kinds allow it.
    method MergeInPlace(source: Part) returns (merged: bool)
      requires pendingPart.Some?
      modifies this`pendingPart
      ensures merged == Merged(old(pendingPart.value), source).Some?
      ensures pendingPart == if merged then Merged(old(pendingPart.value), source) else old(pendingPart)
    {
      var target := pendingPart.value;
      if target.Text? && source.Text? {
        pendingPart := Some(target.(text := target.text + source.text));
        return true;
      }
      if target.Think? && source.Think? {
        if target.encrypted.Some? {
          return false;
        }
        target := target.(think := target.think + source.think);
        if source.encrypted.Some? {
          target := target.(encrypted := source.encrypted);
        }
        pendingPart := Some(target);
        return true;
      }
      if target.Call? && source.CallPart? {
        if source.argumentsPart.Some? {
          pendingPart := Some(target.(arguments :=
            if target.arguments == None then source.argumentsPart
            else Some(target.arguments.value + source.argumentsPart.value)));
        }
        return true;
      }
      return false;
    }

    method FlushPart(part: Part)
      modifies this`content, this`toolCalls, this`toolCallIndexMap
      ensures Model() == Flushed(old(Model()), part)
    {
      if IsContent(part) {
        content := content + [part];
        return;
      }
      if part.Call? {
        var ordinal := |toolCalls|;
        toolCalls := toolCalls + [ToolCall(part.id, part.name, part.arguments, part.extras)];
        if part.streamIndex.Some? {
          toolCallIndexMap := toolCallIndexMap[part.streamIndex.value := ordinal];
        }
      }
    }

    // The flush after the last part.
    method FlushPending()
      modifies this`content, this`toolCalls, this`toolCallIndexMap
      ensures content == Content(old(Model())) && toolCalls == ToolCalls(old(Model()))
    {
      if pendingPart.Some? {
        FlushPart(pendingPart.value);
      }
    }

    method Accept(part: Part)
      modifies this
      ensures Model() == Next(old(Model()), part)
    {
      if part.CallPart? && part.index.Some? && !IsPendingToolCallAtIndex(pendingPart, part.index.value) {
        if part.index.value in toolCallIndexMap {
          var arrayIdx := toolCallIndexMap[part.index.value];
          if arrayIdx < |toolCalls| && part.argumentsPart.Some? {
            var target := toolCalls[arrayIdx];
            target := target.(arguments :=
              if target.arguments == None then part.argumentsPart
              else Some(target.arguments.value + part.argumentsPart.value));
            toolCalls := toolCalls[arrayIdx := target];
          }
          return;
        }
      }
      if pendingPart.None? {
        pendingPart := Some(part);
      } else {
        var merged := MergeInPlace(part);
        if !merged {
          FlushPart(pendingPart.value);
          pendingPart := Some(part);
        }
      }
    }
  }

  // The state after the first n parts.
  function Reached(stream: seq<Part>, n: nat): State
    requires n <= |stream|
  {
    if n == 0 then EMPTY else Next(Reached(stream, n - 1), stream[n - 1])
  }

  // What the loop keeps: the state means the parts taken so far, and the content is their blocks.
  lemma {:induction false} ReachedMeans(stream: seq<Part>, n: nat)
    requires n <= |stream|
    ensures Means(Reached(stream, n), stream[..n]) && Grouped(Reached(stream, n), stream[..n])
  {
    if n == 0 {
      EmptyMeans();
      EmptyGroups();
    } else {
      var st, before, part := Reached(stream, n - 1), stream[..n - 1], stream[n - 1];
      assert stream[..n] == before + [part];
      ReachedMeans(stream, n - 1);
      NextGroups(st, before, part);
      NextMeans(st, before, part);
    }
  }

  lemma Assembled(stream: seq<Part>)
    ensures var st := Reached(stream, |stream|);
      Carries(Content(st), stream) && ToolCalls(st) == Calls(stream) && PutTogether(Content(st), stream)
  {
    ReachedMeans(stream, |stream|);
    assert stream[..|stream|] == stream;
    GroupedIsPutTogether(Reached(stream, |stream|), stream);
  }

  // The loop over the stream, and the flush after it.
  method Assemble(stream: seq<Part>) returns (content: seq<Part>, toolCalls: seq<ToolCall>)
    ensures Carries(content, stream) && PutTogether(content, stream)
    ensures toolCalls == Calls(stream)
  {
    var message := new Assembler();
    var i := 0;
    while i < |stream|
      invariant i <= |stream| && message.Model() == Reached(stream, i)
    {
      message.Accept(stream[i]);
      i := i + 1;
    }
    Assembled(stream);
    message.FlushPending();
    return message.content, message.toolCalls;
  }

  // For every stream whatsoever: the calls are the headers in order, each with its own fragments; the
  // content is the stream's content parts, put together block by block, with its characters, media and
  // signatures in order; and the two errors are told from the stream alone.
  method Generate(stream: seq<Part>) returns (result: Result)
    ensures result.EmptyResponse? <==> Contents(stream) == [] && Headers(stream) == []
    ensures result.ThinkOnlyResponse? <==> HasThink(stream) && !HasText(stream) && Headers(stream) == []
    ensures result.Message? ==>
      && result.toolCalls == Calls(stream)
      && Tokens(result.content) == Tokens(stream)
      && (forall part <- result.content :: IsContent(part))
      && PutTogether(result.content, stream)
  {
    var content, toolCalls := Assemble(stream);
    assert |toolCalls| == |Headers(stream)|;
    TextSurvives(stream, content);
    if |content| == 0 && |toolCalls| == 0 {
      return EmptyResponse;
    }
    if HasThink(content) && !HasText(content) && |toolCalls| == 0 {
      return ThinkOnlyResponse;
    }
    return Message(content, toolCalls);
  }

  lemma TextSurvives(s: seq<Part>, t: seq<Part>)
    requires Tokens(s) == Tokens(t)
    ensures HasText(s) <==> HasText(t)
  {
    TextInTokens(s);
    TextInTokens(t);
  }

  predicate Visible(token: Token) {
    token.TextChar? && !IsWhiteSpace(token.c)
  }

  lemma {:induction false} TextInTokens(s: seq<Part>)
    ensures HasText(s) <==> exists token <- Tokens(s) :: Visible(token)
  {
    if s != [] {
      TextInTokens(Init(s));
      var last := Last(s);
      assert forall part :: part in s <==> part in Init(s) || part == last;
      if last.Text? {
        assert forall i | 0 <= i < |last.text| :: PartTokens(last)[i] == TextChar(last.text[i]);
        forall c <- last.text | !IsWhiteSpace(c) ensures exists token <- PartTokens(last) :: Visible(token) {
          var i :| 0 <= i < |last.text| && last.text[i] == c;
          assert Visible(PartTokens(last)[i]);
        }
      }
    }
  }
}
