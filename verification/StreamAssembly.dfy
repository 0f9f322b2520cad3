/** Assembly of one assistant message from a stream of parts.

    The assembler keeps one pending part, a map from streaming index to stored call, and the message so
    far.  Its invariant says, for every stream whatsoever, what all of that is in terms of the parts seen. */
module StreamAssembly {
  import opened Options

  datatype Index = Number(n: int) | Name(name: string)

  datatype Part =
    | Text(text: string)
    | Think(think: string, encrypted: Option<string>)
    | Media(kind: string, url: string, mediaId: Option<string>)
    | Call(id: string, name: string, arguments: Option<string>, extras: Option<string>, streamIndex: Option<Index>)
    | CallPart(argumentsPart: Option<string>, index: Option<Index>)

  // A call as stored on the message, without its routing index.
  datatype ToolCall = ToolCall(id: string, name: string, arguments: Option<string>, extras: Option<string>)

  predicate IsContent(part: Part) {
    part.Text? || part.Think? || part.Media?
  }

  function Append(arguments: Option<string>, part: Option<string>): Option<string> {
    match part
    case None => arguments
    case Some(p) => if arguments == None then Some(p) else Some(arguments.value + p)
  }

  // ---------- What a stream means ----------

  function Last<T>(s: seq<T>): T
    requires s != []
  {
    s[|s| - 1]
  }

  function Init<T>(s: seq<T>): seq<T>
    requires s != []
  {
    s[..|s| - 1]
  }

  function Headers(s: seq<Part>): (headers: seq<Part>)
    ensures forall h <- headers :: h.Call?
  {
    if s == [] then [] else if Last(s).Call? then Headers(Init(s)) + [Last(s)] else Headers(Init(s))
  }

  function Contents(s: seq<Part>): seq<Part> {
    if s == [] then [] else if IsContent(Last(s)) then Contents(Init(s)) + [Last(s)] else Contents(Init(s))
  }

  // The last part that is not an argument delta is a call header.
  predicate EndsInCall(s: seq<Part>): (ends: bool)
    ensures ends ==> Headers(s) != []
  {
    s != [] && (Last(s).Call? || (Last(s).CallPart? && EndsInCall(Init(s))))
  }

  // The ordinal of the latest header with this index.
  function Latest(s: seq<Part>, i: Index): (n: Option<nat>)
    ensures n.Some? ==> n.value < |Headers(s)| && Headers(s)[n.value].streamIndex == Some(i)
  {
    if s == [] then None
    else if Last(s).Call? && Last(s).streamIndex == Some(i) then Some(|Headers(s)| - 1)
    else Latest(Init(s), i)
  }

  // The call an argument delta belongs to: the latest header with its index; without an index, or with
  // one no header has, the last header if nothing but deltas came since; otherwise none.
  function Owner(before: seq<Part>, delta: Part): (n: Option<nat>)
    requires delta.CallPart?
    ensures n.Some? ==> n.value < |Headers(before)|
  {
    if delta.index.Some? && Latest(before, delta.index.value).Some? then Latest(before, delta.index.value)
    else if EndsInCall(before) then Some(|Headers(before)| - 1)
    else None
  }

  // The argument fragments that belong to the n-th call, in the order they arrived.
  function Fragments(s: seq<Part>, n: nat): seq<string> {
    if s == [] then []
    else if Last(s).CallPart? && Owner(Init(s), Last(s)) == Some(n) && Last(s).argumentsPart.Some? then
      Fragments(Init(s), n) + [Last(s).argumentsPart.value]
    else Fragments(Init(s), n)
  }

  // The fragments one after the other.
  function Flat(fragments: seq<string>): string {
    if fragments == [] then "" else Flat(Init(fragments)) + Last(fragments)
  }

  // A header's own arguments followed by fragments; no arguments at all stay absent.
  function Joined(arguments: Option<string>, fragments: seq<string>): Option<string> {
    if fragments == [] then arguments
    else Some((if arguments.Some? then arguments.value else "") + Flat(fragments))
  }

  lemma JoinedSnoc(arguments: Option<string>, fragments: seq<string>, fragment: string)
    ensures Joined(arguments, fragments + [fragment]) == Append(Joined(arguments, fragments), Some(fragment))
  {
    var own := if arguments.Some? then arguments.value else "";
    assert Init(fragments + [fragment]) == fragments;
    assert own + (Flat(fragments) + fragment) == own + Flat(fragments) + fragment;
    assert "" + fragment == fragment && own + "" == own;
  }

  function Assembled(header: Part, fragments: seq<string>): ToolCall
    requires header.Call?
  {
    ToolCall(header.id, header.name, Joined(header.arguments, fragments), header.extras)
  }

  // The calls a stream means: its headers in order, each with the fragments that belong to it.
  function Calls(s: seq<Part>): (calls: seq<ToolCall>)
    ensures |calls| == |Headers(s)|
  {
    seq(|Headers(s)|, n requires 0 <= n < |Headers(s)| => Assembled(Headers(s)[n], Fragments(s, n)))
  }

  // The content a stream means, forgetting only where fragments of one kind were cut: characters tagged
  // by kind, media, and each reasoning signature at its place.
  datatype Token = TextChar(c: char) | ThinkChar(c: char) | Signature(signature: string) | MediaItem(part: Part)

  function PartTokens(part: Part): seq<Token>
    requires IsContent(part)
  {
    match part
    case Text(text) => seq(|text|, i requires 0 <= i < |text| => TextChar(text[i]))
    case Think(think, encrypted) =>
      seq(|think|, i requires 0 <= i < |think| => ThinkChar(think[i]))
      + (if encrypted.Some? then [Signature(encrypted.value)] else [])
    case Media(_, _, _) => [MediaItem(part)]
  }

  function Tokens(s: seq<Part>): seq<Token> {
    if s == [] then []
    else Tokens(Init(s)) + (if IsContent(Last(s)) then PartTokens(Last(s)) else [])
  }

  predicate HasThink(s: seq<Part>) {
    exists part <- s :: part.Think?
  }

  // ---------- Merging ----------

  // mergeInPlace: the target after the merge, or nothing when the two do not merge.
  function Merged(target: Part, source: Part): (merged: Option<Part>)
    ensures merged.Some? && IsContent(target) ==>
      && IsContent(source) && IsContent(merged.value)
      && (merged.value.Think? <==> target.Think?) && (source.Think? <==> target.Think?)
  {
    match (target, source)
    case (Text(a), Text(b)) => Some(Text(a + b))
    case (Think(a, signature), Think(b, signature')) =>
      if signature.Some? then None
      else Some(Think(a + b, signature'))
    case (Call(_, _, _, _, _), CallPart(argumentsPart, _)) =>
      Some(target.(arguments := Append(target.arguments, argumentsPart)))
    case _ => None
  }

  lemma MergedTokens(target: Part, source: Part)
    requires IsContent(target) && Merged(target, source).Some?
    ensures PartTokens(Merged(target, source).value) == PartTokens(target) + PartTokens(source)
  {
  }

  // One call extended by a delta.
  function Extended(calls: seq<ToolCall>, n: nat, delta: Part): seq<ToolCall>
    requires n < |calls| && delta.CallPart?
  {
    calls[n := calls[n].(arguments := Append(calls[n].arguments, delta.argumentsPart))]
  }

  // ---------- One more part ----------

  lemma SnocInit<T>(s: seq<T>, x: T)
    ensures Init(s + [x]) == s && Last(s + [x]) == x
  {
  }

  lemma FragmentsBeyond(s: seq<Part>, n: nat)
    requires |Headers(s)| <= n
    ensures Fragments(s, n) == []
  {
  }

  // A header joins the calls without arguments of its own stream position being touched.
  lemma CallsSnocHeader(s: seq<Part>, header: Part)
    requires header.Call?
    ensures Calls(s + [header])
            == Calls(s) + [ToolCall(header.id, header.name, header.arguments, header.extras)]
  {
    SnocInit(s, header);
    FragmentsBeyond(s, |Headers(s)|);
  }

  // A delta extends the arguments of its owner and of no other call.
  lemma CallsSnocDelta(s: seq<Part>, delta: Part)
    requires delta.CallPart?
    ensures Calls(s + [delta]) ==
            match Owner(s, delta)
            case None => Calls(s)
            case Some(n) =>
              Extended(Calls(s), n, delta)
  {
    SnocInit(s, delta);
    forall n | 0 <= n < |Headers(s)|
      ensures Joined(Headers(s)[n].arguments, Fragments(s + [delta], n))
              == if Owner(s, delta) == Some(n) then Append(Calls(s)[n].arguments, delta.argumentsPart)
                 else Calls(s)[n].arguments
    {
      if Owner(s, delta) == Some(n) && delta.argumentsPart.Some? {
        JoinedSnoc(Headers(s)[n].arguments, Fragments(s, n), delta.argumentsPart.value);
      }
    }
  }

  lemma CallsSnocContent(s: seq<Part>, part: Part)
    requires IsContent(part)
    ensures Calls(s + [part]) == Calls(s)
  {
    SnocInit(s, part);
  }

  // ---------- The assembler's state ----------

  datatype State = State(pendingPart: Option<Part>, content: seq<Part>, toolCalls: seq<ToolCall>,
                         toolCallIndexMap: map<Index, nat>)

  const EMPTY := State(None, [], [], map[])

  function Stored(part: Part): ToolCall
    requires part.Call?
  {
    ToolCall(part.id, part.name, part.arguments, part.extras)
  }

  // True when the pending part is a call with this index.
  predicate IsPendingToolCallAtIndex(pending: Option<Part>, index: Index) {
    pending.Some? && pending.value.Call? && pending.value.streamIndex == Some(index)
  }

  // Content and calls are stored, an orphaned delta is dropped.
  function Flushed(st: State, part: Part): State {
    if IsContent(part) then st.(content := st.content + [part])
    else if part.Call? then
      st.(toolCalls := st.toolCalls + [Stored(part)],
          toolCallIndexMap := if part.streamIndex.Some? then st.toolCallIndexMap[part.streamIndex.value := |st.toolCalls|]
                              else st.toolCallIndexMap)
    else st
  }

  predicate Routes(st: State, part: Part) {
    && part.CallPart? && part.index.Some?
    && !IsPendingToolCallAtIndex(st.pendingPart, part.index.value)
    && part.index.value in st.toolCallIndexMap
  }

  // One round of the loop: an indexed delta goes to its stored call; any other part is merged into the
  // pending one, or that is flushed and the part becomes pending.
  function Next(st: State, part: Part): State {
    if Routes(st, part) then
      var n := st.toolCallIndexMap[part.index.value];
      if n < |st.toolCalls| then
        st.(toolCalls := Extended(st.toolCalls, n, part))
      else st
    else if st.pendingPart.None? then st.(pendingPart := Some(part))
    else
      var merged := Merged(st.pendingPart.value, part);
      if merged.Some? then st.(pendingPart := merged)
      else Flushed(st, st.pendingPart.value).(pendingPart := Some(part))
  }

  // The content and the calls if the pending part were flushed now.
  function Content(st: State): seq<Part> {
    if st.pendingPart.Some? then Flushed(st, st.pendingPart.value).content else st.content
  }

  function ToolCalls(st: State): seq<ToolCall> {
    if st.pendingPart.Some? then Flushed(st, st.pendingPart.value).toolCalls else st.toolCalls
  }

  // ---------- What the state means ----------

  predicate HoldsCall(st: State) {
    st.pendingPart.Some? && st.pendingPart.value.Call?
  }

  // The map gives the latest stored call with this index; a pending call is not stored yet.
  predicate MapsIndex(st: State, i: Index, latest: Option<nat>) {
    || IsPendingToolCallAtIndex(st.pendingPart, i)
    || latest == if i in st.toolCallIndexMap then Some(st.toolCallIndexMap[i]) else None
  }

  // A call is pending exactly while nothing but deltas came since its header.
  ghost predicate RoutingInv(st: State, s: seq<Part>) {
    && (EndsInCall(s) <==> HoldsCall(st))
    && (HoldsCall(st) ==> st.pendingPart.value.streamIndex == Last(Headers(s)).streamIndex)
    && (forall i: Index :: MapsIndex(st, i, Latest(s, i)))
  }

  ghost predicate Means(st: State, s: seq<Part>) {
    Carries(Content(st), s) && RoutingInv(st, s) && ToolCalls(st) == Calls(s)
  }

  lemma EmptyMeans()
    ensures Means(EMPTY, [])
  {
  }

  lemma PendingIsLatest(st: State, s: seq<Part>, i: Index)
    requires Means(st, s) && IsPendingToolCallAtIndex(st.pendingPart, i)
    ensures Latest(s, i) == Some(|Headers(s)| - 1)
  {
    LastHeaderIsLatest(s, i);
  }

  lemma {:induction false} LastHeaderIsLatest(s: seq<Part>, i: Index)
    requires Headers(s) != [] && Last(Headers(s)).streamIndex == Some(i)
    ensures Latest(s, i) == Some(|Headers(s)| - 1)
  {
    if !Last(s).Call? {
      LastHeaderIsLatest(Init(s), i);
    }
  }

  // How a round changes the calls, whatever the calls mean.
  lemma NextToolCalls(st: State, part: Part)
    ensures part.Call? ==> ToolCalls(Next(st, part)) == ToolCalls(st) + [Stored(part)]
    ensures IsContent(part) ==> ToolCalls(Next(st, part)) == ToolCalls(st)
  {
  }

  lemma NextExtends(st: State, delta: Part)
    requires delta.CallPart?
    ensures Routes(st, delta) && st.toolCallIndexMap[delta.index.value] < |st.toolCalls| ==>
              ToolCalls(Next(st, delta)) == Extended(ToolCalls(st), st.toolCallIndexMap[delta.index.value], delta)
    ensures !Routes(st, delta) ==>
              ToolCalls(Next(st, delta)) ==
              if HoldsCall(st) then Extended(ToolCalls(st), |ToolCalls(st)| - 1, delta) else ToolCalls(st)
  {
  }

  lemma RoutedToStored(st: State, s: seq<Part>, delta: Part)
    requires Means(st, s) && Routes(st, delta)
    ensures var n := st.toolCallIndexMap[delta.index.value]; Owner(s, delta) == Some(n) && n < |st.toolCalls|
  {
    var n := st.toolCallIndexMap[delta.index.value];
    assert Latest(s, delta.index.value) == Some(n);
    assert |ToolCalls(st)| == |Headers(s)|;
    if HoldsCall(st) {
      assert Headers(s)[n].streamIndex != Last(Headers(s)).streamIndex;
    }
  }

  lemma UnroutedToPending(st: State, s: seq<Part>, delta: Part)
    requires Means(st, s) && delta.CallPart? && !Routes(st, delta)
    ensures Owner(s, delta) == if HoldsCall(st) then Some(|Headers(s)| - 1) else None
  {
    if delta.index.Some? {
      if IsPendingToolCallAtIndex(st.pendingPart, delta.index.value) {
        PendingIsLatest(st, s, delta.index.value);
      } else {
        assert MapsIndex(st, delta.index.value, Latest(s, delta.index.value));
      }
    }
  }

  lemma NextCalls(st: State, s: seq<Part>, part: Part)
    requires Means(st, s)
    ensures ToolCalls(Next(st, part)) == Calls(s + [part])
  {
    NextToolCalls(st, part);
    if part.Call? {
      CallsSnocHeader(s, part);
    } else if IsContent(part) {
      CallsSnocContent(s, part);
    } else {
      CallsSnocDelta(s, part);
      NextExtends(st, part);
      if Routes(st, part) {
        RoutedToStored(st, s, part);
      } else {
        UnroutedToPending(st, s, part);
      }
    }
  }

  lemma CallSnoc(s: seq<Part>, part: Part)
    ensures EndsInCall(s + [part]) <==> part.Call? || (part.CallPart? && EndsInCall(s))
    ensures Headers(s + [part]) == if part.Call? then Headers(s) + [part] else Headers(s)
  {
    SnocInit(s, part);
  }

  lemma LatestSnoc(s: seq<Part>, part: Part, i: Index)
    ensures Latest(s + [part], i) ==
            if part.Call? && part.streamIndex == Some(i) then Some(|Headers(s)|) else Latest(s, i)
  {
    SnocInit(s, part);
  }

  // How a round changes what the map says of one index.
  lemma NextMaps(st: State, part: Part, i: Index, latest: Option<nat>)
    requires MapsIndex(st, i, latest)
    requires IsPendingToolCallAtIndex(st.pendingPart, i) ==> latest == Some(|st.toolCalls|)
    ensures MapsIndex(Next(st, part), i, latest)
  {
  }

  lemma NewHeaderIsPending(st: State, part: Part, i: Index, latest: Option<nat>)
    requires part.Call? && part.streamIndex == Some(i)
    ensures MapsIndex(Next(st, part), i, latest)
  {
  }

  lemma PendingIsNext(st: State, s: seq<Part>, i: Index)
    requires Means(st, s) && IsPendingToolCallAtIndex(st.pendingPart, i)
    ensures Latest(s, i) == Some(|st.toolCalls|)
  {
    PendingIsLatest(st, s, i);
    assert |ToolCalls(st)| == |Headers(s)|;
  }

  lemma NextRoutesIndex(st: State, s: seq<Part>, part: Part, i: Index)
    requires Means(st, s)
    ensures MapsIndex(Next(st, part), i, Latest(s + [part], i))
  {
    LatestSnoc(s, part, i);
    if part.Call? && part.streamIndex == Some(i) {
      NewHeaderIsPending(st, part, i, Latest(s + [part], i));
    } else {
      if IsPendingToolCallAtIndex(st.pendingPart, i) {
        PendingIsNext(st, s, i);
      }
      NextMaps(st, part, i, Latest(s, i));
    }
  }

  lemma NextHolds(st: State, part: Part)
    ensures HoldsCall(Next(st, part)) <==> part.Call? || (part.CallPart? && HoldsCall(st))
    ensures part.Call? ==> Next(st, part).pendingPart == Some(part)
    ensures part.CallPart? && HoldsCall(st) ==>
              Next(st, part).pendingPart.value.streamIndex == st.pendingPart.value.streamIndex
  {
  }

  lemma NextRouting(st: State, s: seq<Part>, part: Part)
    requires Means(st, s)
    ensures RoutingInv(Next(st, part), s + [part])
  {
    CallSnoc(s, part);
    NextHolds(st, part);
    forall i: Index ensures MapsIndex(Next(st, part), i, Latest(s + [part], i)) {
      NextRoutesIndex(st, s, part, i);
    }
  }

  lemma TokensSnoc(s: seq<Part>, part: Part)
    ensures Tokens(s + [part]) == Tokens(s) + (if IsContent(part) then PartTokens(part) else [])
    ensures Contents(s + [part]) == Contents(s) + (if IsContent(part) then [part] else [])
    ensures HasThink(s + [part]) <==> HasThink(s) || part.Think?
  {
    SnocInit(s, part);
    assert part in s + [part];
    assert forall p <- s :: p in s + [part];
  }

  lemma NextContentShape(st: State, part: Part)
    ensures var c, c' := Content(st), Content(Next(st, part));
      if !IsContent(part) then c' == c
      else
        || c' == c + [part]
        || (c != [] && Merged(Last(c), part).Some? && IsContent(Last(c))
            && c' == Init(c) + [Merged(Last(c), part).value])
  {
  }

  lemma Reassociate<T>(a: seq<T>, b: seq<T>, c: seq<T>)
    ensures a + (b + c) == a + b + c
  {
  }

  lemma MergeKeepsTokens(init: seq<Part>, last: Part, part: Part)
    requires IsContent(last) && IsContent(part) && Merged(last, part).Some?
    ensures Tokens(init + [Merged(last, part).value]) == Tokens(init + [last]) + PartTokens(part)
  {
    var merged := Merged(last, part).value;
    TokensSnoc(init, last);
    TokensSnoc(init, merged);
    MergedTokens(last, part);
    Reassociate(Tokens(init), PartTokens(last), PartTokens(part));
  }

  lemma MergeKeepsMeaning(c: seq<Part>, part: Part)
    requires c != [] && IsContent(part) && IsContent(Last(c)) && Merged(Last(c), part).Some?
    ensures var c' := Init(c) + [Merged(Last(c), part).value];
      Tokens(c') == Tokens(c) + PartTokens(part) && (HasThink(c') <==> HasThink(c) || part.Think?)
  {
    assert c == Init(c) + [Last(c)];
    MergeKeepsTokens(Init(c), Last(c), part);
    TokensSnoc(Init(c), Last(c));
    TokensSnoc(Init(c), Merged(Last(c), part).value);
  }

  // Content that means the stream, after one more content part was appended or merged.
  ghost predicate Carries(content: seq<Part>, s: seq<Part>) {
    && (forall part <- content :: IsContent(part))
    && (content == [] <==> Contents(s) == [])
    && (HasThink(content) <==> HasThink(s))
    && Tokens(content) == Tokens(s)
  }

  lemma CarriesDelta(content: seq<Part>, s: seq<Part>, part: Part)
    requires Carries(content, s) && !IsContent(part)
    ensures Carries(content, s + [part])
  {
    TokensSnoc(s, part);
  }

  lemma CarriesAppended(content: seq<Part>, s: seq<Part>, part: Part)
    requires Carries(content, s) && IsContent(part)
    ensures Carries(content + [part], s + [part])
  {
    TokensSnoc(s, part);
    TokensSnoc(content, part);
  }

  lemma CarriesMerged(content: seq<Part>, s: seq<Part>, part: Part)
    requires Carries(content, s) && IsContent(part)
    requires content != [] && Merged(Last(content), part).Some?
    ensures Carries(Init(content) + [Merged(Last(content), part).value], s + [part])
  {
    TokensSnoc(s, part);
    MergeKeepsMeaning(content, part);
  }

  lemma NextContent(st: State, s: seq<Part>, part: Part)
    requires Means(st, s)
    ensures Carries(Content(Next(st, part)), s + [part])
  {
    var c := Content(st);
    NextContentShape(st, part);
    if !IsContent(part) {
      CarriesDelta(c, s, part);
    } else {
      CarriesAppended(c, s, part);
      if c != [] && Merged(Last(c), part).Some? {
        CarriesMerged(c, s, part);
      }
    }
  }

  lemma NextMeans(st: State, s: seq<Part>, part: Part)
    requires Means(st, s)
    ensures Means(Next(st, part), s + [part])
  {
    NextContent(st, s, part);
    NextRouting(st, s, part);
    NextCalls(st, s, part);
  }

  // ---------- Streams whose deltas are all indexed ----------

  // Headers carry distinct indexes and each delta follows the header with its index.
  predicate WellIndexed(s: seq<Part>) {
    s == []
    || (&& WellIndexed(Init(s))
        && (Last(s).Call? ==> Last(s).streamIndex.Some? && Latest(Init(s), Last(s).streamIndex.value) == None)
        && (Last(s).CallPart? ==> Last(s).index.Some? && Latest(Init(s), Last(s).index.value).Some?))
  }

  // The fragments that carry an index, in order.
  function Indexed(s: seq<Part>, i: Index): seq<string> {
    if s == [] then []
    else if Last(s).CallPart? && Last(s).index == Some(i) && Last(s).argumentsPart.Some? then
      Indexed(Init(s), i) + [Last(s).argumentsPart.value]
    else Indexed(Init(s), i)
  }

  lemma {:induction false} LatestIsTheOnlyOne(s: seq<Part>, n: nat)
    requires WellIndexed(s) && n < |Headers(s)|
    ensures Headers(s)[n].streamIndex.Some? && Latest(s, Headers(s)[n].streamIndex.value) == Some(n)
  {
    if !(Last(s).Call? && n == |Headers(s)| - 1) {
      LatestIsTheOnlyOne(Init(s), n);
    }
  }

  lemma {:induction false} NoFragmentsBeforeHeader(s: seq<Part>, i: Index)
    requires WellIndexed(s) && Latest(s, i) == None
    ensures Indexed(s, i) == []
  {
    if s != [] {
      NoFragmentsBeforeHeader(Init(s), i);
    }
  }

  // Each call gets exactly the fragments that carry its own index.
  lemma {:induction false} FragmentsByIndex(s: seq<Part>, n: nat)
    requires WellIndexed(s) && n < |Headers(s)|
    ensures Headers(s)[n].streamIndex.Some? && Fragments(s, n) == Indexed(s, Headers(s)[n].streamIndex.value)
  {
    LatestIsTheOnlyOne(s, n);
    if Last(s).Call? && n == |Headers(s)| - 1 {
      NoFragmentsBeforeHeader(Init(s), Last(s).streamIndex.value);
      FragmentsBeyond(Init(s), n);
    } else {
      FragmentsByIndex(Init(s), n);
      LatestIsTheOnlyOne(Init(s), n);
      if Last(s).CallPart? {
        LatestIsTheOnlyOne(Init(s), Latest(Init(s), Last(s).index.value).value);
      }
    }
  }

  // So any interleaving that keeps the headers' order and each index's own order gives the same calls.
  lemma InterleavingDoesNotMatter(s: seq<Part>, t: seq<Part>)
    requires WellIndexed(s) && WellIndexed(t) && Headers(s) == Headers(t)
    requires forall i: Index :: Indexed(s, i) == Indexed(t, i)
    ensures Calls(s) == Calls(t)
  {
    forall n: nat | n < |Headers(s)| ensures Fragments(s, n) == Fragments(t, n) {
      FragmentsByIndex(s, n);
      FragmentsByIndex(t, n);
      var i := Headers(s)[n].streamIndex.value;
      assert Indexed(s, i) == Indexed(t, i);
    }
  }

  // ---------- Deltas without an index ----------

  // Such a delta is said to go to the most recently seen call.  It does exactly when nothing but
  // deltas came since that call's header.
  lemma {:induction false} UnindexedDeltaFollowsLatestCall(before: seq<Part>, part: Option<string>)
    requires Headers(before) != []
    ensures Owner(before, CallPart(part, None)) == Some(|Headers(before)| - 1) <==> OnlyDeltasSinceCall(before)
  {
    EndsInCallMeans(before);
  }

  predicate OnlyDeltasSinceCall(s: seq<Part>) {
    exists k :: 0 <= k < |s| && s[k].Call? && DeltasAfter(s, k)
  }

  predicate DeltasAfter(s: seq<Part>, k: nat) {
    forall j | k < j < |s| :: s[j].CallPart?
  }

  lemma {:induction false} EndsInCallMeans(s: seq<Part>)
    ensures EndsInCall(s) <==> OnlyDeltasSinceCall(s)
  {
    if s != [] {
      var n := |s| - 1;
      EndsInCallMeans(Init(s));
      if s[n].Call? {
        assert DeltasAfter(s, n);
      } else if s[n].CallPart? {
        forall k | 0 <= k < n ensures DeltasAfter(s, k) <==> DeltasAfter(Init(s), k) {
        }
        assert OnlyDeltasSinceCall(s) <==> OnlyDeltasSinceCall(Init(s));
      } else {
        assert forall k | 0 <= k < n :: !DeltasAfter(s, k);
      }
    }
  }

  // Otherwise it is lost: any content after the header is enough.
  lemma UnindexedDeltaIsLostAfterContent(before: seq<Part>, content: Part, part: Option<string>)
    requires IsContent(content)
    ensures Calls(before + [content] + [CallPart(part, None)]) == Calls(before)
  {
    SnocInit(before, content);
    assert !EndsInCall(before + [content]);
    CallsSnocContent(before, content);
    CallsSnocDelta(before + [content], CallPart(part, None));
  }

  // ---------- Owners by position ----------

  // The position of a call among the calls: how many headers come before it.
  function Ordinal(s: seq<Part>, k: nat): nat
    requires k < |s|
  {
    |Headers(s[..k])|
  }

  predicate NoLaterHeader(s: seq<Part>, i: Index, k: nat) {
    forall j | k < j < |s| :: !(s[j].Call? && s[j].streamIndex == Some(i))
  }

  predicate NoHeader(s: seq<Part>, i: Index) {
    forall part <- s :: !(part.Call? && part.streamIndex == Some(i))
  }

  lemma {:induction false} HeadersGrow(s: seq<Part>, k: nat)
    requires k <= |s|
    ensures Headers(s[..k]) <= Headers(s)
  {
    if k < |s| {
      HeadersGrow(Init(s), k);
      assert Init(s)[..k] == s[..k];
    } else {
      assert s[..k] == s;
    }
  }

  lemma OrdinalInHeaders(s: seq<Part>, k: nat)
    requires k < |s| && s[k].Call?
    ensures Ordinal(s, k) < |Headers(s)| && Headers(s)[Ordinal(s, k)] == s[k]
  {
    HeadersGrow(s, k + 1);
    assert s[..k + 1] == s[..k] + [s[k]];
    SnocInit(s[..k], s[k]);
  }

  // The k-th part is the last header with this index.
  predicate LastHeaderAt(s: seq<Part>, i: Index, k: nat) {
    k < |s| && s[k].Call? && s[k].streamIndex == Some(i) && NoLaterHeader(s, i, k)
  }

  lemma LastHeaderLater(s: seq<Part>, part: Part, i: Index, k: nat)
    requires LastHeaderAt(s, i, k) && !(part.Call? && part.streamIndex == Some(i))
    ensures LastHeaderAt(s + [part], i, k) && Ordinal(s + [part], k) == Ordinal(s, k)
  {
    assert (s + [part])[..k] == s[..k];
  }

  lemma {:induction false} LatestByPosition(s: seq<Part>, i: Index)
    ensures Latest(s, i) == None ==> NoHeader(s, i)
    ensures Latest(s, i).Some? ==> exists k: nat :: LastHeaderAt(s, i, k) && Latest(s, i) == Some(Ordinal(s, k))
  {
    if s != [] {
      var n := |s| - 1;
      assert s == Init(s) + [Last(s)];
      if Last(s).Call? && Last(s).streamIndex == Some(i) {
        assert s[..n] == Init(s);
        assert LastHeaderAt(s, i, n) && Latest(s, i) == Some(Ordinal(s, n));
      } else {
        LatestByPosition(Init(s), i);
        if Latest(s, i).Some? {
          var k: nat :| LastHeaderAt(Init(s), i, k) && Latest(s, i) == Some(Ordinal(Init(s), k));
          LastHeaderLater(Init(s), Last(s), i, k);
        }
      }
    }
  }

  lemma EndByPosition(s: seq<Part>, k: nat)
    requires k < |s| && s[k].Call? && DeltasAfter(s, k)
    ensures EndsInCall(s) && Ordinal(s, k) == |Headers(s)| - 1
  {
    EndsInCallMeans(s);
    NoHeadersAfter(s, k);
  }

  lemma {:induction false} NoHeadersAfter(s: seq<Part>, k: nat)
    requires k < |s| && s[k].Call? && DeltasAfter(s, k)
    ensures Ordinal(s, k) == |Headers(s)| - 1
  {
    if k < |s| - 1 {
      NoHeadersAfter(Init(s), k);
      assert Init(s)[..k] == s[..k];
      assert s[|s| - 1].CallPart?;
    } else {
      assert s[..k] == Init(s);
    }
  }

  // What a delta's owner is, told by positions: the last header with its index; or, when it has none or
  // no header has it, the header after which only deltas came.
  predicate Owns(s: seq<Part>, k: nat, delta: Part)
    requires k < |s| && delta.CallPart?
  {
    && s[k].Call?
    && if delta.index.Some? && !NoHeader(s, delta.index.value) then
         s[k].streamIndex == delta.index && NoLaterHeader(s, delta.index.value, k)
       else DeltasAfter(s, k)
  }

  lemma OwnsOne(s: seq<Part>, j: nat, k: nat, delta: Part)
    requires j < |s| && k < |s| && delta.CallPart? && Owns(s, j, delta) && Owns(s, k, delta)
    ensures j == k
  {
  }

  lemma OwnerIsSome(s: seq<Part>, delta: Part)
    requires delta.CallPart? && Owner(s, delta).Some?
    ensures exists k: nat :: k < |s| && Owns(s, k, delta) && Owner(s, delta) == Some(Ordinal(s, k))
  {
    if delta.index.Some? {
      LatestByPosition(s, delta.index.value);
    }
    if delta.index.Some? && Latest(s, delta.index.value).Some? {
      var k: nat :| LastHeaderAt(s, delta.index.value, k) && Latest(s, delta.index.value) == Some(Ordinal(s, k));
      assert s[k] in s && Owns(s, k, delta);
    } else {
      EndsInCallMeans(s);
      var k: nat :| k < |s| && s[k].Call? && DeltasAfter(s, k);
      EndByPosition(s, k);
      assert Owns(s, k, delta);
    }
  }

  lemma OwnsIsOwner(s: seq<Part>, k: nat, delta: Part)
    requires k < |s| && delta.CallPart? && Owns(s, k, delta)
    ensures Owner(s, delta).Some?
  {
    if delta.index.Some? {
      LatestByPosition(s, delta.index.value);
    }
    if DeltasAfter(s, k) {
      EndByPosition(s, k);
    }
  }

  /** A delta goes to the call whose header owns it, and is lost when none does. */
  lemma OwnerByPosition(s: seq<Part>, delta: Part)
    requires delta.CallPart?
    ensures Owner(s, delta) == None <==> forall k: nat :: k < |s| ==> !Owns(s, k, delta)
    ensures forall k: nat :: k < |s| && Owns(s, k, delta) ==>
              Owner(s, delta) == Some(Ordinal(s, k)) && Headers(s)[Ordinal(s, k)] == s[k]
  {
    forall k: nat | k < |s| && Owns(s, k, delta)
      ensures Owner(s, delta) == Some(Ordinal(s, k)) && Headers(s)[Ordinal(s, k)] == s[k]
    {
      OrdinalInHeaders(s, k);
      OwnsIsOwner(s, k, delta);
      OwnerIsSome(s, delta);
      var j: nat :| j < |s| && Owns(s, j, delta) && Owner(s, delta) == Some(Ordinal(s, j));
      OwnsOne(s, j, k, delta);
    }
    if Owner(s, delta).Some? {
      OwnerIsSome(s, delta);
    }
  }

  // Fragments are put one after the other.
  lemma {:induction false} FlatOfSum(a: seq<string>, b: seq<string>)
    ensures Flat(a + b) == Flat(a) + Flat(b)
    ensures |a| == 1 ==> Flat(a) == a[0]
  {
    if b == [] {
      assert a + b == a && Flat(a) + "" == Flat(a);
    } else {
      FlatOfSum(a, Init(b));
      assert Init(a + b) == a + Init(b) && Last(a + b) == Last(b);
      Reassociate(Flat(a), Flat(Init(b)), Last(b));
    }
    if |a| == 1 {
      FlatOfOne(a);
    }
  }

  lemma FlatOfOne(a: seq<string>)
    requires |a| == 1
    ensures Flat(a) == a[0]
  {
    assert Init(a) == [] && "" + a[0] == a[0];
  }
}
