/** Where the assembler cuts the content: which content parts of a stream end up in one part. */
module StreamBlocks {
  import opened Options
  import opened StreamAssembly

  // ---------- What the stream says ----------

  // The k-th part is a delta that belongs to a call.
  predicate Owned(s: seq<Part>, k: nat)
    requires k < |s|
  {
    s[k].CallPart? && Owner(s[..k], s[k]).Some?
  }

  // Every part strictly between these two is a delta that belongs to a call.
  predicate OnlyOwnedDeltas(s: seq<Part>, i: nat, j: nat)
    requires j <= |s|
  {
    forall k :: i < k < j ==> Owned(s, k)
  }

  // Parts of one kind that may be put together: after a signature no more reasoning joins.
  predicate OneKind(a: Part, b: Part) {
    (a.Text? && b.Text?) || (a.Think? && b.Think? && a.encrypted.None?)
  }

  // The content part before j, if any, is the i-th part.
  predicate Neighbours(s: seq<Part>, i: nat, j: nat) {
    i < j < |s| && IsContent(s[i]) && IsContent(s[j]) && forall k :: i < k < j ==> !IsContent(s[k])
  }

  // Two neighbouring content parts go together.
  predicate Together(s: seq<Part>, i: nat, j: nat)
    requires Neighbours(s, i, j)
  {
    OneKind(s[i], s[j]) && OnlyOwnedDeltas(s, i, j)
  }

  // A placement of a stream's content parts into so many blocks: the first in the first, each next one
  // in the same block as the one before just when the two go together, and the last in the last.
  predicate Placement(s: seq<Part>, place: seq<nat>, blocks: nat) {
    && |place| == |s|
    && (forall j :: 0 <= j < |s| && IsContent(s[j]) ==> place[j] < blocks)
    && (forall j :: 0 <= j < |s| && IsContent(s[j]) && (forall k :: 0 <= k < j ==> !IsContent(s[k])) ==> place[j] == 0)
    && (forall i, j :: 0 <= i < |s| && 0 <= j < |s| && Neighbours(s, i, j) ==>
          place[j] == place[i] + if Together(s, i, j) then 0 else 1)
    && (if Contents(s) == [] then blocks == 0
        else exists j :: 0 <= j < |s| && IsContent(s[j]) && place[j] + 1 == blocks)
  }

  // The content parts placed in block b, in order.
  function Pieces(s: seq<Part>, place: seq<nat>, b: nat): seq<Part>
    requires |place| == |s|
  {
    if s == [] then []
    else
      Pieces(Init(s), Init(place), b) + if IsContent(Last(s)) && Last(place) == b then [Last(s)] else []
  }

  function Texts(pieces: seq<Part>): string {
    if pieces == [] then ""
    else
      Texts(Init(pieces))
      + (if Last(pieces).Text? then Last(pieces).text else if Last(pieces).Think? then Last(pieces).think else "")
  }

  // A part is what its pieces make: all text, all reasoning up to its signature, or one piece of media.
  predicate MadeOf(part: Part, pieces: seq<Part>) {
    && pieces != []
    && match part
       case Text(text) => text == Texts(pieces) && forall piece <- pieces :: piece.Text?
       case Think(think, encrypted) =>
         think == Texts(pieces) && (forall piece <- pieces :: piece.Think?) && encrypted == Last(pieces).encrypted
       case Media(_, _, _) => pieces == [part]
       case _ => false
  }

  // Each part of the content is made of the pieces placed there.
  predicate PutAt(content: seq<Part>, s: seq<Part>, place: seq<nat>) {
    && Placement(s, place, |content|)
    && forall b :: 0 <= b < |content| ==> MadeOf(content[b], Pieces(s, place, b))
  }

  /** The content is the stream's content parts, put together block by block. */
  ghost predicate PutTogether(content: seq<Part>, s: seq<Part>) {
    exists place :: PutAt(content, s, place)
  }

  // ---------- The placement, part by part ----------

  // The last content part, while only owned deltas have followed it.
  function OpenAt(s: seq<Part>): (open_: Option<nat>)
    ensures open_.Some? ==> open_.value < |s| && IsContent(s[open_.value])
  {
    if s == [] then None
    else if IsContent(Last(s)) then Some(|s| - 1)
    else if Last(s).CallPart? && Owner(Init(s), Last(s)).Some? then OpenAt(Init(s))
    else None
  }

  lemma OwnedInPrefix(s: seq<Part>, i: nat, j: nat)
    requires j <= |s|
    ensures OnlyOwnedDeltas(s[..j], i, j) <==> OnlyOwnedDeltas(s, i, j)
  {
    forall k | 0 <= k < j ensures Owned(s[..j], k) <==> Owned(s, k) {
      assert s[..j][..k] == s[..k];
    }
  }

  lemma OwnedToTheEnd(s: seq<Part>, i: nat)
    requires i < |s| - 1
    ensures OnlyOwnedDeltas(s, i, |s|) <==>
            OnlyOwnedDeltas(Init(s), i, |s| - 1) && Last(s).CallPart? && Owner(Init(s), Last(s)).Some?
  {
    OwnedInPrefix(s, i, |s| - 1);
    assert Owned(s, |s| - 1) <==> Last(s).CallPart? && Owner(Init(s), Last(s)).Some?;
    assert OnlyOwnedDeltas(s, i, |s|) <==> OnlyOwnedDeltas(s, i, |s| - 1) && Owned(s, |s| - 1);
  }

  lemma {:induction false} OpenAtIsLast(s: seq<Part>, i: nat)
    requires i < |s| && IsContent(s[i]) && (forall k :: i < k < |s| ==> !IsContent(s[k]))
    ensures OnlyOwnedDeltas(s, i, |s|) <==> OpenAt(s) == Some(i)
    ensures OpenAt(s).Some? ==> OpenAt(s) == Some(i)
  {
    if i < |s| - 1 {
      OpenAtIsLast(Init(s), i);
      OwnedToTheEnd(s, i);
      assert !IsContent(Last(s));
    }
  }

  // A content part joins the block before it.
  predicate Joins(s: seq<Part>, part: Part) {
    IsContent(part) && OpenAt(s).Some? && OneKind(s[OpenAt(s).value], part)
  }

  function Blocks(s: seq<Part>): (blocks: nat)
    ensures OpenAt(s).Some? ==> blocks > 0
  {
    if s == [] then 0
    else Blocks(Init(s)) + if IsContent(Last(s)) && !Joins(Init(s), Last(s)) then 1 else 0
  }

  lemma BlocksSnoc(s: seq<Part>, part: Part)
    ensures Blocks(s + [part]) == Blocks(s) + if IsContent(part) && !Joins(s, part) then 1 else 0
  {
    SnocInit(s, part);
  }

  lemma BlocksUpTo(s: seq<Part>, j: nat)
    requires j < |s| && IsContent(s[j])
    ensures Blocks(s[..j + 1]) == Blocks(s[..j]) + if Joins(s[..j], s[j]) then 0 else 1
  {
    assert s[..j + 1] == s[..j] + [s[j]];
    BlocksSnoc(s[..j], s[j]);
  }

  // Each content part in the block that is the last one when it comes.
  function Places(s: seq<Part>): (place: seq<nat>)
    ensures |place| == |s|
  {
    if s == [] then [] else Places(Init(s)) + [if IsContent(Last(s)) then Blocks(s) - 1 else 0]
  }

  lemma {:induction false} PlacesAt(s: seq<Part>, j: nat)
    requires j < |s| && IsContent(s[j])
    ensures Places(s)[j] == Blocks(s[..j + 1]) - 1
  {
    if j < |s| - 1 {
      PlacesAt(Init(s), j);
      assert Init(s)[..j + 1] == s[..j + 1];
    } else {
      assert s[..j + 1] == s;
    }
  }

  lemma {:induction false} BlocksWithoutContent(s: seq<Part>, i: nat)
    requires i <= |s| && forall k :: i <= k < |s| ==> !IsContent(s[k])
    ensures Blocks(s) == Blocks(s[..i])
  {
    if i < |s| {
      BlocksWithoutContent(Init(s), i);
      assert Init(s)[..i] == s[..i];
    } else {
      assert s[..i] == s;
    }
  }

  lemma {:induction false} OpenNeedsContent(s: seq<Part>)
    requires forall k :: 0 <= k < |s| ==> !IsContent(s[k])
    ensures OpenAt(s) == None && Blocks(s) == 0
  {
    if s != [] {
      OpenNeedsContent(Init(s));
    }
  }

  lemma FirstPlace(s: seq<Part>, j: nat)
    requires j < |s| && IsContent(s[j]) && forall k :: 0 <= k < j ==> !IsContent(s[k])
    ensures Places(s)[j] == 0
  {
    PlacesAt(s, j);
    assert Init(s[..j + 1]) == s[..j];
    OpenNeedsContent(s[..j]);
  }

  // What the parts before the next content part say.
  lemma BeforeNext(s: seq<Part>, i: nat, j: nat)
    requires Neighbours(s, i, j)
    ensures Blocks(s[..j]) == Blocks(s[..i + 1])
    ensures Joins(s[..j], s[j]) <==> Together(s, i, j)
  {
    var before := s[..j];
    assert before[..i + 1] == s[..i + 1];
    BlocksWithoutContent(before, i + 1);
    OpenAtIsLast(before, i);
    OwnedInPrefix(s, i, j);
  }

  lemma NextPlace(s: seq<Part>, i: nat, j: nat)
    requires Neighbours(s, i, j)
    ensures Places(s)[j] == Places(s)[i] + if Together(s, i, j) then 0 else 1
  {
    PlacesAt(s, i);
    PlacesAt(s, j);
    BeforeNext(s, i, j);
    BlocksUpTo(s, j);
  }

  lemma {:induction false} LastPlace(s: seq<Part>)
    ensures Contents(s) == [] ==> Blocks(s) == 0
    ensures Contents(s) != [] ==> exists j :: 0 <= j < |s| && IsContent(s[j]) && Places(s)[j] + 1 == Blocks(s)
    ensures forall j :: 0 <= j < |s| && IsContent(s[j]) ==> Places(s)[j] < Blocks(s)
  {
    if s != [] {
      LastPlace(Init(s));
      if IsContent(Last(s)) {
        assert Places(s)[|s| - 1] + 1 == Blocks(s);
      } else if Contents(s) != [] {
        var j :| 0 <= j < |s| - 1 && IsContent(Init(s)[j]) && Places(Init(s))[j] + 1 == Blocks(Init(s));
        assert IsContent(s[j]) && Places(s)[j] + 1 == Blocks(s);
      }
    }
  }

  lemma PlacesArePlacement(s: seq<Part>)
    ensures Placement(s, Places(s), Blocks(s))
  {
    LastPlace(s);
    forall j | 0 <= j < |s| && IsContent(s[j]) && (forall k :: 0 <= k < j ==> !IsContent(s[k]))
      ensures Places(s)[j] == 0
    {
      FirstPlace(s, j);
    }
    forall i, j | 0 <= i < |s| && 0 <= j < |s| && Neighbours(s, i, j)
      ensures Places(s)[j] == Places(s)[i] + if Together(s, i, j) then 0 else 1
    {
      NextPlace(s, i, j);
    }
  }

  // ---------- The blocks ----------

  function Grouping(s: seq<Part>): (groups: seq<seq<Part>>)
    ensures |groups| == Blocks(s)
  {
    if s == [] then []
    else
      var before := Grouping(Init(s));
      if !IsContent(Last(s)) then before
      else if Joins(Init(s), Last(s)) then Init(before) + [Last(before) + [Last(s)]]
      else before + [[Last(s)]]
  }

  lemma GroupingSnoc(s: seq<Part>, part: Part)
    ensures Grouping(s + [part]) ==
            if !IsContent(part) then Grouping(s)
            else if Joins(s, part) then Init(Grouping(s)) + [Last(Grouping(s)) + [part]]
            else Grouping(s) + [[part]]
  {
    SnocInit(s, part);
  }

  // A block is the pieces placed there.
  lemma {:induction false} GroupingIsPieces(s: seq<Part>, b: nat)
    ensures Pieces(s, Places(s), b) == if b < Blocks(s) then Grouping(s)[b] else []
  {
    if s != [] {
      GroupingIsPieces(Init(s), b);
      assert Init(Places(s)) == Places(Init(s));
      assert Last(Places(s)) == if IsContent(Last(s)) then Blocks(s) - 1 else 0;
    }
  }

  // While a content part is open it is the last piece of the last block.
  lemma {:induction false} OpenIsLastPiece(s: seq<Part>)
    requires OpenAt(s).Some?
    ensures Last(Grouping(s)) != [] && Last(Last(Grouping(s))) == s[OpenAt(s).value]
  {
    if !IsContent(Last(s)) {
      OpenIsLastPiece(Init(s));
    }
  }

  // ---------- The assembler builds the blocks ----------

  ghost predicate Built(content: seq<Part>, groups: seq<seq<Part>>) {
    |content| == |groups| && forall b :: 0 <= b < |groups| ==> MadeOf(content[b], groups[b])
  }

  lemma MadeOfOne(part: Part)
    requires IsContent(part)
    ensures MadeOf(part, [part])
  {
    assert Init([part]) == [];
    if part.Text? {
      assert Texts([part]) == "" + part.text == part.text;
    } else if part.Think? {
      assert Texts([part]) == "" + part.think == part.think;
    }
  }

  lemma MadeOfMore(part: Part, pieces: seq<Part>, more: Part)
    requires MadeOf(part, pieces) && IsContent(more)
    ensures Merged(part, more).Some? <==> OneKind(Last(pieces), more)
    ensures Merged(part, more).Some? ==> MadeOf(Merged(part, more).value, pieces + [more])
  {
    SnocInit(pieces, more);
    assert Last(pieces) in pieces;
  }

  lemma BuiltAnew(content: seq<Part>, groups: seq<seq<Part>>, part: Part)
    requires Built(content, groups) && IsContent(part)
    ensures Built(content + [part], groups + [[part]])
  {
    MadeOfOne(part);
  }

  lemma BuiltOn(content: seq<Part>, groups: seq<seq<Part>>, merged: Part, pieces: seq<Part>)
    requires Built(content, groups) && groups != [] && MadeOf(merged, pieces)
    ensures Built(Init(content) + [merged], Init(groups) + [pieces])
  {
  }

  predicate HoldsContent(st: State) {
    st.pendingPart.Some? && IsContent(st.pendingPart.value)
  }

  // The content so far is the blocks so far, and a content part is pending while one is open.
  ghost predicate Grouped(st: State, s: seq<Part>) {
    Built(Content(st), Grouping(s)) && (OpenAt(s).Some? <==> HoldsContent(st))
  }

  lemma OpenSnoc(s: seq<Part>, part: Part)
    ensures OpenAt(s + [part]).Some? <==>
            IsContent(part) || (part.CallPart? && Owner(s, part).Some? && OpenAt(s).Some?)
  {
    SnocInit(s, part);
  }

  // A pending content part stays pending while deltas go to stored calls.
  lemma NextHoldsContent(st: State, part: Part)
    ensures HoldsContent(Next(st, part)) <==> IsContent(part) || (Routes(st, part) && HoldsContent(st))
  {
  }

  lemma NextOpens(st: State, s: seq<Part>, part: Part)
    requires Means(st, s) && (OpenAt(s).Some? <==> HoldsContent(st))
    ensures OpenAt(s + [part]).Some? <==> HoldsContent(Next(st, part))
  {
    OpenSnoc(s, part);
    NextHoldsContent(st, part);
    if part.CallPart? && HoldsContent(st) {
      if Routes(st, part) {
        RoutedToStored(st, s, part);
      } else {
        UnroutedToPending(st, s, part);
      }
    }
  }

  // How a round changes the content.
  lemma NextGrows(st: State, part: Part)
    ensures !IsContent(part) ==> Content(Next(st, part)) == Content(st)
    ensures IsContent(part) && !(HoldsContent(st) && Merged(st.pendingPart.value, part).Some?) ==>
              Content(Next(st, part)) == Content(st) + [part]
    ensures IsContent(part) && HoldsContent(st) && Merged(st.pendingPart.value, part).Some? ==>
              Content(Next(st, part)) == Init(Content(st)) + [Merged(st.pendingPart.value, part).value]
    ensures HoldsContent(st) ==> Content(st) != [] && Last(Content(st)) == st.pendingPart.value
  {
  }

  // An open part takes the next one exactly when the stream says so.
  lemma MergesAsJoined(st: State, s: seq<Part>, part: Part)
    requires Grouped(st, s) && IsContent(part) && HoldsContent(st)
    ensures var pending := st.pendingPart.value;
      && (Joins(s, part) <==> Merged(pending, part).Some?)
      && (Joins(s, part) ==> MadeOf(Merged(pending, part).value, Last(Grouping(s)) + [part]))
  {
    NextGrows(st, part);
    OpenIsLastPiece(s);
    MadeOfMore(st.pendingPart.value, Last(Grouping(s)), part);
  }

  lemma NextGroups(st: State, s: seq<Part>, part: Part)
    requires Means(st, s) && Grouped(st, s)
    ensures Grouped(Next(st, part), s + [part])
  {
    NextOpens(st, s, part);
    NextGrows(st, part);
    GroupingSnoc(s, part);
    if IsContent(part) {
      if HoldsContent(st) {
        MergesAsJoined(st, s, part);
      }
      if Joins(s, part) {
        BuiltOn(Content(st), Grouping(s), Merged(st.pendingPart.value, part).value, Last(Grouping(s)) + [part]);
      } else {
        BuiltAnew(Content(st), Grouping(s), part);
      }
    }
  }

  lemma EmptyGroups()
    ensures Grouped(EMPTY, [])
  {
  }

  lemma GroupedIsPutTogether(st: State, s: seq<Part>)
    requires Grouped(st, s)
    ensures PutTogether(Content(st), s)
  {
    PlacesArePlacement(s);
    forall b | 0 <= b < Blocks(s) ensures MadeOf(Content(st)[b], Pieces(s, Places(s), b)) {
      GroupingIsPieces(s, b);
    }
    assert PutAt(Content(st), s, Places(s));
  }

  // ---------- Streams of text alone ----------

  lemma PlacedFirst(s: seq<Part>, place: seq<nat>, blocks: nat)
    requires s != [] && IsContent(s[0]) && Placement(s, place, blocks)
    ensures place[0] == 0
  {
  }

  lemma PlacedNext(s: seq<Part>, place: seq<nat>, blocks: nat, i: nat, j: nat)
    requires Neighbours(s, i, j) && Placement(s, place, blocks)
    ensures place[j] == place[i] + if Together(s, i, j) then 0 else 1
  {
  }

  lemma TextGoesTogether(s: seq<Part>, j: nat)
    requires 0 < j < |s| && s[j - 1].Text? && s[j].Text?
    ensures Neighbours(s, j - 1, j) && Together(s, j - 1, j)
  {
  }

  lemma {:induction false} TextIsInTheFirst(s: seq<Part>, place: seq<nat>, blocks: nat, j: nat)
    requires (forall part <- s :: part.Text?) && Placement(s, place, blocks) && j < |s|
    ensures place[j] == 0
  {
    if j == 0 {
      PlacedFirst(s, place, blocks);
    } else {
      TextIsInTheFirst(s, place, blocks, j - 1);
      TextGoesTogether(s, j);
      PlacedNext(s, place, blocks, j - 1, j);
    }
  }

  lemma TextIsOneBlock(s: seq<Part>, place: seq<nat>, blocks: nat)
    requires s != [] && (forall part <- s :: part.Text?) && Placement(s, place, blocks)
    ensures blocks == 1 && forall j :: 0 <= j < |s| ==> place[j] == 0
  {
    forall j | 0 <= j < |s| ensures place[j] == 0 {
      TextIsInTheFirst(s, place, blocks, j);
    }
    assert Last(s) in s;
    assert Contents(s) != [];
  }

  lemma {:induction false} AllPieces(s: seq<Part>, place: seq<nat>)
    requires |place| == |s| && (forall part <- s :: part.Text?) && forall j :: 0 <= j < |s| ==> place[j] == 0
    ensures Pieces(s, place, 0) == s
  {
    if s != [] {
      assert Last(s) in s && IsContent(Last(s));
      AllPieces(Init(s), Init(place));
      assert s == Init(s) + [Last(s)];
    }
  }

  lemma MadeOfText(part: Part, pieces: seq<Part>)
    requires MadeOf(part, pieces) && forall piece <- pieces :: piece.Text?
    ensures part == Text(Texts(pieces))
  {
    assert pieces[0] in pieces;
  }

  lemma TextPutAt(content: seq<Part>, s: seq<Part>, place: seq<nat>)
    requires s != [] && (forall part <- s :: part.Text?) && PutAt(content, s, place)
    ensures |content| == 1 && content[0] == Text(Texts(s))
  {
    TextIsOneBlock(s, place, |content|);
    AllPieces(s, place);
    MadeOfText(content[0], s);
  }

  /** Text in whatever pieces comes out as one part. */
  lemma TextComesOutWhole(content: seq<Part>, s: seq<Part>)
    requires s != [] && (forall part <- s :: part.Text?) && PutTogether(content, s)
    ensures content == [Text(Texts(s))]
  {
    var place :| PutAt(content, s, place);
    TextPutAt(content, s, place);
  }
}
