/** Compilation of one glob segment to a regular expression, and what the expression accepts.

    The compiler works on strings, so the expression is read back by the grammar of the ECMAScript
    pattern language, as far as the compiler's output uses it. */
module GlobRegex {
  import opened Options

  // ---------- The compiler ----------

  function Escaped(c: char): string {
    if c in "{}()+.\\[]^$|" then ['\\', c] else [c]
  }

  // The first `]` from position i on.
  function IndexOf(s: string, c: char, i: nat): (n: Option<nat>)
    requires i <= |s|
    ensures n.Some? ==> i <= n.value < |s| && s[n.value] == c && c !in s[i..n.value]
    ensures n.None? ==> c !in s[i..]
    decreases |s| - i
  {
    if i == |s| then None else if s[i] == c then Some(i) else IndexOf(s, c, i + 1)
  }

  function DoubledBackslashes(s: string): string {
    if s == "" then "" else (if s[0] == '\\' then "\\\\" else [s[0]]) + DoubledBackslashes(s[1..])
  }

  // A character class: only a leading `!` negates, a leading `^` is literal.
  function CharClass(body: string): string {
    var doubled := DoubledBackslashes(body);
    if doubled != "" && doubled[0] == '!' then "[" + "^" + doubled[1..] + "]"
    else if doubled != "" && doubled[0] == '^' then "[" + "\\" + doubled + "]"
    else "[" + doubled + "]"
  }

  // What the pattern adds at position i, and where the next piece starts.
  function Piece(p: string, i: nat): (piece: (string, nat))
    requires i < |p|
    ensures i < piece.1 <= |p|
  {
    if p[i] == '*' then ("[^/]*", i + 1)
    else if p[i] == '?' then ("[^/]", i + 1)
    else if p[i] == '[' then
      var end := IndexOf(p, ']', i + 1);
      if end.None? then ("\\[", i + 1) else (CharClass(p[i + 1..end.value]), end.value + 1)
    else if p[i] == '\\' then
      if i + 1 < |p| then (Escaped(p[i + 1]), i + 2) else ("\\\\", i + 1)
    else (Escaped(p[i]), i + 1)
  }

  function Translated(p: string, i: nat): string
    requires i <= |p|
    decreases |p| - i
  {
    if i == |p| then "" else Piece(p, i).0 + Translated(p, Piece(p, i).1)
  }

  // What the loop built, then what the rest of the pattern adds, is the whole expression.
  predicate Left(p: string, i: nat, regex: string) {
    i <= |p| && regex + Translated(p, i) == "^" + Translated(p, 0)
  }

  lemma LeftStep(p: string, i: nat, regex: string, piece: string, next: nat)
    requires Left(p, i, regex) && i < |p| && Piece(p, i) == (piece, next)
    ensures Left(p, next, regex + piece)
  {
    assert regex + (piece + Translated(p, next)) == regex + piece + Translated(p, next);
  }

  lemma LeftEnds(p: string, regex: string)
    requires Left(p, |p|, regex)
    ensures regex == "^" + Translated(p, 0)
  {
  }

  method GlobPatternToRegex(pattern: string) returns (regex: string)
    ensures regex == "^" + Translated(pattern, 0) + "$"
  {
    regex := "^";
    var i := 0;
    while i < |pattern|
      invariant Left(pattern, i, regex)
    {
      ghost var start := i;
      var piece;
      var ch := pattern[i];
      if ch == '*' {
        piece := "[^/]*";
      } else if ch == '?' {
        piece := "[^/]";
      } else if ch == '[' {
        var end := IndexOf(pattern, ']', i + 1);
        if end.None? {
          piece := "\\[";
        } else {
          piece := CharClass(pattern[i + 1..end.value]);
          i := end.value;
        }
      } else if ch == '\\' {
        if i + 1 < |pattern| {
          piece := Escaped(pattern[i + 1]);
          i := i + 1;
        } else {
          piece := "\\\\";
        }
      } else {
        piece := Escaped(ch);
      }
      i := i + 1;
      LeftStep(pattern, start, regex, piece, i);
      regex := regex + piece;
    }
    LeftEnds(pattern, regex);
    regex := regex + "$";
  }

  // ---------- What an expression accepts ----------

  datatype Atom = Literal(c: char) | NotSlash

  datatype Quantifier = One | Star | Optional

  datatype Term = Term(atom: Atom, quantifier: Quantifier)

  const SYNTAX_CHARACTERS := "^$\\.*+?()[]{}|"

  // The atom an expression begins with and its length: the class of all but `/`, an escaped syntax
  // character, or any other character standing for itself.
  function AtomAt(re: string): Option<(Atom, nat)> {
    if re == "" then None
    else if 4 <= |re| && re[0] == '[' && re[1] == '^' && re[2] == '/' && re[3] == ']' then Some((NotSlash, 4))
    else if re[0] == '\\' then
      if 1 < |re| && re[1] in SYNTAX_CHARACTERS then Some((Literal(re[1]), 2)) else None
    else if re[0] in SYNTAX_CHARACTERS then None
    else Some((Literal(re[0]), 1))
  }

  // A quantifier may be lazy, which changes no language.
  function QuantifierAt(re: string): (Quantifier, nat) {
    if re == "" || (re[0] != '*' && re[0] != '?') then (One, 0)
    else
      (if re[0] == '*' then Star else Optional, if 1 < |re| && re[1] == '?' then 2 else 1)
  }

  // The terms up to the final `$`.  Where there are none, the expression is rejected (a quantifier with
  // nothing to repeat) or uses more of the grammar than the compiler emits outside character classes.
  function Parsed(re: string): Option<seq<Term>>
    decreases |re|
  {
    if re == "$" then Some([])
    else
      var atom := AtomAt(re);
      if atom.None? || |re| < atom.value.1 then None
      else
        var (quantifier, width) := QuantifierAt(re[atom.value.1..]);
        if |re| < atom.value.1 + width then None
        else
          var rest := Parsed(re[atom.value.1 + width..]);
          if rest.None? then None else Some([Term(atom.value.0, quantifier)] + rest.value)
  }

  predicate Accepts(atom: Atom, c: char) {
    match atom
    case Literal(l) => c == l
    case NotSlash => c != '/'
  }

  predicate Test(terms: seq<Term>, s: string)
    decreases |terms|, |s|
  {
    if terms == [] then s == ""
    else
      var Term(atom, quantifier) := terms[0];
      match quantifier
      case One => s != "" && Accepts(atom, s[0]) && Test(terms[1..], s[1..])
      case Optional => Test(terms[1..], s) || (s != "" && Accepts(atom, s[0]) && Test(terms[1..], s[1..]))
      case Star => Test(terms[1..], s) || (s != "" && Accepts(atom, s[0]) && Test(terms, s[1..]))
  }

  // RegExp.test of the expression the compiler builds.
  predicate Matches(p: string, name: string) {
    var terms := Parsed(Translated(p, 0) + "$");
    terms.Some? && Test(terms.value, name)
  }

  // ---------- What a segment means ----------

  // `*` stands for any run of characters but `/`, `?` for one of them; a backslash makes the next
  // character literal, and is literal at the end.
  predicate Wild(p: string, i: nat, s: string)
    requires i <= |p|
    decreases |p| - i, |s|
  {
    if i == |p| then s == ""
    else if p[i] == '*' then Wild(p, i + 1, s) || (s != "" && s[0] != '/' && Wild(p, i, s[1..]))
    else if p[i] == '?' then s != "" && s[0] != '/' && Wild(p, i + 1, s[1..])
    else if p[i] == '\\' && i + 1 < |p| then s != "" && s[0] == p[i + 1] && Wild(p, i + 2, s[1..])
    else s != "" && s[0] == p[i] && Wild(p, i + 1, s[1..])
  }

  // Every `[` outside an escape is unclosed, and so literal.
  predicate NoClass(p: string, i: nat)
    requires i <= |p|
    decreases |p| - i
  {
    i == |p|
    || (&& (p[i] == '[' ==> IndexOf(p, ']', i + 1).None?)
        && NoClass(p, Piece(p, i).1))
  }

  predicate EscapedWildcardAt(p: string, i: nat) {
    i + 1 < |p| && p[i] == '\\' && (p[i + 1] == '*' || p[i + 1] == '?')
  }

  predicate EscapesWildcard(p: string, i: nat)
    requires i <= |p|
    decreases |p| - i
  {
    i < |p| && (EscapedWildcardAt(p, i) || EscapesWildcard(p, Piece(p, i).1))
  }

  // ---------- Reading back what was compiled ----------

  function Rest(p: string, i: nat): string
    requires i <= |p|
  {
    Translated(p, i) + "$"
  }

  lemma RestStep(p: string, i: nat)
    requires i < |p|
    ensures Rest(p, i) == Piece(p, i).0 + Rest(p, Piece(p, i).1)
  {
  }

  // The term a piece of the pattern becomes when no quantifier strays in after it.
  function TermAt(p: string, i: nat): Term
    requires i < |p|
  {
    if p[i] == '*' then Term(NotSlash, Star)
    else if p[i] == '?' then Term(NotSlash, One)
    else if p[i] == '\\' && i + 1 < |p| then Term(Literal(p[i + 1]), One)
    else Term(Literal(p[i]), One)
  }

  function Terms(p: string, i: nat): seq<Term>
    requires i <= |p|
    decreases |p| - i
  {
    if i == |p| then [] else [TermAt(p, i)] + Terms(p, Piece(p, i).1)
  }

  // Only an escaped wildcard makes the rest begin with a quantifier.
  lemma RestBegins(p: string, i: nat)
    requires i <= |p| && NoClass(p, i)
    ensures Rest(p, i) != ""
    ensures EscapedWildcardAt(p, i) ==> Rest(p, i)[0] == p[i + 1]
    ensures !EscapedWildcardAt(p, i) ==> Rest(p, i)[0] != '*' && Rest(p, i)[0] != '?'
    ensures Rest(p, i) == "$" <==> i == |p|
  {
    if i < |p| {
      RestStep(p, i);
      assert 1 <= |Rest(p, Piece(p, i).1)|;
    }
  }

  lemma LiteralAtom(c: char, tail: string)
    requires c != '*' && c != '?'
    ensures AtomAt(Escaped(c) + tail) == Some((Literal(c), |Escaped(c)|))
    ensures (Escaped(c) + tail)[|Escaped(c)|..] == tail
  {
    var re := Escaped(c) + tail;
    assert re[0] == Escaped(c)[0];
    if |Escaped(c)| == 2 {
      assert re[1] == c;
    }
  }

  lemma ClassAtom(tail: string)
    ensures AtomAt("[^/]" + tail) == Some((NotSlash, 4)) && ("[^/]" + tail)[4..] == tail
  {
  }

  lemma StarredClass(tail: string)
    ensures "[^/]*" + tail == "[^/]" + ("*" + tail)
  {
  }

  // The atom a piece begins with, and what follows it.
  lemma AtomAtPiece(p: string, i: nat)
    requires i < |p| && NoClass(p, i) && !EscapedWildcardAt(p, i)
    ensures var atom := AtomAt(Rest(p, i));
      && atom.Some? && atom.value.0 == TermAt(p, i).atom && atom.value.1 <= |Rest(p, i)|
      && Rest(p, i)[atom.value.1..] == (if p[i] == '*' then "*" else "") + Rest(p, Piece(p, i).1)
  {
    var tail := Rest(p, Piece(p, i).1);
    RestStep(p, i);
    if p[i] == '*' {
      StarredClass(tail);
      ClassAtom("*" + tail);
    } else if p[i] == '?' {
      ClassAtom(tail);
    } else {
      LiteralAtom(if p[i] == '\\' && i + 1 < |p| then p[i + 1] else p[i], tail);
    }
    assert "" + tail == tail;
  }

  // Without escaped wildcards the expression reads back as one term for each piece.
  lemma {:induction false} ParsedTerms(p: string, i: nat)
    requires i <= |p| && NoClass(p, i) && !EscapesWildcard(p, i)
    ensures Parsed(Rest(p, i)) == Some(Terms(p, i))
    decreases |p| - i
  {
    RestBegins(p, i);
    if i < |p| {
      var next := Piece(p, i).1;
      AtomAtPiece(p, i);
      RestBegins(p, next);
      ParsedTerms(p, next);
      OneTerm(Rest(p, i), TermAt(p, i), Rest(p, next), p[i] == '*');
    }
  }

  // An atom followed by its own quantifier and then by no other.
  lemma OneTerm(re: string, term: Term, tail: string, starred: bool)
    requires re != "$" && AtomAt(re).Some? && AtomAt(re).value.0 == term.atom && AtomAt(re).value.1 <= |re|
    requires re[AtomAt(re).value.1..] == (if starred then "*" else "") + tail
    requires term.quantifier == if starred then Star else One
    requires tail != "" && tail[0] != '*' && tail[0] != '?' && Parsed(tail).Some?
    ensures Parsed(re) == Some([term] + Parsed(tail).value)
  {
    var w := AtomAt(re).value.1;
    if starred {
      assert ("*" + tail)[0] == '*' && ("*" + tail)[1] == tail[0];
      assert re[w + 1..] == re[w..][1..] == tail;
    } else {
      assert re[w..] == tail && re[w + 0..] == tail;
    }
  }

  lemma {:induction false} TermsMeanWild(p: string, i: nat, s: string)
    requires i <= |p| && NoClass(p, i) && !EscapesWildcard(p, i)
    ensures Test(Terms(p, i), s) <==> Wild(p, i, s)
    decreases |p| - i, |s|
  {
    if i < |p| {
      var terms, next := Terms(p, i), Piece(p, i).1;
      assert terms[0] == TermAt(p, i) && terms[1..] == Terms(p, next);
      if p[i] == '*' {
        TermsMeanWild(p, next, s);
        if s != "" {
          TermsMeanWild(p, i, s[1..]);
        }
      } else if s != "" {
        TermsMeanWild(p, next, s[1..]);
      }
    }
  }

  // ---------- Character classes ----------

  // What a class of the ECMAScript grammar lists, up to its unescaped `]`, and its length.
  function MembersAt(re: string): Option<(string, nat)> {
    if re == "" then None
    else if re[0] == ']' then Some(("", 1))
    else if re[0] == '\\' && |re| < 2 then None
    else
      var width := if re[0] == '\\' then 2 else 1;
      var rest := MembersAt(re[width..]);
      if rest.None? then None else Some(([re[width - 1]] + rest.value.0, rest.value.1 + width))
  }

  // Whether it is negated, what it lists, and its length.
  function ClassAt(re: string): Option<(bool, string, nat)> {
    if |re| < 2 || re[0] != '[' then None
    else
      var negated := re[1] == '^';
      var from := if negated then 2 else 1;
      var members := MembersAt(re[from..]);
      if members.None? then None else Some((negated, members.value.0, members.value.1 + from))
  }

  function Prefixed(c: char, width: nat, rest: Option<(string, nat)>): Option<(string, nat)> {
    if rest.None? then None else Some(([c] + rest.value.0, rest.value.1 + width))
  }

  lemma PlainMember(c: char, rest: string)
    requires c != ']' && c != '\\'
    ensures MembersAt([c] + rest) == Prefixed(c, 1, MembersAt(rest))
  {
    assert ([c] + rest)[1..] == rest;
  }

  lemma EscapedMember(c: char, rest: string)
    ensures MembersAt(['\\', c] + rest) == Prefixed(c, 2, MembersAt(rest))
  {
    assert (['\\', c] + rest)[2..] == rest;
  }

  // The doubled body and the bracket that ends it.
  function Closed(body: string, tail: string): string {
    DoubledBackslashes(body) + ("]" + tail)
  }

  lemma ClosedStep(body: string, tail: string)
    requires body != ""
    ensures Closed(body, tail)
      == (if body[0] == '\\' then ['\\', body[0]] else [body[0]]) + Closed(body[1..], tail)
  {
  }

  lemma {:induction false} MembersOfDoubled(body: string, tail: string)
    requires ']' !in body
    ensures MembersAt(Closed(body, tail)) == Some((body, |DoubledBackslashes(body)| + 1))
  {
    if body == "" {
      assert Closed(body, tail) == "]" + tail;
    } else {
      MembersOfDoubled(body[1..], tail);
      ClosedStep(body, tail);
      assert [body[0]] + body[1..] == body;
      if body[0] == '\\' {
        EscapedMember(body[0], Closed(body[1..], tail));
      } else {
        PlainMember(body[0], Closed(body[1..], tail));
        DoubledHead(body);
      }
    }
  }

  lemma NegatedClass(rest: string)
    ensures ClassAt("[^" + rest) == if MembersAt(rest).None? then None
      else Some((true, MembersAt(rest).value.0, MembersAt(rest).value.1 + 2))
  {
    assert ("[^" + rest)[2..] == rest;
  }

  lemma PositiveClass(rest: string)
    requires rest != "" && rest[0] != '^'
    ensures ClassAt("[" + rest) == if MembersAt(rest).None? then None
      else Some((false, MembersAt(rest).value.0, MembersAt(rest).value.1 + 1))
  {
    assert ("[" + rest)[1..] == rest;
  }

  lemma Reassociated(open_: string, doubled: string, tail: string)
    ensures open_ + doubled + "]" + tail == open_ + (doubled + ("]" + tail))
  {
  }

  lemma DoubledHead(body: string)
    requires body != "" && body[0] != '\\'
    ensures DoubledBackslashes(body) == [body[0]] + DoubledBackslashes(body[1..])
    ensures DoubledBackslashes(body)[1..] == DoubledBackslashes(body[1..])
  {
  }

  lemma NegatedBody(body: string, tail: string)
    requires ']' !in body && body != "" && body[0] == '!'
    ensures ClassAt(CharClass(body) + tail) == Some((true, body[1..], |CharClass(body)|))
  {
    MembersOfDoubled(body[1..], tail);
    DoubledHead(body);
    NegatedClass(Closed(body[1..], tail));
    Reassociated("[^", DoubledBackslashes(body[1..]), tail);
    assert "[" + "^" == "[^";
  }

  lemma CaretBody(body: string, tail: string)
    requires ']' !in body && body != "" && body[0] == '^'
    ensures ClassAt(CharClass(body) + tail) == Some((false, body, |CharClass(body)|))
  {
    var rest := Closed(body[1..], tail);
    MembersOfDoubled(body[1..], tail);
    DoubledHead(body);
    EscapedMember('^', rest);
    assert ['^'] + body[1..] == body;
    PositiveClass(['\\', '^'] + rest);
    Reassociated("[" + "\\", DoubledBackslashes(body), tail);
    assert ("[" + "\\") + Closed(body, tail) == "[" + (['\\', '^'] + rest) by {
      ClosedStep(body, tail);
    }
  }

  lemma PositiveBody(body: string, tail: string)
    requires ']' !in body && (body != "" ==> body[0] != '!' && body[0] != '^')
    ensures ClassAt(CharClass(body) + tail) == Some((false, body, |CharClass(body)|))
  {
    MembersOfDoubled(body, tail);
    var doubled := DoubledBackslashes(body);
    assert doubled != "" ==> doubled[0] == body[0];
    assert Closed(body, tail)[0] == if doubled == "" then ']' else doubled[0];
    PositiveClass(Closed(body, tail));
    Reassociated("[", doubled, tail);
  }

  /** A class reads back as the characters between the brackets, negated just by a leading `!`: a leading
      `^` and every backslash are literal. */
  lemma ClassReadsBack(body: string, tail: string)
    requires ']' !in body
    ensures var negated := body != "" && body[0] == '!';
      ClassAt(CharClass(body) + tail) == Some((negated, if negated then body[1..] else body, |CharClass(body)|))
  {
    if body != "" && body[0] == '!' {
      NegatedBody(body, tail);
    } else if body != "" && body[0] == '^' {
      CaretBody(body, tail);
    } else {
      PositiveBody(body, tail);
    }
  }

  // ---------- When a backslash precedes a wildcard ----------

  predicate Plain(s: string) {
    '*' !in s && '?' !in s
  }

  // A name a segment stands for: nothing for each `*`, an `x` for each `?`.
  function Instance(p: string, i: nat): (s: string)
    requires i <= |p|
    ensures Wild(p, i, s)
    decreases |p| - i
  {
    if i == |p| then ""
    else if p[i] == '*' then Instance(p, i + 1)
    else if p[i] == '?' then ['x'] + Instance(p, i + 1)
    else if p[i] == '\\' && i + 1 < |p| then [p[i + 1]] + Instance(p, i + 2)
    else [p[i]] + Instance(p, i + 1)
  }

  predicate PlainTerm(term: Term) {
    term.atom.Literal? ==> term.atom.c != '*' && term.atom.c != '?'
  }

  predicate PlainTerms(terms: seq<Term>) {
    forall k :: 0 <= k < |terms| ==> PlainTerm(terms[k])
  }

  // A string the terms accept, leaving out all that may be left out.
  function Sample(terms: seq<Term>): (s: string)
    ensures Test(terms, s)
    ensures PlainTerms(terms) ==> Plain(s)
  {
    if terms == [] then ""
    else
      var rest := Sample(terms[1..]);
      if terms[0].quantifier != One then rest
      else [if terms[0].atom.Literal? then terms[0].atom.c else 'x'] + rest
  }

  // A quantifier that strays in from escaped wildcards ends where a later piece begins.
  lemma QuantifierEnds(p: string, i: nat) returns (next: nat)
    requires i <= |p| && NoClass(p, i)
    ensures i <= next <= |p| && NoClass(p, next)
    ensures QuantifierAt(Rest(p, i)).1 <= |Rest(p, i)|
    ensures Rest(p, i)[QuantifierAt(Rest(p, i)).1..] == Rest(p, next)
  {
    next := i;
    RestBegins(p, i);
    if EscapedWildcardAt(p, i) {
      RestStep(p, i);
      next := i + 2;
      RestBegins(p, next);
      if EscapedWildcardAt(p, next) && p[next + 1] == '?' {
        RestStep(p, next);
        next := next + 2;
      }
    }
  }

  // The same after a `*` of the compiler's own.
  lemma StarEnds(p: string, i: nat) returns (next: nat)
    requires i <= |p| && NoClass(p, i)
    ensures i <= next <= |p| && NoClass(p, next)
    ensures QuantifierAt("*" + Rest(p, i)).1 <= 1 + |Rest(p, i)|
    ensures ("*" + Rest(p, i))[QuantifierAt("*" + Rest(p, i)).1..] == Rest(p, next)
  {
    next := i;
    RestBegins(p, i);
    assert ("*" + Rest(p, i))[1] == Rest(p, i)[0];
    if EscapedWildcardAt(p, i) && p[i + 1] == '?' {
      RestStep(p, i);
      next := i + 2;
    }
  }

  // An expression that parses has a first term and a parsed rest.
  lemma ParsedHead(re: string)
    requires re != "$" && Parsed(re).Some?
    ensures AtomAt(re).Some? && AtomAt(re).value.1 <= |re|
    ensures var after := re[AtomAt(re).value.1..]; var q := QuantifierAt(after);
      && q.1 <= |after| && Parsed(after[q.1..]).Some?
      && Parsed(re).value == [Term(AtomAt(re).value.0, q.0)] + Parsed(after[q.1..]).value
  {
    var w := AtomAt(re).value.1;
    var q := QuantifierAt(re[w..]);
    assert re[w + q.1..] == re[w..][q.1..];
  }

  lemma AtomIsNoWildcard(p: string, i: nat)
    requires i < |p| && NoClass(p, i) && AtomAt(Rest(p, i)).Some?
    ensures !EscapedWildcardAt(p, i)
    ensures PlainTerm(Term(AtomAt(Rest(p, i)).value.0, One))
  {
    RestBegins(p, i);
    if !EscapedWildcardAt(p, i) {
      AtomAtPiece(p, i);
    }
  }

  // What follows an atom's quantifier is compiled from a later piece on.
  lemma AfterTerm(p: string, i: nat) returns (next: nat)
    requires i < |p| && NoClass(p, i) && AtomAt(Rest(p, i)).Some? && AtomAt(Rest(p, i)).value.1 <= |Rest(p, i)|
    ensures i < next <= |p| && NoClass(p, next)
    ensures var after := Rest(p, i)[AtomAt(Rest(p, i)).value.1..]; var width := QuantifierAt(after).1;
      width <= |after| && after[width..] == Rest(p, next)
  {
    AtomIsNoWildcard(p, i);
    AtomAtPiece(p, i);
    next := Piece(p, i).1;
    if p[i] == '*' {
      next := StarEnds(p, next);
    } else {
      assert "" + Rest(p, next) == Rest(p, next);
      next := QuantifierEnds(p, next);
    }
  }

  // Whatever the expression parses to, no term stands for a literal wildcard.
  lemma {:induction false} NoTermIsAWildcard(p: string, i: nat)
    requires i <= |p| && NoClass(p, i) && Parsed(Rest(p, i)).Some?
    ensures PlainTerms(Parsed(Rest(p, i)).value)
    decreases |p| - i
  {
    RestBegins(p, i);
    if i < |p| {
      ParsedHead(Rest(p, i));
      AtomIsNoWildcard(p, i);
      var next := AfterTerm(p, i);
      NoTermIsAWildcard(p, next);
    }
  }

  lemma {:induction false} EscapedWildcardIsWanted(p: string, i: nat, s: string)
    requires i <= |p| && NoClass(p, i) && EscapesWildcard(p, i) && Wild(p, i, s)
    ensures !Plain(s)
    decreases |p| - i, |s|
  {
    if p[i] == '*' && !Wild(p, i + 1, s) {
      EscapedWildcardIsWanted(p, i, s[1..]);
    } else if !EscapedWildcardAt(p, i) {
      EscapedWildcardIsWanted(p, Piece(p, i).1, if p[i] == '*' then s else s[1..]);
    }
  }

  predicate Disagree(p: string, s: string) {
    Matches(p, s) != Wild(p, 0, s)
  }

  lemma EscapedWildcardFails(p: string) returns (s: string)
    requires NoClass(p, 0) && EscapesWildcard(p, 0)
    ensures Disagree(p, s)
  {
    s := Instance(p, 0);
    if Parsed(Rest(p, 0)).Some? {
      NoTermIsAWildcard(p, 0);
      s := Sample(Parsed(Rest(p, 0)).value);
      if Wild(p, 0, s) {
        EscapedWildcardIsWanted(p, 0, s);
      }
    }
  }

  /** On segments without a closed class, the compiled expression accepts just the names the segment
      stands for, unless a backslash escapes a wildcard. */
  lemma RegexMeansWild(p: string)
    requires NoClass(p, 0)
    ensures !EscapesWildcard(p, 0) <==> forall s :: Matches(p, s) <==> Wild(p, 0, s)
  {
    if EscapesWildcard(p, 0) {
      var s := EscapedWildcardFails(p);
      assert Matches(p, s) != Wild(p, 0, s);
    } else {
      ParsedTerms(p, 0);
      forall s ensures Matches(p, s) <==> Wild(p, 0, s) {
        TermsMeanWild(p, 0, s);
      }
    }
  }

  lemma EscapedStarParses()
    ensures Parsed(Translated("a\\*", 0) + "$") == Some([Term(Literal('a'), Star)])
  {
    var p := "a\\*";
    assert Translated(p, 3) == "" && Translated(p, 1) == "*" && Translated(p, 0) == "a*";
    assert Translated(p, 0) + "$" == "a*$";
    assert "a*$"[1..] == "*$" && "a*$"[2..] == "$";
    assert AtomAt("a*$") == Some((Literal('a'), 1)) && QuantifierAt("*$") == (Star, 1);
    assert Parsed("$") == Some([]) && [Term(Literal('a'), Star)] + [] == [Term(Literal('a'), Star)];
  }

  // `a\*` compiles to `a*`, which takes `aa` and not `a*`.
  lemma EscapedStarIsAQuantifier()
    ensures Matches("a\\*", "aa") && !Wild("a\\*", 0, "aa")
    ensures Wild("a\\*", 0, "a*") && !Matches("a\\*", "a*")
  {
    EscapedStarParses();
    var terms := [Term(Literal('a'), Star)];
    assert terms[1..] == [] && "aa"[1..] == "a" && "a"[1..] == "" && "a*"[1..] == "*";
    assert Test(terms, "") && Test(terms, "a") && Test(terms, "aa");
    assert !Test(terms, "*") && !Test(terms, "a*");
    assert Wild("a\\*", 1, "*") && !Wild("a\\*", 1, "a");
  }
}
