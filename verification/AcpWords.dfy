/** The words in a sequence of notifications, and the kinds of tools by name. */
module AcpWords {
  import opened Options
  import opened AcpEvents

  datatype Voice = Answer | Reasoning | Prompt

  function Word(note: Notification, voice: Voice): string {
    match note
    case Message(text) => if voice == Answer then text else ""
    case Thought(text) => if voice == Reasoning then text else ""
    case UserMessage(text) => if voice == Prompt then text else ""
    case _ => ""
  }

  // What one voice says in the first n notifications, and in all of them.
  function WordsTo(notes: seq<Notification>, n: nat, voice: Voice): string
    requires n <= |notes|
  {
    if n == 0 then "" else WordsTo(notes, n - 1, voice) + Word(notes[n - 1], voice)
  }

  function Words(notes: seq<Notification>, voice: Voice): string {
    WordsTo(notes, |notes|, voice)
  }

  lemma {:induction false} WordsInPrefix(a: seq<Notification>, b: seq<Notification>, n: nat, voice: Voice)
    requires n <= |a|
    ensures WordsTo(a + b, n, voice) == WordsTo(a, n, voice)
  {
    if 0 < n {
      WordsInPrefix(a, b, n - 1, voice);
    }
  }

  lemma Reassociate(a: string, b: string, c: string)
    ensures a + (b + c) == a + b + c
  {
  }

  lemma {:induction false} WordsFurther(a: seq<Notification>, b: seq<Notification>, n: nat, voice: Voice)
    requires n <= |b|
    ensures WordsTo(a + b, |a| + n, voice) == Words(a, voice) + WordsTo(b, n, voice)
  {
    if n == 0 {
      WordsInPrefix(a, b, |a|, voice);
    } else {
      WordsFurther(a, b, n - 1, voice);
      assert (a + b)[|a| + n - 1] == b[n - 1];
      Reassociate(Words(a, voice), WordsTo(b, n - 1, voice), Word(b[n - 1], voice));
    }
  }

  lemma WordsOfSum(a: seq<Notification>, b: seq<Notification>, voice: Voice)
    ensures Words(a + b, voice) == Words(a, voice) + Words(b, voice)
  {
    WordsFurther(a, b, |b|, voice);
  }

  lemma WordsOfMore(a: seq<Notification>, b: seq<Notification>, voice: Voice, said: string)
    requires Words(b, voice) == said
    ensures Words(a + b, voice) == Words(a, voice) + said
  {
    WordsOfSum(a, b, voice);
  }

  lemma {:induction false} WordlessTo(notes: seq<Notification>, n: nat, voice: Voice)
    requires n <= |notes| && forall k :: 0 <= k < n ==> Word(notes[k], voice) == ""
    ensures WordsTo(notes, n, voice) == ""
  {
    if 0 < n {
      WordlessTo(notes, n - 1, voice);
    }
  }

  lemma WordlessSay(notes: seq<Notification>, voice: Voice)
    requires forall note <- notes :: note.Create? || note.Update? || note.Plan?
    ensures Words(notes, voice) == ""
  {
    forall k | 0 <= k < |notes| ensures Word(notes[k], voice) == "" {
      assert notes[k] in notes;
    }
    WordlessTo(notes, |notes|, voice);
  }

  lemma OneWord(note: Notification, voice: Voice)
    ensures Words([note], voice) == Word(note, voice)
  {
    assert WordsTo([note], 0, voice) == "";
  }

  // ---------- Kinds of tools ----------

  predicate KindFits(kind: ToolKind, name: string) {
    && (kind == Read <==> name in {"Read", "Glob", "Grep"})
    && (kind == Edit <==> name in {"Write", "Edit"})
    && (kind == Execute <==> name in {"Bash", "Terminal"})
    && (kind == Fetch <==> name in {"WebFetch", "WebSearch"})
    && (kind == ToolKind.Think <==> name == "Think")
  }

  lemma InferredKindFits(name: string)
    ensures KindFits(InferToolKind(name), name)
  {
  }
}
