/** The remote command line: words are quoted, joined and read back by the remote shell. */
module ShellCommand {
  import opened Options

  datatype Result<T> = Ok(value: T) | InvalidName(name: string)

  // ---------- The printer ----------

  predicate IsLetter(c: char) {
    'a' <= c <= 'z' || 'A' <= c <= 'Z'
  }

  predicate IsDigit(c: char) {
    '0' <= c <= '9'
  }

  predicate IsSafe(c: char) {
    IsLetter(c) || IsDigit(c) || c in {'_', '.', '/', ':', '=', '@', '%', '^', ',', '+', '-'}
  }

  predicate AllSafe(arg: string) {
    arg != "" && forall k :: 0 <= k < |arg| ==> IsSafe(arg[k])
  }

  // A quote closes the quotation, is quoted on its own, and reopens it.
  function Escaped(arg: string): string {
    if arg == "" then "" else (if arg[0] == '\'' then "'\"'\"'" else [arg[0]]) + Escaped(arg[1..])
  }

  function ShellQuote(arg: string): string {
    if arg == "" then "''" else if AllSafe(arg) then arg else "'" + Escaped(arg) + "'"
  }

  lemma {:induction false} EscapedIsLonger(arg: string)
    ensures |arg| <= |Escaped(arg)|
  {
    if arg != "" {
      EscapedIsLonger(arg[1..]);
    }
  }

  /** An argument is left as it is if and only if it is not empty and made of the safe characters. */
  lemma QuoteLeavesSafe(arg: string)
    ensures ShellQuote(arg) == arg <==> arg != "" && forall c <- arg ::
      'a' <= c <= 'z' || 'A' <= c <= 'Z' || '0' <= c <= '9'
      || c in {'_', '.', '/', ':', '=', '@', '%', '^', ',', '+', '-'}
  {
    assert AllSafe(arg) <==> arg != "" && forall c <- arg :: IsSafe(c);
    EscapedIsLonger(arg);
  }

  predicate ValidName(name: string) {
    && name != "" && (IsLetter(name[0]) || name[0] == '_')
    && forall k :: 0 <= k < |name| ==> IsLetter(name[k]) || IsDigit(name[k]) || name[k] == '_'
  }

  // A name of the shell: letters, digits and underscores, and no digit first.
  lemma ValidNameIsAShellName(name: string)
    ensures ValidName(name) <==>
      && name != "" && !('0' <= name[0] <= '9')
      && forall c <- name :: 'a' <= c <= 'z' || 'A' <= c <= 'Z' || '0' <= c <= '9' || c == '_'
  {
    assert ValidName(name) ==> forall c <- name :: IsLetter(c) || IsDigit(c) || c == '_';
    assert forall k :: 0 <= k < |name| ==> name[k] in name;
  }

  type Env = seq<(string, string)>

  function Joined(words: seq<string>): string {
    if words == [] then "" else if |words| == 1 then words[0] else words[0] + " " + Joined(words[1..])
  }

  // ---------- The remote shell's reader ----------

  // A character of a word, and whether a quotation took its special meaning away.
  datatype Mark = Mark(c: char, quoted: bool)

  datatype Token = Word(marks: seq<Mark>) | AndIf

  datatype Mode = Unquoted | SingleQuoted | DoubleQuoted

  // Outside quotations these end a word, start an expansion, or are matched against file names.
  predicate IsSpecial(c: char) {
    c in {'|', '&', ';', '<', '>', '(', ')', '$', '`', '\\', '\n', '*', '?', '[', ']', '#', '~', '{', '}', '!'}
  }

  function Flushed(word: Option<seq<Mark>>): seq<Token> {
    if word.Some? then [Word(word.value)] else []
  }

  function Grown(word: Option<seq<Mark>>, marks: seq<Mark>): Option<seq<Mark>> {
    Some((if word.Some? then word.value else []) + marks)
  }

  function After(tokens: seq<Token>, rest: Option<seq<Token>>): Option<seq<Token>> {
    if rest.None? then None else Some(tokens + rest.value)
  }

  /** Token recognition and quoting of the POSIX Shell Command Language (sections 2.2 and 2.3), for
      lines of words and `&&`.  Any other operator or expansion, and an open quotation, are refused. */
  function Lex(s: string, mode: Mode, word: Option<seq<Mark>>): Option<seq<Token>>
    decreases |s|
  {
    match mode
    case Unquoted =>
      if s == "" then Some(Flushed(word))
      else if s[0] == ' ' || s[0] == '\t' then After(Flushed(word), Lex(s[1..], Unquoted, None))
      else if s[0] == '\'' then Lex(s[1..], SingleQuoted, Grown(word, []))
      else if s[0] == '"' then Lex(s[1..], DoubleQuoted, Grown(word, []))
      else if 1 < |s| && s[0] == '&' && s[1] == '&' then After(Flushed(word) + [AndIf], Lex(s[2..], Unquoted, None))
      else if IsSpecial(s[0]) then None
      else Lex(s[1..], Unquoted, Grown(word, [Mark(s[0], false)]))
    case SingleQuoted =>
      if s == "" then None
      else if s[0] == '\'' then Lex(s[1..], Unquoted, word)
      else Lex(s[1..], SingleQuoted, Grown(word, [Mark(s[0], true)]))
    case DoubleQuoted =>
      if s == "" then None
      else if s[0] == '"' then Lex(s[1..], Unquoted, word)
      else if s[0] in {'$', '`', '\\'} then None
      else Lex(s[1..], DoubleQuoted, Grown(word, [Mark(s[0], true)]))
  }

  function Marked(s: string, quoted: bool): (marks: seq<Mark>)
    ensures |marks| == |s| && forall k :: 0 <= k < |s| ==> marks[k] == Mark(s[k], quoted)
  {
    if s == "" then [] else [Mark(s[0], quoted)] + Marked(s[1..], quoted)
  }

  // The characters of a word, which is what the command receives.
  function Text(marks: seq<Mark>): string {
    if marks == [] then "" else [marks[0].c] + Text(marks[1..])
  }

  // What an argument becomes: a word of its own characters, all quoted unless all are safe.
  function WordOf(arg: string): seq<Mark> {
    Marked(arg, !AllSafe(arg))
  }

  lemma {:induction false} TextOfMarked(s: string, quoted: bool)
    ensures Text(Marked(s, quoted)) == s
  {
    if s != "" {
      TextOfMarked(s[1..], quoted);
    }
  }

  lemma GrownTwice(word: Option<seq<Mark>>, a: seq<Mark>, b: seq<Mark>)
    ensures Grown(Grown(word, a), b) == Grown(word, a + b)
  {
    var w := if word.Some? then word.value else [];
    assert (w + a) + b == w + (a + b);
  }

  lemma GrownByNothing(word: Option<seq<Mark>>)
    requires word.Some?
    ensures Grown(word, []) == word
  {
    assert word.value + [] == word.value;
  }

  // A string prints these marks wherever a word is being read.
  ghost predicate Prints(s: string, marks: seq<Mark>) {
    forall tail: string, word ::
      Lex(s + tail, Unquoted, word) == Lex(tail, Unquoted, Grown(word, marks))
  }

  lemma SafeChar(c: char, tail: string, word: Option<seq<Mark>>)
    requires IsSafe(c)
    ensures Lex([c] + tail, Unquoted, word) == Lex(tail, Unquoted, Grown(word, [Mark(c, false)]))
  {
    assert ([c] + tail)[0] == c && ([c] + tail)[1..] == tail;
  }

  lemma SingleQuote(tail: string, word: Option<seq<Mark>>)
    ensures Lex("'" + tail, Unquoted, word) == Lex(tail, SingleQuoted, Grown(word, []))
    ensures Lex("'" + tail, SingleQuoted, word) == Lex(tail, Unquoted, word)
    ensures Lex("'" + tail, DoubleQuoted, word) == Lex(tail, DoubleQuoted, Grown(word, [Mark('\'', true)]))
  {
    assert ("'" + tail)[1..] == tail;
  }

  lemma DoubleQuote(tail: string, word: Option<seq<Mark>>)
    ensures Lex("\"" + tail, Unquoted, word) == Lex(tail, DoubleQuoted, Grown(word, []))
    ensures Lex("\"" + tail, DoubleQuoted, word) == Lex(tail, Unquoted, word)
  {
    assert ("\"" + tail)[1..] == tail;
  }

  lemma {:induction false} SafePrints(arg: string, tail: string, word: Option<seq<Mark>>)
    requires forall k :: 0 <= k < |arg| ==> IsSafe(arg[k])
    requires arg != "" || word.Some?
    ensures Lex(arg + tail, Unquoted, word) == Lex(tail, Unquoted, Grown(word, Marked(arg, false)))
    decreases |arg|
  {
    if arg == "" {
      assert "" + tail == tail;
      GrownByNothing(word);
    } else {
      assert arg + tail == [arg[0]] + (arg[1..] + tail);
      SafeChar(arg[0], arg[1..] + tail, word);
      SafePrints(arg[1..], tail, Grown(word, [Mark(arg[0], false)]));
      GrownTwice(word, [Mark(arg[0], false)], Marked(arg[1..], false));
    }
  }

  lemma QuoteInside(tail: string, word: Option<seq<Mark>>)
    requires word.Some?
    ensures Lex("'\"'\"'" + tail, SingleQuoted, word) == Lex(tail, SingleQuoted, Grown(word, [Mark('\'', true)]))
  {
    var grown := Grown(word, [Mark('\'', true)]);
    var s1 := "'" + tail;
    var s2 := "\"" + s1;
    var s3 := "'" + s2;
    var s4 := "\"" + s3;
    assert "'\"'\"'" + tail == "'" + s4;
    SingleQuote(s4, word);
    DoubleQuote(s3, word);
    GrownByNothing(word);
    SingleQuote(s2, word);
    DoubleQuote(s1, grown);
    SingleQuote(tail, grown);
    GrownByNothing(grown);
  }

  lemma {:induction false} EscapedPrints(arg: string, tail: string, word: Option<seq<Mark>>)
    requires word.Some?
    ensures Lex(Escaped(arg) + ("'" + tail), SingleQuoted, word) == Lex(tail, Unquoted, Grown(word, Marked(arg, true)))
    decreases |arg|
  {
    var end := "'" + tail;
    if arg == "" {
      assert "" + end == end && end[1..] == tail;
      GrownByNothing(word);
    } else {
      var rest := Escaped(arg[1..]) + end;
      var next := Grown(word, [Mark(arg[0], true)]);
      if arg[0] == '\'' {
        assert Escaped(arg) + end == "'\"'\"'" + rest;
        QuoteInside(rest, word);
      } else {
        assert Escaped(arg) + end == [arg[0]] + rest && ([arg[0]] + rest)[1..] == rest;
      }
      EscapedPrints(arg[1..], tail, next);
      GrownTwice(word, [Mark(arg[0], true)], Marked(arg[1..], true));
    }
  }

  lemma QuotedPrints(arg: string, tail: string, word: Option<seq<Mark>>)
    ensures Lex("'" + Escaped(arg) + "'" + tail, Unquoted, word) == Lex(tail, Unquoted, Grown(word, Marked(arg, true)))
  {
    var body := Escaped(arg) + ("'" + tail);
    assert "'" + Escaped(arg) + "'" + tail == "'" + body;
    SingleQuote(body, word);
    EscapedPrints(arg, tail, Grown(word, []));
    GrownTwice(word, [], Marked(arg, true));
    assert [] + Marked(arg, true) == Marked(arg, true);
  }

  /** A quoted argument reads back as the argument, wherever it stands. */
  lemma QuotePrints(arg: string)
    ensures Prints(ShellQuote(arg), WordOf(arg))
  {
    forall tail: string, word
      ensures Lex(ShellQuote(arg) + tail, Unquoted, word) == Lex(tail, Unquoted, Grown(word, WordOf(arg)))
    {
      if AllSafe(arg) {
        SafePrints(arg, tail, word);
      } else {
        assert ShellQuote(arg) == "'" + Escaped(arg) + "'";
        QuotedPrints(arg, tail, word);
      }
    }
  }

  // ---------- Whole commands ----------

  function QuotedArgs(args: seq<string>): (words: seq<string>)
    ensures |words| == |args| && forall k :: 0 <= k < |args| ==> words[k] == ShellQuote(args[k])
  {
    seq(|args|, k requires 0 <= k < |args| => ShellQuote(args[k]))
  }

  function ArgMarks(args: seq<string>): (marks: seq<seq<Mark>>)
    ensures |marks| == |args| && forall k :: 0 <= k < |args| ==> marks[k] == WordOf(args[k])
  {
    seq(|args|, k requires 0 <= k < |args| => WordOf(args[k]))
  }

  function AssignmentMarks(name: string, value: string): seq<Mark> {
    Marked(name + "=", false) + WordOf(value)
  }

  function EnvMarks(env: Env): (marks: seq<seq<Mark>>)
    ensures |marks| == |env| && forall k :: 0 <= k < |env| ==> marks[k] == AssignmentMarks(env[k].0, env[k].1)
  {
    seq(|env|, k requires 0 <= k < |env| => AssignmentMarks(env[k].0, env[k].1))
  }

  function Words(marks: seq<seq<Mark>>): (tokens: seq<Token>)
    ensures |tokens| == |marks| && forall k :: 0 <= k < |marks| ==> tokens[k] == Word(marks[k])
  {
    seq(|marks|, k requires 0 <= k < |marks| => Word(marks[k]))
  }

  function CdTokens(cwd: string): seq<Token> {
    if cwd == "" then [] else [Word(Marked("cd", false)), Word(WordOf(cwd)), AndIf]
  }

  ghost predicate AllPrint(words: seq<string>, marks: seq<seq<Mark>>) {
    |words| == |marks| && forall k :: 0 <= k < |words| ==> Prints(words[k], marks[k])
  }

  lemma LoneWord(s: string, marks: seq<Mark>)
    requires Prints(s, marks)
    ensures Lex(s, Unquoted, None) == Some([Word(marks)])
  {
    assert s + "" == s && [] + marks == marks;
    assert Lex(s + "", Unquoted, None) == Lex("", Unquoted, Grown(None, marks));
  }

  lemma WordThenBlank(s: string, marks: seq<Mark>, tail: string)
    requires Prints(s, marks)
    ensures Lex(s + (" " + tail), Unquoted, None) == After([Word(marks)], Lex(tail, Unquoted, None))
  {
    assert [] + marks == marks && (" " + tail)[1..] == tail;
    assert Lex(s + (" " + tail), Unquoted, None) == Lex(" " + tail, Unquoted, Grown(None, marks));
  }

  lemma WordsSplit(marks: seq<seq<Mark>>, rest: Option<seq<Token>>)
    requires marks != []
    ensures After([Word(marks[0])], After(Words(marks[1..]), rest)) == After(Words(marks), rest)
  {
    assert [Word(marks[0])] + Words(marks[1..]) == Words(marks);
    if rest.Some? {
      assert [Word(marks[0])] + (Words(marks[1..]) + rest.value) == Words(marks) + rest.value;
    }
  }

  lemma {:induction false} JoinedBeforeBlank(words: seq<string>, marks: seq<seq<Mark>>, tail: string)
    requires words != [] && AllPrint(words, marks)
    ensures Lex(Joined(words) + (" " + tail), Unquoted, None) == After(Words(marks), Lex(tail, Unquoted, None))
  {
    if |words| == 1 {
      WordThenBlank(words[0], marks[0], tail);
      assert Words(marks) == [Word(marks[0])];
    } else {
      var rest := Joined(words[1..]) + (" " + tail);
      assert Joined(words) + (" " + tail) == words[0] + (" " + rest);
      WordThenBlank(words[0], marks[0], rest);
      JoinedBeforeBlank(words[1..], marks[1..], tail);
      WordsSplit(marks, Lex(tail, Unquoted, None));
    }
  }

  lemma {:induction false} JoinedAtEnd(words: seq<string>, marks: seq<seq<Mark>>)
    requires AllPrint(words, marks)
    ensures Lex(Joined(words), Unquoted, None) == Some(Words(marks))
  {
    if words == [] {
      assert Words(marks) == [];
    } else if |words| == 1 {
      LoneWord(words[0], marks[0]);
      assert Words(marks) == [Word(marks[0])];
    } else {
      assert Joined(words) == words[0] + (" " + Joined(words[1..]));
      WordThenBlank(words[0], marks[0], Joined(words[1..]));
      JoinedAtEnd(words[1..], marks[1..]);
      assert [Word(marks[0])] + Words(marks[1..]) == Words(marks);
    }
  }

  lemma ArgsPrint(args: seq<string>)
    ensures AllPrint(QuotedArgs(args), ArgMarks(args))
  {
    forall k | 0 <= k < |args| ensures Prints(QuotedArgs(args)[k], ArgMarks(args)[k]) {
      QuotePrints(args[k]);
    }
  }

  lemma AssignmentPrints(name: string, value: string)
    requires ValidName(name)
    ensures Prints(name + "=" + ShellQuote(value), AssignmentMarks(name, value))
  {
    forall tail: string, word
      ensures Lex(name + "=" + ShellQuote(value) + tail, Unquoted, word)
        == Lex(tail, Unquoted, Grown(word, AssignmentMarks(name, value)))
    {
      var rest := ShellQuote(value) + tail;
      assert name + "=" + ShellQuote(value) + tail == (name + "=") + rest;
      SafePrints(name + "=", rest, word);
      QuotePrints(value);
      GrownTwice(word, Marked(name + "=", false), WordOf(value));
    }
  }

  lemma OperatorLexes(command: string, tokens: seq<Token>)
    requires Lex(command, Unquoted, None) == Some(tokens)
    ensures Lex("&& " + command, Unquoted, None) == Some([AndIf] + tokens)
  {
    var s := "&& " + command;
    assert s[2..] == " " + command && (" " + command)[1..] == command;
    assert [] + tokens == tokens && [] + [AndIf] == [AndIf];
    assert Lex(" " + command, Unquoted, None) == Some(tokens);
  }

  lemma CdIsAWord()
    ensures Prints("cd", Marked("cd", false))
  {
    forall tail: string, word
      ensures Lex("cd" + tail, Unquoted, word) == Lex(tail, Unquoted, Grown(word, Marked("cd", false)))
    {
      SafePrints("cd", tail, word);
    }
  }

  lemma TwoWords(a: string, b: string, marks: seq<seq<Mark>>, rest: string, tokens: seq<Token>)
    requires |marks| == 2 && Prints(a, marks[0]) && Prints(b, marks[1]) && Lex(rest, Unquoted, None) == Some(tokens)
    ensures Lex(a + (" " + (b + (" " + rest))), Unquoted, None) == Some([Word(marks[0]), Word(marks[1])] + tokens)
  {
    WordThenBlank(b, marks[1], rest);
    WordThenBlank(a, marks[0], b + (" " + rest));
    assert [Word(marks[0])] + ([Word(marks[1])] + tokens) == [Word(marks[0]), Word(marks[1])] + tokens;
  }

  lemma CdLine(dir: string, command: string)
    ensures "cd " + dir + " && " + command == "cd" + (" " + (dir + (" " + ("&& " + command))))
  {
    var rest := "&& " + command;
    assert " && " + command == " " + rest;
    assert "cd " + dir + " && " + command == "cd " + (dir + (" && " + command));
    assert "cd " == "cd" + " ";
  }

  lemma CdPrints(cwd: string, command: string, tokens: seq<Token>)
    requires cwd != "" && Lex(command, Unquoted, None) == Some(tokens)
    ensures Lex("cd " + ShellQuote(cwd) + " && " + command, Unquoted, None) == Some(CdTokens(cwd) + tokens)
  {
    CdLine(ShellQuote(cwd), command);
    CdIsAWord();
    QuotePrints(cwd);
    OperatorLexes(command, tokens);
    var marks := [Marked("cd", false), WordOf(cwd)];
    TwoWords("cd", ShellQuote(cwd), marks, "&& " + command, [AndIf] + tokens);
    assert [Word(marks[0]), Word(marks[1])] + ([AndIf] + tokens) == CdTokens(cwd) + tokens;
  }

  predicate ValidNames(env: Env) {
    forall k :: 0 <= k < |env| ==> ValidName(env[k].0)
  }

  // Up to the first i entries, the assignments pushed print the environment.
  ghost predicate Pushed(assignments: seq<string>, env: Env, i: nat) {
    && i <= |env| && |assignments| == i
    && forall k :: 0 <= k < i ==>
         ValidName(env[k].0) && Prints(assignments[k], AssignmentMarks(env[k].0, env[k].1))
  }

  lemma PushedNext(assignments: seq<string>, env: Env, i: nat)
    requires Pushed(assignments, env, i) && i < |env| && ValidName(env[i].0)
    ensures Pushed(assignments + [env[i].0 + "=" + ShellQuote(env[i].1)], env, i + 1)
  {
    AssignmentPrints(env[i].0, env[i].1);
  }

  lemma EnvPrints(assignments: seq<string>, env: Env, command: string, tokens: seq<Token>)
    requires Pushed(assignments, env, |env|) && Lex(command, Unquoted, None) == Some(tokens)
    ensures Lex(if |assignments| > 0 then Joined(assignments) + " " + command else command, Unquoted, None)
      == Some(Words(EnvMarks(env)) + tokens)
  {
    if |assignments| > 0 {
      assert Joined(assignments) + " " + command == Joined(assignments) + (" " + command);
      JoinedBeforeBlank(assignments, EnvMarks(env), command);
    } else {
      assert Words(EnvMarks(env)) + tokens == tokens;
    }
  }

  // What the command line is to say.
  function EnvTokens(env: Option<Env>): seq<Token> {
    if env.Some? then Words(EnvMarks(env.value)) else []
  }

  function CommandTokens(args: seq<string>, cwd: string, env: Option<Env>): seq<Token> {
    CdTokens(cwd) + (EnvTokens(env) + Words(ArgMarks(args)))
  }

  // The first name the shell would not take for a variable's.
  predicate FirstInvalid(env: Env, k: nat) {
    k < |env| && !ValidName(env[k].0) && forall i :: 0 <= i < k ==> ValidName(env[i].0)
  }

  method PushAssignments(env: Env) returns (r: Result<seq<string>>)
    ensures r.Ok? <==> ValidNames(env)
    ensures r.Ok? ==> Pushed(r.value, env, |env|)
    ensures r.InvalidName? ==> exists k: nat :: FirstInvalid(env, k) && r.name == env[k].0
  {
    var assignments := [];
    for i := 0 to |env|
      invariant Pushed(assignments, env, i)
    {
      var (key, value) := env[i];
      if !ValidName(key) {
        assert FirstInvalid(env, i);
        return InvalidName(key);
      }
      PushedNext(assignments, env, i);
      assignments := assignments + [key + "=" + ShellQuote(value)];
    }
    r := Ok(assignments);
  }

  /** The command line reads back as the change of directory, one word for each variable and one for
      each argument; it is refused just when a variable's name is not a shell name. */
  method BuildExecCommand(args: seq<string>, cwd: string, env: Option<Env>) returns (r: Result<string>)
    ensures r.Ok? <==> env.None? || ValidNames(env.value)
    ensures r.InvalidName? ==> exists k: nat :: FirstInvalid(env.value, k) && r.name == env.value[k].0
    ensures r.Ok? ==> Lex(r.value, Unquoted, None) == Some(CommandTokens(args, cwd, env))
  {
    var command := Joined(QuotedArgs(args));
    ghost var tokens := Words(ArgMarks(args));
    ArgsPrint(args);
    JoinedAtEnd(QuotedArgs(args), ArgMarks(args));
    if env.Some? {
      var assignments := PushAssignments(env.value);
      if assignments.InvalidName? {
        return InvalidName(assignments.name);
      }
      EnvPrints(assignments.value, env.value, command, tokens);
      if |assignments.value| > 0 {
        command := Joined(assignments.value) + " " + command;
      }
    }
    assert [] + tokens == tokens;
    tokens := EnvTokens(env) + tokens;
    assert [] + tokens == tokens;
    assert Lex(command, Unquoted, None) == Some(tokens);
    if cwd != "" {
      CdPrints(cwd, command, tokens);
      command := "cd " + ShellQuote(cwd) + " && " + command;
    }
    r := Ok(command);
  }

  // ---------- What the shell makes of the words ----------

  // A word of the line as the command sees it; the operator has none.
  function Shown(token: Token): Option<string> {
    if token.AndIf? then None else Some(Text(token.marks))
  }

  function ShownAll(tokens: seq<Token>): (texts: seq<Option<string>>)
    ensures |texts| == |tokens| && forall k :: 0 <= k < |tokens| ==> texts[k] == Shown(tokens[k])
  {
    seq(|tokens|, k requires 0 <= k < |tokens| => Shown(tokens[k]))
  }

  lemma {:induction false} TextConcat(a: seq<Mark>, b: seq<Mark>)
    ensures Text(a + b) == Text(a) + Text(b)
  {
    if a == [] {
      assert a + b == b;
    } else {
      TextConcat(a[1..], b);
      assert (a + b)[1..] == a[1..] + b;
    }
  }

  lemma ArgShows(arg: string)
    ensures Shown(Word(WordOf(arg))) == Some(arg)
  {
    TextOfMarked(arg, !AllSafe(arg));
  }

  lemma VariableShows(name: string, value: string)
    ensures Shown(Word(AssignmentMarks(name, value))) == Some(name + "=" + value)
  {
    TextConcat(Marked(name + "=", false), WordOf(value));
    TextOfMarked(name + "=", false);
    TextOfMarked(value, !AllSafe(value));
  }

  lemma ShownOfSum(a: seq<Token>, b: seq<Token>)
    ensures ShownAll(a + b) == ShownAll(a) + ShownAll(b)
  {
  }

  // What the variables and the arguments should look like to the command.
  function Settings(env: Env): (texts: seq<Option<string>>)
    ensures |texts| == |env| && forall k :: 0 <= k < |env| ==> texts[k] == Some(env[k].0 + "=" + env[k].1)
  {
    seq(|env|, k requires 0 <= k < |env| => Some(env[k].0 + "=" + env[k].1))
  }

  function Plain(args: seq<string>): (texts: seq<Option<string>>)
    ensures |texts| == |args| && forall k :: 0 <= k < |args| ==> texts[k] == Some(args[k])
  {
    seq(|args|, k requires 0 <= k < |args| => Some(args[k]))
  }

  lemma VariablesShow(env: Env)
    ensures ShownAll(Words(EnvMarks(env))) == Settings(env)
  {
    forall k | 0 <= k < |env| ensures Shown(Words(EnvMarks(env))[k]) == Settings(env)[k] {
      VariableShows(env[k].0, env[k].1);
    }
  }

  lemma ArgsShow(args: seq<string>)
    ensures ShownAll(Words(ArgMarks(args))) == Plain(args)
  {
    forall k | 0 <= k < |args| ensures Shown(Words(ArgMarks(args))[k]) == Plain(args)[k] {
      ArgShows(args[k]);
    }
  }

  lemma CdShows(cwd: string)
    ensures ShownAll(CdTokens(cwd)) == if cwd == "" then [] else [Some("cd"), Some(cwd), None]
  {
    TextOfMarked("cd", false);
    ArgShows(cwd);
  }

  /** Without their marks the words are `cd` and the directory, if there is one, `KEY=value` for each
      variable, and the arguments, unchanged. */
  lemma CommandShows(args: seq<string>, cwd: string, env: Option<Env>)
    ensures ShownAll(CommandTokens(args, cwd, env)) ==
            (if cwd == "" then [] else [Some("cd"), Some(cwd), None])
            + ((if env.Some? then Settings(env.value) else []) + Plain(args))
  {
    CdShows(cwd);
    ArgsShow(args);
    if env.Some? {
      VariablesShow(env.value);
    }
    ShownOfSum(EnvTokens(env), Words(ArgMarks(args)));
    ShownOfSum(CdTokens(cwd), EnvTokens(env) + Words(ArgMarks(args)));
  }

  // Section 2.10.2 of the Shell Command Language: before the command's name, a word that begins with an
  // unquoted name and `=` is an assignment.
  predicate AssignsAt(marks: seq<Mark>, n: nat) {
    && n < |marks| && marks[n] == Mark('=', false)
    && (forall k :: 0 <= k < n ==> !marks[k].quoted)
    && ValidName(Text(marks[..n]))
  }

  ghost predicate IsAssignment(token: Token) {
    token.Word? && exists n: nat :: AssignsAt(token.marks, n)
  }

  // The assignments a simple command begins with.
  ghost function Assignments(tokens: seq<Token>): (n: nat)
    ensures n <= |tokens|
    ensures forall k :: 0 <= k < n ==> IsAssignment(tokens[k])
    ensures n < |tokens| ==> !IsAssignment(tokens[n])
  {
    if tokens == [] || !IsAssignment(tokens[0]) then 0 else 1 + Assignments(tokens[1..])
  }

  predicate NamesVariable(arg: string, n: nat) {
    n < |arg| && arg[n] == '=' && ValidName(arg[..n])
  }

  // An argument left unquoted that looks like `NAME=...`.
  ghost predicate TakenForAssignment(arg: string) {
    AllSafe(arg) && exists n: nat :: NamesVariable(arg, n)
  }

  lemma MarkedPrefix(s: string, quoted: bool, n: nat)
    requires n <= |s|
    ensures Text(Marked(s, quoted)[..n]) == s[..n]
  {
    assert Marked(s, quoted)[..n] == Marked(s[..n], quoted);
    TextOfMarked(s[..n], quoted);
  }

  lemma VariableIsAssignment(name: string, value: string)
    requires ValidName(name)
    ensures IsAssignment(Word(AssignmentMarks(name, value)))
  {
    var marks := AssignmentMarks(name, value);
    MarkedPrefix(name + "=", false, |name|);
    assert marks[..|name|] == Marked(name + "=", false)[..|name|];
    assert (name + "=")[..|name|] == name;
    assert AssignsAt(marks, |name|);
  }

  lemma ArgIsAssignment(arg: string)
    ensures IsAssignment(Word(WordOf(arg))) <==> TakenForAssignment(arg)
  {
    if IsAssignment(Word(WordOf(arg))) {
      var n: nat :| AssignsAt(WordOf(arg), n);
      MarkedPrefix(arg, !AllSafe(arg), n);
      assert NamesVariable(arg, n);
    } else if TakenForAssignment(arg) {
      var n: nat :| NamesVariable(arg, n);
      MarkedPrefix(arg, false, n);
      assert AssignsAt(WordOf(arg), n);
    }
  }

  /** The command the shell runs is the first argument, with just the given variables assigned, unless
      that argument itself reads as an assignment. */
  lemma FirstArgumentIsTheCommand(args: seq<string>, env: Env)
    requires ValidNames(env)
    ensures Assignments(Words(EnvMarks(env)) + Words(ArgMarks(args))) == |env|
      <==> args == [] || !TakenForAssignment(args[0])
  {
    var tokens := Words(EnvMarks(env)) + Words(ArgMarks(args));
    forall k | 0 <= k < |env| ensures IsAssignment(tokens[k]) {
      VariableIsAssignment(env[k].0, env[k].1);
    }
    if args != [] {
      ArgIsAssignment(args[0]);
      assert tokens[|env|] == Word(WordOf(args[0]));
    }
  }

  // `A=b` as the command runs nothing and sets a variable.
  lemma AssignmentForACommand()
    ensures TakenForAssignment("A=b")
    ensures Assignments(Words(EnvMarks([])) + Words(ArgMarks(["A=b"]))) == 1
  {
    assert AllSafe("A=b") && "A=b"[..1] == "A" && NamesVariable("A=b", 1);
    var tokens := Words(EnvMarks([])) + Words(ArgMarks(["A=b"]));
    ArgIsAssignment("A=b");
    assert tokens == [Word(WordOf("A=b"))] && tokens[1..] == [];
  }
}
