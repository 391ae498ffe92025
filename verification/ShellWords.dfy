/** Shell quoting: shellQuote against a reader of the POSIX shell language (POSIX.1-2017,
    Shell Command Language, sections 2.2 and 2.3), and the commands built with it. */
module ShellWords {
  import opened Common

  // ----- the reader -----

  datatype Token = Word(text: string) | AndIf

  /** `GaveUp` is reached on input that is not just words joined by && (other operators,
      expansions, patterns, comments). */
  datatype Mode = Unquoted | InSingle | InDouble | AfterBackslash | AfterBackslashInDouble | AfterAmpersand | GaveUp

  /** `word` is the word being read, if one has begun. */
  datatype Reader = Reader(mode: Mode, word: Option<string>, tokens: seq<Token>) {

    function Go(next: Mode): Reader {
      this.(mode := next)
    }

    function Built(): string {
      if word.Some? then word.value else ""
    }

    function Append(s: string): Reader {
      this.(word := Some(Built() + s))
    }

    function EndWord(): Reader {
      if word.Some? then Reader(mode, None, tokens + [Word(word.value)]) else this
    }
  }

  const START := Reader(Unquoted, None, [])

  /** Characters that, unquoted, are not simply part of a word. */
  predicate Special(c: char) {
    c == ' ' || c == '\t' || c == '\n' || c == '&' || c == '|' || c == ';' || c == '<' || c == '>'
    || c == '(' || c == ')' || c == '$' || c == '`' || c == '\\' || c == '"' || c == '\''
    || c == '*' || c == '?' || c == '[' || c == '#' || c == '~'
  }

  function ReadUnquoted(r: Reader, c: char): Reader {
    if c == ' ' || c == '\t' then r.EndWord()
    else if c == '&' then r.EndWord().Go(AfterAmpersand)
    else if c == '\'' then r.Append("").Go(InSingle)
    else if c == '"' then r.Append("").Go(InDouble)
    else if c == '\\' then r.Go(AfterBackslash)
    else if (c == '#' || c == '~') && r.word.Some? then r.Append([c])
    else if Special(c) then r.Go(GaveUp)
    else r.Append([c])
  }

  function Read(r: Reader, c: char): Reader {
    match r.mode
    case Unquoted => ReadUnquoted(r, c)
    case InSingle => if c == '\'' then r.Go(Unquoted) else r.Append([c])
    case InDouble =>
      if c == '"' then r.Go(Unquoted)
      else if c == '\\' then r.Go(AfterBackslashInDouble)
      else if c == '$' || c == '`' then r.Go(GaveUp)
      else r.Append([c])
    case AfterBackslash =>
      // a backslash-newline is a line continuation
      (if c == '\n' then r else r.Append([c])).Go(Unquoted)
    case AfterBackslashInDouble =>
      (if c == '\n' then r
       else if c == '$' || c == '`' || c == '"' || c == '\\' then r.Append([c])
       else r.Append(['\\', c])).Go(InDouble)
    case AfterAmpersand =>
      if c == '&' then Reader(Unquoted, r.word, r.tokens + [AndIf]) else r.Go(GaveUp)
    case GaveUp => r
  }

  function ReadAll(r: Reader, s: string): Reader
    decreases |s|
  {
    if s == "" then r else ReadAll(Read(r, s[0]), s[1..])
  }

  /** The tokens of a complete input, if the reader understands it. */
  function Tokens(s: string): Option<seq<Token>> {
    var r := ReadAll(START, s);
    if r.mode == Unquoted then Some(r.EndWord().tokens) else None
  }

  lemma {:induction false} ReadAllSplits(r: Reader, a: string, b: string)
    ensures ReadAll(r, a + b) == ReadAll(ReadAll(r, a), b)
    decreases |a|
  {
    if a == "" {
      assert a + b == b;
    } else {
      assert (a + b)[0] == a[0] && (a + b)[1..] == a[1..] + b;
      ReadAllSplits(Read(r, a[0]), a[1..], b);
    }
  }

  lemma ReadOne(r: Reader, c: char)
    ensures ReadAll(r, [c]) == Read(r, c)
  {
    assert [c][1..] == "";
  }

  // ----- the printer -----

  /** strings.ReplaceAll of a quote by quote, backslash, quote, quote. */
  function Escaped(value: string): string {
    if value == "" then ""
    else (if value[0] == '\'' then "'\\''" else [value[0]]) + Escaped(value[1..])
  }

  function ShellQuote(value: string): string {
    "'" + Escaped(value) + "'"
  }

  /** The four characters that stand for a quote put one quote into the word. */
  lemma QuoteInside(r: Reader)
    requires r.mode == InSingle && r.word.Some?
    ensures ReadAll(r, "'\\''") == r.Append("'")
  {
    var r1 := r.Go(Unquoted);
    var r2 := r1.Go(AfterBackslash);
    var r3 := r1.Append("'");
    assert r3.Built() + "" == r3.Built();
    assert "'\\''" == ['\''] + ['\\'] + ['\''] + ['\''];
    ReadAllSplits(r, ['\''] + ['\\'] + ['\''], ['\'']);
    ReadAllSplits(r, ['\''] + ['\\'], ['\'']);
    ReadAllSplits(r, ['\''], ['\\']);
    ReadOne(r, '\'');
    ReadOne(r1, '\\');
    ReadOne(r2, '\'');
    ReadOne(r3, '\'');
  }

  lemma {:induction false} EscapedReads(r: Reader, value: string)
    requires r.mode == InSingle && r.word.Some?
    ensures ReadAll(r, Escaped(value)) == r.Append(value)
    decreases |value|
  {
    if value == "" {
      assert r.Built() + "" == r.Built();
    } else {
      var c := value[0];
      var first := if c == '\'' then "'\\''" else [c];
      ReadAllSplits(r, first, Escaped(value[1..]));
      if c == '\'' {
        QuoteInside(r);
      } else {
        ReadOne(r, c);
      }
      EscapedReads(r.Append([c]), value[1..]);
      assert r.Built() + [c] + value[1..] == r.Built() + value;
    }
  }

  /** Wherever a word may go on or begin, reading a quoted value adds exactly that value to it
      and leaves the reader unquoted. */
  lemma QuotedReads(r: Reader, value: string)
    requires r.mode == Unquoted
    ensures ReadAll(r, ShellQuote(value)) == r.Append(value)
  {
    var inside := r.Append("").Go(InSingle);
    assert r.Built() + "" == r.Built();
    ReadAllSplits(r, "'" + Escaped(value), "'");
    ReadAllSplits(r, "'", Escaped(value));
    ReadOne(r, '\'');
    EscapedReads(inside, value);
    ReadOne(inside.Append(value), '\'');
  }

  /** The round trip: a shell reads a quoted value as one word, the value itself. */
  lemma QuoteRoundTrip(value: string)
    ensures Tokens(ShellQuote(value)) == Some([Word(value)])
  {
    QuotedReads(START, value);
    assert "" + value == value;
    assert [] + [Word(value)] == [Word(value)];
  }

  // ----- commands -----

  /** Characters that need no quoting. */
  predicate PlainChar(c: char) {
    'a' <= c <= 'z' || 'A' <= c <= 'Z' || '0' <= c <= '9' || c == '-' || c == '=' || c == ',' || c == '/'
  }

  predicate AllPlain(s: string) {
    forall i :: 0 <= i < |s| ==> PlainChar(s[i])
  }

  lemma {:induction false} PlainReads(r: Reader, s: string)
    requires r.mode == Unquoted && AllPlain(s) && s != ""
    ensures ReadAll(r, s) == r.Append(s)
    decreases |s|
  {
    var next := r.Append([s[0]]);
    assert PlainChar(s[0]) && Read(r, s[0]) == next;
    if s[1..] == "" {
      assert s == [s[0]];
    } else {
      assert AllPlain(s[1..]);
      PlainReads(next, s[1..]);
      assert r.Built() + [s[0]] + s[1..] == r.Built() + s;
    }
  }

  /** An argument as written into a command: bare text, or a quoted value. */
  datatype Arg = Bare(text: string) | Quoted(value: string) {

    function Written(): string {
      match this
      case Bare(text) => text
      case Quoted(value) => ShellQuote(value)
    }

    function Meant(): string {
      match this
      case Bare(text) => text
      case Quoted(value) => value
    }

    /** Only text that needs no quoting is written bare. */
    predicate Sound() {
      Bare? ==> text != "" && AllPlain(text)
    }
  }

  predicate AllSound(args: seq<Arg>) {
    args != [] && forall i :: 0 <= i < |args| ==> args[i].Sound()
  }

  /** A simple command, its arguments separated by blanks. */
  function Line(args: seq<Arg>): string {
    if args == [] then ""
    else if |args| == 1 then args[0].Written()
    else Line(args[..|args| - 1]) + " " + args[|args| - 1].Written()
  }

  function Words(args: seq<Arg>): seq<Token> {
    seq(|args|, i requires 0 <= i < |args| => Word(args[i].Meant()))
  }

  /** strings.Join(commands, " && "). */
  function Script(commands: seq<seq<Arg>>): string {
    if commands == [] then ""
    else if |commands| == 1 then Line(commands[0])
    else Script(commands[..|commands| - 1]) + " && " + Line(commands[|commands| - 1])
  }

  /** What the script is meant to say: the words of each command, and && between commands. */
  function Meaning(commands: seq<seq<Arg>>): seq<Token> {
    if commands == [] then []
    else if |commands| == 1 then Words(commands[0])
    else Meaning(commands[..|commands| - 1]) + [AndIf] + Words(commands[|commands| - 1])
  }

  lemma ArgReads(r: Reader, a: Arg)
    requires r.mode == Unquoted && r.word == None && a.Sound()
    ensures ReadAll(r, a.Written()) == Reader(Unquoted, Some(a.Meant()), r.tokens)
  {
    assert "" + a.Meant() == a.Meant();
    match a
    case Bare(text) => PlainReads(r, text);
    case Quoted(value) => QuotedReads(r, value);
  }

  lemma BlankReads(r: Reader, text: string, a: Arg)
    requires var r1 := ReadAll(r, text); r1.mode == Unquoted && r1.word.Some? && a.Sound()
    ensures var r1 := ReadAll(r, text);
            ReadAll(r, text + " " + a.Written()) == Reader(Unquoted, Some(a.Meant()), r1.EndWord().tokens)
  {
    ReadAllSplits(r, text + " ", a.Written());
    ReadAllSplits(r, text, " ");
    ReadOne(ReadAll(r, text), ' ');
    ArgReads(ReadAll(r, text + " "), a);
  }

  lemma WordsEnd(args: seq<Arg>, tokens: seq<Token>)
    requires args != []
    ensures var n := |args| - 1; tokens + Words(args[..n]) + [Word(args[n].Meant())] == tokens + Words(args)
  {
    assert args == args[..|args| - 1] + [args[|args| - 1]];
  }

  /** A simple command is read as exactly its arguments, whatever the quoted values are; its last
      word is still open. */
  lemma {:induction false} LineReads(r: Reader, args: seq<Arg>)
    requires r.mode == Unquoted && r.word == None && AllSound(args)
    ensures var end := ReadAll(r, Line(args));
            end.mode == Unquoted && end.word.Some? && end.EndWord().tokens == r.tokens + Words(args)
    decreases |args|
  {
    var n := |args| - 1;
    if n == 0 {
      ArgReads(r, args[0]);
      assert Words(args) == [Word(args[0].Meant())];
    } else {
      var front := args[..n];
      LineReads(r, front);
      BlankReads(r, Line(front), args[n]);
      WordsEnd(args, r.tokens);
    }
  }

  lemma AndReads(r: Reader)
    requires r.mode == Unquoted && r.word.Some?
    ensures ReadAll(r, " && ") == Reader(Unquoted, None, r.EndWord().tokens + [AndIf])
  {
    assert " && " == [' '] + ['&'] + ['&'] + [' '];
    var r1 := r.EndWord();
    var r2 := r1.Go(AfterAmpersand);
    var r3 := Reader(Unquoted, None, r1.tokens + [AndIf]);
    ReadAllSplits(r, [' '] + ['&'] + ['&'], [' ']);
    ReadAllSplits(r, [' '] + ['&'], ['&']);
    ReadAllSplits(r, [' '], ['&']);
    ReadOne(r, ' ');
    ReadOne(r1, '&');
    ReadOne(r2, '&');
    ReadOne(r3, ' ');
  }

  lemma {:induction false} ScriptReads(commands: seq<seq<Arg>>)
    requires commands != [] && forall i :: 0 <= i < |commands| ==> AllSound(commands[i])
    ensures var end := ReadAll(START, Script(commands));
            end.mode == Unquoted && end.word.Some? && end.EndWord().tokens == Meaning(commands)
    decreases |commands|
  {
    var n := |commands| - 1;
    var last := commands[n];
    if n == 0 {
      LineReads(START, last);
      assert [] + Words(last) == Words(last);
    } else {
      var front := commands[..n];
      ScriptReads(front);
      var r1 := ReadAll(START, Script(front));
      ReadAllSplits(START, Script(front) + " && ", Line(last));
      ReadAllSplits(START, Script(front), " && ");
      AndReads(r1);
      LineReads(Reader(Unquoted, None, Meaning(front) + [AndIf]), last);
    }
  }

  /** A script built from quoted parts is read as the intended words and operators, whatever the
      quoted values are. */
  lemma ScriptMeansItsWords(commands: seq<seq<Arg>>)
    requires commands != [] && forall i :: 0 <= i < |commands| ==> AllSound(commands[i])
    ensures Tokens(Script(commands)) == Some(Meaning(commands))
  {
    ScriptReads(commands);
  }
}
