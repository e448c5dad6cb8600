/** Shell quoting of internal/esxi/executor.go and the launch script of internal/esxi/detached.go, against the quoting
    rules of the POSIX shell: sections 2.2.1 to 2.2.3 and 2.3 of the Shell Command Language chapter of POSIX.1-2017. */
module Shell {
  import opened Text

  // -----------------------------------------------------------------------------------------------
  // The shell

  /** A word is literal when nothing in it is expanded, matched as a pattern or taken as a comment. */
  datatype Token = Word(text: string, literal: bool) | Op(c: char)

  datatype Mode =
    | Between
    | Bare(word: string, literal: bool)
    | Single(word: string, literal: bool)
    | Double(word: string, literal: bool)
    | Escaped(word: string, literal: bool)
    | DoubleEscaped(word: string, literal: bool)

  datatype Lexer = Lexer(tokens: seq<Token>, mode: Mode)

  predicate IsBlank(c: char)
  {
    c == ' ' || c == '\t'
  }

  predicate IsOp(c: char)
  {
    c == '\n' || c == '|' || c == '&' || c == ';' || c == '<' || c == '>' || c == '(' || c == ')'
  }

  /** Characters that mean something in an unquoted word. */
  predicate IsSpecial(c: char)
  {
    || c == '$' || c == '`' || c == '*' || c == '?' || c == '[' || c == '#' || c == '~' || c == '=' || c == '%' ||
         c == '!'
    || c == '{' || c == '}'
  }

  function InWord(tokens: seq<Token>, w: string, literal: bool, c: char): Lexer
  {
    if c == '\'' then Lexer(tokens, Single(w, literal))
    else if c == '"' then Lexer(tokens, Double(w, literal))
    else if c == '\\' then Lexer(tokens, Escaped(w, literal))
    else Lexer(tokens, Bare(w + [c], literal && !IsSpecial(c)))
  }

  /** One character of the input. */
  function Step(l: Lexer, c: char): Lexer
  {
    match l.mode
    case Between =>
      if IsBlank(c) then l
      else if IsOp(c) then Lexer(l.tokens + [Op(c)], Between)
      else InWord(l.tokens, "", true, c)
    case Bare(w, literal) =>
      if IsBlank(c) then Lexer(l.tokens + [Word(w, literal)], Between)
      else if IsOp(c) then Lexer(l.tokens + [Word(w, literal)] + [Op(c)], Between)
      else InWord(l.tokens, w, literal, c)
    case Single(w, literal) =>
      if c == '\'' then Lexer(l.tokens, Bare(w, literal)) else Lexer(l.tokens, Single(w + [c], literal))
    case Double(w, literal) =>
      if c == '"' then Lexer(l.tokens, Bare(w, literal))
      else if c == '\\' then Lexer(l.tokens, DoubleEscaped(w, literal))
      else Lexer(l.tokens, Double(w + [c], literal && c != '$' && c != '`'))
    case Escaped(w, literal) =>
      if c == '\n' then Lexer(l.tokens, Bare(w, literal)) else Lexer(l.tokens, Bare(w + [c], literal))
    case DoubleEscaped(w, literal) =>
      if c == '\n' then Lexer(l.tokens, Double(w, literal))
      else if c == '$' || c == '`' || c == '"' || c == '\\' then Lexer(l.tokens, Double(w + [c], literal))
      else Lexer(l.tokens, Double(w + ['\\', c], literal))
  }

  function Feed(l: Lexer, s: string): Lexer
    decreases |s|
  {
    if s == "" then l else Feed(Step(l, s[0]), s[1..])
  }

  /** The tokens of a whole input; None when a quote is left open. */
  function Tokens(s: string): Option<seq<Token>>
  {
    var l := Feed(Lexer([], Between), s);
    match l.mode
    case Between => Some(l.tokens)
    case Bare(w, literal) => Some(l.tokens + [Word(w, literal)])
    case _ => None
  }

  lemma {:induction false} FeedAppend(l: Lexer, s: string, t: string)
    ensures Feed(l, s + t) == Feed(Feed(l, s), t)
    decreases |s|
  {
    if s == "" {
      assert s + t == t;
    } else {
      assert (s + t)[0] == s[0] && (s + t)[1..] == s[1..] + t;
      FeedAppend(Step(l, s[0]), s[1..], t);
    }
  }

  // -----------------------------------------------------------------------------------------------
  // Quoting

  const CLOSE_QUOTE_OPEN := "'\"'\"'"

  /** `strings.ReplaceAll` of every quote. */
  function Replaced(s: string): string
  {
    if s == "" then "" else (if s[0] == '\'' then CLOSE_QUOTE_OPEN else [s[0]]) + Replaced(s[1..])
  }

  function Quote(s: string): string
  {
    "'" + Replaced(s) + "'"
  }

  function Join(args: seq<string>): string
  {
    if args == [] then ""
    else if |args| == 1 then Quote(args[0])
    else Join(args[..|args| - 1]) + " " + Quote(args[|args| - 1])
  }

  method Argv(args: seq<string>) returns (line: string)
    ensures line == Join(args)
  {
    line := "";
    for i := 0 to |args|
      invariant line == Join(args[..i])
    {
      assert args[..i + 1][..i] == args[..i];
      line := if i == 0 then Quote(args[0]) else line + " " + Quote(args[i]);
    }
    assert args[..|args|] == args;
  }

  lemma FeedTwo(l: Lexer, a: char, b: char)
    ensures Feed(l, [a, b]) == Step(Step(l, a), b)
  {
    assert [a, b][0] == a && [a, b][1..] == [b];
    assert [b][0] == b && [b][1..] == "";
    assert Feed(Step(l, a), [b]) == Feed(Step(Step(l, a), b), "");
  }

  /** Ending the quoted part, a quote in double quotes, and starting again adds just the quote. */
  lemma QuotedQuote(tokens: seq<Token>, w: string)
    ensures Feed(Lexer(tokens, Single(w, true)), CLOSE_QUOTE_OPEN) == Lexer(tokens, Single(w + "'", true))
  {
    var l := Lexer(tokens, Single(w, true));
    FeedAppend(l, "'\"", "'\"'");
    FeedTwo(l, '\'', '"');
    FeedAppend(Lexer(tokens, Double(w, true)), "'\"", "'");
    FeedTwo(Lexer(tokens, Double(w, true)), '\'', '"');
    assert "'"[1..] == "";
  }

  lemma {:induction false} FeedReplaced(tokens: seq<Token>, w: string, s: string)
    ensures Feed(Lexer(tokens, Single(w, true)), Replaced(s)) == Lexer(tokens, Single(w + s, true))
    decreases |s|
  {
    if s == "" {
      assert w + s == w;
    } else {
      var part := if s[0] == '\'' then CLOSE_QUOTE_OPEN else [s[0]];
      var l := Lexer(tokens, Single(w, true));
      FeedAppend(l, part, Replaced(s[1..]));
      if s[0] == '\'' {
        QuotedQuote(tokens, w);
      } else {
        assert [s[0]][1..] == "";
      }
      FeedReplaced(tokens, w + [s[0]], s[1..]);
      assert w + [s[0]] + s[1..] == w + s;
    }
  }

  /** A quoted argument is one literal word, whatever it holds. */
  lemma FeedQuote(tokens: seq<Token>, s: string)
    ensures Feed(Lexer(tokens, Between), Quote(s)) == Lexer(tokens, Bare(s, true))
  {
    var l := Lexer(tokens, Between);
    FeedAppend(l, "'", Replaced(s) + "'");
    assert "'" + (Replaced(s) + "'") == Quote(s) && "'"[1..] == "";
    FeedAppend(Lexer(tokens, Single("", true)), Replaced(s), "'");
    FeedReplaced(tokens, "", s);
    assert "" + s == s;
  }

  function Literals(args: seq<string>): seq<Token>
  {
    seq(|args|, i requires 0 <= i < |args| => Word(args[i], true))
  }

  lemma {:induction false} FeedArgv(tokens: seq<Token>, args: seq<string>)
    requires args != []
    ensures Feed(Lexer(tokens, Between), Join(args)) == Lexer(tokens + Literals(args[..|args| - 1]),
              Bare(args[|args| - 1], true))
  {
    var n := |args| - 1;
    if n == 0 {
      FeedQuote(tokens, args[0]);
      assert tokens + Literals(args[..0]) == tokens;
    } else {
      var l := Lexer(tokens, Between);
      var front := args[..n];
      FeedAppend(l, Join(front) + " ", Quote(args[n]));
      FeedAppend(l, Join(front), " ");
      FeedArgv(tokens, front);
      assert " "[1..] == "";
      assert Literals(front) == Literals(front[..n - 1]) + [Word(front[n - 1], true)];
      assert tokens + Literals(front) == tokens + Literals(front[..n - 1]) + [Word(front[n - 1], true)];
      FeedQuote(tokens + Literals(front), args[n]);
    }
  }

  /** For every list of arguments, the shell reads back exactly these arguments, each as one literal word. */
  lemma ArgvRoundTrip(args: seq<string>)
    ensures Tokens(Join(args)) == Some(Literals(args))
  {
    if args != [] {
      FeedArgv([], args);
      assert Literals(args) == [] + Literals(args[..|args| - 1]) + [Word(args[|args| - 1], true)];
    } else {
      assert Literals(args) == [];
    }
  }

  // -----------------------------------------------------------------------------------------------
  // Scripts

  /** The pieces scripts are made of: plain text without quotes, a quoted argument, and text in double quotes. */
  datatype Piece = Plain(text: string) | Arg(text: string) | Expanding(text: string)

  predicate WellFormed(p: Piece)
  {
    match p
    case Plain(t) => forall i :: 0 <= i < |t| ==> t[i] != '\'' && t[i] != '"' && t[i] != '\\'
    case Arg(_) => true
    case Expanding(t) => forall i :: 0 <= i < |t| ==> t[i] != '"' && t[i] != '\\'
  }

  predicate AllWellFormed(ps: seq<Piece>)
  {
    forall p :: p in ps ==> WellFormed(p)
  }

  function PieceText(p: Piece): string
  {
    match p
    case Plain(t) => t
    case Arg(t) => Quote(t)
    case Expanding(t) => "\"" + t + "\""
  }

  function Script(ps: seq<Piece>): string
  {
    if ps == [] then "" else Script(ps[..|ps| - 1]) + PieceText(ps[|ps| - 1])
  }

  /** No quote is open. */
  predicate Calm(m: Mode)
  {
    m.Between? || m.Bare?
  }

  lemma {:induction false} PlainKeepsCalm(l: Lexer, t: string)
    requires Calm(l.mode) && WellFormed(Plain(t))
    ensures Calm(Feed(l, t).mode)
    decreases |t|
  {
    if t != "" {
      PlainKeepsCalm(Step(l, t[0]), t[1..]);
    }
  }

  lemma {:induction false} SingleRuns(l: Lexer, t: string)
    requires l.mode.Single?
    ensures Feed(l, Replaced(t)).mode.Single?
    decreases |t|
  {
    if t != "" {
      var part := if t[0] == '\'' then CLOSE_QUOTE_OPEN else [t[0]];
      FeedAppend(l, part, Replaced(t[1..]));
      if t[0] == '\'' {
        FeedAppend(l, "'\"", "'\"'");
        FeedTwo(l, '\'', '"');
        var d := Feed(l, "'\"");
        FeedAppend(d, "'\"", "'");
        FeedTwo(d, '\'', '"');
        assert "'"[1..] == "";
      } else {
        assert [t[0]][1..] == "";
      }
      SingleRuns(Feed(l, part), t[1..]);
    }
  }

  lemma {:induction false} DoubleRuns(l: Lexer, t: string)
    requires l.mode.Double? && WellFormed(Expanding(t))
    ensures Feed(l, t).mode.Double?
    decreases |t|
  {
    if t != "" {
      DoubleRuns(Step(l, t[0]), t[1..]);
    }
  }

  lemma PieceKeepsCalm(l: Lexer, p: Piece)
    requires Calm(l.mode) && WellFormed(p)
    ensures Calm(Feed(l, PieceText(p)).mode)
  {
    match p
    case Plain(t) => PlainKeepsCalm(l, t);
    case Arg(t) =>
      assert Quote(t) == "'" + (Replaced(t) + "'") && "'"[1..] == "";
      FeedAppend(l, "'", Replaced(t) + "'");
      var s := Step(l, '\'');
      FeedAppend(s, Replaced(t), "'");
      SingleRuns(s, t);
    case Expanding(t) =>
      assert PieceText(p) == "\"" + (t + "\"") && "\""[1..] == "";
      FeedAppend(l, "\"", t + "\"");
      var s := Step(l, '"');
      FeedAppend(s, t, "\"");
      DoubleRuns(s, t);
  }

  lemma {:induction false} ScriptKeepsCalm(l: Lexer, ps: seq<Piece>)
    requires Calm(l.mode) && AllWellFormed(ps)
    ensures Calm(Feed(l, Script(ps)).mode)
  {
    if ps != [] {
      var front, last := ps[..|ps| - 1], ps[|ps| - 1];
      assert last in ps;
      FeedAppend(l, Script(front), PieceText(last));
      ScriptKeepsCalm(l, front);
      PieceKeepsCalm(Feed(l, Script(front)), last);
    }
  }

  /** Tokens are only ever added. */
  lemma {:induction false} TokensGrow(l: Lexer, s: string)
    ensures l.tokens <= Feed(l, s).tokens
    decreases |s|
  {
    if s != "" {
      TokensGrow(Step(l, s[0]), s[1..]);
    }
  }

  lemma LiteralsOfAll(args: seq<string>)
    requires args != []
    ensures Literals(args) == Literals(args[..|args| - 1]) + [Word(args[|args| - 1], true)]
  {
  }

  lemma FeedLine(l: Lexer, args: seq<string>, stop: char)
    requires l.mode.Between? && args != [] && (IsBlank(stop) || IsOp(stop))
    ensures Feed(l, Join(args) + [stop]) == Lexer(l.tokens + Literals(args) + if IsOp(stop) then [Op(stop)]
              else [], Between)
  {
    FeedAppend(l, Join(args), [stop]);
    FeedArgv(l.tokens, args);
    assert [stop][1..] == "";
    LiteralsOfAll(args);
    var w := Word(args[|args| - 1], true);
    assert l.tokens + Literals(args[..|args| - 1]) + [w] == l.tokens + Literals(args);
    assert l.tokens + Literals(args) + [] == l.tokens + Literals(args);
  }

  lemma {:induction false} ScriptBegins(ps: seq<Piece>)
    requires ps != []
    ensures Script(ps) == PieceText(ps[0]) + Script(ps[1..])
  {
    var n, rest := |ps| - 1, ps[1..];
    if n > 0 {
      ScriptBegins(ps[..n]);
      assert ps[..n][0] == ps[0] && ps[..n][1..] == rest[..n - 1] && rest[n - 1] == ps[n];
      ConcatIsAssociative(PieceText(ps[0]), Script(rest[..n - 1]), PieceText(ps[n]));
    }
  }

  /** A script that begins with a token of its own, which ends a command: `&`, `;`, `>` or the like. */
  predicate Opens(ps: seq<Piece>)
  {
    ps != [] && ps[0].Plain? && ps[0].text != "" && IsOp(ps[0].text[0])
  }

  lemma OpensWithOp(l: Lexer, ps: seq<Piece>)
    requires l.mode.Between? && Opens(ps)
    ensures l.tokens + [Op(ps[0].text[0])] <= Feed(l, Script(ps)).tokens
  {
    ScriptBegins(ps);
    var s := Script(ps);
    assert s[0] == ps[0].text[0];
    TokensGrow(Step(l, s[0]), s[1..]);
  }

  /** Reading `z` between words adds exactly these tokens. */
  ghost predicate Reads(z: string, tokens: seq<Token>)
  {
    forall l: Lexer {:trigger Feed(l, z)} :: l.mode.Between? ==> Feed(l, z) == Lexer(l.tokens + tokens, Between)
  }

  /** What is left to read after a point with no open quote only adds tokens. */
  lemma RestAdds(l: Lexer, after: seq<Piece>) returns (rest: seq<Token>)
    requires l.mode.Between? && AllWellFormed(after)
    ensures var m := Feed(l, Script(after));
            && (m.mode.Between? ==> m.tokens == l.tokens + rest)
            && (m.mode.Bare? ==> m.tokens + [Word(m.mode.word, m.mode.literal)] == l.tokens + rest)
            && Calm(m.mode)
    ensures Opens(after) ==> Begins(rest, Op(after[0].text[0]))
    ensures forall tokens :: Reads(Script(after), tokens) ==> rest == tokens
  {
    ScriptKeepsCalm(l, after);
    if Opens(after) {
      OpensWithOp(l, after);
    }
    TokensGrow(l, Script(after));
    var m := Feed(l, Script(after));
    var more := m.tokens[|l.tokens|..];
    assert m.tokens == l.tokens + more;
    rest := more + if m.mode.Bare? then [Word(m.mode.word, m.mode.literal)] else [];
    forall tokens | Reads(Script(after), tokens) ensures rest == tokens {
      assert m == Lexer(l.tokens + tokens, Between);
      assert (l.tokens + tokens)[|l.tokens|..] == tokens;
    }
  }

  predicate Begins(s: seq<Token>, t: Token)
  {
    s != [] && s[0] == t
  }

  predicate Ends(s: seq<Token>, t: Token)
  {
    s != [] && s[|s| - 1] == t
  }

  lemma Middle(before: seq<Piece>, z: string, tokens: seq<Token>, after: seq<Piece>)
    returns (pre: seq<Token>, rest: seq<Token>)
    requires AllWellFormed(before) && AllWellFormed(after) && Reads(z, tokens)
    ensures Tokens(Script(before) + "\n" + z + Script(after)) == Some(pre + tokens + rest)
    ensures Ends(pre, Op('\n')) && (Opens(after) ==> Begins(rest, Op(after[0].text[0])))
    ensures forall ts :: Reads(Script(after), ts) ==> rest == ts
  {
    var l := Lexer([], Between);
    FeedFour(l, Script(before), "\n", z, Script(after));
    ScriptKeepsCalm(l, before);
    var a := Newline(Feed(l, Script(before)));
    pre := a.tokens;
    rest := RestAdds(Lexer(pre + tokens, Between), after);
  }

  /** A command line inside a script is read as its arguments, whatever stands before and after it: it follows a
      newline, and right after it come exactly the tokens of what stands there. */
  lemma LineDelivers(before: seq<Piece>, args: seq<string>, stop: char, after: seq<Piece>)
    returns (pre: seq<Token>, post: seq<Token>)
    requires args != [] && AllWellFormed(before) && AllWellFormed(after)
    requires IsBlank(stop) || IsOp(stop)
    ensures Tokens(Script(before) + "\n" + (Join(args) + [stop]) + Script(after)) == Some(pre + Literals(args) + post)
    ensures Ends(pre, Op('\n'))
    ensures IsOp(stop) ==> Begins(post, Op(stop))
    ensures !IsOp(stop) && Opens(after) ==> Begins(post, Op(after[0].text[0]))
    ensures !IsOp(stop) ==> forall ts :: Reads(Script(after), ts) ==> post == ts
  {
    var op := if IsOp(stop) then [Op(stop)] else [];
    forall l: Lexer | l.mode.Between? ensures Feed(l, Join(args) + [stop]) ==
        Lexer(l.tokens + (Literals(args) + op), Between) {
      FeedLine(l, args, stop);
      assert l.tokens + Literals(args) + op == l.tokens + (Literals(args) + op);
    }
    var rest;
    pre, rest := Middle(before, Join(args) + [stop], Literals(args) + op, after);
    post := op + rest;
    assert pre + (Literals(args) + op) + rest == pre + Literals(args) + post;
  }

  lemma Newline(l: Lexer) returns (m: Lexer)
    requires Calm(l.mode)
    ensures m == Feed(l, "\n") && m.mode == Between && Ends(m.tokens, Op('\n'))
  {
    assert "\n"[1..] == "";
    m := Step(l, '\n');
  }

  lemma FeedFour(l: Lexer, x: string, y: string, z: string, t: string)
    ensures Feed(l, x + y + z + t) == Feed(Feed(Feed(Feed(l, x), y), z), t)
  {
    FeedAppend(l, x + y + z, t);
    FeedAppend(l, x + y, z);
    FeedAppend(l, x, y);
  }

  // -----------------------------------------------------------------------------------------------
  // The launch script

  function Command(args: seq<string>): seq<Piece>
  {
    if args == [] then []
    else if |args| == 1 then [Arg(args[0])]
    else Command(args[..|args| - 1]) + [Plain(" "), Arg(args[|args| - 1])]
  }

  /** `printf '%s\n' "<what>" > '<file>'` */
  function Note(what: string, file: string): seq<Piece>
  {
    [Plain("printf "), Arg("%s\\n"), Plain(" "), Expanding(what), Plain(" > "), Arg(file)]
  }

  /** The power check a cold clone begins with. */
  function PowerCheck(vm: string): seq<Piece>
  {
    [Plain("\nstate=$(")] + Command(["vim-cmd", "vmsvc/power.getstate", vm]) + Succeeded() + StateIsOff()
  }

  function Succeeded(): seq<Piece>
  {
    [Plain(")\nrc=$?\nif [ "), Expanding("$rc"), Plain(" -eq 0 ]; then\n")]
  }

  function StateIsOff(): seq<Piece>
  {
    [Plain("case "), Expanding("$state"), Plain(" in\n"), Arg("Powered off"), Plain("|"),
        Arg("Retrieved runtime info\nPowered off"), Plain(")")]
  }

  /** The worker up to the clone. */
  function WorkerHead(prefix: string, vm: string, requireOff: bool): seq<Piece>
  {
    [Plain("umask 077\n")] + Note("$$", prefix + ".pid") + if requireOff then PowerCheck(vm) else []
  }

  function Otherwise(): seq<Piece>
  {
    [Plain(";;\n*) rc=92 ;;\nesac\nfi\n")]
  }

  /** And from there on; the clone itself runs in the background. */
  function WorkerTail(prefix: string, requireOff: bool): seq<Piece>
  {
    Awaiting(prefix) + (if requireOff then Otherwise() else []) + Publishing(prefix)
  }

  function Awaiting(prefix: string): seq<Piece>
  {
    [Plain("&\n")] + Note("$!", prefix + ".clonepid") + [Plain("\nwait "), Expanding("$!"), Plain("\nrc=$?\n")]
  }

  function Publishing(prefix: string): seq<Piece>
  {
    Note("$rc", prefix + ".exit.tmp") + [Plain(" && ")] + Command(["mv", prefix + ".exit.tmp", prefix + ".exit"])
        + [Plain("\n")]
  }

  function Worker(prefix: string, vm: string, source: string, target: string, requireOff: bool): string
  {
    Script(WorkerHead(prefix, vm, requireOff)) + "\n" + (Join(["vmkfstools", "-i", source, target, "-d", "thin"])
        + " ") +
    Script(WorkerTail(prefix, requireOff))
  }

  function LaunchHead(prefix: string): seq<Piece>
  {
    [Plain("umask 077; ")] + Command(["mkdir", prefix + ".started"]) + [Plain(" || exit 90")]
  }

  function LaunchTail(prefix: string): seq<Piece>
  {
    [Plain("> "), Arg(prefix + ".log"), Plain(" 2>&1 < /dev/null &\n")]
  }

  /** The script of `StartClone`. */
  function Launch(prefix: string, vm: string, source: string, target: string, requireOff: bool): string
  {
    Script(LaunchHead(prefix)) + "\n" +
    (Join(["nohup", "sh", "-c", Worker(prefix, vm, source, target, requireOff)]) + " ") + Script(LaunchTail(prefix))
  }

  lemma {:induction false} CommandIsWellFormed(args: seq<string>)
    ensures AllWellFormed(Command(args))
  {
    if |args| > 1 {
      CommandIsWellFormed(args[..|args| - 1]);
    }
  }

  lemma NoteIsWellFormed(what: string, file: string)
    requires WellFormed(Expanding(what))
    ensures AllWellFormed(Note(what, file))
  {
  }

  lemma PowerCheckIsWellFormed(vm: string)
    ensures AllWellFormed(PowerCheck(vm))
  {
    var ask := [Plain("\nstate=$(")] + Command(["vim-cmd", "vmsvc/power.getstate", vm]);
    CommandIsWellFormed(["vim-cmd", "vmsvc/power.getstate", vm]);
    assert AllWellFormed(ask);
    SucceededIsWellFormed();
    StateIsOffIsWellFormed();
    Both(ask, Succeeded());
    Both(ask + Succeeded(), StateIsOff());
  }

  lemma Both(a: seq<Piece>, b: seq<Piece>)
    requires AllWellFormed(a) && AllWellFormed(b)
    ensures AllWellFormed(a + b)
  {
  }

  lemma SucceededIsWellFormed()
    ensures AllWellFormed(Succeeded())
  {
  }

  lemma StateIsOffIsWellFormed()
    ensures AllWellFormed(StateIsOff())
  {
    assert WellFormed(Plain("case ")) && WellFormed(Expanding("$state")) && WellFormed(Plain(" in\n"));
  }

  lemma HeadIsWellFormed(prefix: string, vm: string, requireOff: bool)
    ensures AllWellFormed(WorkerHead(prefix, vm, requireOff))
  {
    NoteIsWellFormed("$$", prefix + ".pid");
    PowerCheckIsWellFormed(vm);
  }

  lemma AwaitingIsWellFormed(prefix: string)
    ensures AllWellFormed(Awaiting(prefix))
  {
    NoteIsWellFormed("$!", prefix + ".clonepid");
  }

  lemma PublishingIsWellFormed(prefix: string)
    ensures AllWellFormed(Publishing(prefix))
  {
    NoteIsWellFormed("$rc", prefix + ".exit.tmp");
    CommandIsWellFormed(["mv", prefix + ".exit.tmp", prefix + ".exit"]);
  }

  lemma OtherwiseIsWellFormed()
    ensures AllWellFormed(Otherwise())
  {
  }

  lemma TailIsWellFormed(prefix: string, requireOff: bool)
    ensures AllWellFormed(WorkerTail(prefix, requireOff))
  {
    AwaitingIsWellFormed(prefix);
    OtherwiseIsWellFormed();
    PublishingIsWellFormed(prefix);
  }

  lemma LaunchIsWellFormed(prefix: string)
    ensures AllWellFormed(LaunchHead(prefix)) && AllWellFormed(LaunchTail(prefix))
  {
    LaunchHeadIsWellFormed(prefix);
  }

  lemma LaunchHeadIsWellFormed(prefix: string)
    ensures AllWellFormed(LaunchHead(prefix))
  {
    CommandIsWellFormed(["mkdir", prefix + ".started"]);
  }

  /** A character that stands for itself in an unquoted word. */
  predicate IsPlain(c: char)
  {
    !IsBlank(c) && !IsOp(c) && !IsSpecial(c) && c != '\'' && c != '"' && c != '\\'
  }

  lemma {:induction false} FeedPlain(tokens: seq<Token>, u: string, w: string)
    requires forall i :: 0 <= i < |w| ==> IsPlain(w[i])
    ensures Feed(Lexer(tokens, Bare(u, true)), w) == Lexer(tokens, Bare(u + w, true))
    decreases |w|
  {
    if w == "" {
      assert u + w == u;
    } else {
      FeedPlain(tokens, u + [w[0]], w[1..]);
      assert u + [w[0]] + w[1..] == u + w;
    }
  }

  /** An unquoted word and the blank after it. */
  lemma WordReads(w: string, z: string)
    requires w != "" && (forall i :: 0 <= i < |w| ==> IsPlain(w[i])) && z == w + " "
    ensures Reads(z, [Word(w, true)])
  {
    forall l: Lexer | l.mode.Between? ensures Feed(l, z) == Lexer(l.tokens + [Word(w, true)], Between) {
      FeedAppend(l, w, " ");
      assert Step(l, w[0]) == Lexer(l.tokens, Bare([w[0]], true));
      FeedPlain(l.tokens, [w[0]], w[1..]);
      assert [w[0]] + w[1..] == w;
      FeedOne(Lexer(l.tokens, Bare(w, true)), ' ');
    }
  }

  /** An unquoted word and the operator after it. */
  lemma WordOpReads(w: string, c: char, z: string)
    requires w != "" && (forall i :: 0 <= i < |w| ==> IsPlain(w[i])) && z == w + [c] && IsOp(c)
    ensures Reads(z, [Word(w, true), Op(c)])
  {
    forall l: Lexer | l.mode.Between? ensures Feed(l, z) == Lexer(l.tokens + [Word(w, true), Op(c)], Between) {
      FeedAppend(l, w, [c]);
      assert Step(l, w[0]) == Lexer(l.tokens, Bare([w[0]], true));
      FeedPlain(l.tokens, [w[0]], w[1..]);
      assert [w[0]] + w[1..] == w;
      FeedOne(Lexer(l.tokens, Bare(w, true)), c);
      assert l.tokens + [Word(w, true)] + [Op(c)] == l.tokens + [Word(w, true), Op(c)];
    }
  }

  lemma FeedOne(l: Lexer, c: char)
    ensures Feed(l, [c]) == Step(l, c)
  {
    assert [c][1..] == "";
  }

  lemma OpReads(c: char, z: string)
    requires IsOp(c) && (z == [c] || z == [c, ' '])
    ensures Reads(z, [Op(c)])
  {
    forall l: Lexer | l.mode.Between? ensures Feed(l, z) == Lexer(l.tokens + [Op(c)], Between) {
      FeedOne(l, c);
      FeedTwo(l, c, ' ');
    }
  }

  lemma QuoteReads(x: string)
    ensures Reads(Quote(x) + " ", [Word(x, true)])
  {
    forall l: Lexer | l.mode.Between? ensures Feed(l, Quote(x) + " ") == Lexer(l.tokens + [Word(x, true)], Between) {
      FeedAppend(l, Quote(x), " ");
      FeedQuote(l.tokens, x);
      FeedOne(Lexer(l.tokens, Bare(x, true)), ' ');
    }
  }

  lemma ReadsBoth(x: string, xs: seq<Token>, y: string, ys: seq<Token>, z: string, zs: seq<Token>)
    requires Reads(x, xs) && Reads(y, ys) && z == x + y && zs == xs + ys
    ensures Reads(z, zs)
  {
    forall l: Lexer | l.mode.Between? ensures Feed(l, z) == Lexer(l.tokens + zs, Between) {
      FeedAppend(l, x, y);
      assert l.tokens + xs + ys == l.tokens + zs;
    }
  }

  const TWO := Word("2", true)
  const ONE := Word("1", true)
  const NULL := Word("/dev/null", true)

  /** `2>&1`, the redirection of the other output. */
  lemma ErrorsRead()
    ensures Reads("2>&1 ", [TWO, Op('>'), Op('&'), ONE])
  {
    WordOpReads("2", '>', "2>");
    OpReads('&', "&");
    WordReads("1", "1 ");
    ReadsBoth("2>", [TWO, Op('>')], "&", [Op('&')], "2>&", [TWO, Op('>'), Op('&')]);
    ReadsBoth("2>&", [TWO, Op('>'), Op('&')], "1 ", [ONE], "2>&1 ", [TWO, Op('>'), Op('&'), ONE]);
  }

  lemma NullReads()
    ensures Reads("< /dev/null ", [Op('<'), NULL])
  {
    OpReads('<', "< ");
    WordReads("/dev/null", "/dev/null ");
    ReadsBoth("< ", [Op('<')], "/dev/null ", [NULL], "< /dev/null ", [Op('<'), NULL]);
  }

  lemma LineEndReads()
    ensures Reads("&\n", [Op('&'), Op('\n')])
  {
    OpReads('&', "&");
    OpReads('\n', "\n");
    ReadsBoth("&", [Op('&')], "\n", [Op('\n')], "&\n", [Op('&'), Op('\n')]);
  }

  /** The quoted log file, as the first redirection. */
  lemma LogReads(log: string)
    ensures Reads("> " + (Quote(log) + " "), [Op('>'), Word(log, true)])
  {
    OpReads('>', "> ");
    QuoteReads(log);
    var z := "> " + (Quote(log) + " ");
    ReadsBoth("> ", [Op('>')], Quote(log) + " ", [Word(log, true)], z, [Op('>'), Word(log, true)]);
  }

  /** Three redirections, an ampersand and the end of the line: no word of it is an argument. */
  function Redirected(log: string): seq<Token>
  {
    [Op('>'), Word(log, true)] + [TWO, Op('>'), Op('&'), ONE] + [Op('<'), NULL] + [Op('&'), Op('\n')]
  }

  lemma RedirectedReads(log: string, z: string)
    requires z == "> " + (Quote(log) + " ") + "2>&1 " + "< /dev/null " + "&\n"
    ensures Reads(z, Redirected(log))
  {
    LogReads(log);
    ErrorsRead();
    NullReads();
    LineEndReads();
    Four("> " + (Quote(log) + " "), [Op('>'), Word(log, true)], "2>&1 ", [TWO, Op('>'), Op('&'), ONE],
         "< /dev/null ", [Op('<'), NULL], "&\n", [Op('&'), Op('\n')]);
  }

  lemma Four(x: string, xs: seq<Token>, y: string, ys: seq<Token>, z: string, zs: seq<Token>, u: string, us: seq<Token>)
    requires Reads(x, xs) && Reads(y, ys) && Reads(z, zs) && Reads(u, us)
    ensures Reads(x + y + z + u, xs + ys + zs + us)
  {
    ReadsBoth(x, xs, y, ys, x + y, xs + ys);
    ReadsBoth(x + y, xs + ys, z, zs, x + y + z, xs + ys + zs);
    ReadsBoth(x + y + z, xs + ys + zs, u, us, x + y + z + u, xs + ys + zs + us);
  }

  lemma {:induction false} ScriptOfThree(p: Piece, q: Piece, r: Piece)
    ensures Script([p, q, r]) == PieceText(p) + PieceText(q) + PieceText(r)
  {
    assert [p, q, r][..2] == [p, q] && [p, q][..1] == [p] && [p][..0] == [];
    assert Script([p]) == PieceText(p);
    assert Script([p, q]) == PieceText(p) + PieceText(q);
  }

  lemma Regroup(a: string, q: string, b: string, c: string, d: string, rest: string)
    requires rest == " " + b + c + d
    ensures a + q + rest == a + (q + " ") + b + c + d
  {
  }

  lemma LaunchTailReads(prefix: string)
    ensures Reads(Script(LaunchTail(prefix)), Redirected(prefix + ".log"))
  {
    var log := prefix + ".log";
    ScriptOfThree(Plain("> "), Arg(log), Plain(" 2>&1 < /dev/null &\n"));
    Regroup("> ", Quote(log), "2>&1 ", "< /dev/null ", "&\n", " 2>&1 < /dev/null &\n");
    RedirectedReads(log, Script(LaunchTail(prefix)));
  }

  lemma OuterLine(prefix: string, worker: string) returns (a: seq<Token>, b: seq<Token>)
    ensures Tokens(Script(LaunchHead(prefix)) + "\n" + (Join(["nohup", "sh", "-c", worker]) + " ")
              + Script(LaunchTail(prefix))) ==
            Some(a + Literals(["nohup", "sh", "-c", worker]) + b)
    ensures Ends(a, Op('\n')) && b == Redirected(prefix + ".log")
  {
    LaunchIsWellFormed(prefix);
    LaunchTailReads(prefix);
    a, b := LineDelivers(LaunchHead(prefix), ["nohup", "sh", "-c", worker], ' ', LaunchTail(prefix));
  }

  lemma WorkerTailOpens(prefix: string, requireOff: bool)
    ensures Opens(WorkerTail(prefix, requireOff)) && WorkerTail(prefix, requireOff)[0].text[0] == '&'
  {
    assert Awaiting(prefix)[0] == Plain("&\n");
  }

  lemma InnerLine(prefix: string, vm: string, args: seq<string>, requireOff: bool)
    returns (c: seq<Token>, d: seq<Token>)
    requires args != []
    ensures Tokens(Script(WorkerHead(prefix, vm, requireOff)) + "\n" + (Join(args) + " ")
              + Script(WorkerTail(prefix, requireOff))) ==
            Some(c + Literals(args) + d)
    ensures Ends(c, Op('\n')) && Begins(d, Op('&'))
  {
    HeadIsWellFormed(prefix, vm, requireOff);
    TailIsWellFormed(prefix, requireOff);
    WorkerTailOpens(prefix, requireOff);
    c, d := LineDelivers(WorkerHead(prefix, vm, requireOff), args, ' ', WorkerTail(prefix, requireOff));
  }

  /** Through both levels, the outer shell hands the worker script over unchanged, and the inner one hands the clone
      exactly its arguments, whatever the file names hold: each of the two commands begins after a newline; the outer is
      followed by its redirections, an ampersand and the end of the script, the inner by an ampersand. */
  lemma NestedQuoting(prefix: string, vm: string, source: string, target: string, requireOff: bool)
    returns (a: seq<Token>, b: seq<Token>, c: seq<Token>, d: seq<Token>)
    ensures Tokens(Launch(prefix, vm, source, target, requireOff)) ==
            Some(a + Literals(["nohup", "sh", "-c", Worker(prefix, vm, source, target, requireOff)]) + b)
    ensures Tokens(Worker(prefix, vm, source, target, requireOff)) ==
            Some(c + Literals(["vmkfstools", "-i", source, target, "-d", "thin"]) + d)
    ensures Ends(a, Op('\n')) && b == Redirected(prefix + ".log") && Ends(c, Op('\n')) && Begins(d, Op('&'))
  {
    a, b := OuterLine(prefix, Worker(prefix, vm, source, target, requireOff));
    c, d := InnerLine(prefix, vm, ["vmkfstools", "-i", source, target, "-d", "thin"], requireOff);
  }
}
