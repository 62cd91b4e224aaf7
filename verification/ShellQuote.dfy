/**
 Shell quoting of commands (executors.py:35-67 and 407) against the token recognition of a POSIX
 shell: sections 2.2.1 (escape character), 2.2.2 (single quotes), 2.3 (token recognition) and 2.10.1
 of the Shell Command Language, POSIX.1-2017.
 */
module ShellQuote {
  import opened Types

  // ----- the printer

  /** A command argument: a plain string, a string marked `noquote`, or a list of arguments. */
  datatype Arg = Plain(text: string) | NoQuote(text: string) | Nested(args: seq<Arg>)

  /** `s.replace("'", "'\\''")`. */
  function Escaped(s: string): string {
    if s == "" then "" else (if s[0] == '\'' then "'\\''" else [s[0]]) + Escaped(s[1..])
  }

  function Quoted(s: string): string { "'" + Escaped(s) + "'" }

  function ArgQuote(a: Arg): string
    decreases a
  {
    match a
    case NoQuote(s) => s
    case Nested(args) => Quoted(Joined(args))
    case Plain(s) => Quoted(s)
  }

  /** `' '.join(map(_argquote, args))`. */
  function Joined(args: seq<Arg>): string
    decreases args
  {
    if args == [] then ""
    else if |args| == 1 then ArgQuote(args[0])
    else ArgQuote(args[0]) + " " + Joined(args[1..])
  }

  /** `shellquote`: only a list is quoted. */
  function ShellQuoted(command: Arg): string {
    if command.Nested? then Joined(command.args) else command.text
  }

  // ----- the shell

  /** A word after quote removal, with a note whether any of it was quoted. */
  datatype Token = Word(value: string, quoted: bool) | IoNumber(digits: string) | Operator(text: string)

  datatype Mode = Blank | Bare | InQuotes | Escape | InOperator | Failed

  datatype Config = Config(mode: Mode, text: string, quoted: bool, tokens: seq<Token>)

  const START := Config(Blank, "", false, [])

  predicate IsOperator(s: string) {
    s in ["&", "&&", "|", "||", ";", ";;", "<", ">", "<<", ">>", "<&", ">&", "<>", "<<-", ">|", "(", ")"]
  }

  predicate IsBlank(ch: char) { ch == ' ' || ch == '\t' }

  predicate AllDigits(s: string) { s != "" && forall i | 0 <= i < |s| :: '0' <= s[i] <= '9' }

  /** Characters that begin constructs outside this fragment when they are not quoted. */
  predicate Unsupported(ch: char) { ch == '$' || ch == '`' || ch == '"' || ch == '\n' }

  /** The current token is delimited by `next`, or by the end of the input if there is none. */
  function Delimit(c: Config, next: Option<char>): seq<Token> {
    match c.mode
    case Bare =>
      if !c.quoted && AllDigits(c.text) && next.Some? && (next.value == '<' || next.value == '>')
      then c.tokens + [IoNumber(c.text)]
      else c.tokens + [Word(c.text, c.quoted)]
    case InOperator => c.tokens + [Operator(c.text)]
    case _ => c.tokens
  }

  const STUCK := Config(Failed, "", false, [])

  /** A character at a place where a new token may start. */
  function Begin(tokens: seq<Token>, ch: char): Config {
    if IsBlank(ch) then Config(Blank, "", false, tokens)
    else if ch == '\'' then Config(InQuotes, "", true, tokens)
    else if ch == '\\' then Config(Escape, "", true, tokens)
    else if IsOperator([ch]) then Config(InOperator, [ch], false, tokens)
    else if Unsupported(ch) || ch == '#' then STUCK
    else Config(Bare, [ch], false, tokens)
  }

  function Step(c: Config, ch: char): Config {
    match c.mode
    case Failed => STUCK
    case InQuotes => if ch == '\'' then c.(mode := Bare) else c.(text := c.text + [ch])
    case Escape => if ch == '\n' then STUCK else c.(mode := Bare, text := c.text + [ch])
    case Blank => Begin(c.tokens, ch)
    case InOperator =>
      if IsOperator(c.text + [ch]) then c.(text := c.text + [ch]) else Begin(Delimit(c, Some(ch)), ch)
    case Bare =>
      if ch == '\'' then c.(mode := InQuotes, quoted := true)
      else if ch == '\\' then c.(mode := Escape, quoted := true)
      else if IsBlank(ch) || IsOperator([ch]) then Begin(Delimit(c, Some(ch)), ch)
      else if Unsupported(ch) then STUCK
      else c.(text := c.text + [ch])
  }

  function Read(c: Config, s: string): Config
    decreases |s|
  {
    if s == "" then c else Read(Step(c, s[0]), s[1..])
  }

  /** The tokens of a complete input; none if a quote is left open or a construct is not supported. */
  function Tokens(s: string): Option<seq<Token>> {
    var c := Read(START, s);
    if c.mode in {InQuotes, Escape, Failed} then None else Some(Delimit(c, None))
  }

  // ----- reading in pieces

  lemma {:induction false} ReadConcat(c: Config, a: string, b: string)
    ensures Read(c, a + b) == Read(Read(c, a), b)
    decreases |a|
  {
    if a == "" {
      assert a + b == b;
    } else {
      assert (a + b)[0] == a[0] && (a + b)[1..] == a[1..] + b;
      ReadConcat(Step(c, a[0]), a[1..], b);
    }
  }

  /** The same configuration after some earlier tokens. */
  function After(ts: seq<Token>, c: Config): Config {
    if c.mode == Failed then c else c.(tokens := ts + c.tokens)
  }

  lemma StepAfter(ts: seq<Token>, c: Config, ch: char)
    ensures Step(After(ts, c), ch) == After(ts, Step(c, ch))
  {
    if c.mode == Bare || c.mode == InOperator {
      assert Delimit(After(ts, c), Some(ch)) == ts + Delimit(c, Some(ch));
    }
  }

  lemma {:induction false} ReadAfter(ts: seq<Token>, c: Config, s: string)
    ensures Read(After(ts, c), s) == After(ts, Read(c, s))
    decreases |s|
  {
    if s != "" {
      StepAfter(ts, c, s[0]);
      ReadAfter(ts, Step(c, s[0]), s[1..]);
    }
  }

  predicate Clean(c: Config) { c.mode == Blank ==> c.text == "" && !c.quoted }

  lemma {:induction false} ReadClean(c: Config, s: string)
    requires Clean(c)
    ensures Clean(Read(c, s))
    decreases |s|
  {
    if s != "" { ReadClean(Step(c, s[0]), s[1..]); }
  }

  /** A complete piece followed by a blank adds exactly its own tokens. */
  lemma PieceThenBlank(ts: seq<Token>, s: string)
    requires Tokens(s).Some?
    ensures Read(Config(Blank, "", false, ts), s + " ") == Config(Blank, "", false, ts + Tokens(s).value)
  {
    var c := Read(START, s);
    assert After(ts, START) == Config(Blank, "", false, ts);
    ReadAfter(ts, START, s);
    ReadConcat(After(ts, START), s, " ");
    ReadClean(START, s);
    BlankDelimits(c);
    StepAfter(ts, c, ' ');
    assert Read(After(ts, c), " ") == Step(After(ts, c), ' ');
  }

  lemma BlankDelimits(c: Config)
    requires c.mode !in {InQuotes, Escape, Failed}
    requires Clean(c)
    ensures Step(c, ' ') == Config(Blank, "", false, Delimit(c, None))
  {
    if c.mode == InOperator {
      assert (c.text + [' '])[|c.text|] == ' ';
    }
  }

  // ----- quoting

  lemma {:induction false} EscapedReads(c: Config, s: string)
    requires c.mode == InQuotes && c.quoted
    ensures Read(c, Escaped(s)) == c.(text := c.text + s)
    decreases |s|
  {
    if s == "" {
      assert c.text + s == c.text;
    } else {
      var head := if s[0] == '\'' then "'\\''" else [s[0]];
      ReadConcat(c, head, Escaped(s[1..]));
      HeadReads(c, s[0]);
      EscapedReads(c.(text := c.text + [s[0]]), s[1..]);
      assert c.text + [s[0]] + s[1..] == c.text + s;
    }
  }

  lemma HeadReads(c: Config, ch: char)
    requires c.mode == InQuotes && c.quoted
    ensures Read(c, if ch == '\'' then "'\\''" else [ch]) == c.(text := c.text + [ch])
  {
    if ch == '\'' {
      var s := "'\\''";
      assert s[1..] == "\\''" && s[1..][1..] == "''" && s[1..][1..][1..] == "'";
      assert Step(Step(c, s[0]), s[1]) == c.(mode := Escape);
      assert Read(c, s) == Read(Step(c, s[0]), s[1..]);
      assert Read(Step(c, s[0]), s[1..]) == Read(c.(mode := Escape), "''");
      assert Read(c.(mode := Escape), "''") == Read(c.(mode := Bare, text := c.text + ['\'']), "'");
    }
  }

  lemma QuotedReads(s: string)
    ensures Read(START, Quoted(s)) == Config(Bare, s, true, [])
    ensures Tokens(Quoted(s)) == Some([Word(s, true)])
  {
    var open := Config(InQuotes, "", true, []);
    assert Quoted(s) == "'" + (Escaped(s) + "'");
    ReadConcat(START, "'", Escaped(s) + "'");
    assert Read(START, "'") == open;
    ReadConcat(open, Escaped(s), "'");
    EscapedReads(open, s);
    assert open.text + s == s;
    assert Read(open.(text := s), "'") == Config(Bare, s, true, []);
    assert [] + [Word(s, true)] == [Word(s, true)];
  }

  // ----- whole commands

  /** The tokens an argument stands for: one word, or those of the marked string. */
  function TokensOf(a: Arg): Option<seq<Token>> {
    match a
    case Plain(s) => Some([Word(s, true)])
    case Nested(args) => Some([Word(Joined(args), true)])
    case NoQuote(s) => Tokens(s)
  }

  predicate Readable(args: seq<Arg>) {
    forall i | 0 <= i < |args| :: TokensOf(args[i]).Some?
  }

  function AllTokens(args: seq<Arg>): seq<Token>
    requires Readable(args)
  {
    if args == [] then [] else TokensOf(args[0]).value + AllTokens(args[1..])
  }

  lemma ArgReads(a: Arg)
    ensures Tokens(ArgQuote(a)) == TokensOf(a)
  {
    match a
    case Plain(s) => QuotedReads(s);
    case Nested(args) => QuotedReads(Joined(args));
    case NoQuote(s) =>
  }

  lemma JoinReads(a: string, b: string)
    requires Tokens(a).Some? && Tokens(b).Some?
    ensures Tokens((a + " ") + b) == Some(Tokens(a).value + Tokens(b).value)
  {
    var ts := Tokens(a).value;
    PieceThenBlank([], a);
    assert [] + ts == ts;
    assert After(ts, START) == Config(Blank, "", false, ts);
    ReadConcat(START, a + " ", b);
    ReadAfter(ts, START, b);
    var c := Read(START, b);
    assert Delimit(After(ts, c), None) == ts + Delimit(c, None);
  }

  /**
   A shell that reads the quoted command sees each quoted argument as one word with exactly the
   given text, and each marked argument as whatever it means on its own.
   */
  lemma {:induction false} QuotingRoundTrip(args: seq<Arg>)
    requires Readable(args)
    ensures Tokens(ShellQuoted(Nested(args))) == Some(AllTokens(args))
    decreases |args|
  {
    if args == [] {
    } else {
      ArgReads(args[0]);
      if |args| == 1 {
        assert AllTokens(args[1..]) == [];
        assert AllTokens(args) == TokensOf(args[0]).value;
      } else {
        var first, rest := ArgQuote(args[0]), Joined(args[1..]);
        QuotingRoundTrip(args[1..]);
        assert Joined(args) == (first + " ") + rest;
        JoinReads(first, rest);
      }
    }
  }

  /** The condition on marked arguments is needed: an open quote swallows its neighbour. */
  lemma OpenQuotesMerge()
    ensures var args := [NoQuote("'"), NoQuote("'")];
            !Readable(args) && Tokens(ShellQuoted(Nested(args))) == Some([Word(" ", true)])
  {
    var args := [NoQuote("'"), NoQuote("'")];
    assert TokensOf(args[0]).None?;
    assert args[1..] == [NoQuote("'")];
    assert Joined(args) == "' '";
    assert "' '"[1..] == " '" && " '"[1..] == "'";
    assert Read(START, "' '") == Read(Config(InQuotes, "", true, []), " '");
    assert Read(Config(InQuotes, "", true, []), " '") == Read(Config(InQuotes, " ", true, []), "'");
    assert Read(Config(InQuotes, " ", true, []), "'") == Config(Bare, " ", true, []);
    assert [] + [Word(" ", true)] == [Word(" ", true)];
  }

  function Plains(xs: seq<string>): (args: seq<Arg>)
    ensures |args| == |xs| && forall i | 0 <= i < |xs| :: args[i] == Plain(xs[i])
  {
    seq(|xs|, i requires 0 <= i < |xs| => Plain(xs[i]))
  }

  function Words(xs: seq<string>): (ts: seq<Token>)
    ensures |ts| == |xs| && forall i | 0 <= i < |xs| :: ts[i] == Word(xs[i], true)
  {
    seq(|xs|, i requires 0 <= i < |xs| => Word(xs[i], true))
  }

  lemma {:induction false} PlainTokens(xs: seq<string>)
    ensures AllTokens(Plains(xs)) == Words(xs)
  {
    if xs != [] {
      PlainTokens(xs[1..]);
      assert Plains(xs)[1..] == Plains(xs[1..]);
      assert Words(xs) == [Word(xs[0], true)] + Words(xs[1..]);
    }
  }

  /** A list of plain strings comes back as exactly that list, whatever characters the strings hold. */
  lemma PlainRoundTrip(xs: seq<string>)
    ensures Tokens(ShellQuoted(Nested(Plains(xs)))) == Some(Words(xs))
  {
    QuotingRoundTrip(Plains(xs));
    PlainTokens(xs);
  }

  // ----- nested commands

  datatype Shape = Leaf | Branch(shapes: seq<Shape>)

  /** Which arguments are themselves commands. */
  function ShapeOf(a: Arg): Shape
    decreases a
  {
    if a.Nested? then Branch(ShapesOf(a.args)) else Leaf
  }

  function ShapesOf(args: seq<Arg>): (r: seq<Shape>)
    ensures |r| == |args|
    decreases args
  {
    if args == [] then [] else [ShapeOf(args[0])] + ShapesOf(args[1..])
  }

  predicate PlainTree(a: Arg)
    decreases a
  {
    match a
    case Plain(_) => true
    case NoQuote(_) => false
    case Nested(args) => PlainTrees(args)
  }

  predicate PlainTrees(args: seq<Arg>)
    decreases args
  {
    args == [] || (PlainTree(args[0]) && PlainTrees(args[1..]))
  }

  /** Reads a word back, and again as a command where the shape says that it is one. */
  function Reparse(shape: Shape, word: string): Option<Arg>
    decreases shape
  {
    match shape
    case Leaf => Some(Plain(word))
    case Branch(shapes) =>
      match Tokens(word)
      case None => None
      case Some(ts) =>
        match ReparseAll(shapes, ts)
        case None => None
        case Some(args) => Some(Nested(args))
  }

  function ReparseAll(shapes: seq<Shape>, ts: seq<Token>): Option<seq<Arg>>
    decreases shapes
  {
    if |shapes| != |ts| then None
    else if shapes == [] then Some([])
    else if !ts[0].Word? then None
    else
      match Reparse(shapes[0], ts[0].value)
      case None => None
      case Some(a) =>
        match ReparseAll(shapes[1..], ts[1..])
        case None => None
        case Some(rest) => Some([a] + rest)
  }

  function TextOf(a: Arg): string {
    if a.Nested? then Joined(a.args) else a.text
  }

  lemma {:induction false} PlainTreesReadable(args: seq<Arg>)
    requires PlainTrees(args)
    ensures Readable(args) && |AllTokens(args)| == |args|
    ensures args != [] ==> AllTokens(args)[0] == Word(TextOf(args[0]), true)
                           && AllTokens(args)[1..] == AllTokens(args[1..])
  {
    if args != [] {
      PlainTreesReadable(args[1..]);
      assert args == [args[0]] + args[1..];
      assert AllTokens(args) == [Word(TextOf(args[0]), true)] + AllTokens(args[1..]);
    }
  }

  lemma {:induction false} ReparseAllTokens(args: seq<Arg>)
    requires PlainTrees(args) && Readable(args)
    ensures ReparseAll(ShapesOf(args), AllTokens(args)) == Some(args)
    decreases args
  {
    PlainTreesReadable(args);
    if args != [] {
      TreeRoundTrip(args[0]);
      ReparseAllTokens(args[1..]);
      assert args == [args[0]] + args[1..];
      assert ShapesOf(args)[1..] == ShapesOf(args[1..]);
    }
  }

  /** Reading every nested word again as a command recovers the whole tree, at any depth. */
  lemma {:induction false} TreeRoundTrip(a: Arg)
    requires PlainTree(a)
    ensures Reparse(ShapeOf(a), ShellQuoted(a)) == Some(a)
    decreases a
  {
    if a.Nested? {
      PlainTreesReadable(a.args);
      QuotingRoundTrip(a.args);
      ReparseAllTokens(a.args);
    }
  }

  // ----- limits

  function Digit(d: nat): char
    requires d < 10
  {
    "0123456789"[d]
  }

  /** `str` of a number that is not negative. */
  function Decimal(n: nat): string {
    if n < 10 then [Digit(n)] else Decimal(n / 10) + [Digit(n % 10)]
  }

  /** `ceil_ms2s`: the least number of seconds that covers `ms` milliseconds. */
  function CeilSeconds(ms: nat): (s: nat)
    ensures 1000 * s >= ms && (s == 0 || 1000 * (s - 1) < ms)
  {
    (ms + 999) / 1000
  }

  const AND_THEN := NoQuote("&&")

  predicate Limits(limit: Option<nat>) { limit.Some? && limit.value != 0 }

  function MemoryLimit(limit: Option<nat>): seq<Arg> {
    if !Limits(limit) then []
    else [Plain("ulimit"), Plain("-Ss"), Plain("unlimited"), AND_THEN,
          Plain("ulimit"), Plain("-v"), Plain(Decimal(limit.value)), AND_THEN]
  }

  function TimeLimit(limit: Option<nat>): seq<Arg> {
    if !Limits(limit) then []
    else [Plain("ulimit"), Plain("-t"), Plain(Decimal(CeilSeconds(limit.value))), AND_THEN]
  }

  /** A list is taken as it is unless it is empty; anything else becomes a list of one argument. */
  function AsList(command: Arg): seq<Arg> {
    if command.Nested? && command.args != [] then command.args else [command]
  }

  /** The command with its limits in front. */
  function Limited(command: Arg, memLimit: Option<nat>, timeLimit: Option<nat>): seq<Arg> {
    TimeLimit(timeLimit) + (MemoryLimit(memLimit) + AsList(command))
  }

  /** `ulimit`. */
  method Ulimit(command: Arg, memLimit: Option<nat>, timeLimit: Option<nat>) returns (limited: seq<Arg>)
    ensures limited == Limited(command, memLimit, timeLimit)
  {
    limited := if command.Nested? && command.args != [] then command.args else [command];
    if memLimit.Some? && memLimit.value != 0 {
      limited := [Plain("ulimit"), Plain("-v"), Plain(Decimal(memLimit.value)), NoQuote("&&")] + limited;
      limited := [Plain("ulimit"), Plain("-Ss"), Plain("unlimited"), NoQuote("&&")] + limited;
    }
    if timeLimit.Some? && timeLimit.value != 0 {
      limited := [Plain("ulimit"), Plain("-t"), Plain(Decimal(CeilSeconds(timeLimit.value))), NoQuote("&&")] + limited;
    }
  }

  // ----- AND lists

  /** The commands of an AND list: what the shell runs one after another while they succeed. */
  function AndList(ts: seq<Token>): (r: seq<seq<Token>>)
    ensures r != []
  {
    if ts == [] then [[]]
    else
      var rest := AndList(ts[1..]);
      if ts[0] == Operator("&&") then [[]] + rest else [[ts[0]] + rest[0]] + rest[1..]
  }

  lemma {:induction false} AndListSplits(ts: seq<Token>, us: seq<Token>)
    requires Operator("&&") !in ts
    ensures AndList(ts + [Operator("&&")] + us) == [ts] + AndList(us)
    decreases |ts|
  {
    var all := ts + [Operator("&&")] + us;
    if ts == [] {
      assert all[1..] == us;
    } else {
      assert all[1..] == ts[1..] + [Operator("&&")] + us;
      AndListSplits(ts[1..], us);
      assert [ts[0]] + ts[1..] == ts;
      assert ([ts[1..]] + AndList(us))[1..] == AndList(us);
    }
  }

  function LimitCommand(flag: string, value: string): seq<Token> {
    [Word("ulimit", true), Word(flag, true), Word(value, true)]
  }

  /** What the shell is to run for a memory limit; a limit of zero is none. */
  function MemoryCommands(limit: Option<nat>): seq<seq<Token>> {
    if limit == None || limit == Some(0) then []
    else [LimitCommand("-Ss", "unlimited"), LimitCommand("-v", Decimal(limit.value))]
  }

  function TimeCommands(limit: Option<nat>): seq<seq<Token>> {
    if limit == None || limit == Some(0) then [] else [LimitCommand("-t", Decimal(CeilSeconds(limit.value)))]
  }

  lemma AndThenReads()
    ensures Tokens("&&") == Some([Operator("&&")])
  {
    assert "&&"[1..] == "&";
    assert "&" + ['&'] == "&&";
    assert Read(START, "&&") == Read(Config(InOperator, "&", false, []), "&");
    assert Read(Config(InOperator, "&", false, []), "&") == Config(InOperator, "&&", false, []);
    assert [] + [Operator("&&")] == [Operator("&&")];
  }

  function WithLimit(flag: string, value: string, args: seq<Arg>): seq<Arg> {
    [Plain("ulimit"), Plain(flag), Plain(value), AND_THEN] + args
  }

  lemma ConsTokens(a: Arg, args: seq<Arg>)
    requires TokensOf(a).Some? && Readable(args)
    ensures Readable([a] + args) && AllTokens([a] + args) == TokensOf(a).value + AllTokens(args)
  {
    assert ([a] + args)[1..] == args;
  }

  lemma FourTokens(flag: string, value: string, rest: seq<Token>)
    ensures [Word("ulimit", true)] + ([Word(flag, true)] + ([Word(value, true)] + ([Operator("&&")] + rest)))
            == LimitCommand(flag, value) + [Operator("&&")] + rest
  {
  }

  lemma OneLimit(flag: string, value: string, args: seq<Arg>)
    requires Readable(args)
    ensures var limited := WithLimit(flag, value, args);
            Readable(limited) && AndList(AllTokens(limited)) == [LimitCommand(flag, value)] + AndList(AllTokens(args))
  {
    AndThenReads();
    var l3 := [AND_THEN] + args;
    var l2 := [Plain(value)] + l3;
    var l1 := [Plain(flag)] + l2;
    ConsTokens(AND_THEN, args);
    ConsTokens(Plain(value), l3);
    ConsTokens(Plain(flag), l2);
    ConsTokens(Plain("ulimit"), l1);
    assert WithLimit(flag, value, args) == [Plain("ulimit")] + l1;
    FourTokens(flag, value, AllTokens(args));
    AndListSplits(LimitCommand(flag, value), AllTokens(args));
  }

  lemma TwoLimits(v: string, args: seq<Arg>)
    ensures [Plain("ulimit"), Plain("-Ss"), Plain("unlimited"), AND_THEN,
             Plain("ulimit"), Plain("-v"), Plain(v), AND_THEN] + args
            == WithLimit("-Ss", "unlimited", WithLimit("-v", v, args))
  {
  }

  lemma TwoCommands(v: string, rest: seq<seq<Token>>)
    ensures [LimitCommand("-Ss", "unlimited"), LimitCommand("-v", v)] + rest
            == [LimitCommand("-Ss", "unlimited")] + ([LimitCommand("-v", v)] + rest)
  {
  }

  lemma MemoryReads(limit: Option<nat>, args: seq<Arg>)
    requires Readable(args)
    ensures var limited := MemoryLimit(limit) + args;
            Readable(limited) && AndList(AllTokens(limited)) == MemoryCommands(limit) + AndList(AllTokens(args))
  {
    if Limits(limit) {
      var v := Decimal(limit.value);
      var inner := WithLimit("-v", v, args);
      OneLimit("-v", v, args);
      OneLimit("-Ss", "unlimited", inner);
      TwoLimits(v, args);
      TwoCommands(v, AndList(AllTokens(args)));
    } else {
      assert MemoryLimit(limit) + args == args;
    }
  }

  lemma TimeReads(limit: Option<nat>, args: seq<Arg>)
    requires Readable(args)
    ensures var limited := TimeLimit(limit) + args;
            Readable(limited) && AndList(AllTokens(limited)) == TimeCommands(limit) + AndList(AllTokens(args))
  {
    if Limits(limit) {
      OneLimit("-t", Decimal(CeilSeconds(limit.value)), args);
    } else {
      assert TimeLimit(limit) + args == args;
    }
  }

  /**
   What the shell is given is an AND list: the limits that were asked for, each with its exact number,
   and after them the command, unchanged.
   */
  lemma LimitsComeFirst(command: Arg, memLimit: Option<nat>, timeLimit: Option<nat>)
    requires Readable(if command.Nested? && command.args != [] then command.args else [command])
    ensures var limited := Limited(command, memLimit, timeLimit);
            var args := if command.Nested? && command.args != [] then command.args else [command];
            && Tokens(ShellQuoted(Nested(limited))).Some?
            && AndList(Tokens(ShellQuoted(Nested(limited))).value)
               == TimeCommands(timeLimit) + (MemoryCommands(memLimit) + AndList(AllTokens(args)))
  {
    MemoryReads(memLimit, AsList(command));
    TimeReads(timeLimit, MemoryLimit(memLimit) + AsList(command));
    QuotingRoundTrip(Limited(command, memLimit, timeLimit));
  }

  /** The number that a limit is given with reads back as that number. */
  function Value(digits: string): nat {
    if digits == "" then 0
    else
      var d := digits[|digits| - 1] as int - '0' as int;
      10 * Value(digits[..|digits| - 1]) + if d >= 0 then d else 0
  }

  lemma {:induction false} DecimalRoundTrip(n: nat)
    ensures AllDigits(Decimal(n)) && Value(Decimal(n)) == n
  {
    if n >= 10 {
      DecimalRoundTrip(n / 10);
      assert Decimal(n)[..|Decimal(n)| - 1] == Decimal(n / 10);
    } else {
      assert Decimal(n)[..0] == "";
    }
  }

  // ----- timing a command through a second shell

  /** The command that `DetailedUnprotectedExecutor` hands on. */
  function Timed(command: seq<Arg>): seq<Arg> {
    [Plain("bash"), Plain("-c"), Nested([NoQuote("time")] + command)]
  }

  /** A character that is neither special nor a delimiter when it is not quoted. */
  predicate Ordinary(ch: char) {
    ch != '\'' && ch != '\\' && ch != '#' && !IsBlank(ch) && !IsOperator([ch]) && !Unsupported(ch)
  }

  lemma {:induction false} BareReads(c: Config, s: string)
    requires c.mode == Bare && forall i | 0 <= i < |s| :: Ordinary(s[i])
    ensures Read(c, s) == c.(text := c.text + s)
    decreases |s|
  {
    if s == "" {
      assert c.text + s == c.text;
    } else {
      BareReads(c.(text := c.text + [s[0]]), s[1..]);
      assert c.text + [s[0]] + s[1..] == c.text + s;
    }
  }

  /** A marked word without special characters reads as itself, and is still open to being reserved. */
  lemma OrdinaryWordReads(s: string)
    requires s != "" && forall i | 0 <= i < |s| :: Ordinary(s[i])
    ensures Tokens(s) == Some([Word(s, false)])
  {
    var c := Config(Bare, [s[0]], false, []);
    assert Step(START, s[0]) == c;
    BareReads(c, s[1..]);
    assert [s[0]] + s[1..] == s;
    assert [] + [Word(s, false)] == [Word(s, false)];
  }

  lemma TimedTokens(command: seq<Arg>)
    ensures Readable(Timed(command))
    ensures var ts := [Word("bash", true), Word("-c", true), Word(Joined([NoQuote("time")] + command), true)];
            AllTokens(Timed(command)) == ts && AndList(ts) == [ts]
  {
    var script := Joined([NoQuote("time")] + command);
    var args := Timed(command);
    var ts := [Word("bash", true), Word("-c", true), Word(script, true)];
    assert args[1..] == [args[1], args[2]] && args[1..][1..] == [args[2]] && args[1..][1..][1..] == [];
    assert AllTokens([args[2]]) == [ts[2]];
    assert AllTokens([args[1], args[2]]) == [ts[1], ts[2]];
    assert AllTokens(args) == ts;
    assert ts[1..] == [ts[1], ts[2]] && ts[1..][1..] == [ts[2]] && ts[1..][1..][1..] == [];
    assert AndList([ts[2]]) == [[ts[2]]];
    assert AndList([ts[1], ts[2]]) == [[ts[1], ts[2]]];
  }

  /**
   The outer shell, after setting the limits, runs `bash -c` with one word, and the inner shell reads
   that word as the reserved word `time` followed by exactly the tokens of the original command.
   */
  lemma TimedRoundTrip(command: seq<Arg>, memLimit: Option<nat>, timeLimit: Option<nat>)
    requires Readable(command)
    ensures var limited := Limited(Nested(Timed(command)), memLimit, timeLimit);
            var script := Joined([NoQuote("time")] + command);
            && Tokens(ShellQuoted(Nested(limited))).Some?
            && AndList(Tokens(ShellQuoted(Nested(limited))).value)
               == TimeCommands(timeLimit) + (MemoryCommands(memLimit)
                  + [[Word("bash", true), Word("-c", true), Word(script, true)]])
            && Tokens(script) == Some([Word("time", false)] + AllTokens(command))
  {
    var inner := [NoQuote("time")] + command;
    var script := Joined(inner);
    OrdinaryWordReads("time");
    assert inner[1..] == command;
    QuotingRoundTrip(inner);
    TimedTokens(command);
    LimitsComeFirst(Nested(Timed(command)), memLimit, timeLimit);
  }
}
