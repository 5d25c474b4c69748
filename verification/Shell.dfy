/** How the pod's command line is embedded in the start-up script, and a reader for it: the part of
    the POSIX shell's tokenizer (IEEE Std 1003.1-2017, Shell Command Language, sections 2.2.1-2.2.3,
    2.3 and 2.6.7) that turns one line into the argument list of a simple command. */
module Shell {
  import opened Wrappers
  import opened Text

  const QUOTE := "'"
  const ESCAPED_QUOTE := "'\"'\"'"

  function ShellQuote(s: string): string {
    if s == "" then "''" else "'" + ReplaceAll(s, QUOTE, ESCAPED_QUOTE) + "'"
  }

  function Quoted(args: seq<string>): (quoted: seq<string>)
    ensures |quoted| == |args|
  {
    seq(|args|, i requires 0 <= i < |args| => ShellQuote(args[i]))
  }

  /** joinShellArgs as a value. */
  function JoinedArgs(args: seq<string>): string {
    Join(Quoted(args), " ")
  }

  method JoinShellArgs(args: seq<string>) returns (line: string)
    ensures line == JoinedArgs(args)
  {
    var escaped := [];
    for i := 0 to |args|
      invariant escaped == Quoted(args)[..i]
    {
      escaped := escaped + [ShellQuote(args[i])];
    }
    assert escaped == Quoted(args);
    line := Join(escaped, " ");
  }

  /** Where the tokenizer stands: between words, or inside a word read so far as `word`. */
  datatype Mode = Between | Bare(word: string) | SingleQuoted(word: string) | DoubleQuoted(word: string)

  predicate IsBlank(c: char) {
    c == ' ' || c == '\t'
  }

  /** Characters that, unquoted, end the command, start an operator or trigger an expansion. */
  predicate IsSpecial(c: char) {
    c in "|&;<>()$`\n*?[~"
  }

  function WordThen(word: string, rest: Option<seq<string>>): Option<seq<string>> {
    if rest.Some? then Some([word] + rest.value) else None
  }

  /** The words of `s` read from mode `m`; None when the text is more than a list of literal words. */
  function Words(m: Mode, s: string): Option<seq<string>>
    decreases |s|, if m.Between? then 1 else 0
  {
    if s == "" then
      (match m
       case Between => Some([])
       case Bare(w) => Some([w])
       case _ => None)
    else
      var c, t := s[0], s[1..];
      match m
      case Between =>
        if IsBlank(c) then Words(Between, t)
        else if c == '#' then None
        else if c == '\\' && t != "" && t[0] == '\n' then Words(Between, t[1..])
        else Words(Bare(""), s)
      case Bare(w) =>
        if IsBlank(c) then WordThen(w, Words(Between, t))
        else if c == '\'' then Words(SingleQuoted(w), t)
        else if c == '"' then Words(DoubleQuoted(w), t)
        else if c == '\\' then
          if t == "" then None
          else Words(Bare(if t[0] == '\n' then w else w + [t[0]]), t[1..])
        else if IsSpecial(c) then None
        else Words(Bare(w + [c]), t)
      case SingleQuoted(w) =>
        if c == '\'' then Words(Bare(w), t) else Words(SingleQuoted(w + [c]), t)
      case DoubleQuoted(w) =>
        if c == '"' then Words(Bare(w), t)
        else if c == '\\' then
          if t == "" then None
          else if t[0] == '\n' then Words(DoubleQuoted(w), t[1..])
          else if t[0] in "$`\"\\" then Words(DoubleQuoted(w + [t[0]]), t[1..])
          else Words(DoubleQuoted(w + [c]), t)
        else if c == '$' || c == '`' then None
        else Words(DoubleQuoted(w + [c]), t)
  }

  /** The argument list the shell sees for a line; None when it is not a plain list of words. */
  function Lex(line: string): Option<seq<string>> {
    Words(Between, line)
  }

  lemma ReadsEscapedQuote(w: string, t: string)
    ensures Words(SingleQuoted(w), ESCAPED_QUOTE + t) == Words(SingleQuoted(w + "'"), t)
  {
    var s := ESCAPED_QUOTE + t;
    assert s[0] == '\'' && s[1] == '"' && s[2] == '\'' && s[3] == '"' && s[4] == '\'';
    assert s[1..][1..] == s[2..] && s[2..][1..] == s[3..] && s[3..][1..] == s[4..] && s[4..][1..] == t;
    assert Words(SingleQuoted(w), s) == Words(Bare(w), s[1..]);
    assert Words(Bare(w), s[1..]) == Words(DoubleQuoted(w), s[2..]);
    assert Words(DoubleQuoted(w), s[2..]) == Words(DoubleQuoted(w + "'"), s[3..]);
    assert Words(DoubleQuoted(w + "'"), s[3..]) == Words(Bare(w + "'"), s[4..]);
  }

  /** Inside single quotes the escaped text reads back as the original characters. */
  lemma {:induction false} ReadsQuotedBody(a: string, w: string, rest: string)
    ensures Words(SingleQuoted(w), ReplaceAll(a, QUOTE, ESCAPED_QUOTE) + "'" + rest) == Words(Bare(w + a), rest)
  {
    var body := ReplaceAll(a, QUOTE, ESCAPED_QUOTE);
    var s := body + "'" + rest;
    if a == "" {
      assert s == "'" + rest;
      assert w + a == w;
    } else {
      var tail := ReplaceAll(a[1..], QUOTE, ESCAPED_QUOTE) + "'" + rest;
      assert w + [a[0]] + a[1..] == w + a;
      ReadsQuotedBody(a[1..], w + [a[0]], rest);
      if a[0] == '\'' {
        assert QUOTE <= a && s == ESCAPED_QUOTE + tail;
        ReadsEscapedQuote(w, tail);
      } else {
        assert !(QUOTE <= a) && s == [a[0]] + tail;
      }
    }
  }

  lemma ShellQuoteShape(a: string, rest: string)
    ensures ShellQuote(a) + rest == "'" + (ReplaceAll(a, QUOTE, ESCAPED_QUOTE) + "'" + rest)
  {
    if a == "" {
      assert ReplaceAll(a, QUOTE, ESCAPED_QUOTE) == "";
    }
  }

  lemma ReadsOpeningQuote(t: string)
    ensures Words(Between, "'" + t) == Words(SingleQuoted(""), t)
  {
    var s := "'" + t;
    assert s[0] == '\'' && s[1..] == t;
    assert Words(Between, s) == Words(Bare(""), s) == Words(SingleQuoted(""), t);
  }

  /** A quoted argument followed by anything reads as that argument continued bare. */
  lemma ReadsQuotedWord(a: string, rest: string)
    ensures Words(Between, ShellQuote(a) + rest) == Words(Bare(a), rest)
  {
    var t := ReplaceAll(a, QUOTE, ESCAPED_QUOTE) + "'" + rest;
    ShellQuoteShape(a, rest);
    ReadsOpeningQuote(t);
    ReadsQuotedBody(a, "", rest);
    assert "" + a == a;
  }

  lemma JoinedArgsCons(first: string, rest: seq<string>)
    requires rest != []
    ensures JoinedArgs([first] + rest) == ShellQuote(first) + (" " + JoinedArgs(rest))
  {
    assert Quoted([first] + rest) == [ShellQuote(first)] + Quoted(rest);
    JoinCons(ShellQuote(first), Quoted(rest), " ");
  }

  lemma ReadsSpace(rest: string, w: string)
    ensures Words(Bare(w), " " + rest) == WordThen(w, Words(Between, rest))
  {
    assert (" " + rest)[1..] == rest;
  }

  /** Quoting and joining loses nothing: the shell sees exactly the argument list, for every list of strings. */
  lemma {:induction false} JoinedArgsRoundTrip(args: seq<string>)
    ensures Lex(JoinedArgs(args)) == Some(args)
  {
    if |args| == 1 {
      ReadsQuotedWord(args[0], "");
      assert JoinedArgs(args) == ShellQuote(args[0]) + "";
      assert args == [args[0]];
    } else if |args| > 1 {
      var rest := args[1..];
      assert args == [args[0]] + rest;
      JoinedArgsRoundTrip(rest);
      JoinedArgsCons(args[0], rest);
      ReadsQuotedWord(args[0], " " + JoinedArgs(rest));
      ReadsSpace(JoinedArgs(rest), args[0]);
    }
  }

  /** The argv taken from the pod's first container: its command and arguments, or a shell running the arguments. */
  function PodArgv(command: seq<string>, args: seq<string>): seq<string> {
    if command != [] then command + args
    else if args != [] then ["/bin/sh", "-lc", Join(args, " ")]
    else []
  }

  /** The agent invocation written into the script. */
  function AgentCommand(command: seq<string>, args: seq<string>, proxy: bool, promtail: bool): string {
    var argv := PodArgv(command, args);
    AgentPrefix(proxy, promtail) + (if argv != [] then " -- " + JoinedArgs(argv) else "")
  }

  /** Letters, digits and the punctuation of option names and paths: characters the tokenizer takes literally. */
  predicate PlainChar(c: char) {
    'a' <= c <= 'z' || '0' <= c <= '9' || c == '-' || c == '_' || c == '/'
  }

  predicate PlainWord(w: string) {
    w != "" && forall i :: 0 <= i < |w| ==> PlainChar(w[i])
  }

  lemma {:induction false} ReadsPlain(w: string, done: string, rest: string)
    requires forall i :: 0 <= i < |w| ==> PlainChar(w[i])
    ensures Words(Bare(done), w + rest) == Words(Bare(done + w), rest)
  {
    if w == "" {
      assert w + rest == rest && done + w == done;
    } else {
      assert (w + rest)[1..] == w[1..] + rest;
      assert done + [w[0]] + w[1..] == done + w;
      ReadsPlain(w[1..], done + [w[0]], rest);
    }
  }

  lemma ReadsFlag(w: string, rest: string)
    requires PlainWord(w)
    ensures Words(Between, w + (" " + rest)) == WordThen(w, Words(Between, rest))
    ensures Words(Between, w) == Some([w])
  {
    ReadsPlain(w, "", " " + rest);
    ReadsSpace(rest, w);
    assert "" + w == w;
    ReadsPlain(w, "", "");
    assert w + "" == w;
  }

  /** Flags written in front of a readable tail are read as words in front of its words. */
  lemma {:induction false} ReadsFlags(flags: seq<string>, tail: string)
    requires forall f :: f in flags ==> PlainWord(f)
    requires Lex(tail).Some?
    ensures Lex(Join(flags + [tail], " ")) == Some(flags + Lex(tail).value)
  {
    if flags == [] {
      assert flags + [tail] == [tail];
      assert [] + Lex(tail).value == Lex(tail).value;
    } else {
      var rest := flags[1..];
      assert flags + [tail] == [flags[0]] + (rest + [tail]);
      ReadsFlags(rest, tail);
      JoinCons(flags[0], rest + [tail], " ");
      var more := Join(rest + [tail], " ");
      assert flags[0] + " " + more == flags[0] + (" " + more);
      ReadsFlag(flags[0], more);
      assert flags + Lex(tail).value == [flags[0]] + (rest + Lex(tail).value);
    }
  }

  function Switches(proxy: bool, promtail: bool): seq<string> {
    (if proxy then ["--proxy"] else []) + (if promtail then ["--promtail"] else [])
  }

  const AGENT_RUN := ["/usr/bin/container_agent", "run", "-p", "8080"]

  /** Appending `--proxy`, `--promtail` and `--` as the source does spells the join of all the words. */
  lemma SpellsFlags(flags: seq<string>, last: string)
    requires flags != []
    ensures Join(flags + [last], " ") == Join(flags, " ") + " " + last
  {
    if |flags| == 1 {
      assert flags + [last] == [flags[0]] + [last];
      JoinCons(flags[0], [last], " ");
    } else {
      SpellsFlags(flags[1..], last);
      assert flags == [flags[0]] + flags[1..];
      assert flags + [last] == [flags[0]] + (flags[1..] + [last]);
      JoinCons(flags[0], flags[1..] + [last], " ");
      JoinCons(flags[0], flags[1..], " ");
    }
  }

  function AgentPrefix(proxy: bool, promtail: bool): string {
    "/usr/bin/container_agent run -p 8080"
    + (if proxy then " --proxy" else "")
    + (if promtail then " --promtail" else "")
  }

  const RUN_TEXT := "/usr/bin/container_agent run -p 8080"

  lemma SpellsRun()
    ensures Join(AGENT_RUN, " ") == RUN_TEXT
  {
    SpellsFlags(["/usr/bin/container_agent"], "run");
    SpellsFlags(["/usr/bin/container_agent", "run"], "-p");
    SpellsFlags(["/usr/bin/container_agent", "run", "-p"], "8080");
  }

  /** A flag appended when its switch is on. */
  lemma SpellsSwitch(flags: seq<string>, on: bool, flag: string)
    requires flags != []
    ensures Join(flags + (if on then [flag] else []), " ") == Join(flags, " ") + (if on then " " + flag else "")
  {
    if on {
      SpellsFlags(flags, flag);
    } else {
      assert flags + [] == flags;
    }
  }

  lemma SpellsPrefix(proxy: bool, promtail: bool)
    ensures Join(AGENT_RUN + Switches(proxy, promtail), " ") == AgentPrefix(proxy, promtail)
  {
    var a, b := if proxy then ["--proxy"] else [], if promtail then ["--promtail"] else [];
    SpellsRun();
    SpellsSwitch(AGENT_RUN, proxy, "--proxy");
    SpellsSwitch(AGENT_RUN + a, promtail, "--promtail");
    assert AGENT_RUN + (a + b) == AGENT_RUN + a + b;
    assert " " + "--proxy" == " --proxy" && " " + "--promtail" == " --promtail";
  }

  lemma FlagsArePlain(proxy: bool, promtail: bool)
    ensures forall f :: f in AGENT_RUN + Switches(proxy, promtail) + ["--"] ==> PlainWord(f)
  {
    assert PlainWord("/usr/bin/container_agent");
    assert PlainWord("run") && PlainWord("-p") && PlainWord("8080");
    assert PlainWord("--proxy") && PlainWord("--promtail") && PlainWord("--");
  }

  /** The agent is started with its own flags and then, after `--`, exactly the container's argv: the command followed
      by its arguments; without a command the arguments as one line for a shell; without either nothing. */
  lemma AgentReceivesArgv(command: seq<string>, args: seq<string>, proxy: bool, promtail: bool)
    ensures Lex(AgentCommand(command, args, proxy, promtail))
      == Some(["/usr/bin/container_agent", "run", "-p", "8080"]
              + ((if proxy then ["--proxy"] else []) + (if promtail then ["--promtail"] else []))
              + (if command != [] then ["--"] + (command + args)
                 else if args != [] then ["--"] + ["/bin/sh", "-lc", Join(args, " ")]
                 else []))
  {
    var argv := PodArgv(command, args);
    var flags := AGENT_RUN + Switches(proxy, promtail);
    SpellsPrefix(proxy, promtail);
    FlagsArePlain(proxy, promtail);
    if argv != [] {
      JoinedArgsRoundTrip(argv);
      ReadsAgentFlags(flags, argv);
    } else {
      var last := flags[|flags| - 1];
      ReadsFlag(last, "");
      ReadsFlags(flags[..|flags| - 1], last);
      assert flags[..|flags| - 1] + [last] == flags;
      assert AgentPrefix(proxy, promtail) + "" == AgentPrefix(proxy, promtail);
      assert flags + [] == flags;
    }
  }

  lemma SpellsSeparator(flags: seq<string>, tail: string)
    requires flags != []
    ensures Join(flags, " ") + (" -- " + tail) == Join(flags + ["--"] + [tail], " ")
  {
    var prefix := Join(flags, " ");
    SpellsFlags(flags, "--");
    SpellsFlags(flags + ["--"], tail);
    assert prefix + " " + "--" + " " + tail == prefix + (" -- " + tail);
  }

  lemma ReadsAgentFlags(flags: seq<string>, argv: seq<string>)
    requires flags != [] && forall f :: f in flags + ["--"] ==> PlainWord(f)
    requires Lex(JoinedArgs(argv)) == Some(argv)
    ensures Lex(Join(flags, " ") + (" -- " + JoinedArgs(argv))) == Some(flags + (["--"] + argv))
  {
    SpellsSeparator(flags, JoinedArgs(argv));
    ReadsFlags(flags + ["--"], JoinedArgs(argv));
    assert flags + ["--"] + argv == flags + (["--"] + argv);
  }
}
