/** What the command built by `Grep` runs: `printf` with a reused format, its output split by `xargs -0`. */
module GrepPipeline {
  import opened Wrappers
  import opened GoStrings
  import opened ShellCommand

  // --- printf: format reuse ----------------------------------------------------------------------------

  datatype Piece = Literal(c: char) | Conversion

  predicate IsOctal(c: char) {
    '0' <= c <= '7'
  }

  /** Number of octal digits, at most three, at the start of `s`. */
  function OctalRun(s: string): (n: nat)
    ensures n <= 3 && n <= |s| && forall i :: 0 <= i < n ==> IsOctal(s[i])
  {
    if |s| < 1 || !IsOctal(s[0]) then 0
    else if |s| < 2 || !IsOctal(s[1]) then 1
    else if |s| < 3 || !IsOctal(s[2]) then 2
    else 3
  }

  function OctalDigit(c: char): (d: nat)
    requires IsOctal(c)
  {
    c as int - '0' as int
  }

  function OctalValue(s: string): nat
    requires 1 <= |s| <= 3 && forall i :: 0 <= i < |s| ==> IsOctal(s[i])
  {
    if |s| == 1 then OctalDigit(s[0])
    else if |s| == 2 then OctalDigit(s[0]) * 8 + OctalDigit(s[1])
    else OctalDigit(s[0]) * 64 + OctalDigit(s[1]) * 8 + OctalDigit(s[2])
  }

  /** A printf format: `%s`, octal escapes, and characters standing for themselves. */
  function ParseFormat(format: string): Option<seq<Piece>>
    decreases |format|
  {
    if format == "" then Some([])
    else
      var (piece, width) :=
        if format[0] == '%' then
          if |format| >= 2 && format[1] == 's' then (Some(Conversion), 2) else (None, 1)
        else if format[0] == '\\' then
          var n := OctalRun(format[1..]);
          if n > 0 then (Some(Literal((OctalValue(format[1..n + 1]) % 256) as char)), n + 1) else (None, 1)
        else (Some(Literal(format[0])), 1);
      match (piece, ParseFormat(format[width..]))
      case (Some(p), Some(rest)) => Some([p] + rest)
      case _ => None
  }

  /** One pass over the format; a conversion without an argument prints nothing. */
  function OnePass(pieces: seq<Piece>, args: seq<string>): (r: (string, seq<string>))
    ensures |r.1| <= |args|
    ensures Conversion in pieces && args != [] ==> |r.1| < |args|
  {
    if pieces == [] then ("", args)
    else
      match pieces[0]
      case Literal(c) =>
        var (text, rest) := OnePass(pieces[1..], args);
        ([c] + text, rest)
      case Conversion =>
        if args == [] then OnePass(pieces[1..], [])
        else
          var (text, rest) := OnePass(pieces[1..], args[1..]);
          (args[0] + text, rest)
  }

  /** The format is used once, and then again as long as arguments remain and it consumes them. */
  function Passes(pieces: seq<Piece>, args: seq<string>): string
    decreases |args|
  {
    var (text, rest) := OnePass(pieces, args);
    if rest == [] || Conversion !in pieces then text else text + Passes(pieces, rest)
  }

  function Printf(format: string, args: seq<string>): Option<string> {
    match ParseFormat(format)
    case None => None
    case Some(pieces) => Some(Passes(pieces, args))
  }

  // --- xargs -0: items ended by NUL; a last item without NUL counts if it is not empty -----------------

  function SplitNul(input: string, item: string): seq<string> {
    if input == "" then (if item == "" then [] else [item])
    else if input[0] == '\0' then [item] + SplitNul(input[1..], "")
    else SplitNul(input[1..], item + [input[0]])
  }

  // --- the pipeline ------------------------------------------------------------------------------------

  function IndexOfToken(tokens: seq<Token>, t: Token): (n: nat)
    ensures n <= |tokens|
  {
    if tokens == [] || tokens[0] == t then 0 else 1 + IndexOfToken(tokens[1..], t)
  }

  /** The words of a simple command. */
  function SimpleCommand(tokens: seq<Token>): Option<seq<string>> {
    if tokens == [] then Some([])
    else
      match (tokens[0], SimpleCommand(tokens[1..]))
      case (Word(w), Some(rest)) => Some([w] + rest)
      case _ => None
  }

  /** The arguments that grep receives when the shell runs a command of the form `printf … | xargs -0 grep; …`. */
  function GrepArguments(command: string): Option<seq<string>> {
    match Tokenize(command, None)
    case None => None
    case Some(tokens) =>
      var pipeline := tokens[..IndexOfToken(tokens, Semicolon)];
      var n := IndexOfToken(pipeline, Pipe);
      if n == |pipeline| then None
      else
        match (SimpleCommand(pipeline[..n]), SimpleCommand(pipeline[n + 1..]))
        case (Some(producer), Some(consumer)) =>
          if |producer| >= 2 && producer[0] == "printf" && consumer == ["xargs", "-0", "grep"] then
            match Printf(producer[1], producer[2..])
            case None => None
            case Some(output) => Some(SplitNul(output, ""))
          else None
        case _ => None
  }

  // --- proofs --------------------------------------------------------------------------------------------

  lemma FormatParses(format: string)
    requires format == FORMAT
    ensures ParseFormat(format) == Some([Conversion, Literal('\0')])
  {
    var escape := format[2..];
    assert escape == ['\\', '0'];
    assert escape[1..] == ['0'] && escape[2..] == "";
    assert OctalRun(escape[1..]) == 1;
    assert escape[1..2] == ['0'];
    assert OctalValue(['0']) == 0;
    assert ParseFormat(escape[2..]) == Some([]);
    assert [Literal('\0')] + [] == [Literal('\0')];
    assert ParseFormat(escape) == Some([Literal('\0')]);
    assert [Conversion] + [Literal('\0')] == [Conversion, Literal('\0')];
  }

  /** Every argument, each followed by NUL. */
  function NulEnded(args: seq<string>): string {
    if args == [] then "" else args[0] + ['\0'] + NulEnded(args[1..])
  }

  lemma OnePassOf(args: seq<string>)
    ensures OnePass([Conversion, Literal('\0')], args)
            == if args == [] then (['\0'], []) else (args[0] + ['\0'], args[1..])
  {
    var tail := [Literal('\0')];
    assert [Conversion, Literal('\0')][1..] == tail && tail[1..] == [];
    var rest := if args == [] then [] else args[1..];
    assert OnePass([], rest) == ("", rest);
    assert ['\0'] + "" == ['\0'];
    assert OnePass(tail, rest) == (['\0'], rest);
  }

  lemma {:induction false} PassesOf(args: seq<string>)
    requires args != []
    ensures Passes([Conversion, Literal('\0')], args) == NulEnded(args)
    decreases |args|
  {
    OnePassOf(args);
    if |args| == 1 {
      assert args[0] + ['\0'] + "" == args[0] + ['\0'];
      assert NulEnded(args[1..]) == "";
    } else {
      PassesOf(args[1..]);
    }
  }

  lemma {:induction false} SplitOneItem(arg: string, rest: string, item: string)
    requires '\0' !in arg
    ensures SplitNul(arg + ['\0'] + rest, item) == [item + arg] + SplitNul(rest, "")
  {
    var s := arg + ['\0'] + rest;
    if arg == "" {
      assert s[1..] == rest;
      assert item + "" == item;
    } else {
      assert arg[0] in arg;
      assert s[1..] == arg[1..] + ['\0'] + rest;
      SplitOneItem(arg[1..], rest, item + [arg[0]]);
      assert item + [arg[0]] + arg[1..] == item + arg;
    }
  }

  lemma {:induction false} SplitOfNulEnded(args: seq<string>)
    requires forall i :: 0 <= i < |args| ==> '\0' !in args[i]
    ensures SplitNul(NulEnded(args), "") == args
  {
    if args != [] {
      SplitOneItem(args[0], NulEnded(args[1..]), "");
      assert "" + args[0] == args[0];
      SplitOfNulEnded(args[1..]);
      assert args == [args[0]] + args[1..];
    }
  }

  lemma {:induction false} ItemsHaveNoNul(input: string, item: string)
    requires '\0' !in item
    ensures forall i :: 0 <= i < |SplitNul(input, item)| ==> '\0' !in SplitNul(input, item)[i]
  {
    if input != "" {
      if input[0] == '\0' {
        ItemsHaveNoNul(input[1..], "");
      } else {
        ItemsHaveNoNul(input[1..], item + [input[0]]);
      }
    }
  }

  function PrintedArguments(args: seq<string>): string {
    Passes([Conversion, Literal('\0')], args)
  }

  /** xargs recovers exactly the arguments given to printf if and only if there is at least one and none
      contains NUL; with no argument at all the format is still used once, and one empty item appears. */
  lemma RecoveredExactly(args: seq<string>)
    ensures SplitNul(PrintedArguments(args), "") == args
            <==> args != [] && forall i :: 0 <= i < |args| ==> '\0' !in args[i]
  {
    OnePassOf(args);
    if args == [] {
      assert PrintedArguments(args) == ['\0'];
      SplitOneItem("", "", "");
      assert "" + ['\0'] + "" == ['\0'];
    } else {
      PassesOf(args);
      ItemsHaveNoNul(NulEnded(args), "");
      if forall i :: 0 <= i < |args| ==> '\0' !in args[i] {
        SplitOfNulEnded(args);
      }
    }
  }

  lemma {:induction false} IndexAfterWords(words: seq<string>, rest: seq<Token>, t: Token)
    requires !t.Word? && rest != [] && rest[0] == t
    ensures IndexOfToken(Words(words) + rest, t) == |words|
  {
    var all := Words(words) + rest;
    if words == [] {
      assert all == rest;
    } else {
      IndexAfterWords(words[1..], rest, t);
      assert all[0] == Word(words[0]) && all[1..] == Words(words[1..]) + rest;
    }
  }

  lemma {:induction false} CommandOfWords(words: seq<string>)
    ensures SimpleCommand(Words(words)) == Some(words)
  {
    if words != [] {
      assert Words(words)[0] == Word(words[0]) && Words(words)[1..] == Words(words[1..]);
      CommandOfWords(words[1..]);
      assert [words[0]] + words[1..] == words;
    }
  }

  lemma {:induction false} IndexSkipsOthers(front: seq<Token>, rest: seq<Token>, t: Token)
    requires t !in front && rest != [] && rest[0] == t
    ensures IndexOfToken(front + rest, t) == |front|
  {
    var all := front + rest;
    if front == [] {
      assert all == rest;
    } else {
      assert front[0] in front;
      IndexSkipsOthers(front[1..], rest, t);
      assert all[1..] == front[1..] + rest;
    }
  }

  const XARGS_GREP: seq<string> := ["xargs", "-0", "grep"]

  /** A pipeline of two simple commands, then a semicolon, is taken apart into the words of the two. */
  lemma PipelineParts(producer: seq<string>, consumer: seq<string>, rest: seq<Token>)
    ensures var pipeline := Words(producer) + ([Pipe] + Words(consumer));
            var tokens := pipeline + ([Semicolon] + rest);
            && tokens[..IndexOfToken(tokens, Semicolon)] == pipeline
            && IndexOfToken(pipeline, Pipe) == |producer|
            && SimpleCommand(pipeline[..|producer|]) == Some(producer)
            && SimpleCommand(pipeline[|producer| + 1..]) == Some(consumer)
  {
    var pipeline := Words(producer) + ([Pipe] + Words(consumer));
    IndexSkipsOthers(pipeline, [Semicolon] + rest, Semicolon);
    IndexAfterWords(producer, [Pipe] + Words(consumer), Pipe);
    CommandOfWords(producer);
    CommandOfWords(consumer);
    assert pipeline[..|producer|] == Words(producer);
    assert pipeline[|producer| + 1..] == Words(consumer);
  }

  lemma CommandTokens(args: seq<string>)
    ensures [Word("printf"), Word(FORMAT)] + Words(args) + CLOSING
            == Words(["printf", FORMAT] + args) + ([Pipe] + Words(XARGS_GREP)) + ([Semicolon] + [Word("true")])
  {
  }

  /** Running the command gives grep the items that xargs finds in what printf prints. */
  lemma GrepReceives(args: seq<string>)
    ensures GrepArguments(GrepCommand(args)) == Some(SplitNul(PrintedArguments(args), ""))
  {
    CommandReads(args);
    CommandTokens(args);
    var producer := ["printf", FORMAT] + args;
    PipelineParts(producer, XARGS_GREP, [Word("true")]);
    assert producer[2..] == args;
    FormatParses(FORMAT);
  }

  /** Round trip through the shell, printf and xargs: grep is invoked with precisely the arguments that were
      given, for every list with at least one argument and no NUL, and for no other list. */
  lemma GrepRoundTrip(args: seq<string>)
    ensures GrepArguments(GrepCommand(args)) == Some(args)
            <==> args != [] && forall i :: 0 <= i < |args| ==> '\0' !in args[i]
  {
    GrepReceives(args);
    RecoveredExactly(args);
  }

  // --- the argument list of Grep -------------------------------------------------------------------------

  datatype GrepInput = GrepInput(pattern: string, glob: string, mode: string,
                                 before: int, after: int, context: int, ignoreCase: bool)

  function CountOption(flag: string, n: int): seq<string> {
    if n > 0 then [flag + FormatNat(n)] else []
  }

  function ModeOption(input: GrepInput): seq<string> {
    [if input.mode == "files_with_matches" then "-l" else if input.mode == "count" then "-c" else "-n"]
  }

  function CaseOption(input: GrepInput): seq<string> {
    if input.ignoreCase then ["-i"] else []
  }

  function GlobOption(input: GrepInput): seq<string> {
    if input.glob != "" then ["--include=" + input.glob] else []
  }

  function GrepOptions(input: GrepInput): seq<string> {
    ["-r"] + ModeOption(input) + CaseOption(input)
    + CountOption("-B", input.before) + CountOption("-A", input.after) + CountOption("-C", input.context)
    + GlobOption(input)
  }

  function GrepArgs(input: GrepInput, path: string): seq<string> {
    GrepOptions(input) + ["--", input.pattern, path]
  }

  method AppendCount(args: seq<string>, flag: string, n: int) returns (r: seq<string>)
    ensures r == args + CountOption(flag, n)
  {
    r := args;
    if n > 0 {
      r := r + [flag + FormatNat(n)];
    }
  }

  method BuildGrepArgs(input: GrepInput, path: string) returns (args: seq<string>)
    ensures args == GrepArgs(input, path)
  {
    args := ["-r"];
    if input.mode == "files_with_matches" {
      args := args + ["-l"];
    } else if input.mode == "count" {
      args := args + ["-c"];
    } else {
      args := args + ["-n"];
    }
    assert args == ["-r"] + ModeOption(input);
    if input.ignoreCase {
      args := args + ["-i"];
    }
    assert args == ["-r"] + ModeOption(input) + CaseOption(input);
    args := AppendCount(args, "-B", input.before);
    args := AppendCount(args, "-A", input.after);
    args := AppendCount(args, "-C", input.context);
    ghost var counted := args;
    if input.glob != "" {
      args := args + ["--include=" + input.glob];
    }
    assert args == counted + GlobOption(input);
    args := args + ["--", input.pattern, path];
  }

  ghost predicate OptionWord(word: string) {
    |word| >= 2 && word[0] == '-' && word != "--"
  }

  ghost predicate NulFree(args: seq<string>) {
    forall i :: 0 <= i < |args| ==> '\0' !in args[i]
  }

  lemma CountOptionWords(flag: string, n: int)
    requires |flag| == 2 && flag[0] == '-' && flag[1] != '-' && '\0' !in flag
    ensures NulFree(CountOption(flag, n))
    ensures forall i :: 0 <= i < |CountOption(flag, n)| ==> OptionWord(CountOption(flag, n)[i])
  {
    if n > 0 {
      FormatNatDigits(n);
      var word := flag + FormatNat(n);
      assert word[1] == flag[1];
    }
  }

  lemma OptionsAreOptions(input: GrepInput)
    requires '\0' !in input.glob
    ensures NulFree(GrepOptions(input))
    ensures forall i :: 0 <= i < |GrepOptions(input)| ==> OptionWord(GrepOptions(input)[i])
  {
    CountOptionWords("-B", input.before);
    CountOptionWords("-A", input.after);
    CountOptionWords("-C", input.context);
    if input.glob != "" {
      var word := "--include=" + input.glob;
      assert word[2] == 'i';
    }
  }

  /** The option is one that the request asks for. */
  ghost predicate Asked(input: GrepInput, word: string) {
    || word == "-r"
    || (word == "-l" && input.mode == "files_with_matches")
    || (word == "-c" && input.mode == "count")
    || (word == "-n" && input.mode != "files_with_matches" && input.mode != "count")
    || (word == "-i" && input.ignoreCase)
    || (input.before > 0 && word == "-B" + FormatNat(input.before))
    || (input.after > 0 && word == "-A" + FormatNat(input.after))
    || (input.context > 0 && word == "-C" + FormatNat(input.context))
    || (input.glob != "" && word == "--include=" + input.glob)
  }

  /** How many options the request asks for: recursion, one output mode, and those that are given. */
  ghost function AskedCount(input: GrepInput): nat {
    2 + (if input.ignoreCase then 1 else 0) + (if input.before > 0 then 1 else 0)
    + (if input.after > 0 then 1 else 0) + (if input.context > 0 then 1 else 0) + (if input.glob != "" then 1 else 0)
  }

  lemma OptionsExactly(input: GrepInput, word: string)
    ensures word in GrepOptions(input) <==> Asked(input, word)
    ensures |GrepOptions(input)| == AskedCount(input)
  {
  }

  lemma CutBefore(front: seq<string>, rest: seq<string>, all: seq<string>)
    requires all == front + rest
    ensures all[..|front|] == front && all[|front|..] == rest
  {
  }

  /** For every request without NUL: before the first `--`, grep is given exactly the options asked for, each once and
      nothing else, and after it the pattern and the path as operands, whatever they look like. */
  lemma GrepRunsAsAsked(input: GrepInput, path: string) returns (words: seq<string>, n: nat)
    requires '\0' !in input.pattern && '\0' !in input.glob && '\0' !in path
    ensures GrepArguments(GrepCommand(GrepArgs(input, path))) == Some(words)
    ensures n == AskedCount(input) == |words| - 3 && words[n..] == ["--", input.pattern, path]
    ensures forall word :: word in words[..n] <==> Asked(input, word)
    ensures forall i :: 0 <= i < n ==> OptionWord(words[i])
  {
    OptionsAreOptions(input);
    GrepRoundTrip(GrepArgs(input, path));
    words, n := GrepArgs(input, path), |GrepOptions(input)|;
    CutBefore(GrepOptions(input), ["--", input.pattern, path], words);
    forall word ensures word in words[..n] <==> Asked(input, word) {
      OptionsExactly(input, word);
    }
    OptionsExactly(input, "");
  }
}
