/** `shellQuote` and the command line built by `Grep` of `tool_grep.go`, read back by a shell, `printf` and
    `xargs -0` (sections 2.2 and 2.3 of the Shell Command Language of POSIX.1-2017). */
module ShellCommand {
  import opened Wrappers
  import opened TextSearch

  const QUOTE := "'"
  const ESCAPED_QUOTE := "'\\''"

  /** `shellQuote(s, true)`. */
  function ShellQuote(s: string): string {
    QUOTE + Replaced(s, QUOTE, ESCAPED_QUOTE, -1) + QUOTE
  }

  function QuotedArguments(args: seq<string>): string {
    if args == [] then "" else QuotedArguments(args[..|args| - 1]) + " " + ShellQuote(args[|args| - 1])
  }

  /** The command line that passes the arguments to grep through printf and xargs. */
  function GrepCommand(args: seq<string>): string {
    "printf '%s\\0'" + QuotedArguments(args) + " | xargs -0 grep; true"
  }

  method BuildGrepCommand(args: seq<string>) returns (cmd: string)
    ensures cmd == GrepCommand(args)
  {
    cmd := "printf '%s\\0'";
    for i := 0 to |args|
      invariant cmd == "printf '%s\\0'" + QuotedArguments(args[..i])
    {
      assert args[..i + 1][..i] == args[..i];
      var quoted := Replace(args[i], QUOTE, ESCAPED_QUOTE, -1);
      cmd := cmd + " " + (QUOTE + quoted + QUOTE);
    }
    assert args[..|args|] == args;
    cmd := cmd + " | xargs -0 grep; true";
  }

  // --- The shell: words and the two operators that the command uses -------------------------------------

  datatype Token = Word(text: string) | Pipe | Semicolon

  predicate IsBlank(c: char) {
    c == ' ' || c == '\t'
  }

  /** Characters with no meaning of their own to the shell, in any position. */
  predicate IsPlain(c: char) {
    'a' <= c <= 'z' || 'A' <= c <= 'Z' || '0' <= c <= '9' || c == '-' || c == '_' || c == '.' || c == '/'
  }

  function Sofar(word: Option<string>): string {
    match word
    case None => ""
    case Some(text) => text
  }

  function Flush(word: Option<string>): seq<Token> {
    match word
    case None => []
    case Some(text) => [Word(text)]
  }

  /** The text up to the next single quote, and the text after that quote. */
  function CutAtQuote(s: string): (r: Option<(string, string)>)
    ensures r.Some? ==> |r.value.1| < |s|
  {
    if s == "" then None
    else if s[0] == '\'' then Some(("", s[1..]))
    else
      match CutAtQuote(s[1..])
      case None => None
      case Some((body, after)) => Some(([s[0]] + body, after))
  }

  function Prepend(front: seq<Token>, rest: Option<seq<Token>>): Option<seq<Token>> {
    match rest
    case None => None
    case Some(tokens) => Some(front + tokens)
  }

  /** Token recognition, with the word read so far; `None` for anything outside the modelled part. */
  function Tokenize(input: string, word: Option<string>): Option<seq<Token>>
    decreases |input|
  {
    if input == "" then Some(Flush(word))
    else
      var c, rest := input[0], input[1..];
      if c == '\'' then
        match CutAtQuote(rest)
        case None => None
        case Some((body, after)) => Tokenize(after, Some(Sofar(word) + body))
      else if c == '\\' then
        if rest == "" then None
        else if rest[0] == '\n' then Tokenize(rest[1..], word)
        else Tokenize(rest[1..], Some(Sofar(word) + [rest[0]]))
      else if IsBlank(c) then Prepend(Flush(word), Tokenize(rest, None))
      else if c == '|' then
        if rest != "" && rest[0] == '|' then None else Prepend(Flush(word) + [Pipe], Tokenize(rest, None))
      else if c == ';' then
        if rest != "" && rest[0] == ';' then None else Prepend(Flush(word) + [Semicolon], Tokenize(rest, None))
      else if IsPlain(c) then Tokenize(rest, Some(Sofar(word) + [c]))
      else None
  }

  lemma {:induction false} CutOfQuoted(body: string, rest: string)
    requires '\'' !in body
    ensures CutAtQuote(body + QUOTE + rest) == Some((body, rest))
  {
    var s := body + QUOTE + rest;
    if body == "" {
      assert s[1..] == rest;
    } else {
      assert body[0] in body;
      CutOfQuoted(body[1..], rest);
      assert s[1..] == body[1..] + QUOTE + rest;
      assert [body[0]] + body[1..] == body;
    }
  }

  /** A single-quoted stretch adds its text to the word. */
  lemma QuotedStretch(body: string, rest: string, word: Option<string>)
    requires '\'' !in body
    ensures Tokenize(QUOTE + body + QUOTE + rest, word) == Tokenize(rest, Some(Sofar(word) + body))
  {
    var s := QUOTE + body + QUOTE + rest;
    assert s[1..] == body + QUOTE + rest;
    CutOfQuoted(body, rest);
  }

  /** A backslash and a quote add a quote to the word. */
  lemma EscapedQuote(rest: string, word: Option<string>)
    ensures Tokenize("\\'" + rest, word) == Tokenize(rest, Some(Sofar(word) + QUOTE))
  {
  }

  lemma {:induction false} QuotedParts(parts: seq<string>, rest: string, word: Option<string>)
    requires parts != [] && forall i :: 0 <= i < |parts| ==> '\'' !in parts[i]
    ensures Tokenize(QUOTE + Join(parts, ESCAPED_QUOTE) + QUOTE + rest, word)
            == Tokenize(rest, Some(Sofar(word) + Join(parts, QUOTE)))
    decreases |parts|
  {
    if |parts| == 1 {
      QuotedStretch(parts[0], rest, word);
    } else {
      var tail := QUOTE + Join(parts[1..], ESCAPED_QUOTE) + QUOTE + rest;
      var w := Some(Sofar(word) + parts[0]);
      assert QUOTE + Join(parts, ESCAPED_QUOTE) + QUOTE + rest == QUOTE + parts[0] + QUOTE + ("\\'" + tail);
      QuotedStretch(parts[0], "\\'" + tail, word);
      EscapedQuote(tail, w);
      QuotedParts(parts[1..], rest, Some(Sofar(w) + QUOTE));
      assert Sofar(word) + parts[0] + QUOTE + Join(parts[1..], QUOTE) == Sofar(word) + Join(parts, QUOTE);
    }
  }

  /** Quoting inverts: whatever the text contains, the shell reads it back as part of one word. */
  lemma ShellQuoteReads(s: string, rest: string, word: Option<string>)
    ensures Tokenize(ShellQuote(s) + rest, word) == Tokenize(rest, Some(Sofar(word) + s))
  {
    var parts := Segments(s, QUOTE);
    SegmentsWithout('\'', s);
    SegmentsJoin(s, QUOTE);
    JoinFirstAll(parts, ESCAPED_QUOTE, QUOTE, Count(s, QUOTE));
    QuotedParts(parts, rest, word);
  }

  lemma {:induction false} PlainReads(text: string, rest: string, word: Option<string>)
    requires text != "" && forall i :: 0 <= i < |text| ==> IsPlain(text[i])
    ensures Tokenize(text + rest, word) == Tokenize(rest, Some(Sofar(word) + text))
  {
    var s := text + rest;
    assert s[1..] == text[1..] + rest;
    if |text| == 1 {
      assert s[1..] == rest;
      assert [s[0]] == text;
    } else {
      PlainReads(text[1..], rest, Some(Sofar(word) + [s[0]]));
      assert Sofar(word) + [s[0]] + text[1..] == Sofar(word) + text;
    }
  }

  lemma BlankReads(rest: string, word: Option<string>)
    ensures Tokenize(" " + rest, word) == Prepend(Flush(word), Tokenize(rest, None))
  {
  }

  function Words(args: seq<string>): (r: seq<Token>)
    ensures |r| == |args| && forall i :: 0 <= i < |args| ==> r[i] == Word(args[i])
  {
    seq(|args|, i requires 0 <= i < |args| => Word(args[i]))
  }

  lemma PrependTwice(a: seq<Token>, b: seq<Token>, rest: Option<seq<Token>>)
    ensures Prepend(a, Prepend(b, rest)) == Prepend(a + b, rest)
  {
    match rest
    case None =>
    case Some(tokens) => assert a + (b + tokens) == a + b + tokens;
  }

  lemma OneArgumentReads(arg: string, rest: string)
    ensures Tokenize(ShellQuote(arg) + (" " + rest), None) == Prepend([Word(arg)], Tokenize(rest, None))
  {
    ShellQuoteReads(arg, " " + rest, None);
    assert "" + arg == arg;
    BlankReads(rest, Some(arg));
  }

  lemma Regroup(a: string, b: string, c: string)
    ensures a + " " + b + " " + c == a + " " + (b + (" " + c))
  {
  }

  lemma WordsSnoc(args: seq<string>, word: string)
    requires args != []
    ensures [Word(word)] + Words(args) == [Word(word)] + Words(args[..|args| - 1]) + [Word(args[|args| - 1])]
  {
  }

  lemma {:induction false} ArgumentsRead(args: seq<string>, rest: string, word: string)
    ensures Tokenize(QuotedArguments(args) + " " + rest, Some(word))
            == Prepend([Word(word)] + Words(args), Tokenize(rest, None))
    decreases |args|
  {
    if args == [] {
      assert "" + " " + rest == " " + rest;
      BlankReads(rest, Some(word));
      assert [Word(word)] + Words(args) == [Word(word)];
    } else {
      var n := |args| - 1;
      var front, last := QuotedArguments(args[..n]), ShellQuote(args[n]);
      ArgumentsRead(args[..n], last + (" " + rest), word);
      OneArgumentReads(args[n], rest);
      Regroup(front, last, rest);
      PrependTwice([Word(word)] + Words(args[..n]), [Word(args[n])], Tokenize(rest, None));
      WordsSnoc(args, word);
    }
  }

  const CLOSING := [Pipe, Word("xargs"), Word("-0"), Word("grep"), Semicolon, Word("true")]

  lemma PlainWord(text: string, rest: string)
    requires text != "" && forall i :: 0 <= i < |text| ==> IsPlain(text[i])
    ensures Tokenize(text + rest, None) == Tokenize(rest, Some(text))
  {
    PlainReads(text, rest, None);
    assert "" + text == text;
  }

  lemma WordThenBlank(text: string, rest: string)
    requires text != "" && forall i :: 0 <= i < |text| ==> IsPlain(text[i])
    ensures Tokenize(text + (" " + rest), None) == Prepend([Word(text)], Tokenize(rest, None))
  {
    PlainWord(text, " " + rest);
    BlankReads(rest, Some(text));
  }

  lemma PipeReads(rest: string)
    ensures Tokenize("|" + (" " + rest), None) == Prepend([Pipe], Tokenize(rest, None))
  {
    BlankReads(rest, None);
    PrependTwice([Pipe], [], Tokenize(rest, None));
    assert [] + [Pipe] == [Pipe] && [Pipe] + [] == [Pipe];
    assert ("|" + (" " + rest))[1..] == " " + rest;
  }

  lemma SemicolonReads(rest: string, word: string)
    requires rest != "" && rest[0] != ';'
    ensures Tokenize(";" + rest, Some(word)) == Prepend([Word(word), Semicolon], Tokenize(rest, None))
  {
    assert (";" + rest)[1..] == rest;
    assert [Word(word)] + [Semicolon] == [Word(word), Semicolon];
  }

  // The pieces of the command are named by variables below, so that they are not evaluated character by character.

  lemma TrueReads(last: string)
    requires last == "true"
    ensures Tokenize(" " + last, None) == Some([Word(last)])
  {
    BlankReads(last, None);
    assert last == last + "";
    PlainWord(last, "");
    assert [] + [Word(last)] == [Word(last)];
  }

  lemma GrepTrueReads(grep: string, last: string)
    requires grep == "grep" && last == "true"
    ensures Tokenize(grep + (";" + (" " + last)), None) == Some([Word(grep), Semicolon, Word(last)])
  {
    TrueReads(last);
    SemicolonReads(" " + last, grep);
    PlainWord(grep, ";" + (" " + last));
    assert [Word(grep), Semicolon] + [Word(last)] == [Word(grep), Semicolon, Word(last)];
  }

  lemma XargsReads(xargs: string, nul: string, rest: string, tokens: seq<Token>)
    requires xargs == "xargs" && nul == "-0"
    requires Tokenize(rest, None) == Some(tokens)
    ensures Tokenize("|" + (" " + (xargs + (" " + (nul + (" " + rest))))), None)
            == Some([Pipe, Word(xargs), Word(nul)] + tokens)
  {
    WordThenBlank(nul, rest);
    WordThenBlank(xargs, nul + (" " + rest));
    PipeReads(xargs + (" " + (nul + (" " + rest))));
    assert [Pipe] + ([Word(xargs)] + ([Word(nul)] + tokens)) == [Pipe, Word(xargs), Word(nul)] + tokens;
  }

  lemma ClosingReads(closing: string, xargs: string, nul: string, grep: string, last: string)
    requires xargs == "xargs" && nul == "-0" && grep == "grep" && last == "true"
    requires closing == "|" + (" " + (xargs + (" " + (nul + (" " + (grep + (";" + (" " + last))))))))
    ensures Tokenize(closing, None) == Some([Pipe, Word(xargs), Word(nul), Word(grep), Semicolon, Word(last)])
  {
    GrepTrueReads(grep, last);
    XargsReads(xargs, nul, grep + (";" + (" " + last)), [Word(grep), Semicolon, Word(last)]);
    assert [Pipe, Word(xargs), Word(nul)] + [Word(grep), Semicolon, Word(last)]
           == [Pipe, Word(xargs), Word(nul), Word(grep), Semicolon, Word(last)];
  }

  const FORMAT := "%s\\0"

  lemma FormatReads(opening: string, tail: string)
    requires opening == "printf '%s\\0'"
    ensures Tokenize(opening + tail, None) == Prepend([Word("printf")], Tokenize(tail, Some(FORMAT)))
  {
    assert opening + tail == "printf" + (" " + (QUOTE + FORMAT + QUOTE + tail));
    WordThenBlank("printf", QUOTE + FORMAT + QUOTE + tail);
    QuotedStretch(FORMAT, tail, None);
    assert "" + FORMAT == FORMAT;
  }

  lemma CommandRegroups(args: seq<string>, opening: string, closing: string)
    requires opening == "printf '%s\\0'" && closing == "| xargs -0 grep; true"
    ensures GrepCommand(args) == opening + (QuotedArguments(args) + " " + closing)
  {
    assert " | xargs -0 grep; true" == " " + closing;
  }

  lemma PiecesRead(args: seq<string>, opening: string, closing: string)
    requires opening == "printf '%s\\0'"
    requires Tokenize(closing, None) == Some(CLOSING)
    ensures Tokenize(opening + (QuotedArguments(args) + " " + closing), None)
            == Some([Word("printf"), Word(FORMAT)] + Words(args) + CLOSING)
  {
    FormatReads(opening, QuotedArguments(args) + " " + closing);
    ArgumentsRead(args, closing, FORMAT);
    PrependTwice([Word("printf")], [Word(FORMAT)] + Words(args), Some(CLOSING));
    assert [Word("printf")] + ([Word(FORMAT)] + Words(args)) == [Word("printf"), Word(FORMAT)] + Words(args);
  }

  /** The shell reads the command as printf with the two-part format and exactly the arguments, piped into
      `xargs -0 grep`, then `true`. */
  lemma CommandReads(args: seq<string>)
    ensures Tokenize(GrepCommand(args), None) == Some([Word("printf"), Word(FORMAT)] + Words(args) + CLOSING)
  {
    var opening, closing := "printf '%s\\0'", "| xargs -0 grep; true";
    CommandRegroups(args, opening, closing);
    ClosingReads(closing, "xargs", "-0", "grep", "true");
    PiecesRead(args, opening, closing);
  }
}
