/** `readText` of `tool_file_read.go`. A text is a sequence of bytes, one character each. */
module FileRead {
  import opened Wrappers
  import opened GoStrings
  import opened GoInts
  import opened TextSearch

  datatype ReadResult =
    | Text(body: string)
    | Binary
    | ReadFailed
    | Panic  // a slice expression with bounds out of order

  const NEWLINE := "\n"

  /** A NUL within the first 8192 bytes. */
  predicate IsBinary(content: string) {
    '\0' in (if |content| > 8192 then content[..8192] else content)
  }

  function Blanks(n: nat): (s: string)
    ensures |s| == n && forall i :: 0 <= i < n ==> s[i] == ' '
  {
    seq(n, _ => ' ')
  }

  /** One line of the output: the number right-aligned in six columns, a tab, the text. */
  function NumberedLine(number: string, line: string): string {
    Blanks(if |number| < 6 then 6 - |number| else 0) + number + "\t" + line
  }

  function NumberedLines(numbers: seq<string>, lines: seq<string>): (r: seq<string>)
    requires |numbers| == |lines|
    ensures |r| == |lines|
  {
    seq(|lines|, i requires 0 <= i < |lines| => NumberedLine(numbers[i], lines[i]))
  }

  /** The decimal numbers from `first` on. */
  function Numbers(first: nat, count: nat): (r: seq<string>)
    ensures |r| == count
  {
    seq(count, i requires 0 <= i < count => FormatNat(first + i))
  }

  /** Every entry followed by a newline. */
  function Rendered(entries: seq<string>): string {
    if entries == [] then "" else Rendered(entries[..|entries| - 1]) + entries[|entries| - 1] + NEWLINE
  }

  function FooterText(total: string, first: string, last: string): string {
    "[File has " + total + " total lines. Showing lines " + first + "-" + last + ". Use offset/limit to read more.]"
  }

  function Min(a: int, b: int): int {
    if a < b then a else b
  }

  function PageSize(limit: int): int {
    if limit == 0 then 2000 else limit
  }

  /** Where the window ends; the addition is done in 64 bits. */
  function WindowEnd(total: nat, start: int, limit: int64): int {
    Min(ToInt64(start + PageSize(limit)), total)
  }

  function Footer(total: nat, offset: nat, end: nat): string {
    if total > end then NEWLINE + FooterText(FormatNat(total), FormatNat(offset + 1), FormatNat(end)) else ""
  }

  function PageText(lines: seq<string>, offset: nat, end: nat): string
    requires offset <= end <= |lines|
  {
    Rendered(NumberedLines(Numbers(offset + 1, end - offset), lines[offset..end])) + Footer(|lines|, offset, end)
  }

  function ReadSpec(content: Option<string>, offset: int64, limit: int64): ReadResult {
    match content
    case None => ReadFailed
    case Some(text) =>
      if IsBinary(text) then Binary
      else
        var lines := Segments(text, NEWLINE);
        var start := Min(offset, |lines|);
        var end := WindowEnd(|lines|, start, limit);
        if 0 <= start <= end then Text(PageText(lines, start, end)) else Panic
  }

  method ReadText(content: Option<string>, offset: int64, limit: int64) returns (result: ReadResult)
    ensures result == ReadSpec(content, offset, limit)
  {
    if content.None? {
      return ReadFailed;
    }
    if IsBinary(content.value) {
      return Binary;
    }
    var all := Segments(content.value, NEWLINE);
    var total := |all|;
    var start := Min(offset, total);
    var end := WindowEnd(total, start, limit);
    if !(0 <= start <= end) {
      return Panic;
    }
    var b := RenderLines(all[start..end], start + 1);
    if total > end {
      b := b + (NEWLINE + FooterText(FormatNat(total), FormatNat(start + 1), FormatNat(end)));
    } else {
      assert b + "" == b;
    }
    return Text(b);
  }

  /** The loop that writes the window into the builder. */
  method RenderLines(lines: seq<string>, first: nat) returns (b: string)
    ensures b == Rendered(NumberedLines(Numbers(first, |lines|), lines))
  {
    ghost var entries := NumberedLines(Numbers(first, |lines|), lines);
    b := "";
    for i := 0 to |lines|
      invariant b == Rendered(entries[..i])
    {
      assert entries[..i + 1][..i] == entries[..i];
      b := b + NumberedLine(FormatNat(first + i), lines[i]) + NEWLINE;
    }
    assert entries[..|lines|] == entries;
  }

  lemma WindowBounds(total: nat, offset: int64, limit: int64)
    requires total < TWO63
    ensures 0 <= Min(offset, total) <= WindowEnd(total, Min(offset, total), limit)
            <==> offset >= 0 && limit >= 0 && Min(offset, total) + PageSize(limit) < TWO63
  {
  }

  /** The request makes the handler panic exactly when an argument is negative or the end of the window
      overflows. */
  lemma PanicsExactly(text: string, offset: int64, limit: int64)
    requires !IsBinary(text) && |Segments(text, NEWLINE)| < TWO63
    ensures ReadSpec(Some(text), offset, limit).Panic?
            <==> || offset < 0 || limit < 0
                 || Min(offset, |Segments(text, NEWLINE)|) + (if limit == 0 then 2000 else limit) >= TWO63
  {
    WindowBounds(|Segments(text, NEWLINE)|, offset, limit);
  }

  ghost predicate NulAt(text: string, i: nat) {
    i < |text| && text[i] == '\0'
  }

  /** The read fails exactly when the file cannot be read, and a file is refused as binary exactly when one of its
      first 8192 bytes is NUL. */
  lemma RefusedExactly(content: Option<string>, offset: int64, limit: int64)
    ensures ReadSpec(content, offset, limit).ReadFailed? <==> content.None?
    ensures ReadSpec(content, offset, limit).Binary?
            <==> content.Some? && exists i :: 0 <= i < 8192 && NulAt(content.value, i)
  {
    if content.Some? {
      var text := content.value;
      var head := if |text| > 8192 then text[..8192] else text;
      if '\0' in head {
        var i :| 0 <= i < |head| && head[i] == '\0';
        assert NulAt(text, i);
      }
      if i :| 0 <= i < 8192 && NulAt(text, i) {
        assert head[i] == '\0';
      }
    }
  }

  ghost predicate OneLine(line: string) {
    '\n' !in line
  }

  ghost predicate AllOneLine(lines: seq<string>) {
    forall i :: 0 <= i < |lines| ==> OneLine(lines[i])
  }

  /** Splitting at newlines is the inverse of joining lines. */
  lemma SplitOfJoined(lines: seq<string>)
    requires lines != [] && AllOneLine(lines)
    ensures Segments(Join(lines, NEWLINE), NEWLINE) == lines
  {
    SplitAtCharacter('\n', lines);
  }

  lemma LinesAreOneLine(text: string)
    ensures AllOneLine(Segments(text, NEWLINE))
  {
    SegmentsWithout('\n', text);
  }

  /** What a reader of a page sees: the numbers, the lines, and the numbers in the footer if there is one. */
  datatype Page = Page(numbers: seq<string>, lines: seq<string>, footer: seq<string>)

  predicate IsDigit(c: char) {
    '0' <= c <= '9'
  }

  function DigitsLength(s: string): (n: nat)
    ensures n <= |s|
    ensures s != "" && IsDigit(s[0]) ==> n > 0
  {
    if s == "" || !IsDigit(s[0]) then 0 else 1 + DigitsLength(s[1..])
  }

  /** The numbers that a text mentions. */
  function DigitRuns(s: string): seq<string> {
    if s == "" then []
    else if !IsDigit(s[0]) then DigitRuns(s[1..])
    else [s[..DigitsLength(s)]] + DigitRuns(s[DigitsLength(s)..])
  }

  function DropBlanks(s: string): string {
    if s == "" || s[0] != ' ' then s else DropBlanks(s[1..])
  }

  function UpToTab(s: string): string {
    if s == "" || s[0] == '\t' then "" else [s[0]] + UpToTab(s[1..])
  }

  function AfterTab(s: string): string {
    if s == "" then "" else if s[0] == '\t' then s[1..] else AfterTab(s[1..])
  }

  function NonEmptyPrefix(parts: seq<string>): (n: nat)
    ensures n <= |parts|
  {
    if parts == [] || parts[0] == "" then 0 else 1 + NonEmptyPrefix(parts[1..])
  }

  function ParsePage(body: string): Page {
    var parts := Segments(body, NEWLINE);
    var n := NonEmptyPrefix(parts);
    Page(seq(n, i requires 0 <= i < n => DropBlanks(UpToTab(parts[i]))),
         seq(n, i requires 0 <= i < n => AfterTab(parts[i])),
         if |parts| > n + 1 then DigitRuns(parts[n + 1]) else [])
  }

  ghost predicate TabFree(s: string) {
    forall i :: 0 <= i < |s| ==> s[i] != '\t'
  }

  lemma {:induction false} CutAtTab(before: string, after: string)
    requires TabFree(before)
    ensures UpToTab(before + "\t" + after) == before && AfterTab(before + "\t" + after) == after
  {
    var s := before + "\t" + after;
    if before != "" {
      CutAtTab(before[1..], after);
      assert s[1..] == before[1..] + "\t" + after;
      assert [before[0]] + before[1..] == before;
    }
  }

  lemma {:induction false} DropBlanksOf(blanks: string, number: string)
    requires forall i :: 0 <= i < |blanks| ==> blanks[i] == ' '
    requires number != "" && number[0] != ' '
    ensures DropBlanks(blanks + number) == number
  {
    var s := blanks + number;
    if blanks == "" {
      assert s == number;
    } else {
      DropBlanksOf(blanks[1..], number);
      assert s[1..] == blanks[1..] + number;
    }
  }

  ghost predicate Number(s: string) {
    s != "" && AllDigits(s)
  }

  ghost predicate EntryReads(entry: string, number: string, line: string) {
    entry != "" && DropBlanks(UpToTab(entry)) == number && AfterTab(entry) == line
  }

  /** A numbered line gives back its number and its text, whatever the text is. */
  lemma NumberedLineReads(number: string, line: string)
    requires Number(number) && OneLine(line)
    ensures EntryReads(NumberedLine(number, line), number, line) && OneLine(NumberedLine(number, line))
    ensures |UpToTab(NumberedLine(number, line))| == if |number| < 6 then 6 else |number|
  {
    var blanks := Blanks(if |number| < 6 then 6 - |number| else 0);
    var pad := blanks + number;
    assert TabFree(pad) && '\n' !in pad;
    CutAtTab(pad, line);
    DropBlanksOf(blanks, number);
  }

  /** Entries followed by newlines, then a closing part, are all of them joined by newlines. */
  lemma {:induction false} RenderedJoins(entries: seq<string>, tail: seq<string>)
    requires tail != []
    ensures Rendered(entries) + Join(tail, NEWLINE) == Join(entries + tail, NEWLINE)
    decreases |entries|
  {
    if entries == [] {
      assert entries + tail == tail;
    } else {
      var n := |entries| - 1;
      RenderedJoins(entries[..n], [entries[n]] + tail);
      JoinCons(entries[n], tail, NEWLINE);
      assert entries + tail == entries[..n] + ([entries[n]] + tail);
    }
  }

  ghost predicate NoDigits(s: string) {
    forall i :: 0 <= i < |s| ==> !IsDigit(s[i])
  }

  lemma {:induction false} RunsSkip(words: string, rest: string)
    requires NoDigits(words)
    ensures DigitRuns(words + rest) == DigitRuns(rest)
  {
    if words == "" {
      assert words + rest == rest;
    } else {
      RunsSkip(words[1..], rest);
      assert (words + rest)[1..] == words[1..] + rest;
    }
  }

  lemma {:induction false} DigitsLengthOf(number: string, rest: string)
    requires AllDigits(number) && (rest == "" || !IsDigit(rest[0]))
    ensures DigitsLength(number + rest) == |number|
  {
    if number == "" {
      assert number + rest == rest;
    } else {
      DigitsLengthOf(number[1..], rest);
      assert (number + rest)[1..] == number[1..] + rest;
    }
  }

  lemma RunsOfNumber(words: string, number: string, rest: string)
    requires NoDigits(words) && Number(number) && (rest == "" || !IsDigit(rest[0]))
    ensures DigitRuns(words + (number + rest)) == [number] + DigitRuns(rest)
  {
    RunsSkip(words, number + rest);
    DigitsLengthOf(number, rest);
    assert (number + rest)[0] == number[0];
    assert (number + rest)[..|number|] == number && (number + rest)[|number|..] == rest;
  }

  lemma SevenParts(a: string, first: string, b: string, second: string, c: string, third: string, d: string)
    ensures a + first + b + second + c + third + d == a + (first + (b + (second + (c + (third + d)))))
  {
  }

  lemma RunsOfWords(words: string)
    requires NoDigits(words)
    ensures DigitRuns(words) == []
  {
    RunsSkip(words, "");
    assert words + "" == words;
  }

  lemma RunsOfLast(words: string, number: string, rest: string)
    requires NoDigits(words) && Number(number) && NoDigits(rest)
    ensures DigitRuns(words + (number + rest)) == [number]
  {
    RunsOfNumber(words, number, rest);
    RunsOfWords(rest);
  }

  lemma RunsOfThree(a: string, first: string, b: string, second: string, c: string, third: string, d: string)
    requires NoDigits(a) && NoDigits(b) && NoDigits(c) && NoDigits(d) && b != "" && c != ""
    requires Number(first) && Number(second) && Number(third)
    ensures DigitRuns(a + (first + (b + (second + (c + (third + d)))))) == [first, second, third]
  {
    RunsOfLast(c, third, d);
    RunsOfNumber(b, second, c + (third + d));
    RunsOfNumber(a, first, b + (second + (c + (third + d))));
  }

  lemma FooterInWords(a: string, total: string, b: string, first: string, c: string, last: string, d: string)
    requires NoDigits(a) && NoDigits(b) && NoDigits(c) && NoDigits(d) && b != "" && c != ""
    requires Number(total) && Number(first) && Number(last)
    ensures DigitRuns(a + total + b + first + c + last + d) == [total, first, last]
  {
    SevenParts(a, total, b, first, c, last, d);
    RunsOfThree(a, total, b, first, c, last, d);
  }

  /** The footer mentions the total, the first and the last line shown, in this order. */
  lemma FooterNumbers(total: string, first: string, last: string)
    requires Number(total) && Number(first) && Number(last)
    ensures DigitRuns(FooterText(total, first, last)) == [total, first, last]
  {
    FooterInWords("[File has ", total, " total lines. Showing lines ", first, "-", last,
                  ". Use offset/limit to read more.]");
  }

  lemma FooterIsOneLine(total: string, first: string, last: string)
    requires Number(total) && Number(first) && Number(last)
    ensures OneLine(FooterText(total, first, last))
  {
  }

  lemma {:induction false} NonEmptyPrefixOf(front: seq<string>, tail: seq<string>)
    requires forall i :: 0 <= i < |front| ==> front[i] != ""
    requires tail != [] && tail[0] == ""
    ensures NonEmptyPrefix(front + tail) == |front|
  {
    if front == [] {
      assert front + tail == tail;
    } else {
      NonEmptyPrefixOf(front[1..], tail);
      assert (front + tail)[1..] == front[1..] + tail;
    }
  }

  lemma ParsePageOf(body: string, front: seq<string>, tail: seq<string>, numbers: seq<string>, lines: seq<string>)
    requires Segments(body, NEWLINE) == front + tail
    requires |numbers| == |lines| == |front|
    requires forall i :: 0 <= i < |front| ==> EntryReads(front[i], numbers[i], lines[i])
    requires tail != [] && tail[0] == ""
    ensures ParsePage(body) == Page(numbers, lines, if |tail| > 1 then DigitRuns(tail[1]) else [])
  {
    NonEmptyPrefixOf(front, tail);
    var page := ParsePage(body);
    forall i | 0 <= i < |front| ensures page.numbers[i] == numbers[i] && page.lines[i] == lines[i] {
      assert (front + tail)[i] == front[i] && EntryReads(front[i], numbers[i], lines[i]);
    }
  }

  lemma AllOneLineJoined(front: seq<string>, tail: seq<string>)
    requires AllOneLine(front) && AllOneLine(tail)
    ensures AllOneLine(front + tail)
  {
  }

  /** A rendered page, followed by a closing part, is read back as what was rendered. */
  lemma RenderedReads(numbers: seq<string>, lines: seq<string>, tail: seq<string>)
    requires |numbers| == |lines| && AllOneLine(lines) && AllOneLine(tail)
    requires forall i :: 0 <= i < |numbers| ==> Number(numbers[i])
    requires tail != [] && tail[0] == ""
    ensures ParsePage(Rendered(NumberedLines(numbers, lines)) + Join(tail, NEWLINE))
            == Page(numbers, lines, if |tail| > 1 then DigitRuns(tail[1]) else [])
  {
    var front := NumberedLines(numbers, lines);
    forall i | 0 <= i < |front| ensures OneLine(front[i]) && EntryReads(front[i], numbers[i], lines[i]) {
      NumberedLineReads(numbers[i], lines[i]);
    }
    AllOneLineJoined(front, tail);
    RenderedJoins(front, tail);
    SplitOfJoined(front + tail);
    ParsePageOf(Rendered(front) + Join(tail, NEWLINE), front, tail, numbers, lines);
  }

  /** The numbers that the footer of a page has to mention. */
  function FooterSays(total: nat, offset: nat, end: nat): seq<string> {
    [FormatNat(total), FormatNat(offset + 1), FormatNat(end)]
  }

  lemma FooterLine(total: nat, offset: nat, end: nat) returns (text: string)
    ensures text == FooterText(FormatNat(total), FormatNat(offset + 1), FormatNat(end)) && OneLine(text)
    ensures DigitRuns(text) == FooterSays(total, offset, end)
  {
    FormatNatDigits(total);
    FormatNatDigits(offset + 1);
    FormatNatDigits(end);
    FooterIsOneLine(FormatNat(total), FormatNat(offset + 1), FormatNat(end));
    FooterNumbers(FormatNat(total), FormatNat(offset + 1), FormatNat(end));
    text := FooterText(FormatNat(total), FormatNat(offset + 1), FormatNat(end));
  }

  lemma AfterBlankLine(text: string) returns (tail: seq<string>)
    requires OneLine(text)
    ensures |tail| == 2 && tail[0] == "" && tail[1] == text && AllOneLine(tail) && Join(tail, NEWLINE) == NEWLINE + text
  {
    tail := ["", text];
    JoinCons("", [text], NEWLINE);
  }

  lemma FooterParts(total: nat, offset: nat, end: nat) returns (tail: seq<string>)
    ensures tail != [] && tail[0] == "" && AllOneLine(tail)
    ensures Join(tail, NEWLINE) == Footer(total, offset, end)
    ensures (if |tail| > 1 then DigitRuns(tail[1]) else [])
            == if total > end then FooterSays(total, offset, end) else []
  {
    if total > end {
      var text := FooterLine(total, offset, end);
      tail := AfterBlankLine(text);
    } else {
      tail := [""];
    }
  }

  /** Reading a page back: consecutive numbers from `offset + 1`, exactly the lines of the window, and a footer, with
      the total and the window, exactly when lines remain. */
  lemma PageReads(lines: seq<string>, offset: nat, end: nat)
    requires offset <= end <= |lines| && AllOneLine(lines)
    ensures ParsePage(PageText(lines, offset, end))
            == Page(Numbers(offset + 1, end - offset), lines[offset..end],
                    if end < |lines| then FooterSays(|lines|, offset, end) else [])
  {
    var tail := FooterParts(|lines|, offset, end);
    var numbers := Numbers(offset + 1, end - offset);
    forall i | 0 <= i < |numbers| ensures Number(numbers[i]) {
      FormatNatDigits(offset + 1 + i);
    }
    assert AllOneLine(lines[offset..end]);
    RenderedReads(numbers, lines[offset..end], tail);
  }

  /** No request for a page of this text overflows. */
  ghost predicate Pageable(text: string, limit: int64) {
    !IsBinary(text) && limit >= 0 && |Segments(text, NEWLINE)| + PageSize(limit) < TWO63
  }

  lemma WindowOf(total: nat, start: nat, limit: int64)
    requires start <= total && limit >= 0 && total + PageSize(limit) < TWO63
    ensures WindowEnd(total, start, limit) == Min(start + PageSize(limit), total)
  {
  }

  /** Past the last line there is nothing to show and nothing to announce. */
  lemma PastTheEnd(text: string, offset: int64, limit: int64)
    requires Pageable(text, limit) && offset >= |Segments(text, NEWLINE)|
    ensures ReadSpec(Some(text), offset, limit) == Text("")
  {
    var lines := Segments(text, NEWLINE);
    WindowOf(|lines|, |lines|, limit);
    assert NumberedLines(Numbers(|lines| + 1, 0), lines[|lines|..]) == [];
    assert PageText(lines, |lines|, |lines|) == "";
  }

  /** The page a client reads at `offset`. */
  function PageAt(text: string, limit: int64, offset: nat): Page
    requires Pageable(text, limit) && offset <= |Segments(text, NEWLINE)|
  {
    WindowOf(|Segments(text, NEWLINE)|, offset, limit);
    ParsePage(ReadSpec(Some(text), offset, limit).body)
  }

  lemma PageAtIs(text: string, limit: int64, offset: nat) returns (lines: seq<string>, end: nat)
    requires Pageable(text, limit) && offset <= |Segments(text, NEWLINE)|
    ensures lines == Segments(text, NEWLINE) && end == Min(offset + (if limit == 0 then 2000 else limit), |lines|)
    ensures offset <= end <= |lines| && AllOneLine(lines)
    ensures PageAt(text, limit, offset) == ParsePage(PageText(lines, offset, end))
  {
    lines := Segments(text, NEWLINE);
    WindowOf(|lines|, offset, limit);
    LinesAreOneLine(text);
    end := WindowEnd(|lines|, offset, limit);
  }

  lemma PageAtShows(text: string, limit: int64, offset: nat)
    requires Pageable(text, limit) && offset <= |Segments(text, NEWLINE)|
    ensures var lines := Segments(text, NEWLINE);
            var end := Min(offset + (if limit == 0 then 2000 else limit), |lines|);
            PageAt(text, limit, offset) == Page(Numbers(offset + 1, end - offset), lines[offset..end],
                                                if end < |lines| then FooterSays(|lines|, offset, end) else [])
  {
    var lines, end := PageAtIs(text, limit, offset);
    PageReads(lines, offset, end);
  }

  /** Pages of `size` lines each, the last one without an announcement of more. */
  ghost predicate PagesOf(lines: seq<string>, size: nat, pageAt: nat -> Page) {
    forall o: nat :: o <= |lines| ==>
      var end := Min(o + size, |lines|);
      pageAt(o).lines == lines[o..end] && (pageAt(o).footer != [] <==> end < |lines|)
  }

  /** Asking for one page after the other, from `offset`, until no page announces more. */
  ghost function Collected(lines: seq<string>, size: nat, pageAt: nat -> Page, offset: nat): seq<string>
    requires size > 0 && offset <= |lines| && PagesOf(lines, size, pageAt)
    decreases |lines| - offset
  {
    var page := pageAt(offset);
    if page.footer != [] then page.lines + Collected(lines, size, pageAt, offset + size) else page.lines
  }

  lemma {:induction false} CollectedIsRest(lines: seq<string>, size: nat, pageAt: nat -> Page, offset: nat)
    requires size > 0 && offset <= |lines| && PagesOf(lines, size, pageAt)
    ensures Collected(lines, size, pageAt, offset) == lines[offset..]
    decreases |lines| - offset
  {
    var end := Min(offset + size, |lines|);
    assert lines[offset..] == lines[offset..end] + lines[end..];
    if pageAt(offset).footer != [] {
      CollectedIsRest(lines, size, pageAt, end);
    }
  }

  /** The pages of a text, as a function of the offset asked for. */
  ghost function PageReader(text: string, limit: int64): nat -> Page
    requires Pageable(text, limit)
  {
    (o: nat) => if o <= |Segments(text, NEWLINE)| then PageAt(text, limit, o) else Page([], [], [])
  }

  lemma PagesAreOfText(text: string, limit: int64)
    requires Pageable(text, limit)
    ensures PagesOf(Segments(text, NEWLINE), PageSize(limit), PageReader(text, limit))
  {
    forall o: nat | o <= |Segments(text, NEWLINE)|
      ensures PageReader(text, limit)(o) == PageAt(text, limit, o)
      ensures PageAt(text, limit, o).lines
              == Segments(text, NEWLINE)[o..Min(o + PageSize(limit), |Segments(text, NEWLINE)|)]
      ensures PageAt(text, limit, o).footer != []
              <==> Min(o + PageSize(limit), |Segments(text, NEWLINE)|) < |Segments(text, NEWLINE)|
    {
      PageAtShows(text, limit, o);
    }
  }

  /** Paging through a text file from the start, until no footer appears, terminates, and the pages joined
      by newlines are the file. */
  lemma PagesReassemble(text: string, limit: int64)
    requires Pageable(text, limit)
    ensures var lines := Segments(text, NEWLINE);
            && PagesOf(lines, PageSize(limit), PageReader(text, limit))
            && Join(Collected(lines, PageSize(limit), PageReader(text, limit), 0), NEWLINE) == text
  {
    var lines := Segments(text, NEWLINE);
    PagesAreOfText(text, limit);
    CollectedIsRest(lines, PageSize(limit), PageReader(text, limit), 0);
    SegmentsJoin(text, NEWLINE);
    assert lines[0..] == lines;
  }
}
