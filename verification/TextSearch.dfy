/** `strings.Index`, `strings.Count` and `strings.Replace`. A text is a sequence of characters (Go's runes). */
module TextSearch {
  import opened Wrappers

  predicate MatchAt(text: string, pat: string, i: int) {
    0 <= i <= |text| - |pat| && text[i..i + |pat|] == pat
  }

  /** The first match at or after position `i`. */
  function IndexFrom(text: string, pat: string, i: nat): (r: Option<nat>)
    ensures r.Some? ==> i <= r.value && r.value + |pat| <= |text|
    decreases |text| - i
  {
    if MatchAt(text, pat, i) then Some(i)
    else if i >= |text| then None
    else IndexFrom(text, pat, i + 1)
  }

  /** The search finds a match, none lies before it, and it fails only when there is none. */
  lemma {:induction false} IndexFromIsFirst(text: string, pat: string, i: nat)
    ensures var r := IndexFrom(text, pat, i);
            && (r.Some? ==> MatchAt(text, pat, r.value) && forall j :: i <= j < r.value ==> !MatchAt(text, pat, j))
            && (r.None? ==> forall j :: i <= j ==> !MatchAt(text, pat, j))
    decreases |text| - i
  {
    if !MatchAt(text, pat, i) && i < |text| {
      IndexFromIsFirst(text, pat, i + 1);
    }
  }

  lemma IndexFromIs(text: string, pat: string, i: nat, k: nat)
    requires i <= k && MatchAt(text, pat, k) && forall j :: i <= j < k ==> !MatchAt(text, pat, j)
    ensures IndexFrom(text, pat, i) == Some(k)
  {
    IndexFromIsFirst(text, pat, i);
  }

  /** `strings.Index`. */
  function Index(text: string, pat: string): (r: Option<nat>) {
    IndexFrom(text, pat, 0)
  }

  function CountFrom(text: string, pat: string, start: nat): nat
    requires pat != ""
    decreases |text| - start
  {
    match IndexFrom(text, pat, start)
    case None => 0
    case Some(i) => 1 + CountFrom(text, pat, i + |pat|)
  }

  /** `strings.Count`: non-overlapping matches from the left; an empty pattern matches around every character. */
  function Count(text: string, pat: string): nat {
    if pat == "" then |text| + 1 else CountFrom(text, pat, 0)
  }

  /** The stretches of text, from `start` on, around the matches that `Count` counts. */
  function SegmentsFrom(text: string, pat: string, start: nat): (parts: seq<string>)
    requires pat != "" && start <= |text|
    ensures parts != []
    decreases |text| - start
  {
    match IndexFrom(text, pat, start)
    case None => [text[start..]]
    case Some(i) => [text[start..i]] + SegmentsFrom(text, pat, i + |pat|)
  }

  function SinglesFrom(text: string, start: nat): (parts: seq<string>)
    requires start <= |text|
    ensures |parts| == |text| - start
    decreases |text| - start
  {
    if start == |text| then [] else [text[start..start + 1]] + SinglesFrom(text, start + 1)
  }

  function Segments(text: string, pat: string): (parts: seq<string>)
    ensures parts != []
  {
    if pat == "" then [""] + (SinglesFrom(text, 0) + [""]) else SegmentsFrom(text, pat, 0)
  }

  function Join(parts: seq<string>, sep: string): string
    requires parts != []
  {
    if |parts| == 1 then parts[0] else parts[0] + sep + Join(parts[1..], sep)
  }

  /** Joins with `rep` in the first `k` gaps and with `pat` in the others. */
  function JoinFirst(parts: seq<string>, rep: string, pat: string, k: nat): string
    requires parts != []
  {
    if |parts| == 1 then parts[0]
    else if k == 0 then parts[0] + pat + JoinFirst(parts[1..], rep, pat, 0)
    else parts[0] + rep + JoinFirst(parts[1..], rep, pat, k - 1)
  }

  lemma {:induction false} JoinFirstNone(parts: seq<string>, rep: string, pat: string)
    requires parts != []
    ensures JoinFirst(parts, rep, pat, 0) == Join(parts, pat)
  {
    if |parts| > 1 {
      JoinFirstNone(parts[1..], rep, pat);
    }
  }

  lemma {:induction false} JoinFirstAll(parts: seq<string>, rep: string, pat: string, k: nat)
    requires parts != [] && k >= |parts| - 1
    ensures JoinFirst(parts, rep, pat, k) == Join(parts, rep)
  {
    if |parts| > 1 {
      JoinFirstAll(parts[1..], rep, pat, k - 1);
    }
  }

  lemma {:induction false} JoinFirstSame(parts: seq<string>, pat: string, k: nat)
    requires parts != []
    ensures JoinFirst(parts, pat, pat, k) == Join(parts, pat)
  {
    if |parts| > 1 {
      JoinFirstSame(parts[1..], pat, if k == 0 then 0 else k - 1);
    }
  }

  lemma {:induction false} JoinFirstLength(parts: seq<string>, rep: string, pat: string, k: nat)
    requires k < |parts|
    ensures |JoinFirst(parts, rep, pat, k)| == |JoinFirst(parts, pat, pat, k)| + k * (|rep| - |pat|)
  {
    if k > 0 {
      JoinFirstLength(parts[1..], rep, pat, k - 1);
      assert k * (|rep| - |pat|) == (k - 1) * (|rep| - |pat|) + (|rep| - |pat|);
    } else if |parts| > 1 {
      JoinFirstNone(parts, rep, pat);
      JoinFirstNone(parts, pat, pat);
    }
  }

  /** Joining at least one place by another string gives the same text only when the strings are the same. */
  lemma JoinFirstDiffers(parts: seq<string>, rep: string, pat: string, k: nat)
    requires 0 < k < |parts| && JoinFirst(parts, rep, pat, k) == JoinFirst(parts, pat, pat, k)
    ensures rep == pat
  {
    JoinFirstLength(parts, rep, pat, k);
    assert |rep| == |pat|;
    var a := JoinFirst(parts, rep, pat, k);
    assert a[|parts[0]|..][..|rep|] == rep && a[|parts[0]|..][..|pat|] == pat;
  }

  lemma JoinCons(head: string, tail: seq<string>, sep: string)
    requires tail != []
    ensures Join([head] + tail, sep) == head + sep + Join(tail, sep)
  {
  }

  lemma {:induction false} SinglesJoin(text: string, start: nat)
    requires start <= |text|
    ensures Join(SinglesFrom(text, start) + [""], "") == text[start..]
    decreases |text| - start
  {
    if start < |text| {
      SinglesJoin(text, start + 1);
      var tail := SinglesFrom(text, start + 1) + [""];
      assert SinglesFrom(text, start) + [""] == [text[start..start + 1]] + tail;
      JoinCons(text[start..start + 1], tail, "");
    }
  }

  lemma {:induction false} SegmentsFromJoin(text: string, pat: string, start: nat)
    requires pat != "" && start <= |text|
    ensures Join(SegmentsFrom(text, pat, start), pat) == text[start..]
    ensures |SegmentsFrom(text, pat, start)| == CountFrom(text, pat, start) + 1
    decreases |text| - start
  {
    match IndexFrom(text, pat, start)
    case None =>
    case Some(i) =>
      var tail := SegmentsFrom(text, pat, i + |pat|);
      SegmentsFromJoin(text, pat, i + |pat|);
      assert SegmentsFrom(text, pat, start) == [text[start..i]] + tail;
      JoinCons(text[start..i], tail, pat);
      AroundMatch(text, pat, start);
  }

  /** Joining the segments by the pattern gives the text back, and there is one more segment than matches. */
  lemma SegmentsJoin(text: string, pat: string)
    ensures Join(Segments(text, pat), pat) == text
    ensures |Segments(text, pat)| == Count(text, pat) + 1
  {
    if pat == "" {
      SinglesJoin(text, 0);
      JoinCons("", SinglesFrom(text, 0) + [""], "");
    } else {
      SegmentsFromJoin(text, pat, 0);
    }
  }

  function TotalLength(parts: seq<string>): nat {
    if parts == [] then 0 else |parts[0]| + TotalLength(parts[1..])
  }

  lemma {:induction false} JoinLength(parts: seq<string>, sep: string)
    requires parts != []
    ensures |Join(parts, sep)| == TotalLength(parts) + (|parts| - 1) * |sep|
  {
    if |parts| > 1 {
      JoinLength(parts[1..], sep);
      assert (|parts| - 2) * |sep| + |sep| == (|parts| - 1) * |sep|;
    }
  }

  /** Every match replaced changes the length by the same amount. */
  lemma JoinedLength(text: string, pat: string, rep: string)
    ensures |Join(Segments(text, pat), rep)| == |text| + Count(text, pat) * (|rep| - |pat|)
  {
    SegmentsJoin(text, pat);
    var parts, c := Segments(text, pat), Count(text, pat);
    JoinLength(parts, pat);
    JoinLength(parts, rep);
    assert c * (|rep| - |pat|) == c * |rep| - c * |pat|;
  }

  /** The first match in the segment followed by the pattern is the pattern that was appended. */
  ghost predicate CleanSegment(seg: string, pat: string) {
    Index(seg + pat, pat) == Some(|seg|)
  }

  ghost predicate Matchless(seg: string, pat: string) {
    Index(seg, pat) == None
  }

  /** A split at leftmost matches: every segment but the last is clean, and the last has no match. */
  ghost predicate LeftmostSplit(parts: seq<string>, pat: string) {
    parts != [] &&
    if |parts| == 1 then Matchless(parts[0], pat)
    else CleanSegment(parts[0], pat) && LeftmostSplit(parts[1..], pat)
  }

  lemma {:induction false} LeftmostParts(parts: seq<string>, pat: string)
    ensures LeftmostSplit(parts, pat)
            <==> parts != [] && Matchless(parts[|parts| - 1], pat)
                 && forall i :: 0 <= i < |parts| - 1 ==> CleanSegment(parts[i], pat)
  {
    if |parts| > 1 {
      LeftmostParts(parts[1..], pat);
      assert forall i :: 1 <= i < |parts| ==> parts[i] == parts[1..][i - 1];
    }
  }

  lemma SliceOfSlice(text: string, from: nat, to: nat, a: nat, b: nat)
    requires from <= to <= |text| && a <= b <= to - from
    ensures text[from..to][a..b] == text[from + a..from + b]
  {
    forall k | 0 <= k < b - a ensures text[from..to][a..b][k] == text[from + a..from + b][k] {
    }
  }

  /** Text cut at a known head and separator. */
  lemma Peel(text: string, start: nat, head: string, sep: string, rest: string)
    requires start <= |text| && text[start..] == head + sep + rest
    ensures var i := start + |head|;
            && i + |sep| <= |text|
            && text[start..i] == head && text[i..i + |sep|] == sep && text[i + |sep|..] == rest
            && text[start..i + |sep|] == head + sep
  {
  }

  /** A stretch of text has the matches that the text has there. */
  lemma MatchInside(text: string, from: nat, to: nat, pat: string, j: nat)
    requires from <= to <= |text| && j + |pat| <= to - from
    ensures MatchAt(text[from..to], pat, j) <==> MatchAt(text, pat, from + j)
  {
    SliceOfSlice(text, from, to, j, j + |pat|);
  }

  /** The first match from `start` on, seen in the stretch that ends with it. */
  lemma FirstMatchInStretch(text: string, pat: string, start: nat, i: nat)
    requires start <= i && IndexFrom(text, pat, start) == Some(i)
    ensures Index(text[start..i + |pat|], pat) == Some(i - start)
  {
    IndexFromIsFirst(text, pat, start);
    var stretch := text[start..i + |pat|];
    forall j | 0 <= j < i - start ensures !MatchAt(stretch, pat, j) {
      MatchInside(text, start, i + |pat|, pat, j);
    }
    MatchInside(text, start, i + |pat|, pat, i - start);
    IndexFromIs(stretch, pat, 0, i - start);
  }

  lemma NotBefore(text: string, pat: string, start: nat, i: nat, j: nat)
    requires start <= j < i && i + |pat| <= |text| && !MatchAt(text[start..i + |pat|], pat, j - start)
    ensures !MatchAt(text, pat, j)
  {
    MatchInside(text, start, i + |pat|, pat, j - start);
  }

  lemma FirstMatchOfStretch(text: string, pat: string, start: nat, i: nat)
    requires start <= i && i + |pat| <= |text|
    requires Index(text[start..i + |pat|], pat) == Some(i - start)
    ensures IndexFrom(text, pat, start) == Some(i)
  {
    var stretch := text[start..i + |pat|];
    IndexFromIsFirst(stretch, pat, 0);
    assert MatchAt(text, pat, i) by {
      MatchInside(text, start, i + |pat|, pat, i - start);
    }
    forall j | start <= j < i ensures !MatchAt(text, pat, j) {
      NotBefore(text, pat, start, i, j);
    }
    IndexFromIs(text, pat, start, i);
  }

  lemma NoMatchIsLocal(text: string, pat: string, start: nat)
    requires pat != "" && start <= |text|
    ensures IndexFrom(text, pat, start).None? <==> Index(text[start..], pat).None?
  {
    var rest := text[start..];
    assert rest == text[start..|text|];
    IndexFromIsFirst(text, pat, start);
    IndexFromIsFirst(rest, pat, 0);
    match IndexFrom(text, pat, start) {
      case Some(i) => MatchInside(text, start, |text|, pat, i - start);
      case None =>
    }
    match Index(rest, pat) {
      case Some(i) => MatchInside(text, start, |text|, pat, i);
      case None =>
    }
  }

  lemma AroundMatch(text: string, pat: string, start: nat)
    requires start <= |text| && IndexFrom(text, pat, start).Some?
    ensures var i := IndexFrom(text, pat, start).value;
            && text[start..] == text[start..i] + pat + text[i + |pat|..]
            && text[start..i + |pat|] == text[start..i] + pat
  {
    IndexFromIsFirst(text, pat, start);
  }

  /** The first segment found is clean. */
  lemma FirstSegmentClean(text: string, pat: string, start: nat)
    requires pat != "" && start <= |text| && IndexFrom(text, pat, start).Some?
    ensures CleanSegment(text[start..IndexFrom(text, pat, start).value], pat)
  {
    var i := IndexFrom(text, pat, start).value;
    AroundMatch(text, pat, start);
    FirstMatchInStretch(text, pat, start, i);
  }

  /** A clean segment in front is the first segment found. */
  lemma CleanSegmentFirst(text: string, pat: string, start: nat, head: string, rest: string)
    requires pat != "" && start <= |text| && text[start..] == head + pat + rest && CleanSegment(head, pat)
    ensures var i := start + |head|;
            && IndexFrom(text, pat, start) == Some(i) && i + |pat| <= |text|
            && text[start..i] == head && text[i + |pat|..] == rest
  {
    Peel(text, start, head, pat, rest);
    FirstMatchOfStretch(text, pat, start, start + |head|);
  }

  lemma LastOfSplit(text: string, pat: string, start: nat)
    requires pat != "" && start <= |text|
    ensures Matchless(text[start..], pat) <==> IndexFrom(text, pat, start).None?
  {
    NoMatchIsLocal(text, pat, start);
  }

  lemma FirstOfSplit(text: string, pat: string, start: nat)
    requires pat != "" && start <= |text| && IndexFrom(text, pat, start).Some?
    requires LeftmostSplit(SegmentsFrom(text, pat, IndexFrom(text, pat, start).value + |pat|), pat)
    ensures LeftmostSplit(SegmentsFrom(text, pat, start), pat)
  {
    var i := IndexFrom(text, pat, start).value;
    FirstSegmentClean(text, pat, start);
    var tail := SegmentsFrom(text, pat, i + |pat|);
    assert ([text[start..i]] + tail)[1..] == tail;
  }

  lemma {:induction false} SegmentsFromLeftmost(text: string, pat: string, start: nat)
    requires pat != "" && start <= |text|
    ensures LeftmostSplit(SegmentsFrom(text, pat, start), pat)
    decreases |text| - start
  {
    if IndexFrom(text, pat, start).None? {
      LastOfSplit(text, pat, start);
    } else {
      SegmentsFromLeftmost(text, pat, IndexFrom(text, pat, start).value + |pat|);
      FirstOfSplit(text, pat, start);
    }
  }

  /** The head of a leftmost split of the text from `start` on is the first segment found there. */
  lemma SplitHead(text: string, pat: string, start: nat, parts: seq<string>)
    requires pat != "" && start <= |text| && |parts| > 1
    requires LeftmostSplit(parts, pat) && Join(parts, pat) == text[start..]
    ensures var next := start + |parts[0]| + |pat|;
            && next <= |text| && Join(parts[1..], pat) == text[next..]
            && SegmentsFrom(text, pat, start) == [parts[0]] + SegmentsFrom(text, pat, next)
  {
    CleanSegmentFirst(text, pat, start, parts[0], Join(parts[1..], pat));
  }

  lemma OnlyPart(text: string, pat: string, start: nat, parts: seq<string>)
    requires pat != "" && start <= |text| && |parts| == 1
    requires LeftmostSplit(parts, pat) && Join(parts, pat) == text[start..]
    ensures parts == SegmentsFrom(text, pat, start)
  {
    LastOfSplit(text, pat, start);
  }

  lemma {:induction false} SegmentsFromUnique(text: string, pat: string, start: nat, parts: seq<string>)
    requires pat != "" && start <= |text|
    requires LeftmostSplit(parts, pat) && Join(parts, pat) == text[start..]
    ensures parts == SegmentsFrom(text, pat, start)
    decreases |parts|
  {
    if |parts| == 1 {
      OnlyPart(text, pat, start, parts);
    } else {
      SplitHead(text, pat, start, parts);
      SegmentsFromUnique(text, pat, start + |parts[0]| + |pat|, parts[1..]);
      assert parts == [parts[0]] + parts[1..];
    }
  }

  /** The segments are the one and only leftmost split of the text. */
  lemma SegmentsAreTheLeftmostSplit(text: string, pat: string, parts: seq<string>)
    requires pat != ""
    ensures parts == Segments(text, pat) <==> LeftmostSplit(parts, pat) && Join(parts, pat) == text
  {
    SegmentsFromLeftmost(text, pat, 0);
    SegmentsFromJoin(text, pat, 0);
    assert text[0..] == text;
    if LeftmostSplit(parts, pat) && Join(parts, pat) == text {
      SegmentsFromUnique(text, pat, 0, parts);
    }
  }

  lemma CharacterMatches(c: char, s: string, i: int)
    ensures MatchAt(s, [c], i) <==> 0 <= i < |s| && s[i] == c
  {
  }

  lemma CleanMeansWithout(c: char, seg: string)
    ensures CleanSegment(seg, [c]) <==> c !in seg
  {
    var s := seg + [c];
    forall i ensures MatchAt(s, [c], i) <==> 0 <= i < |s| && s[i] == c {
      CharacterMatches(c, s, i);
    }
    IndexFromIsFirst(s, [c], 0);
    assert MatchAt(s, [c], |seg|);
    if c in seg {
      var i :| 0 <= i < |seg| && seg[i] == c;
      assert MatchAt(s, [c], i);
    }
  }

  lemma MatchlessMeansWithout(c: char, seg: string)
    ensures Matchless(seg, [c]) <==> c !in seg
  {
    forall i ensures MatchAt(seg, [c], i) <==> 0 <= i < |seg| && seg[i] == c {
      CharacterMatches(c, seg, i);
    }
    IndexFromIsFirst(seg, [c], 0);
  }

  /** Splitting at a character is the inverse of joining parts that do not contain it. */
  lemma SplitAtCharacter(c: char, parts: seq<string>)
    requires parts != [] && forall i :: 0 <= i < |parts| ==> c !in parts[i]
    ensures Segments(Join(parts, [c]), [c]) == parts
  {
    forall i | 0 <= i < |parts| ensures CleanSegment(parts[i], [c]) && Matchless(parts[i], [c]) {
      CleanMeansWithout(c, parts[i]);
      MatchlessMeansWithout(c, parts[i]);
    }
    LeftmostParts(parts, [c]);
    SegmentsAreTheLeftmostSplit(Join(parts, [c]), [c], parts);
  }

  lemma SegmentsWithout(c: char, text: string)
    ensures forall i :: 0 <= i < |Segments(text, [c])| ==> c !in Segments(text, [c])[i]
  {
    var parts := Segments(text, [c]);
    SegmentsAreTheLeftmostSplit(text, [c], parts);
    LeftmostParts(parts, [c]);
    forall i | 0 <= i < |parts| ensures c !in parts[i] {
      CleanMeansWithout(c, parts[i]);
      MatchlessMeansWithout(c, parts[i]);
    }
  }

  /** What `strings.Replace` must return; a negative `n` means no limit. */
  function Replaced(text: string, pat: string, rep: string, n: int): string {
    var m := Count(text, pat);
    JoinFirst(Segments(text, pat), rep, pat, if n < 0 || m < n then m else n)
  }

  /** The segments still to be written when the scan has passed `i` matches and stands at `start`. */
  ghost function Remaining(text: string, pat: string, start: nat, i: nat): (parts: seq<string>)
    requires start <= |text|
    ensures parts != []
  {
    if pat != "" then SegmentsFrom(text, pat, start)
    else if i == 0 then Segments(text, pat)
    else SinglesFrom(text, start) + [""]
  }

  /** The scan has written `out` and passed `i` of the `k` matches to replace. */
  ghost predicate Scanned(text: string, pat: string, rep: string, k: nat, out: string, start: nat, i: nat) {
    && i <= k && start <= |text|
    && (pat == "" && i == 0 ==> start == 0)
    && |Remaining(text, pat, start, i)| == |Segments(text, pat)| - i
    && out + JoinFirst(Remaining(text, pat, start, i), rep, pat, k - i) == JoinFirst(Segments(text, pat), rep, pat, k)
  }

  /** The next match found by the scan; an empty pattern steps over one character after the first. */
  ghost function NextMatch(text: string, pat: string, start: nat, i: nat): Option<nat> {
    if pat != "" then IndexFrom(text, pat, start) else if i > 0 then Some(start + 1) else Some(start)
  }

  lemma MatchFound(text: string, pat: string, start: nat, i: nat) returns (j: nat, next: nat)
    requires start <= |text| && |Remaining(text, pat, start, i)| > 1
    requires pat == "" && i == 0 ==> start == 0
    ensures NextMatch(text, pat, start, i) == Some(j) && next == j + |pat| && start <= j <= next <= |text|
    ensures Remaining(text, pat, start, i) == [text[start..j]] + Remaining(text, pat, next, i + 1)
  {
    j := NextMatch(text, pat, start, i).value;
    next := j + |pat|;
  }

  lemma AppendAssociates(a: string, b: string, c: string, d: string)
    ensures a + (b + c + d) == a + b + c + d
  {
  }

  lemma ScanStart(text: string, pat: string, rep: string, k: nat)
    ensures Scanned(text, pat, rep, k, "", 0, 0)
  {
  }

  /** What one turn of the loop makes of the text written so far. */
  lemma ScanNext(text: string, pat: string, rep: string, k: nat, out: string, start: nat, i: nat)
    returns (j: nat, longer: string, next: nat)
    requires k < |Segments(text, pat)| && i < k && Scanned(text, pat, rep, k, out, start, i)
    ensures start <= j <= |text| && NextMatch(text, pat, start, i) == Some(j) && next == j + |pat|
    ensures longer == out + text[start..j] + rep && Scanned(text, pat, rep, k, longer, next, i + 1)
  {
    j, next := MatchFound(text, pat, start, i);
    longer := out + text[start..j] + rep;
    var tail := Remaining(text, pat, next, i + 1);
    assert Remaining(text, pat, start, i)[1..] == tail;
    AppendAssociates(out, text[start..j], rep, JoinFirst(tail, rep, pat, k - i - 1));
  }

  lemma ScanEnd(text: string, pat: string, rep: string, k: nat, out: string, start: nat)
    requires Scanned(text, pat, rep, k, out, start, k)
    ensures out + text[start..] == JoinFirst(Segments(text, pat), rep, pat, k)
  {
    JoinFirstNone(Remaining(text, pat, start, k), rep, pat);
    if pat != "" {
      SegmentsFromJoin(text, pat, start);
    } else if k > 0 {
      SinglesJoin(text, start);
    } else {
      SegmentsJoin(text, pat);
    }
  }

  /** Cases in which `strings.Replace` returns its input at once. */
  lemma NothingToReplace(text: string, pat: string, rep: string, n: int)
    requires pat == rep || n == 0 || Count(text, pat) == 0
    ensures Replaced(text, pat, rep, n) == text
  {
    var m := Count(text, pat);
    SegmentsJoin(text, pat);
    JoinFirstNone(Segments(text, pat), rep, pat);
    JoinFirstSame(Segments(text, pat), pat, if n < 0 || m < n then m else n);
  }

  /** `strings.Replace`. */
  method Replace(text: string, pat: string, rep: string, n: int) returns (out: string)
    ensures out == Replaced(text, pat, rep, n)
  {
    var m := Count(text, pat);
    if pat == rep || n == 0 || m == 0 {
      NothingToReplace(text, pat, rep, n);
      return text;
    }
    SegmentsJoin(text, pat);
    out := ReplaceFirst(text, pat, rep, if n < 0 || m < n then m else n);
  }

  /** Where the next match starts. */
  method FindNext(text: string, pat: string, start: nat, i: nat, ghost found: nat) returns (j: nat)
    requires NextMatch(text, pat, start, i) == Some(found)
    ensures j == found
  {
    j := start;
    if pat == "" {
      if i > 0 {
        j := j + 1;
      }
    } else {
      j := IndexFrom(text, pat, start).value;
    }
  }

  /** One turn of the loop: `out` with the text up to the next match and the new string, and the place after the
      match. */
  method ReplaceNext(text: string, pat: string, rep: string, k: nat, out: string, start: nat, i: nat)
    returns (longer: string, next: nat)
    requires k < |Segments(text, pat)| && i < k && Scanned(text, pat, rep, k, out, start, i)
    ensures Scanned(text, pat, rep, k, longer, next, i + 1)
  {
    ghost var found, l, n := ScanNext(text, pat, rep, k, out, start, i);
    var j := FindNext(text, pat, start, i, found);
    longer, next := out + text[start..j] + rep, j + |pat|;
    assert longer == l && next == n;
  }

  /** The loop of `strings.Replace`, once the number of replacements is known. */
  method ReplaceFirst(text: string, pat: string, rep: string, k: nat) returns (out: string)
    requires k < |Segments(text, pat)|
    ensures out == JoinFirst(Segments(text, pat), rep, pat, k)
  {
    var start: nat, i: nat := 0, 0;
    out := "";
    ScanStart(text, pat, rep, k);
    while i < k
      invariant i <= k
      invariant Scanned(text, pat, rep, k, out, start, i)
    {
      out, start := ReplaceNext(text, pat, rep, k, out, start, i);
      i := i + 1;
    }
    ScanEnd(text, pat, rep, k, out, start);
    out := out + text[start..];
  }
}
