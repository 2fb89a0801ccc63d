/** `FileEdit` of `tool_file_edit.go`. The sandbox file system is reduced to the one file named by the
    request; whether a read or a write of it fails is an input. */
module FileEdit {
  import opened Wrappers
  import opened TextSearch

  datatype Outcome =
    | Created
    | Edited
    | NotFound
    | Ambiguous(count: nat)
    | ReadFailed
    | WriteFailed

  /** The new content of the file and the outcome of the request. */
  function EditSpec(content: Option<string>, pat: string, rep: string, replaceAll: bool,
                    readFails: bool, writeFails: bool): (Option<string>, Outcome)
  {
    if readFails || content.None? then
      if pat != "" then (content, ReadFailed)
      else if writeFails then (content, WriteFailed)
      else (Some(rep), Created)
    else
      var text := content.value;
      var count := Count(text, pat);
      if count == 0 then (content, NotFound)
      else if count > 1 && !replaceAll then (content, Ambiguous(count))
      else if writeFails then (content, WriteFailed)
      else (Some(Replaced(text, pat, rep, if replaceAll then -1 else 1)), Edited)
  }

  class SandboxFile {
    var content: Option<string>

    constructor (content: Option<string>)
      ensures this.content == content
    {
      this.content := content;
    }

    method Read(fails: bool) returns (r: Option<string>)
      ensures r == if fails then None else content
    {
      r := if fails then None else content;
    }

    method Write(text: string, fails: bool) returns (ok: bool)
      modifies this
      ensures ok == !fails
      ensures content == if fails then old(content) else Some(text)
    {
      if !fails {
        content := Some(text);
      }
      ok := !fails;
    }

    method Edit(pat: string, rep: string, replaceAll: bool, readFails: bool, writeFails: bool)
      returns (outcome: Outcome)
      modifies this
      ensures (content, outcome) == EditSpec(old(content), pat, rep, replaceAll, readFails, writeFails)
    {
      var read := Read(readFails);
      if read.None? {
        if pat == "" {
          var ok := Write(rep, writeFails);
          return if ok then Created else WriteFailed;
        }
        return ReadFailed;
      }
      var text := read.value;
      var count := Count(text, pat);
      if count == 0 {
        return NotFound;
      }
      if count > 1 && !replaceAll {
        return Ambiguous(count);
      }
      var n := 1;
      if replaceAll {
        n := -1;
      }
      var newText := Replace(text, pat, rep, n);
      var ok := Write(newText, writeFails);
      return if ok then Edited else WriteFailed;
    }
  }

  /** Every refusal leaves the file as it was. */
  lemma RefusalKeepsFile(content: Option<string>, pat: string, rep: string, replaceAll: bool, readFails: bool,
                         writeFails: bool)
    ensures var (after, outcome) := EditSpec(content, pat, rep, replaceAll, readFails, writeFails);
            !outcome.Edited? && !outcome.Created? ==> after == content
  {
  }

  /** Each outcome, exactly: an unreadable file is an error unless the old string is empty, a missing or an ambiguous
      match is refused before anything is written, and otherwise only the write can fail. */
  lemma OutcomeExactly(content: Option<string>, pat: string, rep: string, replaceAll: bool, readFails: bool,
                       writeFails: bool)
    ensures var outcome := EditSpec(content, pat, rep, replaceAll, readFails, writeFails).1;
            var read := !readFails && content.Some?;
            && (outcome == ReadFailed <==> !read && pat != "")
            && (outcome == Created <==> !read && pat == "" && !writeFails)
            && (outcome == NotFound <==> read && forall i :: !MatchAt(content.value, pat, i))
            && (forall n :: outcome == Ambiguous(n)
                            <==> read && !replaceAll && n == Count(content.value, pat) && n > 1)
            && (outcome == Edited <==> read && !writeFails && (exists i :: MatchAt(content.value, pat, i))
                                       && (replaceAll || Count(content.value, pat) == 1))
            && (outcome == WriteFailed
                <==> writeFails && if read then (exists i :: MatchAt(content.value, pat, i))
                                                && (replaceAll || Count(content.value, pat) == 1)
                                   else pat == "")
  {
    if content.Some? {
      CountedIffFound(content.value, pat);
    }
  }

  lemma CountedIffFound(text: string, pat: string)
    ensures Count(text, pat) > 0 <==> exists i :: MatchAt(text, pat, i)
  {
    if pat == "" {
      assert MatchAt(text, pat, 0);
    } else {
      IndexFromIsFirst(text, pat, 0);
      if i :| MatchAt(text, pat, i) {
        assert IndexFrom(text, pat, 0).Some?;
      }
    }
  }

  /** Replace-all: the text is cut at its leftmost non-overlapping matches, and the same pieces, joined by
      the new string, are the result. */
  lemma ReplaceAllRefinesSplit(text: string, pat: string, rep: string)
    requires pat != "" && EditSpec(Some(text), pat, rep, true, false, false).1.Edited?
    ensures var parts := Segments(text, pat);
            && LeftmostSplit(parts, pat) && Join(parts, pat) == text
            && |parts| == Count(text, pat) + 1
            && EditSpec(Some(text), pat, rep, true, false, false).0 == Some(Join(parts, rep))
            && |Join(parts, rep)| == |text| + Count(text, pat) * (|rep| - |pat|)
  {
    SegmentsAreTheLeftmostSplit(text, pat, Segments(text, pat));
    SegmentsJoin(text, pat);
    JoinFirstAll(Segments(text, pat), rep, pat, Count(text, pat));
    JoinedLength(text, pat, rep);
  }

  lemma JoinFirstPair(a: string, b: string, rep: string, pat: string)
    ensures JoinFirst([a, b], rep, pat, 1) == a + rep + b
  {
  }

  lemma OnlyMatch(text: string, pat: string)
    requires pat != "" && CountFrom(text, pat, 0) == 1
    ensures IndexFrom(text, pat, 0).Some?
    ensures var next := IndexFrom(text, pat, 0).value + |pat|;
            && IndexFrom(text, pat, next).None?
            && SegmentsFrom(text, pat, 0) == [text[0..IndexFrom(text, pat, 0).value], text[next..]]
  {
  }

  lemma ReplacedOnceNonEmpty(text: string, pat: string, rep: string)
    requires pat != "" && Count(text, pat) == 1
    ensures Index(text, pat).Some?
    ensures var i := Index(text, pat).value;
            && text == text[..i] + pat + text[i + |pat|..]
            && Replaced(text, pat, rep, 1) == text[..i] + rep + text[i + |pat|..]
  {
    OnlyMatch(text, pat);
    var i := Index(text, pat).value;
    AroundMatch(text, pat, 0);
    assert text[0..] == text && text[0..i] == text[..i];
    JoinFirstPair(text[0..i], text[i + |pat|..], rep, pat);
  }

  /** What a single replacement of the first match gives. */
  lemma ReplacedOnce(text: string, pat: string, rep: string)
    requires Count(text, pat) == 1
    ensures Index(text, pat).Some?
    ensures var i := Index(text, pat).value;
            && text == text[..i] + pat + text[i + |pat|..]
            && Replaced(text, pat, rep, 1) == text[..i] + rep + text[i + |pat|..]
  {
    if pat == "" {
      assert text == "" && MatchAt(text, pat, 0);
      assert Segments(text, pat) == ["", ""];
      JoinFirstPair("", "", rep, pat);
    } else {
      ReplacedOnceNonEmpty(text, pat, rep);
    }
  }

  /** With one non-overlapping match, every match overlaps the first. */
  lemma OtherMatchesOverlap(text: string, pat: string, j: int)
    requires pat != "" && Count(text, pat) == 1 && MatchAt(text, pat, j)
    ensures Index(text, pat).Some? && Index(text, pat).value <= j < Index(text, pat).value + |pat|
  {
    OnlyMatch(text, pat);
    var i := Index(text, pat).value;
    IndexFromIsFirst(text, pat, i + |pat|);
    if j < i {
      IndexFromIsFirst(text, pat, 0);
      assert false;
    }
  }

  /** A single edit succeeds exactly when there is one match; it then replaces the first match and nothing
      else, and every other match overlaps that one. */
  lemma SingleEdit(text: string, pat: string, rep: string)
    ensures var (after, outcome) := EditSpec(Some(text), pat, rep, false, false, false);
            && (outcome.Edited? <==> Count(text, pat) == 1)
            && (outcome.Edited? ==>
                  Index(text, pat).Some? &&
                  var i := Index(text, pat).value;
                  && text == text[..i] + pat + text[i + |pat|..]
                  && after == Some(text[..i] + rep + text[i + |pat|..])
                  && (pat != "" ==> forall j :: MatchAt(text, pat, j) ==> i <= j < i + |pat|))
  {
    if Count(text, pat) == 1 {
      ReplacedOnce(text, pat, rep);
      if pat != "" {
        forall j | MatchAt(text, pat, j) ensures Index(text, pat).value <= j < Index(text, pat).value + |pat| {
          OtherMatchesOverlap(text, pat, j);
        }
      }
    }
  }

  /** Putting the old string back at `k` restores a text whose first match is at `i` only if `k` is not before `i`. */
  lemma RestoredOnlyAtFirst(text: string, pat: string, k: nat, head: string, tail: string)
    requires text == head + pat + tail && |head| == k
    ensures Index(text, pat).Some? && Index(text, pat).value <= k
  {
    assert text[k..k + |pat|] == pat;
    assert MatchAt(text, pat, k);
    IndexFromIsFirst(text, pat, 0);
  }

  lemma InsertedMatch(pre: string, rep: string, post: string)
    ensures MatchAt(pre + rep + post, rep, |pre|)
    ensures Index(pre + rep + post, rep).Some? && Index(pre + rep + post, rep).value <= |pre|
  {
    var after := pre + rep + post;
    assert after[|pre|..|pre| + |rep|] == rep;
    assert MatchAt(after, rep, |pre|);
    IndexFromIsFirst(after, rep, 0);
  }

  lemma CutAtInserted(pre: string, rep: string, post: string)
    ensures (pre + rep + post)[..|pre|] == pre && (pre + rep + post)[|pre| + |rep|..] == post
  {
  }

  /** After a single edit, the edit with the two strings exchanged gives the first text back exactly
      when the new string is found once, and found first where it was put. */
  lemma UndoExactly(text: string, pat: string, rep: string)
    requires EditSpec(Some(text), pat, rep, false, false, false).1.Edited?
    ensures Index(text, pat).Some?
    ensures var after := EditSpec(Some(text), pat, rep, false, false, false).0;
            after.Some? &&
            (EditSpec(after, rep, pat, false, false, false) == (Some(text), Edited)
             <==> Count(after.value, rep) == 1 && Index(after.value, rep) == Index(text, pat))
  {
    SingleEdit(text, pat, rep);
    var i := Index(text, pat).value;
    var pre, post := text[..i], text[i + |pat|..];
    var after := pre + rep + post;
    UndoOf(text, pat, rep, pre, post);
  }

  lemma UndoOf(text: string, pat: string, rep: string, pre: string, post: string)
    requires text == pre + pat + post && Index(text, pat) == Some(|pre|)
    ensures EditSpec(Some(pre + rep + post), rep, pat, false, false, false) == (Some(text), Edited)
            <==> Count(pre + rep + post, rep) == 1 && Index(pre + rep + post, rep) == Some(|pre|)
  {
    var after := pre + rep + post;
    SingleEdit(after, rep, pat);
    InsertedMatch(pre, rep, post);
    if Count(after, rep) == 1 {
      var k := Index(after, rep).value;
      var head, tail := after[..k], after[k + |rep|..];
      if k == |pre| {
        CutAtInserted(pre, rep, post);
      } else if head + pat + tail == text {
        RestoredOnlyAtFirst(text, pat, k, head, tail);
        assert false;
      }
    }
  }

  lemma FirstCharacters(a: char, b: char)
    requires a != b
    ensures Index([a, b], [b]) == Some(1) && Count([a, b], [b]) == 1
  {
    assert [a, b][0..1][0] == a && [a, b][1..2] == [b];
    assert !MatchAt([a, b], [b], 0) && MatchAt([a, b], [b], 1);
    IndexFromIs([a, b], [b], 0, 1);
    assert CountFrom([a, b], [b], 2) == 0;
  }

  lemma DoubledCharacter(a: char)
    ensures Index([a, a, a], [a, a]) == Some(0) && Count([a, a, a], [a, a]) == 1
  {
    assert [a, a, a][0..2] == [a, a];
    assert MatchAt([a, a, a], [a, a], 0);
    assert CountFrom([a, a, a], [a, a], 2) == 0;
  }

  /** Finding the new string once is not enough: the single match may start before the edit. */
  lemma UndoNeedsPosition()
    ensures EditSpec(Some("ab"), "b", "aa", false, false, false) == (Some("aaa"), Edited)
    ensures EditSpec(Some("aaa"), "aa", "b", false, false, false) == (Some("ba"), Edited)
  {
    FirstCharacters('a', 'b');
    DoubledCharacter('a');
    SingleEdit("ab", "b", "aa");
    SingleEdit("aaa", "aa", "b");
    assert "ab"[..1] + "aa" + "ab"[2..] == "aaa";
    assert "aaa"[..0] + "b" + "aaa"[2..] == "ba";
  }

  /** One occurrence, counting overlapping ones, is enough for the undo. */
  lemma UndoWhenUnique(text: string, pat: string, rep: string)
    requires EditSpec(Some(text), pat, rep, false, false, false).1.Edited?
    requires var after := EditSpec(Some(text), pat, rep, false, false, false).0;
             after.Some? && forall j, k :: MatchAt(after.value, rep, j) && MatchAt(after.value, rep, k) ==> j == k
    ensures EditSpec(EditSpec(Some(text), pat, rep, false, false, false).0, rep, pat, false, false, false)
            == (Some(text), Edited)
  {
    UndoExactly(text, pat, rep);
    SingleEdit(text, pat, rep);
    var i := Index(text, pat).value;
    InsertedMatch(text[..i], rep, text[i + |pat|..]);
    UniqueMatchCount(text[..i] + rep + text[i + |pat|..], rep);
  }

  lemma UniqueMatchCount(text: string, pat: string)
    requires Index(text, pat).Some?
    requires forall j, k :: MatchAt(text, pat, j) && MatchAt(text, pat, k) ==> j == k
    ensures Count(text, pat) == 1
    ensures forall j :: MatchAt(text, pat, j) ==> Index(text, pat) == Some(j)
  {
    IndexFromIsFirst(text, pat, 0);
    if pat == "" {
      assert MatchAt(text, pat, 0) && MatchAt(text, pat, |text|);
    } else {
      var next := Index(text, pat).value + |pat|;
      IndexFromIsFirst(text, pat, next);
      assert IndexFrom(text, pat, next).None?;
      assert CountFrom(text, pat, next) == 0;
    }
  }

  /** A request whose file cannot be read keeps the file exactly when the old string is not empty, the write fails too,
      or the new string is what the file held all along. */
  lemma UnreadFileKeptExactly(content: Option<string>, pat: string, rep: string, replaceAll: bool, writeFails: bool)
    ensures EditSpec(content, pat, rep, replaceAll, true, writeFails).0 == content
            <==> pat != "" || writeFails || content == Some(rep)
  {
  }

  /** So an edit with an empty old string replaces whatever the file held. */
  lemma EmptyPatternReplacesUnreadFile(content: Option<string>, rep: string)
    ensures EditSpec(content, "", rep, false, true, false) == (Some(rep), Created)
  {
  }

  lemma ReplacedKeepsExactly(text: string, pat: string, rep: string, n: int)
    requires Count(text, pat) > 0 && n != 0
    ensures Replaced(text, pat, rep, n) == text <==> rep == pat
  {
    var m := Count(text, pat);
    var k := if n < 0 || m < n then m else n;
    SegmentsJoin(text, pat);
    JoinFirstSame(Segments(text, pat), pat, k);
    if Replaced(text, pat, rep, n) == text {
      JoinFirstDiffers(Segments(text, pat), rep, pat, k);
    }
  }

  /** Over every request and every combination of failures, the file is kept exactly when an unread file is, or the
      edit is refused, or it exchanges a string for itself: a successful edit with two different strings always
      changes it. */
  lemma KeptExactly(content: Option<string>, pat: string, rep: string, replaceAll: bool, readFails: bool,
                    writeFails: bool)
    ensures EditSpec(content, pat, rep, replaceAll, readFails, writeFails).0 == content
            <==> if readFails || content.None? then pat != "" || writeFails || content == Some(rep)
                 else || Count(content.value, pat) == 0 || (Count(content.value, pat) > 1 && !replaceAll)
                      || writeFails || rep == pat
  {
    if content.Some? && Count(content.value, pat) > 0 {
      ReplacedKeepsExactly(content.value, pat, rep, if replaceAll then -1 else 1);
    }
  }
}
