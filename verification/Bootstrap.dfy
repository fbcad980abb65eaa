/** The validator of bootstrap proposals: one heading changes, every other byte stays. */
module Bootstrap {
  import opened Wrappers
  import opened Text
  import opened Substrings

  const BEFORE: string := "<h1>Ready</h1>"
  const AFTER: string := "<h1>Ready for review</h1>"
  const TARGET: string := "index.html"
  const MAX_RUN_CONTENT_UTF8: nat := 64 * 1024

  datatype ProposalError =
    | TooLarge(byteCount: nat)
    | ContainsNul
    | FramingOrNonPostimage
    | PathInstructions
    | PatchOrShell
    | PreimageHeadingCount(count: nat)
    | BroaderDiff
    | MultipleMatches
    | WrongTarget

  function ContentError(content: string): Option<ProposalError> {
    if ByteLen(content) > MAX_RUN_CONTENT_UTF8 then Some(TooLarge(ByteLen(content)))
    else if '\0' in content then Some(ContainsNul)
    else None
  }

  function LowerChar(c: char): char {
    if 'A' <= c <= 'Z' then (c as int + 32) as char else c
  }

  function Lower(s: string): (r: string)
    ensures |r| == |s|
  {
    seq(|s|, i requires 0 <= i < |s| => LowerChar(s[i]))
  }

  /** Payloads that look like a patch, a script, an instruction or a frame. */
  function PayloadError(postimage: string): Option<ProposalError> {
    var lowered := Lower(postimage);
    if Contains(lowered, "diff --git") || Contains(lowered, "*** begin patch") || Contains(lowered, "#!/bin/")
       || Contains(lowered, "powershell") || Contains(lowered, "cmd.exe") then Some(PatchOrShell)
    else if Contains(lowered, "path:") || Contains(lowered, "target path") || Contains(lowered, "write to ")
            || Contains(lowered, "save as ") then Some(PathInstructions)
    else if Contains(postimage, "-----BEGIN") || Contains(postimage, "```") then Some(FramingOrNonPostimage)
    else None
  }

  function HeadingError(preimage: string, postimage: string): Option<ProposalError> {
    if Occurrences(preimage, BEFORE) != 1 then Some(PreimageHeadingCount(Occurrences(preimage, BEFORE)))
    else if Occurrences(preimage, AFTER) != 0 then Some(BroaderDiff)
    else if postimage != ReplaceFirst(preimage, BEFORE, AFTER) then
      if Occurrences(postimage, AFTER) > 1 || Occurrences(preimage, BEFORE) > 1 then Some(MultipleMatches)
      else Some(BroaderDiff)
    else None
  }

  function Validate(preimage: string, postimage: string, target: string): Option<ProposalError> {
    if target != TARGET then Some(WrongTarget)
    else if ContentError(preimage).Some? then ContentError(preimage)
    else if ContentError(postimage).Some? then ContentError(postimage)
    else if PayloadError(postimage).Some? then PayloadError(postimage)
    else HeadingError(preimage, postimage)
  }

  // ----- The two headings -----

  lemma BeforeShape()
    ensures |BEFORE| == 14 && BEFORE[0] == '<' && BEFORE[1] == 'h' && BEFORE[9] == '<' && BEFORE[10] == '/'
    ensures forall d :: 0 < d < 14 && d != 9 ==> BEFORE[d] != '<'
  {
  }

  lemma AfterShape()
    ensures |AFTER| == 25 && AFTER[0] == '<' && AFTER[1] == 'h' && AFTER[9] == ' ' && AFTER[20] == '<' && AFTER[21] == '/'
    ensures forall d :: 0 < d < 25 && d != 20 ==> AFTER[d] != '<'
  {
  }

  lemma BeforeBorderFree()
    ensures BorderFree(BEFORE)
  {
    BeforeShape();
    forall d | 0 < d < |BEFORE| ensures BEFORE[d..] != BEFORE[..|BEFORE| - d] {
      assert BEFORE[d..][0] == BEFORE[d] && BEFORE[..|BEFORE| - d][0] == '<';
      assert d == 9 ==> BEFORE[d..][1] == '/' && BEFORE[..|BEFORE| - d][1] == 'h';
    }
  }

  lemma AfterBorderFree()
    ensures BorderFree(AFTER)
  {
    AfterShape();
    forall d | 0 < d < |AFTER| ensures AFTER[d..] != AFTER[..|AFTER| - d] {
      assert AFTER[d..][0] == AFTER[d] && AFTER[..|AFTER| - d][0] == '<';
      assert d == 20 ==> AFTER[d..][1] == '/' && AFTER[..|AFTER| - d][1] == 'h';
    }
  }

  // ----- Exactly which proposals are accepted -----

  /** The preimage has the old heading at one place only and the new one nowhere; the postimage is the
      preimage with that heading replaced. */
  ghost predicate SingleChange(preimage: string, postimage: string, a: string, b: string) {
    && preimage == a + BEFORE + b
    && postimage == a + AFTER + b
    && (forall i: nat :: MatchAt(preimage, BEFORE, i) ==> i == |a|)
    && (forall i: nat :: !MatchAt(preimage, AFTER, i))
  }

  lemma MatchOfParts(a: string, needle: string, b: string)
    ensures MatchAt(a + needle + b, needle, |a|)
  {
    assert (a + needle + b)[|a|..|a| + |needle|] == needle;
    MatchIsSlice(a + needle + b, needle, |a|);
  }

  lemma PartsOfMatch(s: string, needle: string, i: nat)
    requires MatchAt(s, needle, i)
    ensures s == s[..i] + needle + s[i + |needle|..]
  {
    MatchIsSlice(s, needle, i);
  }

  lemma PartsUnique(a: string, needle: string, b: string, c: string, d: string)
    requires |a| == |c| && a + needle + b == c + needle + d
    ensures a == c && b == d
  {
    var s := a + needle + b;
    assert s[..|a|] == a && (c + needle + d)[..|a|] == c;
    assert s[|a| + |needle|..] == b && (c + needle + d)[|a| + |needle|..] == d;
  }

  lemma HeadingSound(preimage: string, postimage: string)
    requires HeadingError(preimage, postimage).None?
    ensures exists a, b :: SingleChange(preimage, postimage, a, b)
  {
    BeforeBorderFree();
    AfterBorderFree();
    CountedOnce(preimage, BEFORE);
    CountedOnce(preimage, AFTER);
    var i: nat :| OnlyMatch(preimage, BEFORE, i);
    PartsOfMatch(preimage, BEFORE, i);
    assert SingleChange(preimage, postimage, preimage[..i], preimage[i + |BEFORE|..]);
  }

  lemma HeadingComplete(preimage: string, postimage: string, a: string, b: string)
    requires SingleChange(preimage, postimage, a, b)
    ensures HeadingError(preimage, postimage).None?
  {
    BeforeBorderFree();
    AfterBorderFree();
    CountedOnce(preimage, BEFORE);
    CountedOnce(preimage, AFTER);
    MatchOfParts(a, BEFORE, b);
    assert OnlyMatch(preimage, BEFORE, |a|);
    assert Substrings.FindFrom(preimage, BEFORE, 0) == Some(|a|);
    assert preimage[..|a|] == a && preimage[|a| + |BEFORE|..] == b;
  }

  /** The heading checks pass exactly for single changes. */
  lemma HeadingExactly(preimage: string, postimage: string)
    ensures HeadingError(preimage, postimage).None? <==> exists a, b :: SingleChange(preimage, postimage, a, b)
  {
    if HeadingError(preimage, postimage).None? {
      HeadingSound(preimage, postimage);
    }
    if a, b :| SingleChange(preimage, postimage, a, b) {
      HeadingComplete(preimage, postimage, a, b);
    }
  }

  /** The words that make a payload a patch or a script, or an instruction, in whatever case. */
  const PATCH_WORDS: seq<string> := ["diff --git", "*** begin patch", "#!/bin/", "powershell", "cmd.exe"]
  const PATH_WORDS: seq<string> := ["path:", "target path", "write to ", "save as "]

  /** The marks that frame a payload, exactly as they are. */
  const FRAME_MARKS: seq<string> := ["-----BEGIN", "```"]

  /** The characters are the same, but for the case of a letter. */
  predicate SameButCase(c: char, lower: char) {
    c == lower || ('a' <= lower <= 'z' && c as int + 32 == lower as int)
  }

  predicate NoCapitals(word: string) {
    forall i :: 0 <= i < |word| ==> word[i] < 'A' || word[i] > 'Z'
  }

  predicate StandsAt(s: string, word: string, i: nat) {
    i + |word| <= |s| && forall k :: 0 <= k < |word| ==> s[i + k] == word[k]
  }

  predicate StandsInAnyCase(s: string, word: string, i: nat) {
    i + |word| <= |s| && forall k :: 0 <= k < |word| ==> SameButCase(s[i + k], word[k])
  }

  ghost predicate Has(s: string, word: string) {
    exists i: nat :: StandsAt(s, word, i)
  }

  ghost predicate HasInAnyCase(s: string, word: string) {
    exists i: nat :: StandsInAnyCase(s, word, i)
  }

  lemma MatchStands(s: string, word: string, i: nat)
    ensures MatchAt(s, word, i) <==> StandsAt(s, word, i)
  {
    MatchIsSlice(s, word, i);
    if i + |word| <= |s| {
      var slice := s[i..i + |word|];
      assert forall k :: 0 <= k < |word| ==> slice[k] == s[i + k];
    }
  }

  lemma ContainsExactly(s: string, word: string)
    ensures Contains(s, word) <==> Has(s, word)
  {
    var found := Substrings.FindFrom(s, word, 0);
    if found.Some? {
      MatchStands(s, word, found.value);
    }
    if i: nat :| StandsAt(s, word, i) {
      MatchStands(s, word, i);
    }
  }

  lemma LowerIsSame(c: char, lower: char)
    requires lower < 'A' || lower > 'Z'
    ensures LowerChar(c) == lower <==> SameButCase(c, lower)
  {
  }

  lemma LowerStands(s: string, word: string, i: nat)
    requires NoCapitals(word)
    ensures StandsAt(Lower(s), word, i) <==> StandsInAnyCase(s, word, i)
  {
    if i + |word| <= |s| {
      forall k | 0 <= k < |word| ensures Lower(s)[i + k] == word[k] <==> SameButCase(s[i + k], word[k]) {
        LowerIsSame(s[i + k], word[k]);
      }
    }
  }

  lemma LowerContains(s: string, word: string)
    requires NoCapitals(word)
    ensures Contains(Lower(s), word) <==> HasInAnyCase(s, word)
  {
    ContainsExactly(Lower(s), word);
    if i: nat :| StandsAt(Lower(s), word, i) {
      LowerStands(s, word, i);
    }
    if i: nat :| StandsInAnyCase(s, word, i) {
      LowerStands(s, word, i);
    }
  }

  ghost predicate HasWord(s: string, words: seq<string>) {
    exists k :: 0 <= k < |words| && HasInAnyCase(s, words[k])
  }

  ghost predicate HasMark(s: string, marks: seq<string>) {
    exists k :: 0 <= k < |marks| && Has(s, marks[k])
  }

  lemma WordsAreLower(k: nat)
    ensures k < |PATCH_WORDS| ==> NoCapitals(PATCH_WORDS[k])
    ensures k < |PATH_WORDS| ==> NoCapitals(PATH_WORDS[k])
  {
  }

  lemma PatchWords(s: string)
    ensures HasWord(s, PATCH_WORDS)
       <==> (Contains(Lower(s), "diff --git") || Contains(Lower(s), "*** begin patch") || Contains(Lower(s), "#!/bin/")
             || Contains(Lower(s), "powershell") || Contains(Lower(s), "cmd.exe"))
  {
    forall k | 0 <= k < |PATCH_WORDS| ensures Contains(Lower(s), PATCH_WORDS[k]) <==> HasInAnyCase(s, PATCH_WORDS[k]) {
      WordsAreLower(k);
      LowerContains(s, PATCH_WORDS[k]);
    }
    assert PATCH_WORDS[0] == "diff --git" && PATCH_WORDS[1] == "*** begin patch" && PATCH_WORDS[2] == "#!/bin/";
    assert PATCH_WORDS[3] == "powershell" && PATCH_WORDS[4] == "cmd.exe";
  }

  lemma PathWords(s: string)
    ensures HasWord(s, PATH_WORDS)
       <==> (Contains(Lower(s), "path:") || Contains(Lower(s), "target path") || Contains(Lower(s), "write to ")
             || Contains(Lower(s), "save as "))
  {
    forall k | 0 <= k < |PATH_WORDS| ensures Contains(Lower(s), PATH_WORDS[k]) <==> HasInAnyCase(s, PATH_WORDS[k]) {
      WordsAreLower(k);
      LowerContains(s, PATH_WORDS[k]);
    }
    assert PATH_WORDS[0] == "path:" && PATH_WORDS[1] == "target path" && PATH_WORDS[2] == "write to " && PATH_WORDS[3] == "save as ";
  }

  lemma FrameMarks(s: string)
    ensures HasMark(s, FRAME_MARKS) <==> (Contains(s, "-----BEGIN") || Contains(s, "```"))
  {
    forall k | 0 <= k < |FRAME_MARKS| ensures Contains(s, FRAME_MARKS[k]) <==> Has(s, FRAME_MARKS[k]) {
      ContainsExactly(s, FRAME_MARKS[k]);
    }
    assert FRAME_MARKS[0] == "-----BEGIN" && FRAME_MARKS[1] == "```";
  }

  /** A payload is refused exactly for a word or a mark it holds, and told which kind. */
  lemma PayloadExactly(postimage: string)
    ensures PayloadError(postimage)
         == if HasWord(postimage, PATCH_WORDS) then Some(PatchOrShell)
            else if HasWord(postimage, PATH_WORDS) then Some(PathInstructions)
            else if HasMark(postimage, FRAME_MARKS) then Some(FramingOrNonPostimage)
            else None
  {
    PatchWords(postimage);
    PathWords(postimage);
    FrameMarks(postimage);
  }

  predicate Bounded(content: string) {
    ByteLen(content) <= 65_536 && '\0' !in content
  }

  /** A proposal is accepted exactly when its target is the fixture, both texts are within bounds, the
      postimage carries no foreign payload, and it makes the single change. */
  lemma AcceptedExactly(preimage: string, postimage: string, target: string)
    ensures Validate(preimage, postimage, target).None? <==>
              && target == "index.html"
              && Bounded(preimage) && Bounded(postimage)
              && !HasWord(postimage, PATCH_WORDS) && !HasWord(postimage, PATH_WORDS) && !HasMark(postimage, FRAME_MARKS)
              && exists a, b :: SingleChange(preimage, postimage, a, b)
  {
    PayloadExactly(postimage);
    HeadingExactly(preimage, postimage);
  }

  /** What is said of a refused proposal. */
  ghost predicate Told(preimage: string, postimage: string, target: string, error: ProposalError) {
    match error
    case WrongTarget => target != "index.html"
    case TooLarge(n) => n > 65_536 && (n == ByteLen(preimage) || n == ByteLen(postimage))
    case ContainsNul => '\0' in preimage || '\0' in postimage
    case PatchOrShell => HasWord(postimage, PATCH_WORDS)
    case PathInstructions => HasWord(postimage, PATH_WORDS)
    case FramingOrNonPostimage => HasMark(postimage, FRAME_MARKS)
    case PreimageHeadingCount(n) => n == |Positions(preimage, BEFORE, 0)| && n != 1
    case BroaderDiff => !exists a, b :: SingleChange(preimage, postimage, a, b)
    case MultipleMatches => |Positions(postimage, AFTER, 0)| > 1
  }

  lemma HeadingTold(preimage: string, postimage: string, target: string)
    requires HeadingError(preimage, postimage).Some?
    ensures Told(preimage, postimage, target, HeadingError(preimage, postimage).value)
  {
    HeadingExactly(preimage, postimage);
    BeforeBorderFree();
    AfterBorderFree();
    CountIsPositions(preimage, BEFORE);
    CountIsPositions(postimage, AFTER);
  }

  /** The reason a proposal is refused for is a fact about it. */
  lemma RefusalIsTold(preimage: string, postimage: string, target: string)
    requires Validate(preimage, postimage, target).Some?
    ensures Told(preimage, postimage, target, Validate(preimage, postimage, target).value)
  {
    PayloadExactly(postimage);
    if HeadingError(preimage, postimage).Some? {
      HeadingTold(preimage, postimage, target);
    }
  }

  /** What surrounds the heading is unique. */
  lemma ChangeUnique(preimage: string, postimage: string, a: string, b: string, c: string, d: string)
    requires SingleChange(preimage, postimage, a, b) && preimage == c + BEFORE + d
    ensures a == c && b == d
  {
    MatchOfParts(c, BEFORE, d);
    PartsUnique(a, BEFORE, b, c, d);
  }

  // ----- The result is no new preimage -----

  /** A match inside one of the outer parts is a match there on its own. */
  lemma MatchBefore(a: string, x: string, y: string, needle: string, i: nat)
    requires i + |needle| <= |a| && MatchAt(a + x, needle, i)
    ensures MatchAt(a + y, needle, i)
  {
    MatchIsSlice(a + x, needle, i);
    MatchIsSlice(a + y, needle, i);
    assert (a + x)[i..i + |needle|] == a[i..i + |needle|] == (a + y)[i..i + |needle|];
  }

  lemma MatchBehind(x: string, y: string, b: string, needle: string, i: nat)
    requires i >= |x| && MatchAt(x + b, needle, i)
    ensures MatchAt(y + b, needle, i - |x| + |y|)
  {
    var j := i - |x|;
    MatchIsSlice(x + b, needle, i);
    MatchIsSlice(y + b, needle, j + |y|);
    assert (x + b)[i..i + |needle|] == b[j..j + |needle|] == (y + b)[j + |y|..j + |y| + |needle|];
  }

  /** Where the two headings would share a place, they would share its character. */
  lemma SharedChar(post: string, at: nat, i: nat, p: nat)
    requires MatchAt(post, AFTER, at) && MatchAt(post, BEFORE, i)
    requires i <= p < i + |BEFORE| && at <= p < at + |AFTER|
    ensures BEFORE[p - i] == AFTER[p - at]
  {
    SameChar(post, BEFORE, i, p - i);
    SameChar(post, AFTER, at, p - at);
  }

  /** The old heading cannot overlap the new one. */
  lemma NoOverlap(post: string, at: nat, i: nat)
    requires MatchAt(post, AFTER, at) && MatchAt(post, BEFORE, i)
    ensures i + |BEFORE| <= at || at + |AFTER| <= i
  {
    BeforeShape();
    AfterShape();
    if i + 9 == at {
      SharedChar(post, at, i, at + 1);
    } else if at - 14 < i < at {
      SharedChar(post, at, i, at);
    } else if i == at {
      SharedChar(post, at, i, at + 9);
    } else if i == at + 20 {
      SharedChar(post, at, i, i + 1);
    } else if at < i < at + 25 {
      SharedChar(post, at, i, i);
    }
  }

  lemma SameChar(s: string, needle: string, i: nat, k: nat)
    requires MatchAt(s, needle, i) && k < |needle|
    ensures s[i + k] == needle[k]
  {
    MatchIsSlice(s, needle, i);
    assert s[i..i + |needle|][k] == needle[k];
  }

  lemma OldHeadingGone(pre: string, post: string, a: string, b: string, i: nat)
    requires SingleChange(pre, post, a, b)
    ensures !MatchAt(post, BEFORE, i)
  {
    if MatchAt(post, BEFORE, i) {
      MatchOfParts(a, AFTER, b);
      NoOverlap(post, |a|, i);
      assert pre == a + (BEFORE + b) && post == a + (AFTER + b);
      if i + |BEFORE| <= |a| {
        MatchBefore(a, AFTER + b, BEFORE + b, BEFORE, i);
      } else {
        MatchBehind(a + AFTER, a + BEFORE, b, BEFORE, i);
      }
    }
  }

  lemma NewHeadingOnce(pre: string, post: string, a: string, b: string, i: nat)
    requires SingleChange(pre, post, a, b) && MatchAt(post, AFTER, i)
    ensures i == |a|
  {
    AfterBorderFree();
    MatchOfParts(a, AFTER, b);
    assert pre == a + (BEFORE + b) && post == a + (AFTER + b);
    if i < |a| {
      MatchesApart(post, AFTER, i, |a|);
      MatchBefore(a, AFTER + b, BEFORE + b, AFTER, i);
    } else if i > |a| {
      MatchesApart(post, AFTER, |a|, i);
      MatchBehind(a + AFTER, a + BEFORE, b, AFTER, i);
    }
  }

  lemma HeadingsAfter(pre: string, post: string, a: string, b: string)
    requires SingleChange(pre, post, a, b)
    ensures Occurrences(post, BEFORE) == 0 && Occurrences(post, AFTER) == 1
  {
    BeforeBorderFree();
    AfterBorderFree();
    forall i: nat ensures !MatchAt(post, BEFORE, i) {
      OldHeadingGone(pre, post, a, b, i);
    }
    CountedOnce(post, BEFORE);
    MatchOfParts(a, AFTER, b);
    forall i: nat | MatchAt(post, AFTER, i) ensures i == |a| {
      NewHeadingOnce(pre, post, a, b, i);
    }
    assert OnlyMatch(post, AFTER, |a|);
    CountedOnce(post, AFTER);
  }

  /** After an accepted proposal the old heading is gone and the new one is there once, so the result
      is rejected as the preimage of any further proposal. */
  lemma AcceptedOnlyOnce(preimage: string, postimage: string, target: string, next: string, nextTarget: string)
    requires Validate(preimage, postimage, target).None?
    ensures Occurrences(postimage, BEFORE) == 0 && Occurrences(postimage, AFTER) == 1
    ensures HeadingError(postimage, next) == Some(PreimageHeadingCount(0))
    ensures Validate(postimage, next, nextTarget).Some?
  {
    OccurrencesAfter(preimage, postimage);
  }

  lemma OccurrencesAfter(preimage: string, postimage: string)
    requires HeadingError(preimage, postimage).None?
    ensures Occurrences(postimage, BEFORE) == 0 && Occurrences(postimage, AFTER) == 1
  {
    HeadingExactly(preimage, postimage);
    var a, b :| SingleChange(preimage, postimage, a, b);
    HeadingsAfter(preimage, postimage, a, b);
  }

  // ----- The validator as it runs -----

  method ValidateBootstrapProposal(preimage: string, postimage: string, target: string) returns (r: Option<ProposalError>)
    ensures r == Validate(preimage, postimage, target)
  {
    if target != TARGET {
      return Some(WrongTarget);
    }
    if ContentError(preimage).Some? {
      return ContentError(preimage);
    }
    if ContentError(postimage).Some? {
      return ContentError(postimage);
    }
    if PayloadError(postimage).Some? {
      return PayloadError(postimage);
    }
    var beforeCount := CountOccurrences(preimage, BEFORE);
    if beforeCount != 1 {
      return Some(PreimageHeadingCount(beforeCount));
    }
    var afterCount := CountOccurrences(preimage, AFTER);
    if afterCount != 0 {
      return Some(BroaderDiff);
    }
    var expected := ReplaceFirst(preimage, BEFORE, AFTER);
    if postimage != expected {
      var inPostimage := CountOccurrences(postimage, AFTER);
      var inPreimage := CountOccurrences(preimage, BEFORE);
      if inPostimage > 1 || inPreimage > 1 {
        return Some(MultipleMatches);
      }
      return Some(BroaderDiff);
    }
    return None;
  }
}
