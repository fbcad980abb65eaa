/** The context assembled for one send: composed instructions, finished turns and the current text, with
    attached sources framed into the text, all within one ceiling. */
module AgentContext {
  import opened Wrappers
  import opened Text
  import opened AgentRecords
  import Decimal
  import Sources
  import FolderFraming

  const MAX_CONTEXT_UTF8: nat := 128 * 1024
  const FRAME_VERSION: string := "tule-attached-source-v1"

  // ----- Framing -----

  datatype SourceContext = SourceContext(originKind: string, displayName: string, byteCount: nat, contentHash: string,
                                         memberCount: nat, content: string)

  function ContextOf(s: Sources.Source): SourceContext {
    SourceContext(s.originKind, s.displayName, s.byteCount, s.contentHash, s.memberCount, s.content)
  }

  /** One labelled line of a frame, and what follows it. */
  function Line(tag: string, value: string, rest: string): string {
    tag + value + ['\n'] + rest
  }

  /** The lines of a frame behind its version. */
  function FrameLines(s: SourceContext): string {
    Line("origin: ", s.originKind,
      Line("name: ", s.displayName,
        Line("member-count: ", Decimal.Print(s.memberCount),
          Line("byte-count: ", Decimal.Print(s.byteCount),
            Line("sha256: ", s.contentHash,
              Line("content-bytes: ", Decimal.Print(ByteLen(s.content)), s.content))))))
  }

  /** User text, followed by the frame of the attached source if there is one. */
  function FormatTurn(userText: string, source: Option<SourceContext>): string {
    match source
    case None => userText
    case Some(s) => userText + (['\n', '\n'] + FRAME_VERSION + ['\n'] + FrameLines(s))
  }

  predicate OneLine(s: string) {
    '\n' !in s
  }

  /** The header fields hold no line break, and the counts are machine words. */
  predicate Framable(s: SourceContext) {
    && OneLine(s.originKind) && OneLine(s.displayName) && OneLine(s.contentHash)
    && s.memberCount < Decimal.USIZE_LIMIT && s.byteCount < Decimal.USIZE_LIMIT
  }

  lemma LineUnique(tag: string, x: string, s: string, y: string, t: string)
    requires OneLine(x) && OneLine(y) && Line(tag, x, s) == Line(tag, y, t)
    ensures x == y && s == t
  {
    var a, b := x + ['\n'] + s, y + ['\n'] + t;
    assert Line(tag, x, s)[|tag|..] == a && Line(tag, y, t)[|tag|..] == b;
    SplitOfParts(x, '\n', s);
    SplitOfParts(y, '\n', t);
  }

  lemma NumberIsOneLine(n: nat)
    ensures OneLine(Decimal.Print(n))
  {
  }

  lemma NumberLineUnique(tag: string, m: nat, s: string, n: nat, t: string)
    requires Line(tag, Decimal.Print(m), s) == Line(tag, Decimal.Print(n), t)
    ensures Decimal.Print(m) == Decimal.Print(n) && s == t
  {
    NumberIsOneLine(m);
    NumberIsOneLine(n);
    LineUnique(tag, Decimal.Print(m), s, Decimal.Print(n), t);
  }

  function CountLines(s: SourceContext): string {
    Line("member-count: ", Decimal.Print(s.memberCount),
      Line("byte-count: ", Decimal.Print(s.byteCount),
        Line("sha256: ", s.contentHash,
          Line("content-bytes: ", Decimal.Print(ByteLen(s.content)), s.content))))
  }

  lemma CountLinesUnique(a: SourceContext, b: SourceContext)
    requires Framable(a) && Framable(b) && CountLines(a) == CountLines(b)
    ensures a.memberCount == b.memberCount && a.byteCount == b.byteCount
    ensures a.contentHash == b.contentHash && a.content == b.content
  {
    var aContent := Line("content-bytes: ", Decimal.Print(ByteLen(a.content)), a.content);
    var bContent := Line("content-bytes: ", Decimal.Print(ByteLen(b.content)), b.content);
    var aHash, bHash := Line("sha256: ", a.contentHash, aContent), Line("sha256: ", b.contentHash, bContent);
    NumberLineUnique("member-count: ", a.memberCount, Line("byte-count: ", Decimal.Print(a.byteCount), aHash),
                     b.memberCount, Line("byte-count: ", Decimal.Print(b.byteCount), bHash));
    NumberLineUnique("byte-count: ", a.byteCount, aHash, b.byteCount, bHash);
    LineUnique("sha256: ", a.contentHash, aContent, b.contentHash, bContent);
    NumberLineUnique("content-bytes: ", ByteLen(a.content), a.content, ByteLen(b.content), b.content);
    Decimal.PrintInjective(a.memberCount, b.memberCount);
    Decimal.PrintInjective(a.byteCount, b.byteCount);
  }

  lemma FrameLinesUnique(a: SourceContext, b: SourceContext)
    requires Framable(a) && Framable(b) && FrameLines(a) == FrameLines(b)
    ensures a == b
  {
    LineUnique("origin: ", a.originKind, Line("name: ", a.displayName, CountLines(a)),
               b.originKind, Line("name: ", b.displayName, CountLines(b)));
    LineUnique("name: ", a.displayName, CountLines(a), b.displayName, CountLines(b));
    CountLinesUnique(a, b);
  }

  lemma FramesUnique(userText: string, a: SourceContext, b: SourceContext)
    requires Framable(a) && Framable(b) && FormatTurn(userText, Some(a)) == FormatTurn(userText, Some(b))
    ensures a == b
  {
    var mark := ['\n', '\n'] + FRAME_VERSION + ['\n'];
    SameEnds(userText, mark, FrameLines(a), FrameLines(b));
    FrameLinesUnique(a, b);
  }

  lemma SameEnds(before: string, mark: string, s: string, t: string)
    requires before + (mark + s) == before + (mark + t)
    ensures s == t
  {
    assert (before + (mark + s))[|before| + |mark|..] == s;
    assert (before + (mark + t))[|before| + |mark|..] == t;
  }

  lemma FrameAddsText(userText: string, s: SourceContext)
    ensures |FormatTurn(userText, Some(s))| > |userText|
  {
  }

  /** For one user text, the formatted text determines whether a source is attached, and which: delimiters
      inside the content cannot move the frame. */
  lemma FrameUnambiguous(userText: string, a: Option<SourceContext>, b: Option<SourceContext>)
    requires (a.Some? ==> Framable(a.value)) && (b.Some? ==> Framable(b.value))
    ensures FormatTurn(userText, a) == FormatTurn(userText, b) <==> a == b
  {
    if a.Some? {
      FrameAddsText(userText, a.value);
    }
    if b.Some? {
      FrameAddsText(userText, b.value);
    }
    if a.Some? && b.Some? && FormatTurn(userText, a) == FormatTurn(userText, b) {
      FramesUnique(userText, a.value, b.value);
    }
  }

  /** Every source that can be stored can be framed. */
  lemma CanonicalFramable(s: Sources.Source, hash: Sources.Hash)
    requires Sources.IsHash(hash) && Sources.Canonical(s, hash) && s.memberCount < Decimal.USIZE_LIMIT
    ensures Framable(ContextOf(s))
  {
    assert Sources.HexDigest(hash(s.content));
    assert FolderFraming.UnsafeChar('\n');
    OriginIsOneLine(s.originKind);
  }

  lemma OriginIsOneLine(origin: string)
    ensures origin == Sources.LOCAL_TEXT_FILE || origin == Sources.LOCAL_TEXT_FOLDER || origin == Sources.REMOTE_TEXT_URL
            ==> OneLine(origin)
  {
  }

  // ----- Assembling -----

  /** The fixed instruction, with the saved project instructions quoted behind it if there are any. */
  function Assemble(fixed: string, saved: Option<string>): string {
    if saved.Some? && saved.value != [] then fixed + "\n\nSaved Project instructions:\n---\n" + saved.value + "\n---"
    else fixed
  }

  datatype CompletedTurn = CompletedTurn(userText: string, agentText: string, source: Option<SourceContext>)

  datatype RequestContext = RequestContext(modelId: string, instructions: string, history: seq<CompletedTurn>, userText: string,
                                           source: Option<SourceContext>, effort: Option<Effort>)

  /** The largest machine word stands for everything beyond it. */
  function Saturate(n: nat): nat {
    if n < Decimal.USIZE_LIMIT then n else Decimal.USIZE_LIMIT - 1
  }

  function SaturatingAdd(a: nat, b: nat): nat {
    Saturate(a + b)
  }

  /** The finished turns' user texts with their sources, and their agent texts. */
  function Framed(history: seq<CompletedTurn>): (r: seq<string>)
    ensures |r| == |history|
  {
    seq(|history|, i requires 0 <= i < |history| => FormatTurn(history[i].userText, history[i].source))
  }

  function AgentTexts(history: seq<CompletedTurn>): (r: seq<string>)
    ensures |r| == |history|
  {
    seq(|history|, i requires 0 <= i < |history| => history[i].agentText)
  }

  /** The measured size after the first k finished turns. */
  function MeasureUpTo(start: nat, framed: seq<string>, answers: seq<string>, k: nat): nat
    requires k <= |framed| == |answers|
  {
    if k == 0 then start
    else SaturatingAdd(SaturatingAdd(MeasureUpTo(start, framed, answers, k - 1), ByteLen(framed[k - 1])), ByteLen(answers[k - 1]))
  }

  function Measure(instructions: string, framed: seq<string>, answers: seq<string>, current: string): nat
    requires |framed| == |answers|
  {
    SaturatingAdd(MeasureUpTo(ByteLen(instructions), framed, answers, |framed|), ByteLen(current))
  }

  function Build(fixed: string, history: seq<CompletedTurn>, userText: string, saved: Option<string>, modelId: string,
                 source: Option<SourceContext>, effort: Option<Effort>): Result<RequestContext, AgentError>
  {
    if UserTextError(userText).Some? then Err(UserTextError(userText).value)
    else
      var size := Measure(Assemble(fixed, saved), Framed(history), AgentTexts(history), FormatTurn(userText, source));
      if size > MAX_CONTEXT_UTF8 then Err(ContextLimit(size))
      else Ok(RequestContext(modelId, Assemble(fixed, saved), history, userText, source, effort))
  }

  lemma MeasureStep(start: nat, history: seq<CompletedTurn>, k: nat, framed: string)
    requires k < |history| && framed == FormatTurn(history[k].userText, history[k].source)
    ensures MeasureUpTo(start, Framed(history), AgentTexts(history), k + 1)
         == SaturatingAdd(SaturatingAdd(MeasureUpTo(start, Framed(history), AgentTexts(history), k), ByteLen(framed)),
                          ByteLen(history[k].agentText))
  {
  }

  method AddTurn(start: nat, history: seq<CompletedTurn>, k: nat, size: nat) returns (more: nat)
    requires k < |history| && size == MeasureUpTo(start, Framed(history), AgentTexts(history), k)
    ensures more == MeasureUpTo(start, Framed(history), AgentTexts(history), k + 1)
  {
    var framed := FormatTurn(history[k].userText, history[k].source);
    MeasureStep(start, history, k, framed);
    more := SaturatingAdd(size, ByteLen(framed));
    more := SaturatingAdd(more, ByteLen(history[k].agentText));
  }

  method MeasureHistory(start: nat, history: seq<CompletedTurn>) returns (size: nat)
    ensures size == MeasureUpTo(start, Framed(history), AgentTexts(history), |history|)
  {
    size := start;
    for k := 0 to |history|
      invariant size == MeasureUpTo(start, Framed(history), AgentTexts(history), k)
    {
      size := AddTurn(start, history, k, size);
    }
  }

  method BuildAgentRequestContext(fixed: string, history: seq<CompletedTurn>, userText: string, saved: Option<string>, modelId: string,
                                  source: Option<SourceContext>, effort: Option<Effort>)
    returns (r: Result<RequestContext, AgentError>)
    ensures r == Build(fixed, history, userText, saved, modelId, source, effort)
  {
    if UserTextError(userText).Some? {
      return Err(UserTextError(userText).value);
    }
    var instructions := Assemble(fixed, saved);
    var size := MeasureHistory(ByteLen(instructions), history);
    size := SaturatingAdd(size, ByteLen(FormatTurn(userText, source)));
    if size > MAX_CONTEXT_UTF8 {
      return Err(ContextLimit(size));
    }
    return Ok(RequestContext(modelId, instructions, history, userText, source, effort));
  }

  // ----- What is measured -----

  /** The text of the first k finished turns as it is sent. */
  function Transcript(framed: seq<string>, answers: seq<string>, k: nat): string
    requires k <= |framed| == |answers|
  {
    if k == 0 then "" else Transcript(framed, answers, k - 1) + framed[k - 1] + answers[k - 1]
  }

  lemma ThreePieces(a: string, b: string, c: string)
    ensures ByteLen(a + b + c) == ByteLen(a) + ByteLen(b) + ByteLen(c)
  {
    ByteLenConcat(a, b);
    ByteLenConcat(a + b, c);
  }

  lemma SaturateTwice(n: nat, a: nat, b: nat)
    ensures SaturatingAdd(SaturatingAdd(Saturate(n), a), b) == Saturate(n + a + b)
  {
  }

  lemma {:induction false} MeasuredUpTo(start: nat, framed: seq<string>, answers: seq<string>, k: nat)
    requires k <= |framed| == |answers| && start < Decimal.USIZE_LIMIT
    ensures MeasureUpTo(start, framed, answers, k) == Saturate(start + ByteLen(Transcript(framed, answers, k)))
  {
    if k > 0 {
      MeasuredUpTo(start, framed, answers, k - 1);
      ThreePieces(Transcript(framed, answers, k - 1), framed[k - 1], answers[k - 1]);
      SaturateTwice(start + ByteLen(Transcript(framed, answers, k - 1)), ByteLen(framed[k - 1]), ByteLen(answers[k - 1]));
    }
  }

  lemma MeasureIsTotal(instructions: string, framed: seq<string>, answers: seq<string>, current: string)
    requires |framed| == |answers| && ByteLen(instructions) < Decimal.USIZE_LIMIT
    ensures Measure(instructions, framed, answers, current)
         == Saturate(ByteLen(instructions) + ByteLen(Transcript(framed, answers, |framed|)) + ByteLen(current))
  {
    MeasuredUpTo(ByteLen(instructions), framed, answers, |framed|);
    SaturateTwice(ByteLen(instructions) + ByteLen(Transcript(framed, answers, |framed|)), ByteLen(current), 0);
  }

  lemma {:induction false} LargeStart(start: nat, framed: seq<string>, answers: seq<string>, k: nat)
    requires k <= |framed| == |answers| && start >= Decimal.USIZE_LIMIT
    ensures MeasureUpTo(start, framed, answers, k) >= Decimal.USIZE_LIMIT - 1
  {
    if k > 0 {
      LargeStart(start, framed, answers, k - 1);
    }
  }

  /** The bytes of everything a context holds. */
  function TotalBytes(instructions: string, history: seq<CompletedTurn>, current: string): nat {
    ByteLen(instructions) + ByteLen(Transcript(Framed(history), AgentTexts(history), |history|)) + ByteLen(current)
  }

  /** A context is refused exactly when instructions, finished turns and current text together have more
      bytes than the ceiling; saturation never hides that. */
  lemma RefusedExactly(fixed: string, history: seq<CompletedTurn>, userText: string, saved: Option<string>, modelId: string,
                       source: Option<SourceContext>, effort: Option<Effort>)
    requires UserTextError(userText).None?
    ensures Build(fixed, history, userText, saved, modelId, source, effort).Err?
       <==> TotalBytes(Assemble(fixed, saved), history, FormatTurn(userText, source)) > MAX_CONTEXT_UTF8
  {
    if ByteLen(Assemble(fixed, saved)) < Decimal.USIZE_LIMIT {
      MeasureIsTotal(Assemble(fixed, saved), Framed(history), AgentTexts(history), FormatTurn(userText, source));
    } else {
      LargeStart(ByteLen(Assemble(fixed, saved)), Framed(history), AgentTexts(history), |history|);
    }
  }
}
