/** The framed text of a folder source, and the loop that counts its members again. */
module FolderFraming {
  import opened Wrappers
  import opened Text
  import opened MemberOrder
  import Decimal

  const MAX_SOURCE_UTF8: nat := 64 * 1024
  const MAX_FOLDER_MEMBERS: nat := 32
  const U32_MAX: nat := 0xFFFF_FFFF
  /** No text occupies more bytes than a signed machine word counts. */
  const MAX_TEXT_BYTES: nat := 0x7FFF_FFFF_FFFF_FFFF

  datatype SourceError =
    | UnsafeDisplayName
    | TooLarge(byteCount: nat)
    | ContainsNul
    | NoEligibleMembers
    | TooManyMembers(memberCount: nat)
    | InvalidCanonicalUrl

  // ----- Names and content -----

  /** Control characters, and those that reorder or break a line of display. */
  predicate UnsafeChar(c: char) {
    var code := c as int;
    || code <= 0x1F
    || code == 0x7F
    || 0x80 <= code <= 0x9F
    || code == 0x061C
    || 0x200E <= code <= 0x200F
    || 0x202A <= code <= 0x202E
    || 0x2028 <= code <= 0x2029
    || 0x2066 <= code <= 0x2069
  }

  predicate SafeName(name: string) {
    name != [] && forall i :: 0 <= i < |name| ==> !UnsafeChar(name[i])
  }

  function ContentError(content: string): Option<SourceError> {
    if ByteLen(content) > MAX_SOURCE_UTF8 then Some(TooLarge(ByteLen(content)))
    else if '\0' in content then Some(ContainsNul)
    else None
  }

  predicate ValidMember(m: Member) {
    SafeName(m.name) && ContentError(m.body).None?
  }

  predicate AllValid(members: seq<Member>) {
    forall i :: 0 <= i < |members| ==> ValidMember(members[i])
  }

  // ----- Framing -----

  const MEMBER_LABEL: string := "member: "
  const LENGTH_LABEL: string := "content-bytes: "

  function FrameOne(m: Member): string {
    MEMBER_LABEL + m.name + ['\n'] + LENGTH_LABEL + Decimal.Print(ByteLen(m.body)) + ['\n'] + m.body
  }

  function FrameAll(members: seq<Member>): string {
    if members == [] then [] else FrameOne(members[0]) + FrameAll(members[1..])
  }

  function Frame(members: seq<Member>): string {
    FrameAll(Sort(members))
  }

  lemma {:induction false} FrameAllAppend(members: seq<Member>, m: Member)
    ensures FrameAll(members + [m]) == FrameAll(members) + FrameOne(m)
  {
    if members == [] {
      assert [m][1..] == [];
      assert FrameAll([m]) == FrameOne(m) + FrameAll([]);
      assert [] + [m] == [m];
    } else {
      assert (members + [m])[1..] == members[1..] + [m];
      FrameAllAppend(members[1..], m);
    }
  }

  lemma FramedPieces(framed: string, m: Member)
    ensures framed + MEMBER_LABEL + m.name + ['\n'] + LENGTH_LABEL + Decimal.Print(ByteLen(m.body)) + ['\n'] + m.body
         == framed + FrameOne(m)
  {
  }

  lemma FrameUpTo(ordered: seq<Member>, i: nat)
    requires i < |ordered|
    ensures FrameAll(ordered[..i + 1]) == FrameAll(ordered[..i]) + FrameOne(ordered[i])
  {
    assert ordered[..i + 1] == ordered[..i] + [ordered[i]];
    FrameAllAppend(ordered[..i], ordered[i]);
  }

  method FrameFolderMembers(members: seq<Member>) returns (framed: string)
    ensures framed == Frame(members)
  {
    var ordered := Sort(members);
    framed := "";
    for i := 0 to |ordered|
      invariant framed == FrameAll(ordered[..i])
    {
      FramedPieces(framed, ordered[i]);
      FrameUpTo(ordered, i);
      framed := framed + MEMBER_LABEL;
      framed := framed + ordered[i].name;
      framed := framed + ['\n'];
      framed := framed + LENGTH_LABEL;
      framed := framed + Decimal.Print(ByteLen(ordered[i].body));
      framed := framed + ['\n'];
      framed := framed + ordered[i].body;
    }
    assert ordered[..|ordered|] == ordered;
  }

  // ----- Parsing -----

  datatype Parsed = Parsed(member: Member, rest: string)

  /** The byte length a header announces, and the text behind the header. */
  datatype Header = Header(name: string, byteLen: nat, after: string)

  predicate ProperSuffix(t: string, s: string) {
    |t| < |s| && s[|s| - |t|..] == t
  }

  lemma ProperSuffixTransitive(t: string, s: string, r: string)
    requires ProperSuffix(t, s) && ProperSuffix(s, r)
    ensures ProperSuffix(t, r)
  {
    assert r[|r| - |t|..] == r[|r| - |s|..][|s| - |t|..];
  }

  /** The value of a labelled line, and the text behind the line. */
  function TakeLine(s: string, tag: string): (r: Option<Split>)
    ensures r.Some? ==> s == tag + r.value.before + ['\n'] + r.value.after
  {
    match StripPrefix(s, tag)
    case None => None
    case Some(afterLabel) => SplitOnce(afterLabel, '\n')
  }

  function ParseHeader(s: string): (r: Result<Header, SourceError>)
    ensures r.Err? ==> r.error == UnsafeDisplayName
  {
    match TakeLine(s, MEMBER_LABEL)
    case None => Err(UnsafeDisplayName)
    case Some(Split(name, afterName)) =>
      if !SafeName(name) then Err(UnsafeDisplayName)
      else
        match TakeLine(afterName, LENGTH_LABEL)
        case None => Err(UnsafeDisplayName)
        case Some(Split(lenText, afterLen)) =>
          match Decimal.Parse(lenText)
          case None => Err(UnsafeDisplayName)
          case Some(byteLen) => Ok(Header(name, byteLen, afterLen))
  }

  lemma LineIsFront(s: string, tag: string)
    requires TakeLine(s, tag).Some?
    ensures ProperSuffix(TakeLine(s, tag).value.after, s)
  {
  }

  /** A header is followed by the end of the text it was read from. */
  lemma HeaderIsFront(s: string)
    requires ParseHeader(s).Ok?
    ensures ProperSuffix(ParseHeader(s).value.after, s)
  {
    var first := TakeLine(s, MEMBER_LABEL).value;
    LineIsFront(s, MEMBER_LABEL);
    LineIsFront(first.after, LENGTH_LABEL);
    ProperSuffixTransitive(TakeLine(first.after, LENGTH_LABEL).value.after, first.after, s);
  }

  /** One member at the front of s, which is the end of a text of `total` bytes. */
  function ParseOne(s: string, total: nat): (r: Result<Parsed, SourceError>)
    ensures r.Ok? ==> |r.value.rest| < |s|
  {
    match ParseHeader(s)
    case Err(error) => Err(error)
    case Ok(header) =>
      HeaderIsFront(s);
      var bodyStart := total - ByteLen(header.after);
      if bodyStart + header.byteLen >= Decimal.USIZE_LIMIT then Err(TooLarge(total))
      else
        match CharsAt(header.after, header.byteLen)
        case None => Err(UnsafeDisplayName)
        case Some(k) =>
          match ContentError(header.after[..k])
          case Some(error) => Err(error)
          case None => Ok(Parsed(Member(header.name, header.after[..k]), header.after[k..]))
  }

  type Reader = string -> Result<Parsed, SourceError>

  ghost predicate Shrinks(one: Reader) {
    forall s: string :: one(s).Ok? ==> |one(s).value.rest| < |s|
  }

  function ReaderOf(total: nat): (one: Reader)
    ensures Shrinks(one)
  {
    (s: string) => ParseOne(s, total)
  }

  /** Members followed by those parsed from the rest. */
  function Continue(visited: seq<Member>, rest: Result<seq<Member>, SourceError>): Result<seq<Member>, SourceError> {
    match rest
    case Err(error) => Err(error)
    case Ok(members) => Ok(visited + members)
  }

  /** All members of s, after `count` were seen before. */
  function Parse(one: Reader, s: string, count: nat): Result<seq<Member>, SourceError>
    requires Shrinks(one)
    decreases |s|
  {
    if s == [] then Ok([])
    else
      match one(s)
      case Err(error) => Err(error)
      case Ok(Parsed(member, rest)) =>
        if count + 1 > U32_MAX then Err(TooManyMembers(MAX_FOLDER_MEMBERS + 1))
        else Continue([member], Parse(one, rest, count + 1))
  }

  function Members(content: string): Result<seq<Member>, SourceError> {
    match Parse(ReaderOf(ByteLen(content)), content, 0)
    case Err(error) => Err(error)
    case Ok(members) => if members == [] then Err(NoEligibleMembers) else Ok(members)
  }

  function CountOf(members: Result<seq<Member>, SourceError>): Result<nat, SourceError> {
    match members
    case Err(error) => Err(error)
    case Ok(list) => Ok(|list|)
  }

  // ----- The counting loop -----

  /** The text from byte `offset` on. */
  function From(content: string, offset: nat): string
    requires CharsAt(content, offset).Some?
  {
    content[CharsAt(content, offset).value..]
  }

  lemma SuffixAt(content: string, prefix: string, rest: string)
    requires content == prefix + rest
    ensures CharsAt(content, ByteLen(prefix)).Some? && From(content, ByteLen(prefix)) == rest
    ensures ByteLen(content) == ByteLen(prefix) + ByteLen(rest)
  {
    BoundaryAfterPrefix(prefix, rest);
    ByteLenConcat(prefix, rest);
  }

  lemma OffsetSplits(content: string, offset: nat)
    requires CharsAt(content, offset).Some?
    ensures ByteLen(content[..CharsAt(content, offset).value]) == offset
    ensures ByteLen(content) == offset + ByteLen(From(content, offset))
    ensures offset < ByteLen(content) <==> From(content, offset) != []
  {
    BoundaryExactly(content, offset);
    var k := CharsAt(content, offset).value;
    assert content == content[..k] + content[k..];
    ByteLenConcat(content[..k], content[k..]);
    ByteLenPositive(content[k..]);
  }

  lemma MemberEnd(content: string, before: string, header: string, body: string, left: string, next: nat)
    requires content == before + header + body + left
    requires next == ByteLen(before) + ByteLen(header) + ByteLen(body)
    ensures CharsAt(content, next).Some? && From(content, next) == left
  {
    ByteLenConcat(before, header);
    ByteLenConcat(before + header, body);
    SuffixAt(content, before + header + body, left);
  }

  lemma Lengths(content: string, before: string, header: string, body: string, left: string)
    requires content == before + (header + (body + left)) && header != []
    ensures ByteLen(content) == ByteLen(before) + ByteLen(header) + ByteLen(body + left)
    ensures ByteLen(header) > 0
  {
    ByteLenConcat(before, header + (body + left));
    ByteLenConcat(header, body + left);
    ByteLenPositive(header);
  }

  /** The end of a member is again the end of a character, and the loop moves forward. */
  lemma Advance(content: string, offset: nat, after: string, n: nat, k: nat, next: nat)
    requires CharsAt(content, offset).Some?
    requires ProperSuffix(after, From(content, offset))
    requires CharsAt(after, n) == Some(k)
    requires next == ByteLen(content) - ByteLen(after) + n
    ensures offset < next
    ensures CharsAt(content, next).Some? && From(content, next) == after[k..]
  {
    var k0 := CharsAt(content, offset).value;
    var before, rest := content[..k0], content[k0..];
    var header := rest[..|rest| - |after|];
    BoundaryExactly(content, offset);
    BoundaryExactly(after, n);
    assert after == after[..k] + after[k..];
    FourPieces(content, before, rest, header, after, after[..k], after[k..]);
    Lengths(content, before, header, after[..k], after[k..]);
    MemberEnd(content, before, header, after[..k], after[k..], next);
  }

  lemma FourPieces(content: string, before: string, rest: string, header: string, after: string, body: string, left: string)
    requires content == before + rest && rest == header + after && after == body + left
    ensures content == before + (header + (body + left)) && content == before + header + body + left
  {
  }

  lemma StartOfLoop(content: string)
    ensures CharsAt(content, 0) == Some(0) && From(content, 0) == content
    ensures forall p :: Continue([], p) == p
  {
    forall p ensures Continue([], p) == p {
      if p.Ok? {
        assert [] + p.value == p.value;
      }
    }
  }

  lemma ParseStops(one: Reader, s: string, count: nat, error: SourceError, visited: seq<Member>)
    requires Shrinks(one) && s != []
    requires one(s) == Err(error)
             || (one(s).Ok? && count + 1 > U32_MAX && error == TooManyMembers(MAX_FOLDER_MEMBERS + 1))
    ensures Continue(visited, Parse(one, s, count)) == Err(error)
  {
  }

  lemma ParseUnfolds(one: Reader, s: string, parsed: Parsed, next: string, count: nat)
    requires Shrinks(one) && s != [] && one(s) == Ok(parsed) && next == parsed.rest && count + 1 <= U32_MAX
    ensures Parse(one, s, count) == Continue([parsed.member], Parse(one, next, count + 1))
  {
  }

  lemma ContinueTwice(a: seq<Member>, b: seq<Member>, r: Result<seq<Member>, SourceError>)
    ensures Continue(a, Continue(b, r)) == Continue(a + b, r)
  {
    if r.Ok? {
      assert a + (b + r.value) == a + b + r.value;
    }
  }

  lemma ParseMovesOn(one: Reader, s: string, parsed: Parsed, next: string, visited: seq<Member>, more: seq<Member>)
    requires Shrinks(one) && s != [] && one(s) == Ok(parsed) && next == parsed.rest
    requires more == visited + [parsed.member] && |more| <= U32_MAX
    ensures Continue(visited, Parse(one, s, |visited|)) == Continue(more, Parse(one, next, |more|))
  {
    ParseUnfolds(one, s, parsed, next, |visited|);
    ContinueTwice(visited, [parsed.member], Parse(one, next, |more|));
  }

  lemma ParseEnds(one: Reader, count: nat, visited: seq<Member>)
    requires Shrinks(one)
    ensures Continue(visited, Parse(one, [], count)) == Ok(visited)
  {
    assert visited + [] == visited;
  }

  lemma HeaderStart(content: string, offset: nat, after: string)
    requires CharsAt(content, offset).Some? && ProperSuffix(after, From(content, offset))
    ensures ByteLen(after) <= ByteLen(From(content, offset))
    ensures offset + ByteLen(From(content, offset)) == ByteLen(content)
  {
    OffsetSplits(content, offset);
    var rest := From(content, offset);
    assert rest == rest[..|rest| - |after|] + after;
    ByteLenConcat(rest[..|rest| - |after|], after);
  }

  /** One turn of the loop: the end of the member that starts at `offset`. */
  method ReadMember(content: string, offset: nat) returns (r: Result<nat, SourceError>, ghost rest: string, ghost parsed: Parsed)
    requires CharsAt(content, offset).Some? && offset < ByteLen(content)
    ensures rest == From(content, offset) && rest != []
    ensures match r
            case Err(error) => ParseOne(rest, ByteLen(content)) == Err(error)
            case Ok(end) =>
              && offset < end <= ByteLen(content)
              && CharsAt(content, end).Some?
              && ParseOne(rest, ByteLen(content)) == Ok(parsed)
              && From(content, end) == parsed.rest
  {
    OffsetSplits(content, offset);
    var text := From(content, offset);
    rest := text;
    parsed := Parsed(Member("", ""), "");
    var header;
    match ParseHeader(text) {
      case Err(error) => return Err(error), rest, parsed;
      case Ok(h) => header := h;
    }
    HeaderIsFront(text);
    HeaderStart(content, offset, header.after);
    var headerLen := ByteLen(text) - ByteLen(header.after);
    var bodyStart := offset + headerLen;
    if bodyStart + header.byteLen >= Decimal.USIZE_LIMIT {
      return Err(TooLarge(ByteLen(content))), rest, parsed;
    }
    var bodyEnd := bodyStart + header.byteLen;
    var k := CharsAt(header.after, header.byteLen);
    if k.None? {
      return Err(UnsafeDisplayName), rest, parsed;
    }
    var body := header.after[..k.value];
    match ContentError(body) {
      case Some(error) => return Err(error), rest, parsed;
      case None =>
    }
    Advance(content, offset, header.after, header.byteLen, k.value, bodyEnd);
    OffsetSplits(content, bodyEnd);
    return Ok(bodyEnd), rest, Parsed(Member(header.name, body), header.after[k.value..]);
  }

  /** The members visited so far, continued with those in the text from `offset` on. */
  ghost function Outlook(content: string, offset: nat, visited: seq<Member>): Result<seq<Member>, SourceError>
    requires CharsAt(content, offset).Some?
  {
    Continue(visited, Parse(ReaderOf(ByteLen(content)), From(content, offset), |visited|))
  }

  lemma OutlookStops(content: string, offset: nat, visited: seq<Member>, error: SourceError)
    requires CharsAt(content, offset).Some? && From(content, offset) != []
    requires var one := ParseOne(From(content, offset), ByteLen(content));
             one == Err(error)
             || (one.Ok? && |visited| + 1 > U32_MAX && error == TooManyMembers(MAX_FOLDER_MEMBERS + 1))
    ensures Outlook(content, offset, visited) == Err(error)
  {
    ParseStops(ReaderOf(ByteLen(content)), From(content, offset), |visited|, error, visited);
  }

  lemma OutlookMovesOn(content: string, offset: nat, end: nat, visited: seq<Member>, parsed: Parsed)
    requires CharsAt(content, offset).Some? && From(content, offset) != [] && |visited| + 1 <= U32_MAX
    requires ParseOne(From(content, offset), ByteLen(content)) == Ok(parsed)
    requires CharsAt(content, end).Some? && From(content, end) == parsed.rest
    ensures Outlook(content, offset, visited) == Outlook(content, end, visited + [parsed.member])
  {
    var one, s, next := ReaderOf(ByteLen(content)), From(content, offset), From(content, end);
    ParseMovesOn(one, s, parsed, next, visited, visited + [parsed.member]);
  }

  method CountMember(content: string, offset: nat, count: nat, ghost visited: seq<Member>)
    returns (r: Result<nat, SourceError>, ghost parsed: Parsed)
    requires CharsAt(content, offset).Some? && offset < ByteLen(content) && count == |visited|
    ensures r.Err? ==> Outlook(content, offset, visited) == Err(r.error)
    ensures r.Ok? ==> offset < r.value <= ByteLen(content) && CharsAt(content, r.value).Some?
    ensures r.Ok? ==> Outlook(content, offset, visited) == Outlook(content, r.value, visited + [parsed.member])
  {
    ghost var rest;
    r, rest, parsed := ReadMember(content, offset);
    if r.Err? {
      OutlookStops(content, offset, visited, r.error);
    } else if count + 1 > U32_MAX {
      OutlookStops(content, offset, visited, TooManyMembers(MAX_FOLDER_MEMBERS + 1));
      r := Err(TooManyMembers(MAX_FOLDER_MEMBERS + 1));
    } else {
      OutlookMovesOn(content, offset, r.value, visited, parsed);
    }
  }

  lemma OutlookAtStart(content: string)
    ensures CharsAt(content, 0).Some?
    ensures Outlook(content, 0, []) == Parse(ReaderOf(ByteLen(content)), content, 0)
  {
    StartOfLoop(content);
  }

  lemma OutlookAtEnd(content: string, offset: nat, visited: seq<Member>)
    requires CharsAt(content, offset).Some? && offset >= ByteLen(content)
    ensures Outlook(content, offset, visited) == Ok(visited)
  {
    OffsetSplits(content, offset);
    ParseEnds(ReaderOf(ByteLen(content)), |visited|, visited);
  }

  method CountFolderMembers(content: string) returns (r: Result<nat, SourceError>)
    ensures r == CountOf(Members(content))
  {
    var offset := 0;
    var count := 0;
    ghost var visited: seq<Member> := [];
    OutlookAtStart(content);
    while offset < ByteLen(content)
      invariant CharsAt(content, offset).Some?
      invariant count == |visited|
      invariant Outlook(content, 0, []) == Outlook(content, offset, visited)
      decreases ByteLen(content) - offset
    {
      var end;
      ghost var parsed;
      end, parsed := CountMember(content, offset, count, visited);
      if end.Err? {
        return Err(end.error);
      }
      count := count + 1;
      visited := visited + [parsed.member];
      offset := end.value;
    }
    OutlookAtEnd(content, offset, visited);
    if count == 0 {
      return Err(NoEligibleMembers);
    }
    return Ok(count);
  }

  // ----- Round trip -----

  /** A member as it may stand in a text: the length may be written with leading zeros or a plus. */
  datatype Piece = Piece(name: string, numeral: string, body: string)

  function TextOf(p: Piece): string {
    MEMBER_LABEL + p.name + ['\n'] + LENGTH_LABEL + p.numeral + ['\n'] + p.body
  }

  /** The numeral writes the number of bytes of the body. */
  predicate GoodPiece(p: Piece) {
    ValidMember(Member(p.name, p.body)) && Decimal.Writes(p.numeral, ByteLen(p.body))
  }

  predicate AllGood(pieces: seq<Piece>) {
    forall i :: 0 <= i < |pieces| ==> GoodPiece(pieces[i])
  }

  function Joined(pieces: seq<Piece>): string {
    if pieces == [] then [] else TextOf(pieces[0]) + Joined(pieces[1..])
  }

  function MembersOf(pieces: seq<Piece>): (r: seq<Member>)
    ensures |r| == |pieces|
  {
    seq(|pieces|, i requires 0 <= i < |pieces| => Member(pieces[i].name, pieces[i].body))
  }

  lemma NumeralIsOneLine(numeral: string, n: nat)
    requires Decimal.Writes(numeral, n)
    ensures '\n' !in numeral
  {
    var digits := if |numeral| > 0 && numeral[0] == '+' then numeral[1..] else numeral;
    forall i | 0 <= i < |numeral| ensures numeral[i] != '\n' {
      if numeral[i] != '+' || i > 0 {
        assert Decimal.IsDigit(digits[i - (|numeral| - |digits|)]);
      }
    }
  }

  lemma HeaderOfPiece(p: Piece, rest: string)
    requires GoodPiece(p)
    ensures ParseHeader(TextOf(p) + rest) == Ok(Header(p.name, ByteLen(p.body), p.body + rest))
  {
    var afterName := LENGTH_LABEL + p.numeral + ['\n'] + (p.body + rest);
    var s := TextOf(p) + rest;
    assert s == MEMBER_LABEL + p.name + ['\n'] + afterName;
    assert UnsafeChar('\n');
    LineTaken(MEMBER_LABEL, p.name, afterName);
    NumeralIsOneLine(p.numeral, ByteLen(p.body));
    LineTaken(LENGTH_LABEL, p.numeral, p.body + rest);
    Decimal.ParseExactly(p.numeral, ByteLen(p.body));
  }

  lemma LineTaken(tag: string, before: string, after: string)
    requires '\n' !in before
    ensures TakeLine(tag + before + ['\n'] + after, tag) == Some(Split(before, after))
  {
    var s := tag + before + ['\n'] + after;
    assert s[|tag|..] == before + ['\n'] + after;
    assert s[..|tag|] == tag;
    SplitOfParts(before, '\n', after);
  }

  lemma BodyTaken(body: string, rest: string)
    ensures CharsAt(body + rest, ByteLen(body)) == Some(|body|)
    ensures (body + rest)[..|body|] == body && (body + rest)[|body|..] == rest
  {
    BoundaryAfterPrefix(body, rest);
  }

  lemma PieceTaken(p: Piece, rest: string, total: nat)
    requires GoodPiece(p) && total <= MAX_TEXT_BYTES
    requires ByteLen(p.body + rest) <= total
    ensures ParseOne(TextOf(p) + rest, total) == Ok(Parsed(Member(p.name, p.body), rest))
  {
    HeaderOfPiece(p, rest);
    BodyTaken(p.body, rest);
  }

  lemma PieceBytes(p: Piece, rest: string)
    ensures ByteLen(p.body + rest) <= ByteLen(TextOf(p) + rest)
    ensures ByteLen(rest) <= ByteLen(TextOf(p) + rest)
  {
    var header := MEMBER_LABEL + p.name + ['\n'] + LENGTH_LABEL + p.numeral + ['\n'];
    assert TextOf(p) + rest == header + (p.body + rest);
    ByteLenConcat(header, p.body + rest);
    ByteLenConcat(p.body, rest);
  }

  lemma FrontParses(p: Piece, rest: string, total: nat)
    requires GoodPiece(p) && ByteLen(TextOf(p) + rest) <= total <= MAX_TEXT_BYTES
    ensures TextOf(p) + rest != [] && ReaderOf(total)(TextOf(p) + rest) == Ok(Parsed(Member(p.name, p.body), rest))
  {
    PieceBytes(p, rest);
    PieceTaken(p, rest, total);
  }

  /** The reader reads any good piece from the front of a text within the limit. */
  ghost predicate ReadsPieces(one: Reader, total: nat) {
    forall p: Piece, rest: string :: GoodPiece(p) && ByteLen(TextOf(p) + rest) <= total ==>
      TextOf(p) + rest != [] && one(TextOf(p) + rest) == Ok(Parsed(Member(p.name, p.body), rest))
  }

  lemma ReaderReadsPieces(total: nat)
    requires total <= MAX_TEXT_BYTES
    ensures ReadsPieces(ReaderOf(total), total)
  {
    forall p: Piece, rest: string | GoodPiece(p) && ByteLen(TextOf(p) + rest) <= total
      ensures TextOf(p) + rest != [] && ReaderOf(total)(TextOf(p) + rest) == Ok(Parsed(Member(p.name, p.body), rest))
    {
      FrontParses(p, rest, total);
    }
  }

  lemma FrontMember(one: Reader, p: Piece, s: string, rest: string, total: nat, count: nat)
    requires Shrinks(one) && ReadsPieces(one, total)
    requires GoodPiece(p) && s == TextOf(p) + rest && ByteLen(s) <= total && count < U32_MAX
    ensures Parse(one, s, count) == Continue([Member(p.name, p.body)], Parse(one, rest, count + 1))
  {
    assert one(TextOf(p) + rest) == Ok(Parsed(Member(p.name, p.body), rest));
    ParseUnfolds(one, s, Parsed(Member(p.name, p.body), rest), rest, count);
  }

  lemma PieceInFront(p: Piece, more: seq<Piece>)
    ensures Joined([p] + more) == TextOf(p) + Joined(more)
    ensures MembersOf([p] + more) == [Member(p.name, p.body)] + MembersOf(more)
    ensures AllGood([p] + more) <==> GoodPiece(p) && AllGood(more)
  {
    var pieces := [p] + more;
    assert pieces[1..] == more;
    if AllGood(pieces) {
      assert forall i :: 0 <= i < |more| ==> more[i] == pieces[i + 1];
    }
  }

  lemma FirstPiece(pieces: seq<Piece>)
    requires pieces != []
    ensures Joined(pieces) == TextOf(pieces[0]) + Joined(pieces[1..])
    ensures MembersOf(pieces) == [Member(pieces[0].name, pieces[0].body)] + MembersOf(pieces[1..])
    ensures AllGood(pieces) <==> GoodPiece(pieces[0]) && AllGood(pieces[1..])
  {
    assert pieces == [pieces[0]] + pieces[1..];
    PieceInFront(pieces[0], pieces[1..]);
  }

  lemma NoPieces(one: Reader, count: nat)
    requires Shrinks(one)
    ensures Parse(one, Joined([]), count) == Ok(MembersOf([]))
  {
  }

  lemma {:induction false} JoinedParses(one: Reader, pieces: seq<Piece>, total: nat, count: nat)
    requires Shrinks(one) && ReadsPieces(one, total)
    requires AllGood(pieces) && count + |pieces| <= U32_MAX && ByteLen(Joined(pieces)) <= total
    ensures Parse(one, Joined(pieces), count) == Ok(MembersOf(pieces))
  {
    if pieces == [] {
      NoPieces(one, count);
    } else {
      FirstPiece(pieces);
      PieceBytes(pieces[0], Joined(pieces[1..]));
      JoinedParses(one, pieces[1..], total, count + 1);
      FrontMember(one, pieces[0], Joined(pieces), Joined(pieces[1..]), total, count);
    }
  }

  // ----- Nothing else is parsed -----

  /** The lines of a header, with the numeral it announces the length by. */
  function HeaderText(name: string, numeral: string): string {
    MEMBER_LABEL + name + ['\n'] + LENGTH_LABEL + numeral + ['\n']
  }

  lemma TwoLines(s: string, name: string, afterName: string, numeral: string, after: string)
    requires s == MEMBER_LABEL + name + ['\n'] + afterName
    requires afterName == LENGTH_LABEL + numeral + ['\n'] + after
    ensures s == HeaderText(name, numeral) + after
  {
  }

  lemma ReadHeader(s: string) returns (numeral: string)
    requires ParseHeader(s).Ok?
    ensures var h := ParseHeader(s).value;
            && SafeName(h.name) && Decimal.Parse(numeral) == Some(h.byteLen)
            && s == HeaderText(h.name, numeral) + h.after
  {
    var first := TakeLine(s, MEMBER_LABEL).value;
    var second := TakeLine(first.after, LENGTH_LABEL).value;
    numeral := second.before;
    TwoLines(s, first.before, first.after, numeral, second.after);
  }

  lemma HeaderAndBody(p: Piece, after: string, k: nat)
    requires k <= |after| && p.body == after[..k]
    ensures HeaderText(p.name, p.numeral) + after == TextOf(p) + after[k..]
  {
    assert after == p.body + after[k..];
  }

  lemma ReadBody(s: string, total: nat)
    requires ParseOne(s, total).Ok?
    ensures ParseHeader(s).Ok?
    ensures var h := ParseHeader(s).value;
            var k := CharsAt(h.after, h.byteLen);
            && k.Some? && ContentError(h.after[..k.value]).None?
            && ParseOne(s, total).value == Parsed(Member(h.name, h.after[..k.value]), h.after[k.value..])
  {
  }

  /** Whatever is read from the front is a good piece. */
  lemma ReadIsPiece(s: string, total: nat) returns (p: Piece)
    requires ParseOne(s, total).Ok?
    ensures IsFront(p, s, ParseOne(s, total).value)
  {
    ReadBody(s, total);
    var h := ParseHeader(s).value;
    var k := CharsAt(h.after, h.byteLen).value;
    var numeral := ReadHeader(s);
    p := Piece(h.name, numeral, h.after[..k]);
    BoundaryExactly(h.after, h.byteLen);
    Decimal.ParseExactly(numeral, h.byteLen);
    HeaderAndBody(p, h.after, k);
  }

  /** The reader takes nothing but good pieces. */
  ghost predicate TakesPieces(one: Reader) {
    forall s: string :: one(s).Ok? ==> exists p :: IsFront(p, s, one(s).value)
  }

  predicate IsFront(p: Piece, s: string, parsed: Parsed) {
    GoodPiece(p) && parsed.member == Member(p.name, p.body) && s == TextOf(p) + parsed.rest
  }

  lemma ReaderTakesPieces(total: nat)
    ensures TakesPieces(ReaderOf(total))
  {
    forall s: string | ReaderOf(total)(s).Ok? ensures exists p :: IsFront(p, s, ReaderOf(total)(s).value) {
      var p := ReadIsPiece(s, total);
      assert IsFront(p, s, ReaderOf(total)(s).value);
    }
  }

  lemma ParseTakes(one: Reader, s: string, parsed: Parsed, count: nat)
    requires Shrinks(one) && s != [] && one(s) == Ok(parsed) && Parse(one, s, count).Ok?
    ensures count + 1 <= U32_MAX && Parse(one, parsed.rest, count + 1).Ok?
    ensures Parse(one, s, count).value == [parsed.member] + Parse(one, parsed.rest, count + 1).value
  {
  }

  predicate Spells(pieces: seq<Piece>, s: string, members: seq<Member>) {
    AllGood(pieces) && Joined(pieces) == s && MembersOf(pieces) == members
  }

  lemma FrontPiece(one: Reader, s: string, count: nat) returns (p: Piece)
    requires Shrinks(one) && TakesPieces(one) && s != [] && Parse(one, s, count).Ok?
    ensures one(s).Ok? && IsFront(p, s, one(s).value)
  {
    p :| IsFront(p, s, one(s).value);
  }

  ghost predicate MadeOf(content: string, members: seq<Member>) {
    exists pieces :: Spells(pieces, content, members)
  }

  lemma MadeOfNothing()
    ensures MadeOf([], [])
  {
    assert Spells([], [], []);
  }

  lemma MadeOfMore(p: Piece, s: string, parsed: Parsed, members: seq<Member>)
    requires IsFront(p, s, parsed) && MadeOf(parsed.rest, members)
    ensures MadeOf(s, [parsed.member] + members)
  {
    var more :| Spells(more, parsed.rest, members);
    PieceInFront(p, more);
    assert Spells([p] + more, s, [parsed.member] + members);
  }

  /** One member read, and what the rest gives. */
  lemma MadeOnward(one: Reader, s: string, count: nat, rest: Result<seq<Member>, SourceError>)
    requires Shrinks(one) && TakesPieces(one) && s != [] && Parse(one, s, count).Ok?
    requires rest == Parse(one, one(s).value.rest, count + 1)
    requires rest.Ok? && count + 1 <= U32_MAX ==> MadeOf(one(s).value.rest, rest.value) && count + 1 + |rest.value| <= U32_MAX
    ensures MadeOf(s, Parse(one, s, count).value)
    ensures count + |Parse(one, s, count).value| <= U32_MAX
  {
    var parsed := one(s).value;
    ParseTakes(one, s, parsed, count);
    var p := FrontPiece(one, s, count);
    MadeOfMore(p, s, parsed, rest.value);
  }

  lemma ParseReads(one: Reader, s: string, count: nat) returns (rest: string)
    requires Shrinks(one) && s != [] && Parse(one, s, count).Ok?
    ensures one(s).Ok? && rest == one(s).value.rest && |rest| < |s|
  {
    rest := one(s).value.rest;
  }

  ghost predicate GoodParse(s: string, count: nat, parsed: Result<seq<Member>, SourceError>) {
    parsed.Ok? ==> MadeOf(s, parsed.value) && count + |parsed.value| <= U32_MAX
  }

  lemma NothingParsed(one: Reader, count: nat)
    requires Shrinks(one) && count <= U32_MAX
    ensures GoodParse([], count, Parse(one, [], count))
  {
    MadeOfNothing();
  }

  lemma {:induction false} ParsedIsMade(one: Reader, s: string, count: nat, parsed: Result<seq<Member>, SourceError>)
    requires Shrinks(one) && TakesPieces(one) && count <= U32_MAX && parsed == Parse(one, s, count)
    ensures GoodParse(s, count, parsed)
    decreases |s|
  {
    if s == [] {
      NothingParsed(one, count);
    } else if parsed.Ok? {
      var rest := ParseReads(one, s, count);
      if count < U32_MAX {
        ParsedIsMade(one, rest, count + 1, Parse(one, rest, count + 1));
      }
      MadeOnward(one, s, count, Parse(one, rest, count + 1));
    }
  }

  /** A text parses exactly when it is one or more good pieces one behind the other, and to their members: safe
      names, lengths that are those of the bodies, bodies within bounds, and nothing in between. */
  lemma ParsesExactly(content: string, members: seq<Member>)
    requires ByteLen(content) <= MAX_TEXT_BYTES
    ensures Members(content) == Ok(members) <==> 1 <= |members| <= U32_MAX && MadeOf(content, members)
  {
    var one := ReaderOf(ByteLen(content));
    if Members(content) == Ok(members) {
      ReaderTakesPieces(ByteLen(content));
      ParsedIsMade(one, content, 0, Parse(one, content, 0));
    }
    if 1 <= |members| <= U32_MAX && MadeOf(content, members) {
      var pieces :| Spells(pieces, content, members);
      ReaderReadsPieces(ByteLen(content));
      JoinedParses(one, pieces, ByteLen(content), 0);
    }
  }

  // ----- The round trip -----

  function PiecesOf(members: seq<Member>): (r: seq<Piece>)
    ensures |r| == |members|
  {
    seq(|members|, i requires 0 <= i < |members| =>
      Piece(members[i].name, Decimal.Print(ByteLen(members[i].body)), members[i].body))
  }

  lemma PrintWrites(n: nat)
    ensures Decimal.Writes(Decimal.Print(n), n)
  {
    Decimal.PrintedValue(n);
    assert Decimal.IsDigit(Decimal.Print(n)[0]);
  }

  lemma {:induction false} FramedIsJoined(members: seq<Member>)
    ensures Joined(PiecesOf(members)) == FrameAll(members)
  {
    if members != [] {
      FramedIsJoined(members[1..]);
      assert PiecesOf(members)[1..] == PiecesOf(members[1..]);
    }
  }

  lemma FramedMadeOf(members: seq<Member>)
    requires AllValid(members)
    ensures MadeOf(FrameAll(members), members)
  {
    var pieces := PiecesOf(members);
    forall i | 0 <= i < |pieces| ensures GoodPiece(pieces[i]) {
      PrintWrites(ByteLen(members[i].body));
    }
    FramedIsJoined(members);
    assert MembersOf(pieces) == members;
    assert Spells(pieces, FrameAll(members), members);
  }

  lemma NothingToParse()
    ensures Members([]) == Err(NoEligibleMembers)
  {
  }

  /** The framed text of valid members gives back exactly the members, in stable order of their
      names, and so counting gives their number. */
  lemma FolderRoundTrip(members: seq<Member>)
    requires AllValid(members) && |members| <= U32_MAX && ByteLen(Frame(members)) <= MAX_TEXT_BYTES
    ensures Members(Frame(members)) == if members == [] then Err(NoEligibleMembers) else Ok(Sort(members))
    ensures |Sort(members)| == |members|
  {
    var sorted := Sort(members);
    assert |multiset(sorted)| == |multiset(members)|;
    if members == [] {
      NothingToParse();
    } else {
      SortKeepsValid(members);
      FramedMadeOf(sorted);
      ParsesExactly(Frame(members), sorted);
    }
  }

  lemma SortKeepsValid(members: seq<Member>)
    requires AllValid(members)
    ensures AllValid(Sort(members))
  {
    forall i | 0 <= i < |Sort(members)| ensures ValidMember(Sort(members)[i]) {
      assert Sort(members)[i] in multiset(members);
    }
  }

  lemma MadeOfValid(content: string, members: seq<Member>)
    requires MadeOf(content, members)
    ensures AllValid(members)
  {
    var pieces :| Spells(pieces, content, members);
    forall i | 0 <= i < |members| ensures ValidMember(members[i]) {
      assert GoodPiece(pieces[i]);
    }
  }

  /** Framing the members a text parses to gives that text back exactly when they stand in it in order of their
      names, with every length printed in the shortest way. */
  lemma ReframedExactly(content: string, members: seq<Member>)
    requires ByteLen(content) <= MAX_TEXT_BYTES && Members(content) == Ok(members)
    ensures Frame(members) == content <==> Sorted(members) && content == FrameAll(members)
  {
    ParsesExactly(content, members);
    MadeOfValid(content, members);
    SortedIsFixed(members);
    if Frame(members) == content {
      FolderRoundTrip(members);
    }
  }

  /** Two valid folders with the same framed text have the same sorted members. */
  lemma FrameInjective(a: seq<Member>, b: seq<Member>)
    requires AllValid(a) && |a| <= U32_MAX && AllValid(b) && |b| <= U32_MAX
    requires ByteLen(Frame(a)) <= MAX_TEXT_BYTES && ByteLen(Frame(b)) <= MAX_TEXT_BYTES
    ensures Frame(a) == Frame(b) <==> Sort(a) == Sort(b)
  {
    if Frame(a) == Frame(b) {
      FolderRoundTrip(a);
      FolderRoundTrip(b);
    }
  }

  /** With distinct names the order in which the members were found does not show. */
  lemma FrameIgnoresOrder(a: seq<Member>, b: seq<Member>)
    requires DistinctNames(a) && multiset(a) == multiset(b)
    ensures Frame(a) == Frame(b)
  {
    OrderIrrelevant(a, b);
  }

  /** With a repeated name it does. */
  lemma RepeatedNamesKeepOrder(x: Member, y: Member)
    requires x.name == y.name && x.body != y.body && ValidMember(x) && ValidMember(y)
    requires ByteLen(Frame([x, y])) <= MAX_TEXT_BYTES && ByteLen(Frame([y, x])) <= MAX_TEXT_BYTES
    ensures multiset([x, y]) == multiset([y, x]) && Frame([x, y]) != Frame([y, x])
  {
    TwoOfAName(x, y);
    TwoOfAName(y, x);
    assert [x, y][0] != [y, x][0];
    FrameInjective([x, y], [y, x]);
  }

  lemma PermutedValid(a: seq<Member>, b: seq<Member>)
    requires AllValid(a) && multiset(b) == multiset(a)
    ensures AllValid(b) && |b| == |a|
  {
    forall i | 0 <= i < |b| ensures ValidMember(b[i]) {
      assert b[i] in multiset(a);
    }
    assert |multiset(a)| == |multiset(b)|;
  }

  /** No other order of the same members gives another text. */
  ghost predicate TextHidesOrder(a: seq<Member>) {
    forall b: seq<Member> :: multiset(b) == multiset(a) ==> Frame(b) == Frame(a)
  }

  lemma SameTextSameSort(a: seq<Member>, b: seq<Member>)
    requires AllValid(a) && |a| <= U32_MAX && ByteLen(Frame(a)) <= MAX_TEXT_BYTES && multiset(b) == multiset(a)
    ensures Frame(b) == Frame(a) <==> Sort(b) == Sort(a)
  {
    PermutedValid(a, b);
    if Frame(b) == Frame(a) {
      FrameInjective(a, b);
    }
  }

  /** Exactly when the order of a valid folder's members does not show in its text: when members of one
      name are equal. */
  lemma OrderHiddenExactly(a: seq<Member>)
    requires AllValid(a) && |a| <= U32_MAX && ByteLen(Frame(a)) <= MAX_TEXT_BYTES
    ensures TextHidesOrder(a) <==> NamesDetermine(a)
  {
    OrderIrrelevantExactly(a);
    if TextHidesOrder(a) {
      forall b: seq<Member> | multiset(b) == multiset(a) ensures Sort(b) == Sort(a) {
        SameTextSameSort(a, b);
      }
      assert OrderHidden(a);
    }
    if OrderHidden(a) {
      forall b: seq<Member> | multiset(b) == multiset(a) ensures Frame(b) == Frame(a) {
        assert Sort(b) == Sort(a);
      }
      assert TextHidesOrder(a);
    }
  }

  lemma TwoOfAName(x: Member, y: Member)
    requires x.name == y.name
    ensures Sort([x, y]) == [x, y]
  {
    assert [x, y][..1] == [x];
    OneMember(x);
    LessEqReflexive(x.name);
    assert [x][1..] == [];
    assert Insert(y, [x]) == [x] + Insert(y, []);
  }

  lemma OneMember(x: Member)
    ensures Sort([x]) == [x]
  {
    assert [x][..0] == [];
  }
}
