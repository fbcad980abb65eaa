/** Immutable source snapshots: the three ways to make one, and making one again from stored fields. */
module Sources {
  import opened Wrappers
  import opened Text
  import opened MemberOrder
  import opened FolderFraming
  import Decimal

  type Id = nat

  const LOCAL_TEXT_FILE: string := "local_text_file"
  const LOCAL_TEXT_FOLDER: string := "local_text_folder"
  const REMOTE_TEXT_URL: string := "remote_text_url"
  const MAX_CANONICAL_URL_UTF8: nat := 2048
  const HTTPS: string := "https://"

  datatype Source = Source(
    id: Id,
    originKind: string,
    displayName: string,
    byteCount: nat,
    contentHash: string,
    content: string,
    memberCount: nat,
    canonicalUrl: Option<string>,
    createdAt: int)

  /** The digest of the content, in lower-case hexadecimal. */
  type Hash = string -> string

  predicate HexDigest(s: string) {
    |s| == 64 && forall i :: 0 <= i < |s| ==> '0' <= s[i] <= '9' || 'a' <= s[i] <= 'f'
  }

  ghost predicate IsHash(hash: Hash) {
    forall content: string :: HexDigest(hash(content))
  }

  // ----- URLs -----

  /** The host ends at the first slash, question mark or number sign. */
  predicate EmptyHost(afterScheme: string) {
    afterScheme == [] || afterScheme[0] == '/' || afterScheme[0] == '?' || afterScheme[0] == '#'
  }

  predicate ControlChar(c: char) {
    var code := c as int;
    code <= 0x1F || code == 0x7F || 0x80 <= code <= 0x9F
  }

  function UrlError(url: string): Option<SourceError> {
    if url == [] || ByteLen(url) > MAX_CANONICAL_URL_UTF8 then Some(InvalidCanonicalUrl)
    else if '\0' in url then Some(ContainsNul)
    else
      match StripPrefix(url, HTTPS)
      case None => Some(InvalidCanonicalUrl)
      case Some(afterScheme) =>
        if EmptyHost(afterScheme) || '@' in afterScheme then Some(InvalidCanonicalUrl)
        else if exists i :: 0 <= i < |url| && ControlChar(url[i]) then Some(InvalidCanonicalUrl)
        else None
  }

  predicate EndsHost(c: char) {
    c == '/' || c == '?' || c == '#'
  }

  /** The scheme, a host that is not empty, and nothing or a path, query or fragment. */
  predicate Https(url: string, host: string, tail: string) {
    && url == HTTPS + host + tail
    && host != [] && (forall i :: 0 <= i < |host| ==> !EndsHost(host[i]))
    && (tail != [] ==> EndsHost(tail[0]))
  }

  predicate PlainUrl(url: string) {
    1 <= ByteLen(url) <= 2048 && '@' !in url && forall i :: 0 <= i < |url| ==> !ControlChar(url[i])
  }

  /** The first position from k on at which the host has ended. */
  function HostEnd(s: string, k: nat): (r: nat)
    requires k <= |s|
    ensures k <= r <= |s| && (forall i :: k <= i < r ==> !EndsHost(s[i])) && (r < |s| ==> EndsHost(s[r]))
    decreases |s| - k
  {
    if k == |s| || EndsHost(s[k]) then k else HostEnd(s, k + 1)
  }

  lemma SchemeIsPlain()
    ensures '@' !in HTTPS && '\0' !in HTTPS && |HTTPS| == 8
  {
  }

  lemma HostSplit(url: string) returns (host: string, tail: string)
    requires HTTPS <= url && !EmptyHost(url[|HTTPS|..])
    ensures Https(url, host, tail)
  {
    var rest := url[|HTTPS|..];
    var n := HostEnd(rest, 0);
    host, tail := rest[..n], rest[n..];
    assert url == HTTPS + rest && rest == host + tail;
  }

  lemma HostOfParts(url: string, host: string, tail: string)
    requires Https(url, host, tail)
    ensures HTTPS <= url && url[|HTTPS|..] == host + tail && !EmptyHost(url[|HTTPS|..])
  {
    assert url == HTTPS + (host + tail);
    assert (host + tail)[0] == host[0];
  }

  lemma NoAtSign(url: string)
    requires HTTPS <= url
    ensures '@' in url <==> '@' in url[|HTTPS|..]
  {
    SchemeIsPlain();
    assert url == HTTPS + url[|HTTPS|..];
  }

  /** A link is accepted exactly when it is `https://`, a host and perhaps a path, query or fragment, has no user
      part and no control character, and is at most 2048 bytes long. */
  lemma UrlExactly(url: string)
    ensures UrlError(url).None? <==> PlainUrl(url) && exists host, tail :: Https(url, host, tail)
  {
    ByteLenPositive(url);
    if HTTPS <= url {
      NoAtSign(url);
      if !EmptyHost(url[|HTTPS|..]) {
        var host, tail := HostSplit(url);
      }
    }
    if host, tail :| Https(url, host, tail) {
      HostOfParts(url, host, tail);
    }
  }

  // ----- Construction -----

  function NewLocalText(id: Id, displayName: string, content: string, hash: Hash, now: int): Result<Source, SourceError> {
    if !SafeName(displayName) then Err(UnsafeDisplayName)
    else
      match ContentError(content)
      case Some(error) => Err(error)
      case None => Ok(Source(id, LOCAL_TEXT_FILE, displayName, ByteLen(content), hash(content), content, 1, None, now))
  }

  function NewRemoteText(id: Id, displayName: string, content: string, url: string, hash: Hash, now: int)
    : Result<Source, SourceError>
  {
    if !SafeName(displayName) then Err(UnsafeDisplayName)
    else
      match ContentError(content)
      case Some(error) => Err(error)
      case None =>
        match UrlError(url)
        case Some(error) => Err(error)
        case None =>
          Ok(Source(id, REMOTE_TEXT_URL, displayName, ByteLen(content), hash(content), content, 1, Some(url), now))
  }

  /** The error of the first member that has one; a bad name comes before bad content. */
  function MembersError(members: seq<Member>): (r: Option<SourceError>)
    ensures r.None? <==> AllValid(members)
  {
    if members == [] then None
    else if !SafeName(members[0].name) then Some(UnsafeDisplayName)
    else if ContentError(members[0].body).Some? then ContentError(members[0].body)
    else
      assert members == [members[0]] + members[1..];
      MembersError(members[1..])
  }

  function NewFolder(id: Id, displayName: string, members: seq<Member>, hash: Hash, now: int): Result<Source, SourceError> {
    if !SafeName(displayName) then Err(UnsafeDisplayName)
    else if members == [] then Err(NoEligibleMembers)
    else if |members| > MAX_FOLDER_MEMBERS then Err(TooManyMembers(|members|))
    else
      match MembersError(members)
      case Some(error) => Err(error)
      case None =>
        var content := Frame(members);
        match ContentError(content)
        case Some(error) => Err(error)
        case None =>
          Ok(Source(id, LOCAL_TEXT_FOLDER, displayName, ByteLen(content), hash(content), content, |members|, None, now))
  }

  // ----- Exactly what can be made a source -----

  predicate Storable(content: string) {
    ByteLen(content) <= 65_536 && '\0' !in content
  }

  lemma StorableExactly(content: string)
    ensures ContentError(content).None? <==> Storable(content)
  {
  }

  /** A file or a link is taken exactly when its name is safe and its text storable, and a link's address besides
      is one; the source holds them unchanged. */
  lemma TextExactly(id: Id, displayName: string, content: string, url: string, hash: Hash, now: int)
    ensures var file := NewLocalText(id, displayName, content, hash, now);
            && (file.Ok? <==> SafeName(displayName) && Storable(content))
            && (file.Ok? ==> file.value == Source(id, LOCAL_TEXT_FILE, displayName, ByteLen(content), hash(content), content, 1,
                                                  None, now))
    ensures var link := NewRemoteText(id, displayName, content, url, hash, now);
            && (link.Ok? <==> SafeName(displayName) && Storable(content) && PlainUrl(url) && exists host, tail :: Https(url, host, tail))
            && (link.Ok? ==> link.value == Source(id, REMOTE_TEXT_URL, displayName, ByteLen(content), hash(content), content, 1,
                                                  Some(url), now))
  {
    StorableExactly(content);
    UrlExactly(url);
  }

  lemma NumeralHasNoNul(n: nat)
    ensures '\0' !in Decimal.Print(n)
  {
  }

  lemma LabelsHaveNoNul()
    ensures '\0' !in MEMBER_LABEL && '\0' !in LENGTH_LABEL
  {
  }

  lemma {:induction false} FrameHasNoNul(members: seq<Member>)
    requires AllValid(members)
    ensures '\0' !in FrameAll(members)
  {
    if members != [] {
      FrameHasNoNul(members[1..]);
      NumeralHasNoNul(ByteLen(members[0].body));
      LabelsHaveNoNul();
      assert UnsafeChar('\0');
    }
  }

  /** A folder is taken exactly when its name is safe, it has 1 to 32 members, all of them valid, and their framed
      text is not too long; the frame of valid members never holds a NUL. */
  lemma FolderExactly(id: Id, displayName: string, members: seq<Member>, hash: Hash, now: int)
    ensures var folder := NewFolder(id, displayName, members, hash, now);
            && (folder.Ok? <==> SafeName(displayName) && 1 <= |members| <= 32 && AllValid(members) && ByteLen(Frame(members)) <= 65_536)
            && (folder.Ok? ==> folder.value == Source(id, LOCAL_TEXT_FOLDER, displayName, ByteLen(Frame(members)),
                                                      hash(Frame(members)), Frame(members), |members|, None, now))
  {
    if AllValid(members) {
      SortKeepsValid(members);
      FrameHasNoNul(Sort(members));
    }
  }

  // ----- Reconstruction -----

  datatype StoredError =
    | InvalidOrigin
    | InvalidDisplayName
    | InvalidContent
    | ContentTooLarge
    | ContentContainsNul
    | ByteCountMismatch
    | InvalidHash
    | HashMismatch
    | MemberCountMismatch
    | InvalidUrl

  /** Checks specific to the origin, giving the member count and the URL to keep. */
  function OriginParts(originKind: string, content: string, memberCount: Option<nat>, url: Option<string>)
    : Result<(nat, Option<string>), StoredError>
  {
    if originKind == LOCAL_TEXT_FILE then
      if memberCount.Some? && memberCount.value != 1 then Err(MemberCountMismatch)
      else if url.Some? then Err(InvalidUrl)
      else Ok((1, None))
    else if originKind == LOCAL_TEXT_FOLDER then
      if memberCount.None? || memberCount.value == 0 then Err(MemberCountMismatch)
      else
        match CountOf(Members(content))
        case Err(_) => Err(InvalidContent)
        case Ok(parsed) =>
          if parsed != memberCount.value then Err(MemberCountMismatch)
          else if url.Some? then Err(InvalidUrl)
          else Ok((parsed, None))
    else if originKind == REMOTE_TEXT_URL then
      if memberCount.Some? && memberCount.value != 1 then Err(MemberCountMismatch)
      else if url.None? || UrlError(url.value).Some? then Err(InvalidUrl)
      else Ok((1, url))
    else Err(InvalidOrigin)
  }

  function FromStoredParts(id: Id, originKind: string, displayName: string, byteCount: nat, contentHash: string,
                           content: string, memberCount: Option<nat>, url: Option<string>, createdAt: int, hash: Hash)
    : Result<Source, StoredError>
  {
    if !SafeName(displayName) then Err(InvalidDisplayName)
    else
      match ContentError(content)
      case Some(TooLarge(_)) => Err(ContentTooLarge)
      case Some(ContainsNul) => Err(ContentContainsNul)
      case Some(_) => Err(InvalidContent)
      case None =>
        if byteCount != ByteLen(content) then Err(ByteCountMismatch)
        else if !HexDigest(contentHash) then Err(InvalidHash)
        else if contentHash != hash(content) then Err(HashMismatch)
        else
          match OriginParts(originKind, content, memberCount, url)
          case Err(error) => Err(error)
          case Ok((count, kept)) =>
            Ok(Source(id, originKind, displayName, byteCount, contentHash, content, count, kept, createdAt))
  }

  /** The fields read back with the given member count. */
  function Restore(s: Source, memberCount: Option<nat>, hash: Hash): Result<Source, StoredError> {
    FromStoredParts(s.id, s.originKind, s.displayName, s.byteCount, s.contentHash, s.content, memberCount,
                    s.canonicalUrl, s.createdAt, hash)
  }

  /** A source rebuilt from its own fields. */
  function Rebuild(s: Source, hash: Hash): Result<Source, StoredError> {
    Restore(s, Some(s.memberCount), hash)
  }

  // ----- What a source is -----

  /** A folder's content is text that parses as that many members. */
  predicate FolderContent(content: string, count: nat) {
    Members(content).Ok? && |Members(content).value| == count
  }

  predicate OriginCanonical(originKind: string, content: string, count: nat, url: Option<string>) {
    || (originKind == LOCAL_TEXT_FILE && count == 1 && url.None?)
    || (originKind == LOCAL_TEXT_FOLDER && FolderContent(content, count) && url.None?)
    || (originKind == REMOTE_TEXT_URL && count == 1 && url.Some? && UrlError(url.value).None?)
  }

  predicate Canonical(s: Source, hash: Hash) {
    && SafeName(s.displayName)
    && ContentError(s.content).None?
    && s.byteCount == ByteLen(s.content)
    && s.contentHash == hash(s.content)
    && OriginCanonical(s.originKind, s.content, s.memberCount, s.canonicalUrl)
  }

  lemma OriginsDiffer()
    ensures LOCAL_TEXT_FILE != LOCAL_TEXT_FOLDER && LOCAL_TEXT_FILE != REMOTE_TEXT_URL && LOCAL_TEXT_FOLDER != REMOTE_TEXT_URL
  {
    assert LOCAL_TEXT_FILE[0] == 'l' && REMOTE_TEXT_URL[0] == 'r' && LOCAL_TEXT_FOLDER[0] == 'l';
    assert |LOCAL_TEXT_FILE| == 15 && |LOCAL_TEXT_FOLDER| == 17;
  }

  lemma NoEmptyFolder(content: string)
    ensures CountOf(Members(content)).Ok? ==> CountOf(Members(content)).value > 0
  {
  }

  lemma OriginSound(originKind: string, content: string, memberCount: Option<nat>, url: Option<string>)
    ensures var r := OriginParts(originKind, content, memberCount, url);
            r.Ok? ==> OriginCanonical(originKind, content, r.value.0, r.value.1)
                      && (memberCount.Some? ==> r.value.0 == memberCount.value) && r.value.1 == url
  {
    OriginsDiffer();
  }

  lemma OriginComplete(originKind: string, content: string, count: nat, url: Option<string>)
    requires OriginCanonical(originKind, content, count, url)
    ensures OriginParts(originKind, content, Some(count), url) == Ok((count, url))
  {
    OriginsDiffer();
    NoEmptyFolder(content);
  }

  /** Rebuilding accepts exactly the canonical sources, and changes nothing about them. */
  lemma RebuildExactly(s: Source, hash: Hash)
    requires IsHash(hash)
    ensures Canonical(s, hash) ==> Rebuild(s, hash) == Ok(s)
    ensures !Canonical(s, hash) ==> Rebuild(s, hash).Err?
  {
    assert HexDigest(hash(s.content));
    OriginSound(s.originKind, s.content, Some(s.memberCount), s.canonicalUrl);
    if Canonical(s, hash) {
      OriginComplete(s.originKind, s.content, s.memberCount, s.canonicalUrl);
    }
  }

  lemma RestoredShape(s: Source, memberCount: Option<nat>, hash: Hash)
    ensures var r := Restore(s, memberCount, hash);
            r.Ok? ==>
              var parts := OriginParts(s.originKind, s.content, memberCount, s.canonicalUrl);
              && SafeName(s.displayName) && ContentError(s.content).None?
              && s.byteCount == ByteLen(s.content) && s.contentHash == hash(s.content)
              && parts.Ok? && r.value == s.(memberCount := parts.value.0, canonicalUrl := parts.value.1)
  {
  }

  /** Whatever stored fields are accepted, the source they give is canonical and keeps them. */
  lemma StoredPartsCanonical(s: Source, memberCount: Option<nat>, hash: Hash)
    ensures var r := Restore(s, memberCount, hash);
            r.Ok? ==> Canonical(r.value, hash) && r.value == s.(memberCount := r.value.memberCount)
                      && (memberCount.Some? ==> r.value.memberCount == memberCount.value)
  {
    RestoredShape(s, memberCount, hash);
    OriginSound(s.originKind, s.content, memberCount, s.canonicalUrl);
  }

  lemma OriginExactly(originKind: string, content: string, memberCount: Option<nat>, url: Option<string>)
    ensures var r, count := OriginParts(originKind, content, memberCount, url), if memberCount.Some? then memberCount.value else 1;
            && (OriginCanonical(originKind, content, count, url) && (memberCount.None? ==> originKind != LOCAL_TEXT_FOLDER) ==>
                  r == Ok((count, url)))
            && (r.Ok? && memberCount.None? ==> originKind != LOCAL_TEXT_FOLDER && r.value.0 == 1)
  {
    OriginsDiffer();
    NoEmptyFolder(content);
  }

  /** Stored fields are accepted exactly when they are those of a canonical source; a missing member count stands for
      one member, and no folder may lack it. */
  lemma StoredPartsExactly(s: Source, memberCount: Option<nat>, hash: Hash)
    requires IsHash(hash)
    ensures var r, whole := Restore(s, memberCount, hash), s.(memberCount := if memberCount.Some? then memberCount.value else 1);
            && (r.Ok? <==> Canonical(whole, hash) && (memberCount.None? ==> s.originKind != LOCAL_TEXT_FOLDER))
            && (r.Ok? ==> r.value == whole)
  {
    assert HexDigest(hash(s.content));
    OriginExactly(s.originKind, s.content, memberCount, s.canonicalUrl);
    StoredPartsCanonical(s, memberCount, hash);
  }

  predicate Told(s: Source, memberCount: Option<nat>, hash: Hash, error: StoredError) {
    var local := s.originKind == LOCAL_TEXT_FILE || s.originKind == LOCAL_TEXT_FOLDER;
    match error
    case InvalidDisplayName => !SafeName(s.displayName)
    case ContentTooLarge => ByteLen(s.content) > 65_536
    case ContentContainsNul => '\0' in s.content
    case ByteCountMismatch => s.byteCount != ByteLen(s.content)
    case InvalidHash => !HexDigest(s.contentHash)
    case HashMismatch => s.contentHash != hash(s.content)
    case InvalidOrigin => !local && s.originKind != REMOTE_TEXT_URL
    case InvalidContent => s.originKind == LOCAL_TEXT_FOLDER && Members(s.content).Err?
    case MemberCountMismatch =>
      if s.originKind == LOCAL_TEXT_FOLDER then memberCount.None? || !FolderContent(s.content, memberCount.value)
      else memberCount.Some? && memberCount.value != 1
    case InvalidUrl => if local then s.canonicalUrl.Some? else s.canonicalUrl.None? || UrlError(s.canonicalUrl.value).Some?
  }

  /** The reason stored fields are refused for is a fact about them. */
  lemma RefusalIsTold(s: Source, memberCount: Option<nat>, hash: Hash)
    requires Restore(s, memberCount, hash).Err?
    ensures Told(s, memberCount, hash, Restore(s, memberCount, hash).error)
  {
    OriginsDiffer();
    NoEmptyFolder(s.content);
  }

  lemma NewFolderShape(id: Id, displayName: string, members: seq<Member>, hash: Hash, now: int)
    ensures var r := NewFolder(id, displayName, members, hash, now);
            r.Ok? ==>
              && SafeName(displayName) && AllValid(members) && members != [] && |members| <= MAX_FOLDER_MEMBERS
              && ContentError(Frame(members)).None?
              && r.value == Source(id, LOCAL_TEXT_FOLDER, displayName, ByteLen(Frame(members)), hash(Frame(members)),
                                   Frame(members), |members|, None, now)
  {
  }

  lemma FolderIsCanonical(id: Id, displayName: string, members: seq<Member>, hash: Hash, now: int)
    ensures var r := NewFolder(id, displayName, members, hash, now); r.Ok? ==> Canonical(r.value, hash)
  {
    NewFolderShape(id, displayName, members, hash, now);
    if NewFolder(id, displayName, members, hash, now).Ok? {
      FolderRoundTrip(members);
    }
  }

  /** Every source built from a file, a link or a folder is rebuilt identically from its own fields. */
  lemma FileRoundTrip(id: Id, displayName: string, content: string, hash: Hash, now: int)
    requires IsHash(hash)
    ensures var r := NewLocalText(id, displayName, content, hash, now); r.Ok? ==> Rebuild(r.value, hash) == Ok(r.value)
  {
    if NewLocalText(id, displayName, content, hash, now).Ok? {
      RebuildExactly(NewLocalText(id, displayName, content, hash, now).value, hash);
    }
  }

  lemma LinkRoundTrip(id: Id, displayName: string, content: string, url: string, hash: Hash, now: int)
    requires IsHash(hash)
    ensures var r := NewRemoteText(id, displayName, content, url, hash, now); r.Ok? ==> Rebuild(r.value, hash) == Ok(r.value)
  {
    if NewRemoteText(id, displayName, content, url, hash, now).Ok? {
      RebuildExactly(NewRemoteText(id, displayName, content, url, hash, now).value, hash);
    }
  }

  lemma FolderRebuilt(id: Id, displayName: string, members: seq<Member>, hash: Hash, now: int)
    requires IsHash(hash)
    ensures var r := NewFolder(id, displayName, members, hash, now); r.Ok? ==> Rebuild(r.value, hash) == Ok(r.value)
  {
    FolderIsCanonical(id, displayName, members, hash, now);
    if NewFolder(id, displayName, members, hash, now).Ok? {
      RebuildExactly(NewFolder(id, displayName, members, hash, now).value, hash);
    }
  }

  /** The stored text of a folder determines its members, up to their order within one name. */
  lemma FolderMembersKept(id: Id, displayName: string, members: seq<Member>, hash: Hash, now: int)
    ensures var r := NewFolder(id, displayName, members, hash, now);
            r.Ok? ==> Members(r.value.content) == Ok(Sort(members)) && r.value.memberCount == |members|
  {
    NewFolderShape(id, displayName, members, hash, now);
    if NewFolder(id, displayName, members, hash, now).Ok? {
      FolderRoundTrip(members);
    }
  }
}
