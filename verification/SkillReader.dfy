/** Bounded reads of skill files (internal/aiskills/aiskills.go). */
module SkillReader {
  import opened Options
  import opened Seqs
  import opened Utf8

  const MAX_READ_CONTENT_BYTES := 12288
  const DEFAULT_MAX_SERIALIZED_BYTES := 30720
  const SKILL_ROOT_FILE := "SKILL.md"
  const MAX_SKILL_FILE_BYTES := 262144
  const MAX_SKILL_ROOT_BYTES := 65536

  /** One chunk and the offset of the next one, if there is more. */
  datatype Chunk = Chunk(content: Bytes, next: Option<nat>)

  datatype ReadError =
    | NotConfigured
    | Unavailable
    | UnknownSkill
    | BadPath
    | UnknownFile
    | BadOffset
    | Unreadable
    | FileTooLarge
    | InvalidUtf8
    | Changed
    | BeyondEnd
    | NotABoundary
    | TooLarge

  datatype ReadResult = Read(chunk: Chunk) | Failed(error: ReadError)

  /** The file: its bytes, its content hash, and the serialized size of a result at an offset. */
  datatype File = File(data: Bytes, revision: string, size: (nat, Chunk) -> nat)

  datatype Disk = NoFile | OnDisk(file: File)

  datatype Skill = Skill(id: string, files: seq<string>)

  /** The scanned skills, which paths are well formed, and what the disk holds at this read. */
  datatype Catalog =
    | NoCatalog
    | BrokenCatalog
    | Loaded(skills: seq<Skill>, validPath: string -> bool, disk: (string, string) -> Disk)

  function NextOffset(end: nat, total: nat): Option<nat> {
    if end >= total then None else Some(end)
  }

  function ChunkTo(f: File, offset: nat, n: nat): Chunk
    requires offset + n <= |f.data|
  {
    Chunk(f.data[offset..offset + n], NextOffset(offset + n, |f.data|))
  }

  /** The simple form of fitSerialized: keep n bytes, or half as many whole characters, and so on
      down to one character. */
  function FitLength(f: File, offset: nat, n: nat, maxSerialized: int): (r: Option<nat>)
    requires offset + n <= |f.data|
    ensures r.Some? ==> r.value <= n
    decreases n
  {
    if f.size(offset, ChunkTo(f, offset, n)) <= maxSerialized then Some(n)
    else if n == 0 then None
    else
      var half := CutAt(f.data[offset..offset + n], n / 2);
      if half >= n then None else FitLength(f, offset, half, maxSerialized)
  }

  function Limit(given: int, otherwise: nat): (limit: nat)
    ensures limit > 0 || otherwise == 0
  {
    if given <= 0 then otherwise else given
  }

  function FirstLength(f: File, offset: nat, maxContent: int): (n: nat)
    requires offset <= |f.data|
    ensures offset + n <= |f.data|
  {
    CutAt(f.data[offset..], Limit(maxContent, MAX_READ_CONTENT_BYTES))
  }

  /** What a read of a file's bytes returns. */
  function ReadOf(f: File, offset: nat, revision: string, maxContent: int, maxSerialized: int): ReadResult {
    if !ValidUtf8(f.data) then Failed(InvalidUtf8)
    else if revision != "" && revision != f.revision then Failed(Changed)
    else if offset > |f.data| then Failed(BeyondEnd)
    else if !Boundary(f.data, offset) then Failed(NotABoundary)
    else
      match FitLength(f, offset, FirstLength(f, offset, maxContent), Limit(maxSerialized, DEFAULT_MAX_SERIALIZED_BYTES))
      case None => Failed(TooLarge)
      case Some(n) => Read(ChunkTo(f, offset, n))
  }

  // ---------------------------------------------------------------- finding the file

  function RequestedPath(relPath: string): string {
    if relPath == "" then SKILL_ROOT_FILE else relPath
  }

  function SizeLimit(path: string): nat {
    if path == SKILL_ROOT_FILE then MAX_SKILL_ROOT_BYTES else MAX_SKILL_FILE_BYTES
  }

  datatype Located = Found(file: File) | Missing(error: ReadError)

  function FirstSkill(skills: seq<Skill>, id: string): Option<Skill> {
    if skills == [] then None
    else if skills[0].id == id then Some(skills[0])
    else FirstSkill(skills[1..], id)
  }

  /** The file a read is served from, or the first reason there is none. */
  function Locate(c: Catalog, id: string, relPath: string, offset: int): (r: Located)
    ensures r.Found? ==> offset >= 0
  {
    match c
    case NoCatalog => Missing(NotConfigured)
    case BrokenCatalog => Missing(Unavailable)
    case Loaded(skills, validPath, disk) =>
      var path := RequestedPath(relPath);
      match FirstSkill(skills, id)
      case None => Missing(UnknownSkill)
      case Some(skill) =>
        if !validPath(path) then Missing(BadPath)
        else if path !in skill.files then Missing(UnknownFile)
        else if offset < 0 then Missing(BadOffset)
        else
          match disk(id, path)
          case NoFile => Missing(Unreadable)
          case OnDisk(file) => if |file.data| > SizeLimit(path) then Missing(FileTooLarge) else Found(file)
  }

  /** What a read of the catalog returns. */
  function CatalogRead(c: Catalog, id: string, relPath: string, offset: int, revision: string,
                       maxContent: int, maxSerialized: int): ReadResult
  {
    match Locate(c, id, relPath, offset)
    case Missing(error) => Failed(error)
    case Found(file) => ReadOf(file, offset, revision, maxContent, maxSerialized)
  }

  lemma {:induction false} FirstSkillHasId(skills: seq<Skill>, id: string)
    ensures FirstSkill(skills, id).Some? <==> exists i :: 0 <= i < |skills| && skills[i].id == id
    ensures FirstSkill(skills, id).Some? ==>
      FirstSkill(skills, id).value in skills && FirstSkill(skills, id).value.id == id
  {
    if skills != [] && skills[0].id != id {
      FirstSkillHasId(skills[1..], id);
      assert forall i :: 0 < i < |skills| ==> skills[i] == skills[1..][i - 1];
    }
  }

  /** Only well-formed paths that a scanned skill lists are ever served, from a file within its
      size limit; nothing on disk can widen that. */
  lemma OnlyListedFiles(c: Catalog, id: string, relPath: string, offset: int, revision: string,
                        maxContent: int, maxSerialized: int)
    requires CatalogRead(c, id, relPath, offset, revision, maxContent, maxSerialized).Read?
    ensures var path := if relPath == "" then "SKILL.md" else relPath;
      && c.Loaded? && c.validPath(path)
      && (exists i :: 0 <= i < |c.skills| && c.skills[i].id == id && path in c.skills[i].files)
      && c.disk(id, path).OnDisk?
      && |c.disk(id, path).file.data| <= (if path == "SKILL.md" then 65_536 else 262_144)
      && CatalogRead(c, id, relPath, offset, revision, maxContent, maxSerialized)
           == ReadOf(c.disk(id, path).file, offset, revision, maxContent, maxSerialized)
  {
    hide ReadOf;
    FirstSkillHasId(c.skills, id);
  }

  lemma {:induction false} FirstSkillIs(skills: seq<Skill>, id: string, i: nat)
    requires i < |skills| && skills[i].id == id && forall k :: 0 <= k < i ==> skills[k].id != id
    ensures FirstSkill(skills, id) == Some(skills[i])
  {
    if i > 0 {
      FirstSkillIs(skills[1..], id, i - 1);
    }
  }

  /** Why a read of the first skill with this id fails: the first of these reasons that applies. A
      read that none of them stops succeeds, or is too large. */
  lemma ReadFailsBecause(c: Catalog, i: nat, relPath: string, offset: int, revision: string,
                         maxContent: int, maxSerialized: int)
    requires c.Loaded? && i < |c.skills| && forall k :: 0 <= k < i ==> c.skills[k].id != c.skills[i].id
    ensures var path := if relPath == "" then "SKILL.md" else relPath;
      var r := CatalogRead(c, c.skills[i].id, relPath, offset, revision, maxContent, maxSerialized);
      if !c.validPath(path) then r == Failed(BadPath)
      else if path !in c.skills[i].files then r == Failed(UnknownFile)
      else if offset < 0 then r == Failed(BadOffset)
      else
        match c.disk(c.skills[i].id, path)
        case NoFile => r == Failed(Unreadable)
        case OnDisk(f) =>
          if |f.data| > (if path == "SKILL.md" then 65_536 else 262_144) then r == Failed(FileTooLarge)
          else if !ValidUtf8(f.data) then r == Failed(InvalidUtf8)
          else if revision != "" && revision != f.revision then r == Failed(Changed)
          else if offset > |f.data| then r == Failed(BeyondEnd)
          else if offset < |f.data| && 0x80 <= f.data[offset] < 0xC0 then r == Failed(NotABoundary)
          else r.Read? || r == Failed(TooLarge)
  {
    FirstSkillIs(c.skills, c.skills[i].id, i);
    hide ValidUtf8, FitLength, FirstLength;
  }

  /** And without such a skill, or without a catalog. */
  lemma ReadFindsNoSkill(c: Catalog, id: string, relPath: string, offset: int, revision: string,
                         maxContent: int, maxSerialized: int)
    requires c.Loaded? ==> forall k :: 0 <= k < |c.skills| ==> c.skills[k].id != id
    ensures CatalogRead(c, id, relPath, offset, revision, maxContent, maxSerialized) ==
      match c
      case NoCatalog => Failed(NotConfigured)
      case BrokenCatalog => Failed(Unavailable)
      case Loaded(_, _, _) => Failed(UnknownSkill)
  {
    if c.Loaded? {
      FirstSkillHasId(c.skills, id);
    }
  }

  // ---------------------------------------------------------------- the loops

  method ChunkUtf8(data: Bytes, offset: nat, max: nat) returns (content: Bytes)
    requires offset <= |data|
    ensures |content| == CutAt(data[offset..], max) && content == data[offset..offset + |content|]
  {
    var end := if offset + max > |data| then |data| else offset + max;
    while end < |data| && end > offset && !RuneStart(data[end])
      invariant offset <= end <= |data| && end <= offset + max
      invariant offset + max < |data| ==>
        BoundaryBefore(data[offset..], max) == BoundaryBefore(data[offset..], end - offset)
      invariant offset + max >= |data| ==> end == |data|
      decreases end
    {
      assert data[offset..][end - offset] == data[end];
      end := end - 1;
    }
    if end > offset && end < |data| {
      assert data[offset..][end - offset] == data[end];
    }
    if end == offset && offset < |data| {
      end := offset + DecodeSize(data[offset..]);
    }
    content := data[offset..end];
  }

  method FitSerialized(f: File, offset: nat, first: Bytes, maxSerialized: int) returns (r: ReadResult)
    requires offset + |first| <= |f.data| && first == f.data[offset..offset + |first|]
    ensures r == match FitLength(f, offset, |first|, maxSerialized)
                 case None => Failed(TooLarge)
                 case Some(n) => Read(ChunkTo(f, offset, n))
  {
    hide ValidUtf8, BoundaryBefore, RuneLen, DecodeSize, CutAt;
    var content := first;
    while true
      invariant |content| <= |first| && content == f.data[offset..offset + |content|]
      invariant FitLength(f, offset, |first|, maxSerialized) == FitLength(f, offset, |content|, maxSerialized)
      decreases |content|
    {
      var chunk := Chunk(content, NextOffset(offset + |content|, |f.data|));
      if f.size(offset, chunk) <= maxSerialized {
        return Read(chunk);
      }
      if content == [] {
        return Failed(TooLarge);
      }
      var half := BackToRuneStart(content, |content| / 2);
      if half == 0 {
        half := DecodeSize(content);
      }
      HalfIsCut(content, half);
      if half >= |content| {
        return Failed(TooLarge);
      }
      PrefixOfSlice(f.data, offset, |content|, half);
      content := content[..half];
    }
  }

  lemma HalfIsCut(content: Bytes, half: nat)
    requires content != []
    requires var back := BoundaryBefore(content, |content| / 2); half == if back == 0 then DecodeSize(content) else back
    ensures half == CutAt(content, |content| / 2)
  {
  }

  lemma PrefixOfSlice(data: Bytes, offset: nat, n: nat, half: nat)
    requires half <= n && offset + n <= |data|
    ensures data[offset..offset + n][..half] == data[offset..offset + half]
  {
  }

  method ReadContent(f: File, offset: nat, revision: string, maxContent: nat, maxSerialized: nat)
    returns (r: ReadResult)
    requires maxContent > 0 && maxSerialized > 0
    ensures r == ReadOf(f, offset, revision, maxContent, maxSerialized)
  {
    hide ValidUtf8, CutAt, FitLength;
    if !ValidUtf8(f.data) { return Failed(InvalidUtf8); }
    if revision != "" && revision != f.revision { return Failed(Changed); }
    if offset > |f.data| { return Failed(BeyondEnd); }
    if offset < |f.data| && !RuneStart(f.data[offset]) { return Failed(NotABoundary); }
    var content := ChunkUtf8(f.data, offset, maxContent);
    r := FitSerialized(f, offset, content, maxSerialized);
  }

  method Find(skills: seq<Skill>, id: string) returns (r: Option<Skill>)
    ensures r == FirstSkill(skills, id)
  {
    for i := 0 to |skills|
      invariant FirstSkill(skills, id) == FirstSkill(skills[i..], id)
    {
      DropCons(skills, i);
      if skills[i].id == id { return Some(skills[i]); }
    }
    return None;
  }

  method ReadFile(c: Catalog, id: string, path: string) returns (r: Located)
    requires c.Loaded?
    ensures r == match c.disk(id, path)
                 case NoFile => Missing(Unreadable)
                 case OnDisk(file) => if |file.data| > SizeLimit(path) then Missing(FileTooLarge) else Found(file)
  {
    var disk := c.disk(id, path);
    if disk.NoFile? { return Missing(Unreadable); }
    var limit := MAX_SKILL_FILE_BYTES;
    if path == SKILL_ROOT_FILE {
      limit := MAX_SKILL_ROOT_BYTES;
    }
    if |disk.file.data| > limit { return Missing(FileTooLarge); }
    return Found(disk.file);
  }

  method ReadSkill(c: Catalog, id: string, relPath: string, offset: int, revision: string, maxContent: int,
                   maxSerialized: int)
    returns (r: ReadResult)
    ensures r == CatalogRead(c, id, relPath, offset, revision, maxContent, maxSerialized)
  {
    hide FirstSkill, ValidUtf8, FitLength, FirstLength;
    if c.NoCatalog? { return Failed(NotConfigured); }
    if c.BrokenCatalog? { return Failed(Unavailable); }
    var skill := Find(c.skills, id);
    if skill.None? { return Failed(UnknownSkill); }
    var path := relPath;
    if path == "" {
      path := SKILL_ROOT_FILE;
    }
    if !c.validPath(path) { return Failed(BadPath); }
    var known := false;
    for i := 0 to |skill.value.files|
      invariant !known && path !in skill.value.files[..i]
    {
      if skill.value.files[i] == path {
        known := true;
        break;
      }
    }
    TakeAll(skill.value.files);
    if !known { return Failed(UnknownFile); }
    if offset < 0 { return Failed(BadOffset); }
    var maxBytes := if maxContent <= 0 then MAX_READ_CONTENT_BYTES else maxContent;
    var maxResult := if maxSerialized <= 0 then DEFAULT_MAX_SERIALIZED_BYTES else maxSerialized;
    var located := ReadFile(c, id, path);
    if located.Missing? { return Failed(located.error); }
    LimitsApply(located.file, offset, revision, maxContent, maxSerialized, maxBytes, maxResult);
    r := ReadContent(located.file, offset, revision, maxBytes, maxResult);
  }

  lemma LimitsApply(f: File, offset: nat, revision: string, maxContent: int, maxSerialized: int, maxBytes: nat,
                    maxResult: nat)
    requires maxBytes == Limit(maxContent, MAX_READ_CONTENT_BYTES)
      && maxResult == Limit(maxSerialized, DEFAULT_MAX_SERIALIZED_BYTES)
    ensures ReadOf(f, offset, revision, maxBytes, maxResult) == ReadOf(f, offset, revision, maxContent, maxSerialized)
  {
    hide ValidUtf8, FitLength, CutAt;
  }

  lemma RestIsValid(data: Bytes, offset: nat)
    requires offset <= |data| && ValidUtf8(data) && Boundary(data, offset)
    ensures ValidUtf8(data[offset..]) && (offset < |data| ==> RuneLen(data[offset..]) > 0)
  {
    CutIsValid(data, offset);
  }

  lemma ContentIsValid(data: Bytes, offset: nat, n: nat, max: nat)
    requires offset <= |data| && ValidUtf8(data[offset..]) && n == CutAt(data[offset..], max)
    ensures offset + n <= |data| && ValidUtf8(data[offset..offset + n]) && Boundary(data, offset + n)
  {
    hide ValidUtf8, RuneLen, BoundaryBefore, CutAt;
    var rest := data[offset..];
    CutAtIsBoundary(rest, max);
    CutIsValid(rest, n);
    assert rest[..n] == data[offset..offset + n];
    assert n < |rest| ==> rest[n] == data[offset + n];
  }

  // ---------------------------------------------------------------- what a read guarantees

  /** Halving keeps whole characters, makes progress, and ends within the size limit. */
  lemma {:induction false} FitIsExact(f: File, offset: nat, n: nat, maxSerialized: int)
    requires offset + n <= |f.data| && ValidUtf8(f.data[offset..offset + n]) && Boundary(f.data, offset + n)
    ensures var r := FitLength(f, offset, n, maxSerialized);
      r.Some? ==>
        && ValidUtf8(f.data[offset..offset + r.value]) && Boundary(f.data, offset + r.value)
        && (n > 0 ==> r.value > 0)
        && f.size(offset, ChunkTo(f, offset, r.value)) <= maxSerialized
    decreases n
  {
    hide ValidUtf8, RuneLen, BoundaryBefore, CutAt;
    if f.size(offset, ChunkTo(f, offset, n)) > maxSerialized && n > 0 {
      var content := f.data[offset..offset + n];
      var half := CutAt(content, n / 2);
      if half < n {
        CutAtIsBoundary(content, n / 2);
        CutIsValid(content, half);
        PrefixOfSlice(f.data, offset, n, half);
        assert content[half] == f.data[offset + half];
        FitIsExact(f, offset, half, maxSerialized);
      }
    }
  }

  /** Nothing is given up needlessly: what is asked is returned whole when it fits, and otherwise the
      length returned is the whole-character half of one that was still too large. */
  lemma {:induction false} FitHalves(f: File, offset: nat, n: nat, maxSerialized: int) returns (tooLarge: nat)
    requires offset + n <= |f.data|
    ensures var r := FitLength(f, offset, n, maxSerialized);
      && (f.size(offset, ChunkTo(f, offset, n)) <= maxSerialized <==> r == Some(n))
      && (r.Some? && r.value < n ==>
            && r.value < tooLarge <= n && r.value == CutAt(f.data[offset..offset + tooLarge], tooLarge / 2)
            && f.size(offset, ChunkTo(f, offset, tooLarge)) > maxSerialized)
    decreases n
  {
    hide CutAt;
    tooLarge := n;
    if f.size(offset, ChunkTo(f, offset, n)) > maxSerialized && n > 0 {
      var half := CutAt(f.data[offset..offset + n], n / 2);
      if half < n {
        var inner := FitHalves(f, offset, half, maxSerialized);
        if FitLength(f, offset, half, maxSerialized) != Some(half) {
          tooLarge := inner;
        }
      }
    }
  }

  /** The read of a single character is always tried last, so when it fits the read succeeds. */
  lemma {:induction false} OneCharacterSuffices(f: File, offset: nat, n: nat, maxSerialized: int)
    requires offset + n <= |f.data| && n > 0 && ValidUtf8(f.data[offset..offset + n])
    requires f.size(offset, ChunkTo(f, offset, RuneLen(f.data[offset..offset + n]))) <= maxSerialized
    ensures FitLength(f, offset, n, maxSerialized).Some?
    decreases n
  {
    hide ValidUtf8, RuneLen, BoundaryBefore, CutAt;
    if f.size(offset, ChunkTo(f, offset, n)) > maxSerialized {
      var content := f.data[offset..offset + n];
      var half := CutAt(content, n / 2);
      HalvesDown(content);
      if half < n {
        CutIsValid(content, half);
        PrefixOfSlice(f.data, offset, n, half);
        RuneLenPrefix(content, half);
        OneCharacterSuffices(f, offset, half, maxSerialized);
      }
    }
  }

  /** Half of a text is shorter unless the text is one character. */
  lemma HalvesDown(content: Bytes)
    requires ValidUtf8(content) && content != []
    ensures var half := CutAt(content, |content| / 2);
      && 0 < half <= |content| && Boundary(content, half) && RuneLen(content) <= half
      && (half == |content| ==> RuneLen(content) == |content|)
      && RuneLen(content) > 0
  {
    RuneEnds(content);
    CutAtIsBoundary(content, |content| / 2);
    FirstBoundary(content, CutAt(content, |content| / 2));
  }

  /** A successful read starts where asked, is whole characters, fits, moves on, and says exactly
      where the next read starts. */
  lemma ReadAdvances(f: File, offset: nat, revision: string, maxContent: int, maxSerialized: int)
    requires ReadOf(f, offset, revision, maxContent, maxSerialized).Read?
    ensures offset <= |f.data| && ValidUtf8(f.data) && Boundary(f.data, offset)
    ensures var chunk := ReadOf(f, offset, revision, maxContent, maxSerialized).chunk;
      var n := |chunk.content|;
      && offset + n <= |f.data| && chunk == ChunkTo(f, offset, n)
      && ValidUtf8(chunk.content) && Boundary(f.data, offset + n)
      && (offset < |f.data| ==> n > 0)
      && f.size(offset, chunk) <= Limit(maxSerialized, DEFAULT_MAX_SERIALIZED_BYTES)
  {
    hide ValidUtf8, RuneLen, BoundaryBefore, CutAt, FitLength;
    RestIsValid(f.data, offset);
    var n := FirstLength(f, offset, maxContent);
    ContentIsValid(f.data, offset, n, Limit(maxContent, MAX_READ_CONTENT_BYTES));
    CutAtIsBoundary(f.data[offset..], Limit(maxContent, MAX_READ_CONTENT_BYTES));
    FitIsExact(f, offset, n, Limit(maxSerialized, DEFAULT_MAX_SERIALIZED_BYTES));
  }

  // ---------------------------------------------------------------- following next_offset

  /** One read of a chain: the file as it is by then, and what was asked of it. */
  datatype Ask = Ask(file: File, revision: string, maxContent: int, maxSerialized: int)

  function Answer(offset: nat, ask: Ask): ReadResult {
    ReadOf(ask.file, offset, ask.revision, ask.maxContent, ask.maxSerialized)
  }

  /** Successful reads, each from the previous one's next offset; there may be more to come. */
  predicate Chain(offset: nat, asks: seq<Ask>, chunks: seq<Chunk>)
    decreases |chunks|
  {
    && |asks| == |chunks|
    && (chunks != [] ==>
          && Answer(offset, asks[0]) == Read(chunks[0])
          && (|chunks| > 1 ==> chunks[0].next.Some? && Chain(chunks[0].next.value, asks[1..], chunks[1..])))
  }

  function Joined(chunks: seq<Chunk>): Bytes {
    if chunks == [] then [] else chunks[0].content + Joined(chunks[1..])
  }

  predicate AllOf(asks: seq<Ask>, data: Bytes) {
    forall i :: 0 <= i < |asks| ==> asks[i].file.data == data
  }

  /** Whatever limits each read uses, the chunks read so far join to the file from where the chain
      began, each is non-empty whole characters, and the last one names where the rest begins. */
  lemma {:induction false} ChainReadsAPrefix(data: Bytes, offset: nat, asks: seq<Ask>, chunks: seq<Chunk>)
    requires Chain(offset, asks, chunks) && AllOf(asks, data) && chunks != []
    ensures offset <= |data| && ValidUtf8(data)
    ensures var n := |Joined(chunks)|;
      && offset + n <= |data| && Joined(chunks) == data[offset..offset + n]
      && chunks[|chunks| - 1].next == NextOffset(offset + n, |data|)
      && |chunks| <= if offset < |data| then n else 1
    ensures forall i :: 0 <= i < |chunks| ==>
      ValidUtf8(chunks[i].content) && (offset < |data| ==> chunks[i].content != [])
    decreases |chunks|
  {
    hide ReadOf, Answer, ValidUtf8, Boundary, Limit, NextOffset, ChunkTo;
    FirstOfChain(data, offset, asks, chunks);
    var n := |chunks[0].content|;
    if |chunks| == 1 {
      assert chunks[1..] == [];
      AppendNil(chunks[0].content);
    } else {
      ChainReadsAPrefix(data, chunks[0].next.value, asks[1..], chunks[1..]);
      var rest := |Joined(chunks[1..])|;
      SliceJoin(data, offset, n, rest);
      assert forall i :: 0 < i < |chunks| ==> chunks[i] == chunks[1..][i - 1];
    }
  }

  lemma FirstOfChain(data: Bytes, offset: nat, asks: seq<Ask>, chunks: seq<Chunk>)
    requires Chain(offset, asks, chunks) && AllOf(asks, data) && chunks != []
    ensures ValidUtf8(data) && ValidUtf8(chunks[0].content)
    ensures var n := |chunks[0].content|;
      && offset + n <= |data| && chunks[0].content == data[offset..offset + n]
      && chunks[0].next == NextOffset(offset + n, |data|)
      && (offset < |data| ==> n > 0)
      && (chunks[0].next.Some? ==> chunks[0].next.value == offset + n < |data|)
  {
    hide ReadOf, ValidUtf8;
    var ask := asks[0];
    ReadAdvances(ask.file, offset, ask.revision, ask.maxContent, ask.maxSerialized);
  }

  lemma SliceJoin(data: Bytes, offset: nat, n: nat, rest: nat)
    requires offset + n + rest <= |data|
    ensures data[offset..offset + n + rest] == data[offset..offset + n] + data[offset + n..offset + n + rest]
  {
  }

  /** So following next offsets ends within one read a byte, and the chain that has ended, and
      only that one, has returned everything. */
  lemma ChainReadsEverything(data: Bytes, offset: nat, asks: seq<Ask>, chunks: seq<Chunk>)
    requires Chain(offset, asks, chunks) && AllOf(asks, data) && chunks != []
    ensures |chunks| <= if offset < |data| then |data| - offset else 1
    ensures |chunks| == |data| - offset ==> chunks[|chunks| - 1].next.None?
    ensures chunks[|chunks| - 1].next.None? <==> offset <= |data| && Joined(chunks) == data[offset..]
  {
    hide Chain, ValidUtf8;
    ChainReadsAPrefix(data, offset, asks, chunks);
    TakeAll(data);
  }

  lemma {:induction false} RevisionHolds(offset: nat, asks: seq<Ask>, chunks: seq<Chunk>, revision: string)
    requires Chain(offset, asks, chunks) && revision != ""
    requires forall i :: 0 <= i < |asks| ==> asks[i].revision == revision
    ensures forall i :: 0 <= i < |asks| ==> asks[i].file.revision == revision
    decreases |chunks|
  {
    hide ValidUtf8, FitLength, FirstLength;
    if |chunks| > 1 {
      RevisionHolds(chunks[0].next.value, asks[1..], chunks[1..], revision);
      assert forall i :: 0 < i < |asks| ==> asks[i] == asks[1..][i - 1];
    }
  }

  /** The file may change between reads. Reads that pass the revision of the first one's result
      never mix two versions, as far as equal revisions mean equal bytes. */
  lemma PinnedChainIsOneFile(offset: nat, asks: seq<Ask>, chunks: seq<Chunk>)
    requires Chain(offset, asks, chunks) && asks != [] && asks[0].file.revision != ""
    requires forall i :: 0 < i < |asks| ==> asks[i].revision == asks[0].file.revision
    requires forall i :: 0 <= i < |asks| && asks[i].file.revision == asks[0].file.revision ==>
      asks[i].file.data == asks[0].file.data
    ensures AllOf(asks, asks[0].file.data)
  {
    hide Answer;
    if |asks| > 1 {
      RevisionHolds(chunks[0].next.value, asks[1..], chunks[1..], asks[0].file.revision);
      assert forall i :: 0 < i < |asks| ==> asks[i] == asks[1..][i - 1];
    }
  }

  /** Every next offset is accepted by the next read: a chain only ever breaks for size. */
  lemma NextOffsetIsReadable(offset: nat, ask: Ask, following: Ask)
    requires Answer(offset, ask).Read? && Answer(offset, ask).chunk.next.Some?
    requires following.file.data == ask.file.data
    requires following.revision == "" || following.revision == following.file.revision
    ensures var next := Answer(offset, ask).chunk.next.value;
      next > offset && (Answer(next, following).Read? || Answer(next, following) == Failed(TooLarge))
  {
    hide ValidUtf8, FitLength, FirstLength;
    ReadAdvances(ask.file, offset, ask.revision, ask.maxContent, ask.maxSerialized);
  }
}
