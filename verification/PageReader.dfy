/** Fragmenting and paging stored page content (internal/aichattools/read_page.go). */
module PageReader {
  import opened Options
  import opened Seqs
  import opened Utf8

  const FRAGMENT_LIMIT := 12288

  /** A page block, or a fragment of one. */
  datatype Block = Block(
    kind: string, level: int, markdown: Bytes, items: seq<Bytes>, alt: Bytes, url: Bytes, text: Bytes,
    continued: bool, continues: bool)

  function Concat(chunks: seq<Bytes>): Bytes {
    if chunks == [] then [] else Concat(chunks[..|chunks| - 1]) + chunks[|chunks| - 1]
  }

  // ---------------------------------------------------------------- splitting text

  /** The simple form: cut whole characters off the front until the rest fits. */
  function Split(value: Bytes, max: nat): (chunks: seq<Bytes>)
    requires max > 0
    ensures |chunks| > 0
    decreases |value|
  {
    if |value| <= max then [value]
    else
      var cut := CutAt(value, max);
      [value[..cut]] + Split(value[cut..], max)
  }

  method SplitUtf8(value: Bytes, max: nat) returns (chunks: seq<Bytes>)
    requires max > 0
    ensures chunks == Split(value, max)
  {
    hide RuneLen, BoundaryBefore, CutAt, Boundary, DecodeSize;
    if value == [] {
      return [[]];
    }
    chunks := [];
    var rest := value;
    while |rest| > max
      invariant Split(value, max) == chunks + Split(rest, max)
      decreases |rest|
    {
      var cut := BackToRuneStart(rest, max);
      if cut == 0 {
        cut := DecodeSize(rest);
      }
      CutIsNext(rest, max, cut);
      AppendAssoc(chunks, [rest[..cut]], Split(rest[cut..], max));
      chunks := chunks + [rest[..cut]];
      rest := rest[cut..];
    }
    chunks := chunks + [rest];
  }

  lemma CutIsNext(rest: Bytes, max: nat, cut: nat)
    requires |rest| > max > 0
    requires cut == if BoundaryBefore(rest, max) == 0 then DecodeSize(rest) else BoundaryBefore(rest, max)
    ensures cut == CutAt(rest, max)
  {
  }

  lemma {:induction false} ConcatCons(first: Bytes, rest: seq<Bytes>)
    ensures Concat([first] + rest) == first + Concat(rest)
  {
    if rest == [] {
      assert [first][..0] == [];
      AppendNil(first);
    } else {
      var front, last := rest[..|rest| - 1], rest[|rest| - 1];
      ConcatCons(first, front);
      assert [first] + rest == [first] + front + [last];
      LastOf([first] + front, last);
      AppendAssoc(first, Concat(front), last);
    }
  }

  /** The chunks are bounded whole characters, and non-empty unless the text is empty. */
  predicate GoodChunks(chunks: seq<Bytes>, max: nat) {
    forall i :: 0 <= i < |chunks| ==> ValidUtf8(chunks[i]) && |chunks[i]| <= max
  }

  predicate NoneEmpty(chunks: seq<Bytes>) {
    forall i :: 0 <= i < |chunks| ==> chunks[i] != []
  }

  /** Splitting loses nothing, cuts only between characters, and bounds every chunk. */
  lemma {:induction false} SplitIsFaithful(value: Bytes, max: nat)
    requires max >= 4 && ValidUtf8(value)
    ensures var chunks := Split(value, max);
      && Concat(chunks) == value && GoodChunks(chunks, max)
      && (value != [] ==> NoneEmpty(chunks))
      && (|chunks| == 1 <==> |value| <= max)
    decreases |value|
  {
    hide ValidUtf8, RuneLen, BoundaryBefore, CutAt, Boundary, Concat, DecodeSize;
    if |value| <= max {
      OneChunk(value);
    } else {
      var cut := CutAt(value, max);
      CutAtIsBoundary(value, max);
      CutIsValid(value, cut);
      CutIsShorter(value, max);
      SplitIsFaithful(value[cut..], max);
      ConcatCons(value[..cut], Split(value[cut..], max));
      assert value == value[..cut] + value[cut..];
      GoodCons(value[..cut], Split(value[cut..], max), max);
    }
  }

  /** A cut within the limit leaves something of a text over the limit. */
  lemma CutIsShorter(value: Bytes, max: nat)
    requires max >= 4 && ValidUtf8(value) && |value| > max
    ensures 0 < CutAt(value, max) <= max
  {
    CutAtIsBoundary(value, max);
  }

  lemma GoodCons(first: Bytes, rest: seq<Bytes>, max: nat)
    requires ValidUtf8(first) && |first| <= max && first != [] && GoodChunks(rest, max) && NoneEmpty(rest)
    ensures GoodChunks([first] + rest, max) && NoneEmpty([first] + rest)
  {
    hide ValidUtf8;
  }

  lemma OneChunk(value: Bytes)
    ensures Concat([value]) == value
  {
    assert [value][..0] == [];
  }

  // ---------------------------------------------------------------- fragments of one block

  datatype Field = Markdown | Text

  function Payload(b: Block, field: Field): Bytes {
    match field case Markdown => b.markdown case Text => b.text
  }

  /** One piece of a text block; both text fields are replaced. */
  function Piece(base: Block, chunk: Bytes, field: Field, continued: bool, continues: bool): Block {
    base.(markdown := if field == Markdown then chunk else [], text := if field == Text then chunk else [],
          continued := continued, continues := continues)
  }

  function ItemPiece(base: Block, chunk: Bytes, continued: bool, continues: bool): Block {
    base.(items := [chunk], continued := continued, continues := continues)
  }

  /** Pieces of a text block, from chunk i on. */
  function Pieces(base: Block, chunks: seq<Bytes>, field: Field, n: nat): (r: seq<Block>)
    requires n <= |chunks|
    ensures |r| == n
  {
    if n == 0 then []
    else Pieces(base, chunks, field, n - 1) + [Piece(base, chunks[n - 1], field, n > 1, n < |chunks|)]
  }

  function ItemPieces(base: Block, chunks: seq<Bytes>, n: nat): (r: seq<Block>)
    requires n <= |chunks|
    ensures |r| == n
  {
    if n == 0 then []
    else ItemPieces(base, chunks, n - 1) + [ItemPiece(base, chunks[n - 1], n > 1, n < |chunks|)]
  }

  method SplitStringBlock(base: Block, value: Bytes, field: Field) returns (out: seq<Block>)
    ensures var chunks := Split(value, FRAGMENT_LIMIT / 2); out == Pieces(base, chunks, field, |chunks|)
  {
    hide Split;
    var chunks := SplitUtf8(value, FRAGMENT_LIMIT / 2);
    out := [];
    for i := 0 to |chunks|
      invariant out == Pieces(base, chunks, field, i)
    {
      out := out + [Piece(base, chunks[i], field, i > 0, i + 1 < |chunks|)];
    }
  }

  /** The list state: fragments so far, and the items gathered for the next one. */
  datatype Gather = Gather(out: seq<Block>, items: seq<Bytes>)

  function Flushed(base: Block, g: Gather): Gather {
    if g.items == [] then g else Gather(g.out + [base.(items := g.items)], [])
  }

  /** One more item: split on its own, or gathered, after a flush if it no longer fits. */
  function Gathered(base: Block, g: Gather, item: Bytes, size: Block -> nat): Gather {
    var chunks := Split(item, FRAGMENT_LIMIT / 2);
    if |chunks| > 1 then
      var f := Flushed(base, g);
      Gather(f.out + ItemPieces(base, chunks, |chunks|), f.items)
    else if size(base.(items := g.items + [item])) > FRAGMENT_LIMIT && g.items != [] then
      Gather(Flushed(base, g).out, [item])
    else Gather(g.out, g.items + [item])
  }

  function GatheredAll(base: Block, items: seq<Bytes>, size: Block -> nat): Gather {
    if items == [] then Gather([], [])
    else Gathered(base, GatheredAll(base, items[..|items| - 1], size), items[|items| - 1], size)
  }

  function ListFragments(base: Block, size: Block -> nat): seq<Block> {
    Flushed(base, GatheredAll(base, base.items, size)).out
  }

  method FragmentListBlock(base: Block, size: Block -> nat) returns (out: seq<Block>)
    ensures out == ListFragments(base, size)
  {
    hide Split;
    out := [];
    var current: seq<Bytes> := [];
    for k := 0 to |base.items|
      invariant Gather(out, current) == GatheredAll(base, base.items[..k], size)
    {
      TakeSnoc(base.items, k);
      var item := base.items[k];
      var chunks := SplitUtf8(item, FRAGMENT_LIMIT / 2);
      if |chunks| > 1 {
        out, current := Flush(base, out, current);
        ghost var before := out;
        for i := 0 to |chunks|
          invariant out == before + ItemPieces(base, chunks, i)
        {
          out := out + [ItemPiece(base, chunks[i], i > 0, i + 1 < |chunks|)];
        }
        continue;
      }
      if size(base.(items := current + [item])) > FRAGMENT_LIMIT && |current| > 0 {
        out, current := Flush(base, out, current);
      }
      current := current + [item];
    }
    TakeAll(base.items);
    out, current := Flush(base, out, current);
  }

  method Flush(base: Block, out: seq<Block>, current: seq<Bytes>) returns (out': seq<Block>, current': seq<Bytes>)
    ensures Gather(out', current') == Flushed(base, Gather(out, current))
  {
    if |current| > 0 {
      return out + [base.(items := current)], [];
    }
    return out, current;
  }

  function Fragments(b: Block, size: Block -> nat): seq<Block> {
    if size(b) <= FRAGMENT_LIMIT then [b]
    else if b.markdown != [] then
      var chunks := Split(b.markdown, FRAGMENT_LIMIT / 2); Pieces(b, chunks, Markdown, |chunks|)
    else if b.text != [] then
      var chunks := Split(b.text, FRAGMENT_LIMIT / 2); Pieces(b, chunks, Text, |chunks|)
    else if b.items != [] then ListFragments(b, size)
    else [b.(alt := Capped(b.alt, FRAGMENT_LIMIT / 4), url := Capped(b.url, FRAGMENT_LIMIT / 4))]
  }

  function AllFragments(blocks: seq<Block>, size: Block -> nat): seq<Block> {
    if blocks == [] then []
    else AllFragments(blocks[..|blocks| - 1], size) + Fragments(blocks[|blocks| - 1], size)
  }

  predicate ValidBlock(b: Block) {
    && ValidUtf8(b.markdown) && ValidUtf8(b.text)
    && forall i :: 0 <= i < |b.items| ==> ValidUtf8(b.items[i])
  }

  method FragmentBlock(b: Block, size: Block -> nat) returns (out: seq<Block>)
    ensures out == Fragments(b, size)
  {
    hide Split, Pieces, ListFragments;
    if size(b) <= FRAGMENT_LIMIT {
      return [b];
    }
    if b.markdown != [] {
      out := SplitStringBlock(b, b.markdown, Markdown);
    } else if b.text != [] {
      out := SplitStringBlock(b, b.text, Text);
    } else if |b.items| > 0 {
      out := FragmentListBlock(b, size);
    } else {
      var alt := CapUtf8Bytes(b.alt, FRAGMENT_LIMIT / 4);
      var url := CapUtf8Bytes(b.url, FRAGMENT_LIMIT / 4);
      out := [b.(alt := alt, url := url)];
    }
  }

  method FragmentPageBlocks(blocks: seq<Block>, size: Block -> nat) returns (out: seq<Block>)
    ensures out == AllFragments(blocks, size)
  {
    hide Fragments;
    out := [];
    for i := 0 to |blocks|
      invariant out == AllFragments(blocks[..i], size)
    {
      TakeSnoc(blocks, i);
      var more := FragmentBlock(blocks[i], size);
      out := out + more;
    }
    TakeAll(blocks);
  }

  // ---------------------------------------------------------------- joining fragments

  /** Reading fragments in order: a continued fragment's first item belongs to the last one. */
  function JoinItems(prior: seq<Bytes>, b: Block): seq<Bytes> {
    if b.continued && prior != [] && b.items != [] then
      prior[..|prior| - 1] + [prior[|prior| - 1] + b.items[0]] + b.items[1..]
    else prior + b.items
  }

  function ItemsFrom(prior: seq<Bytes>, blocks: seq<Block>): seq<Bytes> {
    if blocks == [] then prior else JoinItems(ItemsFrom(prior, blocks[..|blocks| - 1]), blocks[|blocks| - 1])
  }

  /** Likewise for one text field; blocks without it say nothing. */
  function JoinTexts(prior: seq<Bytes>, b: Block, field: Field): seq<Bytes> {
    var value := Payload(b, field);
    if value == [] then prior
    else if b.continued && prior != [] then prior[..|prior| - 1] + [prior[|prior| - 1] + value]
    else prior + [value]
  }

  function TextsFrom(prior: seq<Bytes>, blocks: seq<Block>, field: Field): seq<Bytes> {
    if blocks == [] then prior
    else JoinTexts(TextsFrom(prior, blocks[..|blocks| - 1], field), blocks[|blocks| - 1], field)
  }

  lemma {:induction false} ItemsFromAppend(prior: seq<Bytes>, a: seq<Block>, b: seq<Block>)
    ensures ItemsFrom(prior, a + b) == ItemsFrom(ItemsFrom(prior, a), b)
  {
    hide JoinItems;
    if b == [] {
      AppendNil(a);
    } else {
      var front, last := b[..|b| - 1], b[|b| - 1];
      ItemsFromAppend(prior, a, front);
      AppendAssoc(a, front, [last]);
      LastOf(a + front, last);
      assert b == front + [last];
    }
  }

  lemma {:induction false} TextsFromAppend(prior: seq<Bytes>, a: seq<Block>, b: seq<Block>, field: Field)
    ensures TextsFrom(prior, a + b, field) == TextsFrom(TextsFrom(prior, a, field), b, field)
  {
    hide JoinTexts;
    if b == [] {
      AppendNil(a);
    } else {
      var front, last := b[..|b| - 1], b[|b| - 1];
      TextsFromAppend(prior, a, front, field);
      AppendAssoc(a, front, [last]);
      LastOf(a + front, last);
      assert b == front + [last];
    }
  }

  lemma ItemsFromOne(prior: seq<Bytes>, b: Block)
    ensures ItemsFrom(prior, [b]) == JoinItems(prior, b)
  {
    assert [b][..0] == [];
  }

  lemma TextsFromOne(prior: seq<Bytes>, b: Block, field: Field)
    ensures TextsFrom(prior, [b], field) == JoinTexts(prior, b, field)
  {
    assert [b][..0] == [];
  }

  // ---- list blocks

  /** The pieces of one split item join back into that item. */
  lemma {:induction false} ItemPiecesJoin(prior: seq<Bytes>, base: Block, chunks: seq<Bytes>, n: nat)
    requires 0 < n <= |chunks|
    ensures ItemsFrom(prior, ItemPieces(base, chunks, n)) == prior + [Concat(chunks[..n])]
  {
    TakeSnoc(chunks, n - 1);
    LastOf(chunks[..n - 1], chunks[n - 1]);
    var piece := ItemPiece(base, chunks[n - 1], n > 1, n < |chunks|);
    LastOf(ItemPieces(base, chunks, n - 1), piece);
    if n > 1 {
      ItemPiecesJoin(prior, base, chunks, n - 1);
      LastOf(prior, Concat(chunks[..n - 1]));
      assert piece.items[1..] == [];
      AppendNil(prior + [Concat(chunks[..n - 1]) + chunks[n - 1]]);
    } else {
      NilAppend(chunks[0]);
    }
  }

  /** Fragments so far, then what is still gathered. */
  function Have(prior: seq<Bytes>, g: Gather): seq<Bytes> {
    ItemsFrom(prior, g.out) + g.items
  }

  lemma FlushKeeps(prior: seq<Bytes>, base: Block, g: Gather)
    requires !base.continued
    ensures Have(prior, Flushed(base, g)) == Have(prior, g) && Flushed(base, g).items == []
  {
    if g.items != [] {
      LastOf(g.out, base.(items := g.items));
      AppendNil(ItemsFrom(prior, g.out) + g.items);
    }
  }

  lemma GatherAdds(prior: seq<Bytes>, base: Block, g: Gather, item: Bytes, size: Block -> nat)
    requires !base.continued && ValidUtf8(item)
    ensures Have(prior, Gathered(base, g, item, size)) == Have(prior, g) + [item]
  {
    hide ValidUtf8, Split, ItemsFrom, Flushed, ItemPieces;
    var chunks := Split(item, FRAGMENT_LIMIT / 2);
    SplitIsFaithful(item, FRAGMENT_LIMIT / 2);
    FlushKeeps(prior, base, g);
    var f := Flushed(base, g);
    AppendNil(ItemsFrom(prior, f.out));
    if |chunks| > 1 {
      ItemsFromAppend(prior, f.out, ItemPieces(base, chunks, |chunks|));
      ItemPiecesJoin(ItemsFrom(prior, f.out), base, chunks, |chunks|);
      TakeAll(chunks);
      AppendNil(ItemsFrom(prior, f.out) + [item]);
    } else {
      AppendAssoc(ItemsFrom(prior, g.out), g.items, [item]);
    }
  }

  lemma {:induction false} GatherAllKeeps(prior: seq<Bytes>, base: Block, items: seq<Bytes>, size: Block -> nat)
    requires !base.continued && forall i :: 0 <= i < |items| ==> ValidUtf8(items[i])
    ensures Have(prior, GatheredAll(base, items, size)) == prior + items
  {
    hide ValidUtf8, Gathered, Have;
    if items == [] {
      NothingGathered(prior);
    } else {
      var front, last := items[..|items| - 1], items[|items| - 1];
      GatherAllKeeps(prior, base, front, size);
      GatherAdds(prior, base, GatheredAll(base, front, size), last, size);
      AppendAssoc(prior, front, [last]);
      assert items == front + [last];
    }
  }

  lemma NothingGathered(prior: seq<Bytes>)
    ensures Have(prior, Gather([], [])) == prior + []
  {
  }

  lemma ListKeepsItems(prior: seq<Bytes>, base: Block, size: Block -> nat)
    requires !base.continued && ValidBlock(base)
    ensures ItemsFrom(prior, ListFragments(base, size)) == prior + base.items
  {
    hide ItemsFrom, Flushed, GatheredAll;
    var g := GatheredAll(base, base.items, size);
    GatherAllKeeps(prior, base, base.items, size);
    FlushKeeps(prior, base, g);
    AppendNil(ItemsFrom(prior, Flushed(base, g).out));
  }

  // ---- text blocks

  lemma {:induction false} PiecesJoin(prior: seq<Bytes>, base: Block, chunks: seq<Bytes>, field: Field, n: nat)
    requires 0 < n <= |chunks| && forall i :: 0 <= i < |chunks| ==> chunks[i] != []
    ensures TextsFrom(prior, Pieces(base, chunks, field, n), field) == prior + [Concat(chunks[..n])]
  {
    TakeSnoc(chunks, n - 1);
    LastOf(chunks[..n - 1], chunks[n - 1]);
    var piece := Piece(base, chunks[n - 1], field, n > 1, n < |chunks|);
    LastOf(Pieces(base, chunks, field, n - 1), piece);
    if n > 1 {
      PiecesJoin(prior, base, chunks, field, n - 1);
      LastOf(prior, Concat(chunks[..n - 1]));
    } else {
      NilAppend(chunks[0]);
    }
  }

  /** A field that no fragment carries says nothing. */
  lemma {:induction false} SilentTexts(prior: seq<Bytes>, blocks: seq<Block>, field: Field)
    requires forall i :: 0 <= i < |blocks| ==> Payload(blocks[i], field) == []
    ensures TextsFrom(prior, blocks, field) == prior
  {
    if blocks != [] {
      SilentTexts(prior, blocks[..|blocks| - 1], field);
    }
  }

  lemma {:induction false} SilentItems(prior: seq<Bytes>, blocks: seq<Block>)
    requires forall i :: 0 <= i < |blocks| ==> blocks[i].items == []
    ensures ItemsFrom(prior, blocks) == prior
  {
    if blocks != [] {
      SilentItems(prior, blocks[..|blocks| - 1]);
    }
  }

  /** Pieces carry their own field and nothing in the other. */
  lemma {:induction false} PiecesCarry(base: Block, chunks: seq<Bytes>, field: Field, n: nat)
    requires n <= |chunks|
    ensures forall i :: 0 <= i < n ==>
      Pieces(base, chunks, field, n)[i] == Piece(base, chunks[i], field, i > 0, i + 1 < |chunks|)
  {
    if n > 0 {
      PiecesCarry(base, chunks, field, n - 1);
    }
  }

  /** Same texts as the block they came from. */
  predicate AllPlain(base: Block, blocks: seq<Block>) {
    forall i :: 0 <= i < |blocks| ==> blocks[i].markdown == base.markdown && blocks[i].text == base.text
  }

  lemma PlainAppend(base: Block, a: seq<Block>, b: seq<Block>)
    requires AllPlain(base, a) && AllPlain(base, b)
    ensures AllPlain(base, a + b)
  {
  }

  lemma {:induction false} ItemPiecesArePlain(base: Block, chunks: seq<Bytes>, n: nat)
    requires n <= |chunks|
    ensures AllPlain(base, ItemPieces(base, chunks, n))
  {
    if n > 0 {
      ItemPiecesArePlain(base, chunks, n - 1);
    }
  }

  lemma FlushIsPlain(base: Block, g: Gather)
    requires AllPlain(base, g.out)
    ensures AllPlain(base, Flushed(base, g).out)
  {
  }

  lemma {:induction false} GatherIsPlain(base: Block, items: seq<Bytes>, size: Block -> nat)
    ensures AllPlain(base, GatheredAll(base, items, size).out)
  {
    if items != [] {
      hide AllPlain, Split, Flushed;
      var g := GatheredAll(base, items[..|items| - 1], size);
      GatherIsPlain(base, items[..|items| - 1], size);
      FlushIsPlain(base, g);
      var chunks := Split(items[|items| - 1], FRAGMENT_LIMIT / 2);
      ItemPiecesArePlain(base, chunks, |chunks|);
      PlainAppend(base, Flushed(base, g).out, ItemPieces(base, chunks, |chunks|));
    }
  }

  // ---- whole pages

  /** What the content formatter produces: one payload, no flags. */
  predicate OnePayload(b: Block) {
    && !b.continued
    && (b.markdown == [] || b.text == []) && (b.items == [] || (b.markdown == [] && b.text == []))
  }

  lemma StringPieces(prior: seq<Bytes>, b: Block, field: Field, other: Field)
    requires ValidBlock(b) && OnePayload(b) && Payload(b, field) != [] && other != field
    ensures var chunks := Split(Payload(b, field), FRAGMENT_LIMIT / 2);
      var out := Pieces(b, chunks, field, |chunks|);
      && TextsFrom(prior, out, field) == prior + [Payload(b, field)]
      && TextsFrom(prior, out, other) == prior && ItemsFrom(prior, out) == prior
  {
    hide ValidUtf8, Split, TextsFrom, ItemsFrom, Pieces;
    var chunks := Split(Payload(b, field), FRAGMENT_LIMIT / 2);
    SplitIsFaithful(Payload(b, field), FRAGMENT_LIMIT / 2);
    PiecesJoin(prior, b, chunks, field, |chunks|);
    TakeAll(chunks);
    PiecesCarry(b, chunks, field, |chunks|);
    SilentTexts(prior, Pieces(b, chunks, field, |chunks|), other);
    SilentItems(prior, Pieces(b, chunks, field, |chunks|));
  }

  lemma ListPieces(prior: seq<Bytes>, b: Block, field: Field, size: Block -> nat)
    requires ValidBlock(b) && OnePayload(b) && b.items != []
    ensures ItemsFrom(prior, ListFragments(b, size)) == prior + b.items
    ensures TextsFrom(prior, ListFragments(b, size), field) == prior
  {
    hide ValidUtf8, GatheredAll, TextsFrom, ItemsFrom;
    ListKeepsItems(prior, b, size);
    GatherIsPlain(b, b.items, size);
    FlushIsPlain(b, GatheredAll(b, b.items, size));
    SilentTexts(prior, ListFragments(b, size), field);
  }

  /** Fragmenting one block adds exactly what the block itself says. */
  lemma FragmentsKeep(prior: seq<Bytes>, b: Block, size: Block -> nat, field: Field)
    requires ValidBlock(b) && OnePayload(b)
    ensures ItemsFrom(prior, Fragments(b, size)) == prior + b.items
    ensures TextsFrom(prior, Fragments(b, size), field) == JoinTexts(prior, b, field)
  {
    hide ValidBlock, Split, ListFragments, Pieces, ItemsFrom, TextsFrom;
    if size(b) <= FRAGMENT_LIMIT {
      ItemsFromOne(prior, b);
      TextsFromOne(prior, b, field);
    } else if b.markdown != [] {
      StringPieces(prior, b, Markdown, Text);
      AppendNil(prior);
    } else if b.text != [] {
      StringPieces(prior, b, Text, Markdown);
      AppendNil(prior);
    } else if b.items != [] {
      ListPieces(prior, b, field, size);
    } else {
      var only := Fragments(b, size)[0];
      ItemsFromOne(prior, only);
      TextsFromOne(prior, only, field);
    }
  }

  function AllItems(blocks: seq<Block>): seq<Bytes> {
    if blocks == [] then [] else AllItems(blocks[..|blocks| - 1]) + blocks[|blocks| - 1].items
  }

  function AllTexts(blocks: seq<Block>, field: Field): seq<Bytes> {
    if blocks == [] then []
    else
      AllTexts(blocks[..|blocks| - 1], field) +
      (if Payload(blocks[|blocks| - 1], field) == [] then [] else [Payload(blocks[|blocks| - 1], field)])
  }

  /** Fragmenting a page loses nothing: joining by the continuation flags gives back every text
      and every list item, in order. */
  lemma {:induction false} FragmentingLosesNothing(blocks: seq<Block>, size: Block -> nat, field: Field)
    requires forall i :: 0 <= i < |blocks| ==> ValidBlock(blocks[i]) && OnePayload(blocks[i])
    ensures ItemsFrom([], AllFragments(blocks, size)) == AllItems(blocks)
    ensures TextsFrom([], AllFragments(blocks, size), field) == AllTexts(blocks, field)
  {
    hide ValidBlock, Fragments, ItemsFrom, TextsFrom;
    if blocks == [] {
      NoBlocks(field);
    } else {
      var front, last := blocks[..|blocks| - 1], blocks[|blocks| - 1];
      FragmentingLosesNothing(front, size, field);
      ItemsFromAppend([], AllFragments(front, size), Fragments(last, size));
      TextsFromAppend([], AllFragments(front, size), Fragments(last, size), field);
      FragmentsKeep(AllItems(front), last, size, field);
      FragmentsKeep(AllTexts(front, field), last, size, field);
      AppendNil(AllTexts(front, field));
    }
  }

  lemma NoBlocks(field: Field)
    ensures ItemsFrom([], []) == [] && TextsFrom([], [], field) == []
  {
  }

  // ---- what a fragment looks like

  predicate Bare(b: Block) {
    b.markdown == [] && b.text == [] && b.items == []
  }

  predicate Small(value: Bytes) {
    ValidUtf8(value) && |value| <= FRAGMENT_LIMIT / 2
  }

  /** A fragment of this block: the block itself while it fits. Otherwise its texts and items are
      whole characters of at most half the limit, and a list fragment of several items fits; the
      image of an oversized block with neither text nor items is cut, any other is kept. */
  predicate FragmentOf(f: Block, b: Block, size: Block -> nat) {
    && f.kind == b.kind && f.level == b.level
    && if size(b) <= FRAGMENT_LIMIT then f == b
       else
         && Small(f.markdown) && Small(f.text) && GoodChunks(f.items, FRAGMENT_LIMIT / 2)
         && (|f.items| <= 1 || size(f) <= FRAGMENT_LIMIT)
         && f.alt == (if Bare(b) then Capped(b.alt, FRAGMENT_LIMIT / 4) else b.alt)
         && f.url == (if Bare(b) then Capped(b.url, FRAGMENT_LIMIT / 4) else b.url)
  }

  predicate FragmentsOf(fragments: seq<Block>, b: Block, size: Block -> nat) {
    forall i :: 0 <= i < |fragments| ==> FragmentOf(fragments[i], b, size)
  }

  lemma TextPieces(b: Block, field: Field, size: Block -> nat)
    requires ValidBlock(b) && OnePayload(b) && Payload(b, field) != [] && size(b) > FRAGMENT_LIMIT
    ensures var chunks := Split(Payload(b, field), FRAGMENT_LIMIT / 2);
      FragmentsOf(Pieces(b, chunks, field, |chunks|), b, size)
  {
    hide Split, Pieces, ValidUtf8;
    var chunks := Split(Payload(b, field), FRAGMENT_LIMIT / 2);
    SplitIsFaithful(Payload(b, field), FRAGMENT_LIMIT / 2);
    PiecesCarry(b, chunks, field, |chunks|);
    NothingIsValid();
  }

  /** What is gathered fits, unless it is a single item. */
  predicate Gatherable(base: Block, g: Gather, size: Block -> nat) {
    && FragmentsOf(g.out, base, size) && GoodChunks(g.items, FRAGMENT_LIMIT / 2)
    && (|g.items| <= 1 || size(base.(items := g.items)) <= FRAGMENT_LIMIT)
  }

  predicate ListBlock(b: Block, size: Block -> nat) {
    b.markdown == [] && b.text == [] && b.items != [] && size(b) > FRAGMENT_LIMIT
  }

  lemma FlushIsFragment(base: Block, g: Gather, size: Block -> nat)
    requires ListBlock(base, size) && Gatherable(base, g, size)
    ensures Gatherable(base, Flushed(base, g), size)
  {
    hide ValidUtf8;
    NothingIsValid();
  }

  lemma FragmentsAppend(a: seq<Block>, more: seq<Block>, b: Block, size: Block -> nat)
    requires FragmentsOf(a, b, size) && FragmentsOf(more, b, size)
    ensures FragmentsOf(a + more, b, size)
  {
    hide FragmentOf;
  }

  lemma {:induction false} ItemPiecesAreFragments(base: Block, chunks: seq<Bytes>, n: nat, size: Block -> nat)
    requires ListBlock(base, size) && n <= |chunks| && GoodChunks(chunks, FRAGMENT_LIMIT / 2)
    ensures FragmentsOf(ItemPieces(base, chunks, n), base, size)
  {
    hide ValidUtf8;
    NothingIsValid();
    if n > 0 {
      ItemPiecesAreFragments(base, chunks, n - 1, size);
    }
  }

  lemma GatheredIsFragments(base: Block, g: Gather, item: Bytes, size: Block -> nat)
    requires ListBlock(base, size) && Gatherable(base, g, size) && ValidUtf8(item)
    ensures Gatherable(base, Gathered(base, g, item, size), size)
  {
    hide ValidUtf8, Split, ItemPieces, FragmentOf, ListBlock;
    var chunks := Split(item, FRAGMENT_LIMIT / 2);
    SplitIsFaithful(item, FRAGMENT_LIMIT / 2);
    FlushIsFragment(base, g, size);
    if |chunks| > 1 {
      ItemPiecesAreFragments(base, chunks, |chunks|, size);
      FragmentsAppend(Flushed(base, g).out, ItemPieces(base, chunks, |chunks|), base, size);
    }
  }

  lemma {:induction false} GatherIsFragments(base: Block, items: seq<Bytes>, size: Block -> nat)
    requires ListBlock(base, size) && forall i :: 0 <= i < |items| ==> ValidUtf8(items[i])
    ensures Gatherable(base, GatheredAll(base, items, size), size)
  {
    hide Gathered, ListBlock, FragmentOf;
    if items != [] {
      GatherIsFragments(base, items[..|items| - 1], size);
      GatheredIsFragments(base, GatheredAll(base, items[..|items| - 1], size), items[|items| - 1], size);
    }
  }

  lemma BlockFragments(b: Block, size: Block -> nat)
    requires ValidBlock(b) && OnePayload(b)
    ensures FragmentsOf(Fragments(b, size), b, size)
  {
    hide Split, Pieces, GatheredAll, ValidUtf8, Flushed;
    if size(b) > FRAGMENT_LIMIT {
      if b.markdown != [] {
        TextPieces(b, Markdown, size);
      } else if b.text != [] {
        TextPieces(b, Text, size);
      } else if b.items != [] {
        GatherIsFragments(b, b.items, size);
        FlushIsFragment(b, GatheredAll(b, b.items, size), size);
      } else {
        NothingIsValid();
      }
    }
  }

  /** Every fragment of a page is one of its blocks' fragments, within those bounds. */
  lemma {:induction false} PageFragments(blocks: seq<Block>, size: Block -> nat)
    requires forall i :: 0 <= i < |blocks| ==> ValidBlock(blocks[i]) && OnePayload(blocks[i])
    ensures forall f :: f in AllFragments(blocks, size) ==>
      exists i :: 0 <= i < |blocks| && FragmentOf(f, blocks[i], size)
  {
    hide ValidBlock, OnePayload, Fragments, FragmentOf;
    if blocks != [] {
      var front, last := blocks[..|blocks| - 1], blocks[|blocks| - 1];
      PageFragments(front, size);
      BlockFragments(last, size);
      forall f | f in AllFragments(blocks, size)
        ensures exists i :: 0 <= i < |blocks| && FragmentOf(f, blocks[i], size)
      {
        if f in AllFragments(front, size) {
          var i :| 0 <= i < |front| && FragmentOf(f, front[i], size);
          assert FragmentOf(f, blocks[i], size);
        } else {
          var i :| 0 <= i < |Fragments(last, size)| && Fragments(last, size)[i] == f;
          assert FragmentOf(f, blocks[|blocks| - 1], size);
        }
      }
    }
  }

  // ---------------------------------------------------------------- the continuation flags

  /** A fragment says it continues exactly when the next one says it was continued. */
  predicate Linked(fragments: seq<Block>) {
    && (fragments != [] ==> !fragments[0].continued && !fragments[|fragments| - 1].continues)
    && forall k :: 0 < k < |fragments| ==> (fragments[k - 1].continues <==> fragments[k].continued)
  }

  /** The flags of a block's pieces. */
  predicate Flagged(pieces: seq<Block>, n: nat) {
    forall k :: 0 <= k < |pieces| ==> (pieces[k].continued <==> k > 0) && (pieces[k].continues <==> k + 1 < n)
  }

  lemma LinkedAppend(a: seq<Block>, b: seq<Block>)
    requires Linked(a) && Linked(b)
    ensures Linked(a + b)
  {
    forall k | 0 < k < |a + b| ensures (a + b)[k - 1].continues <==> (a + b)[k].continued {
      if k > |a| {
        assert (a + b)[k - 1] == b[k - 1 - |a|] && (a + b)[k] == b[k - |a|];
      }
    }
  }

  lemma FlaggedIsLinked(pieces: seq<Block>)
    requires Flagged(pieces, |pieces|)
    ensures Linked(pieces)
  {
  }

  lemma {:induction false} PiecesAreFlagged(base: Block, chunks: seq<Bytes>, field: Field, n: nat)
    requires n <= |chunks|
    ensures Flagged(Pieces(base, chunks, field, n), |chunks|) && Flagged(ItemPieces(base, chunks, n), |chunks|)
  {
    if n > 0 {
      PiecesAreFlagged(base, chunks, field, n - 1);
    }
  }

  lemma WholeIsLinked(b: Block)
    requires !b.continued && !b.continues
    ensures Linked([b])
  {
  }

  lemma FlushIsLinked(base: Block, g: Gather)
    requires !base.continued && !base.continues && Linked(g.out)
    ensures Linked(Flushed(base, g).out)
  {
    WholeIsLinked(base.(items := g.items));
    LinkedAppend(g.out, [base.(items := g.items)]);
  }

  lemma {:induction false} GatherIsLinked(base: Block, items: seq<Bytes>, size: Block -> nat)
    requires !base.continued && !base.continues
    ensures Linked(GatheredAll(base, items, size).out)
  {
    if items != [] {
      var g, chunks := GatheredAll(base, items[..|items| - 1], size), Split(items[|items| - 1], FRAGMENT_LIMIT / 2);
      hide Linked, Split, Flushed, ItemPieces;
      GatherIsLinked(base, items[..|items| - 1], size);
      FlushIsLinked(base, g);
      PiecesAreFlagged(base, chunks, Text, |chunks|);
      FlaggedIsLinked(ItemPieces(base, chunks, |chunks|));
      LinkedAppend(Flushed(base, g).out, ItemPieces(base, chunks, |chunks|));
    } else {
      assert Linked([]);
    }
  }

  lemma BlockIsLinked(b: Block, size: Block -> nat)
    requires !b.continued && !b.continues
    ensures Linked(Fragments(b, size))
  {
    hide Linked, Split, Pieces, Capped, GatheredAll, Flushed;
    WholeIsLinked(b);
    if size(b) > FRAGMENT_LIMIT {
      if b.markdown != [] {
        var chunks := Split(b.markdown, FRAGMENT_LIMIT / 2);
        PiecesAreFlagged(b, chunks, Markdown, |chunks|);
        FlaggedIsLinked(Pieces(b, chunks, Markdown, |chunks|));
      } else if b.text != [] {
        var chunks := Split(b.text, FRAGMENT_LIMIT / 2);
        PiecesAreFlagged(b, chunks, Text, |chunks|);
        FlaggedIsLinked(Pieces(b, chunks, Text, |chunks|));
      } else if b.items != [] {
        GatherIsLinked(b, b.items, size);
        FlushIsLinked(b, GatheredAll(b, b.items, size));
      } else {
        WholeIsLinked(b.(alt := Capped(b.alt, FRAGMENT_LIMIT / 4), url := Capped(b.url, FRAGMENT_LIMIT / 4)));
      }
    }
  }

  /** Over a whole page the two flags agree: nothing is announced that does not follow, nothing
      follows unannounced, and no continuation crosses the ends of the page. */
  lemma {:induction false} FlagsAgree(blocks: seq<Block>, size: Block -> nat)
    requires forall i :: 0 <= i < |blocks| ==> !blocks[i].continued && !blocks[i].continues
    ensures Linked(AllFragments(blocks, size))
  {
    if blocks != [] {
      hide Linked, Fragments;
      FlagsAgree(blocks[..|blocks| - 1], size);
      BlockIsLinked(blocks[|blocks| - 1], size);
      LinkedAppend(AllFragments(blocks[..|blocks| - 1], size), Fragments(blocks[|blocks| - 1], size));
    }
  }

  // ---------------------------------------------------------------- lists are packed

  /** A fragment of whole items. */
  predicate Whole(f: Block) {
    !f.continued && !f.continues && f.items != []
  }

  /** The next fragment's first item would not have fitted. */
  predicate Full(base: Block, f: Block, next: seq<Bytes>, size: Block -> nat) {
    Whole(f) && next != [] ==> size(base.(items := f.items + [next[0]])) > FRAGMENT_LIMIT
  }

  /** Of two fragments of whole items in a row, the first one was full. */
  predicate Packed(base: Block, out: seq<Block>, size: Block -> nat) {
    forall k :: 0 < k < |out| && Whole(out[k]) ==> Full(base, out[k - 1], out[k].items, size)
  }

  predicate PackedSoFar(base: Block, g: Gather, size: Block -> nat) {
    && Packed(base, g.out, size)
    && (g.out != [] ==>
          Full(base, g.out[|g.out| - 1], g.items, size) && (g.items == [] ==> !Whole(g.out[|g.out| - 1])))
  }

  lemma NothingPacked(base: Block, size: Block -> nat)
    ensures Packed(base, [], size)
  {
  }

  lemma FlushPacks(base: Block, g: Gather, size: Block -> nat)
    requires !base.continued && !base.continues && PackedSoFar(base, g, size)
    ensures Packed(base, Flushed(base, g).out, size)
    ensures g.items != [] ==> Flushed(base, g).out[|g.out|].items == g.items
  {
    hide Full;
  }

  lemma PiecesArePacked(base: Block, out: seq<Block>, pieces: seq<Block>, size: Block -> nat)
    requires Packed(base, out, size) && Flagged(pieces, |pieces|) && |pieces| > 1
    ensures Packed(base, out + pieces, size) && !Whole((out + pieces)[|out + pieces| - 1])
  {
    hide Full;
    forall k | 0 <= k < |pieces| ensures !Whole(pieces[k]) {
    }
  }

  lemma GatheringPacks(base: Block, g: Gather, item: Bytes, size: Block -> nat)
    requires !base.continued && !base.continues && PackedSoFar(base, g, size)
    ensures PackedSoFar(base, Gathered(base, g, item, size), size)
  {
    var chunks := Split(item, FRAGMENT_LIMIT / 2);
    PiecesAreFlagged(base, chunks, Text, |chunks|);
    FlushPacks(base, g, size);
    hide Split, ItemPieces, Packed, Flagged;
    if |chunks| > 1 {
      PiecesArePacked(base, Flushed(base, g).out, ItemPieces(base, chunks, |chunks|), size);
    }
  }

  lemma {:induction false} GatherIsPacked(base: Block, items: seq<Bytes>, size: Block -> nat)
    requires !base.continued && !base.continues
    ensures PackedSoFar(base, GatheredAll(base, items, size), size)
  {
    hide Gathered, Packed, Full;
    if items != [] {
      GatherIsPacked(base, items[..|items| - 1], size);
      GatheringPacks(base, GatheredAll(base, items[..|items| - 1], size), items[|items| - 1], size);
    } else {
      NothingPacked(base, size);
    }
  }

  /** No fragment of a list ends early: the next one's first item would have made it too large. */
  lemma ListIsPacked(base: Block, size: Block -> nat)
    requires !base.continued && !base.continues
    ensures Packed(base, ListFragments(base, size), size)
  {
    hide GatheredAll, Packed, Flushed;
    GatherIsPacked(base, base.items, size);
    FlushPacks(base, GatheredAll(base, base.items, size), size);
  }

  /** A block with both markdown and text would lose its text, exactly when it is oversized: the
      splitter clears both fields before setting one. */
  lemma TextSurvivesSplitting(b: Block, size: Block -> nat)
    requires ValidBlock(b) && !b.continued && b.items == []
    ensures TextsFrom([], Fragments(b, size), Text) == AllTexts([b], Text)
       <==> !(size(b) > FRAGMENT_LIMIT && b.markdown != [] && b.text != [])
  {
    hide ValidUtf8, Split, TextsFrom, Pieces;
    TextsFromOne([], b, Text);
    assert [b][..0] == [];
    if size(b) > FRAGMENT_LIMIT && b.markdown != [] && b.text != [] {
      var chunks := Split(b.markdown, FRAGMENT_LIMIT / 2);
      PiecesCarry(b, chunks, Markdown, |chunks|);
      SilentTexts([], Fragments(b, size), Text);
      assert AllTexts([b], Text) == [b.text];
    } else if size(b) > FRAGMENT_LIMIT {
      FragmentsKeep([], b, size, Text);
    }
  }

  /** An example of such a block, whatever else it holds. */
  lemma SplittingCanLoseText(kind: string)
    ensures var b := Block(kind, 0, [65], [], [], [], [66], false, false);
      var size: Block -> nat := _ => FRAGMENT_LIMIT + 1;
      TextsFrom([], Fragments(b, size), Text) != AllTexts([b], Text)
  {
    var b := Block(kind, 0, [65], [], [], [], [66], false, false);
    assert [65 as Byte][1..] == [] && [66 as Byte][1..] == [];
    TextSurvivesSplitting(b, _ => FRAGMENT_LIMIT + 1);
  }
}
