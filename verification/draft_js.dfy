/** `renderDraftJSText` of `src/routes/courses/utils.ts`: a DraftJS document
    rendered to HTML, one element per block, with `LINK` entities turned into
    anchors. Offsets are counted in characters. */
module DraftJs {
  import opened Wrappers
  import opened Seqs

  datatype Entity = Entity(kind: string, href: Option<string>, url: Option<string>)
  datatype EntityRange = EntityRange(offset: int, length: int, key: string)
  datatype Block = Block(text: string, kind: string, entityRanges: seq<EntityRange>)
  datatype Content = Content(blocks: seq<Block>, entityMap: map<string, Entity>)

  /** A bound of `String.prototype.substring`, clamped into the string. */
  function Clamp(i: int, n: nat): (r: nat)
    ensures r <= n
    ensures 0 <= i <= n ==> r == i
  {
    if i < 0 then 0 else if i > n then n else i
  }

  /** `s.substring(start, end)`: both bounds clamped, swapped when reversed. */
  function Substring(s: string, start: int, end: int): (r: string)
    ensures 0 <= start <= end <= |s| ==> r == s[start..end]
    ensures |r| <= |s|
  {
    var a, b := Clamp(start, |s|), Clamp(end, |s|);
    if a <= b then s[a..b] else s[b..a]
  }

  /** `${entity.data.href || entity.data.url}`: an empty or missing `href`
      falls back to `url`, and a missing `url` renders as `undefined`. */
  function LinkTarget(e: Entity): (t: string)
    ensures e.href.Some? && e.href.value != "" ==> t == e.href.value
    ensures !(e.href.Some? && e.href.value != "") ==> t == e.url.GetOr("undefined")
  {
    if e.href.Some? && e.href.value != "" then e.href.value
    else match e.url
      case Some(u) => u
      case None => "undefined"
  }

  /** What follows the link target in the opening tag. */
  const AnchorAttributes := "\" class=\"text-indigo-400 hover:text-purple-300 underline transition-colors\" target=\"_blank\" rel=\"noopener noreferrer\">"

  function AnchorOpen(target: string): string {
    "<a href=\"" + target + AnchorAttributes
  }

  const AnchorClose := "</a>"

  /** The text with the characters a range covers put between `open` and
      `close`. */
  function Wrap(text: string, r: EntityRange, open: string, close: string): (t: string)
    ensures 0 <= r.offset && 0 <= r.length && r.offset + r.length <= |text| ==>
      t == text[..r.offset] + open + text[r.offset..r.offset + r.length] + close + text[r.offset + r.length..]
  {
    Substring(text, 0, r.offset) + WrapFrom(text, r, open, close)
  }

  /** Everything from the start of the range on. */
  function WrapFrom(text: string, r: EntityRange, open: string, close: string): string {
    open + Substring(text, r.offset, r.offset + r.length) + close
      + Substring(text, r.offset + r.length, |text|)
  }

  /** Wrapping leaves the text before the range as it was. */
  lemma WrapKeepsPrefix(text: string, r: EntityRange, open: string, close: string)
    requires 0 <= r.offset <= |text|
    ensures |Wrap(text, r, open, close)| >= r.offset
    ensures Wrap(text, r, open, close)[..r.offset] == text[..r.offset]
  {
    var before := Substring(text, 0, r.offset);
    PrefixOfAppend(before, WrapFrom(text, r, open, close));
  }

  lemma PrefixOfAppend<T>(a: seq<T>, b: seq<T>)
    ensures (a + b)[..|a|] == a
  {
  }

  /** A slice inside a prefix is the same slice of the whole. */
  lemma SliceOfPrefix(s: string, n: nat, a: nat, b: nat)
    requires a <= b <= n <= |s|
    ensures s[..n][a..b] == s[a..b]
  {
  }

  /** So a range ending before the wrapped one covers the same characters. */
  lemma WrapKeepsEarlierText(text: string, r: EntityRange, open: string, close: string, start: int, end: int)
    requires 0 <= r.offset <= |text|
    requires 0 <= start <= end <= r.offset
    ensures Substring(Wrap(text, r, open, close), start, end) == Substring(text, start, end)
  {
    var t := Wrap(text, r, open, close);
    WrapKeepsPrefix(text, r, open, close);
    SliceOfPrefix(t, r.offset, start, end);
    SliceOfPrefix(text, r.offset, start, end);
  }

  /** Wraps the characters a range covers in an anchor. */
  function ApplyLink(text: string, r: EntityRange, target: string): string {
    Wrap(text, r, AnchorOpen(target), AnchorClose)
  }

  /** Linking a range leaves the text before it as it was, so a range that
      ends before it still covers the same characters: this is why ranges are
      applied from the last offset to the first. */
  lemma LinkKeepsEarlierText(text: string, r: EntityRange, target: string, start: int, end: int)
    requires 0 <= r.offset <= |text|
    requires 0 <= start <= end <= r.offset
    ensures Substring(ApplyLink(text, r, target), start, end) == Substring(text, start, end)
  {
    WrapKeepsEarlierText(text, r, AnchorOpen(target), AnchorClose, start, end);
  }

  /** Whether a range refers to a `LINK` entity, and that entity. */
  function LinkEntity(r: EntityRange, entityMap: map<string, Entity>): (e: Option<Entity>)
    ensures e.Some? <==> r.key in entityMap && entityMap[r.key].kind == "LINK"
  {
    if r.key in entityMap && entityMap[r.key].kind == "LINK" then Some(entityMap[r.key]) else None
  }

  /** The text after applying `ranges` in order; a range without a `LINK`
      entity changes nothing. */
  function ApplyAll(text: string, ranges: seq<EntityRange>, entityMap: map<string, Entity>): string {
    if ranges == [] then text
    else
      var before := ApplyAll(text, ranges[..|ranges| - 1], entityMap);
      var r := ranges[|ranges| - 1];
      match LinkEntity(r, entityMap)
      case Some(e) => ApplyLink(before, r, LinkTarget(e))
      case None => before
  }

  /** A block none of whose ranges is a link keeps its text unchanged. */
  lemma {:induction false} NoLinksKeepText(text: string, ranges: seq<EntityRange>, entityMap: map<string, Entity>)
    requires forall i :: 0 <= i < |ranges| ==> LinkEntity(ranges[i], entityMap).None?
    ensures ApplyAll(text, ranges, entityMap) == text
  {
    if ranges != [] {
      var init := ranges[..|ranges| - 1];
      assert forall i :: 0 <= i < |init| ==> init[i] == ranges[i];
      NoLinksKeepText(text, init, entityMap);
    }
  }

  /** The loop over the sorted ranges. */
  method ApplyLinks(text: string, ranges: seq<EntityRange>, entityMap: map<string, Entity>) returns (t: string)
    ensures t == ApplyAll(text, ranges, entityMap)
  {
    t := text;
    for i := 0 to |ranges|
      invariant t == ApplyAll(text, ranges[..i], entityMap)
    {
      assert ranges[..i + 1][..i] == ranges[..i];
      var r := ranges[i];
      if r.key in entityMap && entityMap[r.key].kind == "LINK" {
        t := ApplyLink(t, r, LinkTarget(entityMap[r.key]));
      }
    }
    assert ranges[..|ranges|] == ranges;
  }

  // Sorting by descending offset, as `sort((a, b) => b.offset - a.offset)`
  // does: a stable sort, so ranges with equal offsets keep their order.

  predicate SortedDesc(s: seq<EntityRange>) {
    forall i, j :: 0 <= i < j < |s| ==> s[i].offset >= s[j].offset
  }

  /** Inserts `x` after every element whose offset is not smaller. */
  function Insert(s: seq<EntityRange>, x: EntityRange): (r: seq<EntityRange>)
    requires SortedDesc(s)
    ensures |r| == |s| + 1
    ensures forall k :: 0 <= k < |r| ==> r[k] == x || r[k] in s
    ensures SortedDesc(r)
  {
    if s == [] then [x]
    else if s[0].offset >= x.offset then
      var rest := Insert(s[1..], x);
      assert forall k :: 0 <= k < |rest| ==> rest[k].offset <= s[0].offset;
      [s[0]] + rest
    else [x] + s
  }

  /** Inserting adds exactly `x`. */
  lemma {:induction false} InsertAddsOne(s: seq<EntityRange>, x: EntityRange)
    requires SortedDesc(s)
    ensures multiset(Insert(s, x)) == multiset(s) + multiset{x}
  {
    if s != [] && s[0].offset >= x.offset {
      InsertAddsOne(s[1..], x);
      assert s == [s[0]] + s[1..];
    }
  }

  /** The sorted order of the ranges. */
  function SortDesc(s: seq<EntityRange>): (r: seq<EntityRange>)
    ensures SortedDesc(r)
    ensures multiset(r) == multiset(s)
  {
    if s == [] then []
    else
      var init := s[..|s| - 1];
      assert s == init + [s[|s| - 1]];
      InsertAddsOne(SortDesc(init), s[|s| - 1]);
      Insert(SortDesc(init), s[|s| - 1])
  }

  function AtOffset(o: int): EntityRange -> bool {
    (r: EntityRange) => r.offset == o
  }

  /** `x` put in front of ranges with smaller offsets comes last among
      those at its offset. */
  lemma FrontIsStable(x: EntityRange, s: seq<EntityRange>, o: int)
    requires forall k :: 0 <= k < |s| ==> s[k].offset < x.offset
    ensures Filter([x] + s, AtOffset(o)) == Filter(s, AtOffset(o)) + (if x.offset == o then [x] else [])
  {
    FilterSingle(x, AtOffset(o));
    FilterAppend([x], s, AtOffset(o));
    if x.offset == o {
      FilterKeepsNone(s, AtOffset(o));
    }
  }

  /** Keeping the first range in front preserves a stability fact about the
      rest. */
  lemma ConsIsStable(h: EntityRange, rest: seq<EntityRange>, restBefore: seq<EntityRange>, tail: seq<EntityRange>, o: int)
    requires Filter(rest, AtOffset(o)) == Filter(restBefore, AtOffset(o)) + tail
    ensures Filter([h] + rest, AtOffset(o)) == Filter([h] + restBefore, AtOffset(o)) + tail
  {
    var p := AtOffset(o);
    FilterAppend([h], rest, p);
    FilterAppend([h], restBefore, p);
    calc {
      Filter([h] + rest, p);
      Filter([h], p) + Filter(rest, p);
      Filter([h], p) + (Filter(restBefore, p) + tail);
      { AppendAssoc(Filter([h], p), Filter(restBefore, p), tail); }
      (Filter([h], p) + Filter(restBefore, p)) + tail;
      Filter([h] + restBefore, p) + tail;
    }
  }

  lemma {:induction false} InsertIsStable(s: seq<EntityRange>, x: EntityRange, o: int)
    requires SortedDesc(s)
    ensures Filter(Insert(s, x), AtOffset(o)) == Filter(s, AtOffset(o)) + (if x.offset == o then [x] else [])
  {
    if s == [] {
      FilterSingle(x, AtOffset(o));
    } else if s[0].offset >= x.offset {
      InsertIsStable(s[1..], x, o);
      ConsIsStable(s[0], Insert(s[1..], x), s[1..], if x.offset == o then [x] else [], o);
      assert [s[0]] + s[1..] == s;
    } else {
      FrontIsStable(x, s, o);
    }
  }

  /** One step of the sort: inserting the last range into the sorted
      earlier ones keeps the equal-offset order of the earlier ones. */
  lemma {:induction false} InsertLastIsStable(sorted: seq<EntityRange>, init: seq<EntityRange>, last: EntityRange, o: int)
    requires SortedDesc(sorted)
    requires Filter(sorted, AtOffset(o)) == Filter(init, AtOffset(o))
    ensures Filter(Insert(sorted, last), AtOffset(o)) == Filter(init + [last], AtOffset(o))
  {
    var p := AtOffset(o);
    InsertIsStable(sorted, last, o);
    FilterSingle(last, p);
    FilterAppend(init, [last], p);
  }

  /** Ranges sharing an offset come out of the sort in their original order. */
  lemma {:induction false} SortIsStable(s: seq<EntityRange>, o: int)
    ensures Filter(SortDesc(s), AtOffset(o)) == Filter(s, AtOffset(o))
  {
    if s != [] {
      var init, last := s[..|s| - 1], s[|s| - 1];
      assert init + [last] == s;
      SortIsStable(init, o);
      InsertLastIsStable(SortDesc(init), init, last, o);
    }
  }

  const H1Open := "<h1 class=\"text-2xl font-bold mb-4 text-white\">"
  const H2Open := "<h2 class=\"text-xl font-bold mb-3 text-white\">"
  const H3Open := "<h3 class=\"text-lg font-bold mb-2 text-white\">"
  const ParagraphOpen := "<p class=\"mb-2 text-slate-300\">"

  /** The block-level wrapper: headings of three levels, anything else a
      paragraph. */
  function WrapBlock(kind: string, text: string): (html: string)
    ensures kind == "header-one" ==> html == H1Open + text + "</h1>"
    ensures kind == "header-two" ==> html == H2Open + text + "</h2>"
    ensures kind == "header-three" ==> html == H3Open + text + "</h3>"
    ensures kind !in {"header-one", "header-two", "header-three"} ==> html == ParagraphOpen + text + "</p>"
  {
    if kind == "header-one" then H1Open + text + "</h1>"
    else if kind == "header-two" then H2Open + text + "</h2>"
    else if kind == "header-three" then H3Open + text + "</h3>"
    else ParagraphOpen + text + "</p>"
  }

  /** One block: its links applied from the last offset to the first, then
      wrapped. */
  function RenderBlock(b: Block, entityMap: map<string, Entity>): string {
    WrapBlock(b.kind, ApplyAll(b.text, SortDesc(b.entityRanges), entityMap))
  }

  /** A block without link ranges renders as its own text inside the
      element its type selects. */
  lemma PlainBlockKeepsText(b: Block, entityMap: map<string, Entity>)
    requires forall i :: 0 <= i < |b.entityRanges| ==> LinkEntity(b.entityRanges[i], entityMap).None?
    ensures RenderBlock(b, entityMap) == WrapBlock(b.kind, b.text)
  {
    var sorted := SortDesc(b.entityRanges);
    forall i | 0 <= i < |sorted|
      ensures LinkEntity(sorted[i], entityMap).None?
    {
      assert sorted[i] in multiset(sorted);
      assert sorted[i] in multiset(b.entityRanges);
    }
    NoLinksKeepText(b.text, sorted, entityMap);
  }

  /** A renderer for blocks of one document. */
  function BlockRenderer(entityMap: map<string, Entity>): Block -> string {
    (b: Block) => RenderBlock(b, entityMap)
  }

  /** `map(render).join('')`. */
  function ConcatMap(bs: seq<Block>, render: Block -> string): string {
    if bs == [] then "" else ConcatMap(bs[..|bs| - 1], render) + render(bs[|bs| - 1])
  }

  lemma {:induction false} ConcatMapAppend(a: seq<Block>, b: seq<Block>, render: Block -> string)
    ensures ConcatMap(a + b, render) == ConcatMap(a, render) + ConcatMap(b, render)
    decreases |b|
  {
    if b == [] {
      assert a + b == a;
    } else {
      var init := b[..|b| - 1];
      ConcatMapAppend(a, init, render);
      assert (a + b)[..|a + b| - 1] == a + init;
      assert (a + b)[|a + b| - 1] == b[|b| - 1];
    }
  }

  lemma ConcatMapSingle(b: Block, render: Block -> string)
    ensures ConcatMap([b], render) == render(b)
  {
    assert [b][..0] == [];
  }

  /** `renderDraftJSText`: the rendered blocks joined with nothing between. */
  function RenderDraftJsText(c: Content): (html: string)
    ensures c.blocks == [] ==> html == ""
    ensures |c.blocks| == 1 ==> html == RenderBlock(c.blocks[0], c.entityMap)
  {
    var render := BlockRenderer(c.entityMap);
    if |c.blocks| == 1 then
      ConcatMapSingle(c.blocks[0], render);
      assert c.blocks == [c.blocks[0]];
      ConcatMap(c.blocks, render)
    else
      ConcatMap(c.blocks, render)
  }

  /** Rendering is block by block: the document is the concatenation of its
      parts rendered separately. */
  lemma RenderConcatenates(a: seq<Block>, b: seq<Block>, m: map<string, Entity>)
    ensures RenderDraftJsText(Content(a + b, m)) == RenderDraftJsText(Content(a, m)) + RenderDraftJsText(Content(b, m))
  {
    ConcatMapAppend(a, b, BlockRenderer(m));
  }
}
