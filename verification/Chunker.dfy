/**
 * Text chunking for indexing: paragraphs are packed into chunks of about a thousand
 * characters, each chunk starting with the end of the one before. The input is the
 * list of trimmed, non-empty paragraphs.
 */
module Chunker {
  import opened Common

  const MAX_CHARS := 32764
  const TARGET_CHUNK_SIZE := 1000
  const OVERLAP_SIZE := 100
  const BLANK_LINE := "\n\n"

  datatype Chunk = Chunk(text: string, index: nat)
  datatype Error = ParagraphTooLong(length: nat)

  function Glue(current: string, paragraph: string): string {
    if current == "" then paragraph else current + (BLANK_LINE + paragraph)
  }

  /** Its last hundred characters, or all of it. */
  function Tail(text: string): string {
    if |text| <= OVERLAP_SIZE then text else text[|text| - OVERLAP_SIZE..]
  }

  function Cut(text: string): string {
    if |text| > MAX_CHARS then text[..MAX_CHARS] else text
  }

  /** Chunks given out so far, and the one being filled. */
  datatype Packing = Packing(done: seq<string>, current: string)

  function Add(a: Packing, paragraph: string): Packing {
    if a.current != "" && |Glue(a.current, paragraph)| > TARGET_CHUNK_SIZE
    then Packing(a.done + [Cut(a.current)], Glue(Tail(a.current), paragraph))
    else Packing(a.done, Glue(a.current, paragraph))
  }

  function Packed(paragraphs: seq<string>): Packing {
    if paragraphs == [] then Packing([], "")
    else Add(Packed(paragraphs[..|paragraphs| - 1]), paragraphs[|paragraphs| - 1])
  }

  function Texts(paragraphs: seq<string>): seq<string> {
    var a := Packed(paragraphs);
    if a.current == "" then a.done else a.done + [Cut(a.current)]
  }

  ghost predicate Paragraphs(paragraphs: seq<string>) {
    forall p :: p in paragraphs ==> 0 < |p| <= 32764
  }

  // ---------------------------------------------------------------- stitching

  /** The document: all paragraphs with a blank line in between. */
  function Joined(paragraphs: seq<string>): string {
    if paragraphs == [] then ""
    else Glue(Joined(paragraphs[..|paragraphs| - 1]), paragraphs[|paragraphs| - 1])
  }

  function Overlap(text: string): nat {
    if |text| <= OVERLAP_SIZE then |text| else OVERLAP_SIZE
  }

  function Without(text: string, n: nat): string {
    if n <= |text| then text[n..] else ""
  }

  /** The first chunk, then every later one without the overlap it starts with. */
  function Stitched(texts: seq<string>): string {
    if |texts| <= 1 then (if texts == [] then "" else texts[0])
    else Stitched(texts[..|texts| - 1]) + Without(texts[|texts| - 1], Overlap(texts[|texts| - 2]))
  }

  function Min(a: nat, b: nat): nat {
    if a <= b then a else b
  }

  /** With the overlap and the blank line before it, the last paragraph stays under the maximum. */
  predicate LastFits(paragraphs: seq<string>) {
    |paragraphs| <= 1
    || Min(OVERLAP_SIZE, |Joined(paragraphs[..|paragraphs| - 1])|) + |BLANK_LINE| + |paragraphs[|paragraphs| - 1]|
       <= MAX_CHARS
  }

  /** Every paragraph fits behind those before it. */
  predicate AllFit(paragraphs: seq<string>) {
    paragraphs == [] || (AllFit(paragraphs[..|paragraphs| - 1]) && LastFits(paragraphs))
  }

  /** What the chunks stitch back to if the current one is given out uncut. */
  function Restored(a: Packing): string {
    if a.done == [] then a.current
    else Stitched(a.done) + Without(a.current, Overlap(a.done[|a.done| - 1]))
  }

  /** The current chunk is longer than the overlap it starts with. */
  predicate Follows(a: Packing) {
    a.done != [] ==> Overlap(a.done[|a.done| - 1]) < |a.current|
  }

  /** The current chunk is the document so far, or long enough for a full overlap. */
  ghost predicate Packs(a: Packing, paragraphs: seq<string>) {
    var text := Joined(paragraphs);
    && (a.current == "" <==> paragraphs == [])
    && (a.current == text || OVERLAP_SIZE <= |a.current| <= |text|)
    && Follows(a)
    && (|a.current| > MAX_CHARS <==> !LastFits(paragraphs))
  }

  lemma StitchedMore(texts: seq<string>, text: string)
    ensures Stitched(texts + [text]) ==
      if texts == [] then text else Stitched(texts) + Without(text, Overlap(texts[|texts| - 1]))
  {
    assert (texts + [text])[..|texts|] == texts;
  }

  lemma {:induction false} PackedPacks(paragraphs: seq<string>)
    requires Paragraphs(paragraphs)
    ensures Packs(Packed(paragraphs), paragraphs)
  {
    if paragraphs != [] {
      var n := |paragraphs| - 1;
      PackedPacks(paragraphs[..n]);
      assert paragraphs[n] in paragraphs;
      AddPacks(Packed(paragraphs[..n]), paragraphs);
    }
  }

  lemma AddPacks(a: Packing, paragraphs: seq<string>)
    requires paragraphs != [] && 0 < |paragraphs[|paragraphs| - 1]| <= MAX_CHARS
    requires Packs(a, paragraphs[..|paragraphs| - 1])
    ensures Packs(Add(a, paragraphs[|paragraphs| - 1]), paragraphs)
  {
  }

  lemma {:induction false} JoinedNotEmpty(paragraphs: seq<string>)
    requires Paragraphs(paragraphs) && paragraphs != []
    ensures Joined(paragraphs) != ""
  {
    assert paragraphs[|paragraphs| - 1] in paragraphs;
  }

  lemma Drop(before: string, text: string, k: nat, more: string)
    requires k <= |text|
    ensures (text + more)[k..] == text[k..] + more
    ensures before + (text[k..] + more) == before + text[k..] + more
  {
  }

  lemma RestoredAfter(done: seq<string>, last: string, more: string)
    ensures Restored(Packing(done + [last], Tail(last) + more)) == Stitched(done + [last]) + more
  {
    var tail := Tail(last);
    assert (done + [last])[|done|] == last && |tail| == Overlap(last);
    assert (tail + more)[|tail|..] == more;
  }

  /** Giving out a chunk uncut and starting the next with its tail loses nothing. */
  lemma FlushRestores(a: Packing, p: string)
    requires Add(a, p) == Packing(a.done + [a.current], Glue(Tail(a.current), p))
    requires a.current != "" && Restored(a) != ""
    ensures Restored(Add(a, p)) == Glue(Restored(a), p)
  {
    StitchedMore(a.done, a.current);
    RestoredAfter(a.done, a.current, BLANK_LINE + p);
  }

  lemma GlueRestores(a: Packing, p: string)
    requires Add(a, p) == Packing(a.done, Glue(a.current, p)) && (a.current == "" <==> Restored(a) == "") && Follows(a)
    ensures Restored(Add(a, p)) == Glue(Restored(a), p)
  {
    if a.current != "" && a.done != [] {
      Drop(Stitched(a.done), a.current, Overlap(a.done[|a.done| - 1]), BLANK_LINE + p);
    }
  }

  lemma AddCases(a: Packing, p: string)
    requires |a.current| <= MAX_CHARS
    ensures Add(a, p) == Packing(a.done, Glue(a.current, p))
      || (a.current != "" && Add(a, p) == Packing(a.done + [a.current], Glue(Tail(a.current), p)))
  {
  }

  lemma AddRestores(a: Packing, p: string)
    requires |a.current| <= MAX_CHARS && (a.current == "" <==> Restored(a) == "") && Follows(a)
    ensures Restored(Add(a, p)) == Glue(Restored(a), p)
  {
    AddCases(a, p);
    if Add(a, p) == Packing(a.done, Glue(a.current, p)) { GlueRestores(a, p); } else { FlushRestores(a, p); }
  }

  /** A chunk that is cut on the way loses characters for good. */
  lemma AddLoses(a: Packing, p: string)
    requires |p| > 0 && |a.current| > MAX_CHARS && Follows(a)
    ensures |Restored(Add(a, p))| < |Restored(a)| + |BLANK_LINE| + |p|
  {
    FinishLoses(a);
    RestoredAfterCut(a.done, a.current, BLANK_LINE + p);
  }

  lemma RestoredAfterCut(done: seq<string>, last: string, more: string)
    requires |last| > MAX_CHARS
    ensures Restored(Packing(done + [Cut(last)], Tail(last) + more)) == Stitched(done + [Cut(last)]) + more
  {
    var tail := Tail(last);
    assert (done + [Cut(last)])[|done|] == Cut(last) && |tail| == Overlap(Cut(last));
    assert (tail + more)[|tail|..] == more;
  }

  lemma FinishLoses(a: Packing)
    requires |a.current| > MAX_CHARS && Follows(a)
    ensures |Stitched(a.done + [Cut(a.current)])| < |Restored(a)|
  {
    StitchedMore(a.done, Cut(a.current));
  }

  lemma PackedFacts(paragraphs: seq<string>)
    requires Paragraphs(paragraphs)
    ensures var a := Packed(paragraphs);
      && Follows(a)
      && (a.current == "" <==> paragraphs == []) && (Restored(a) == "" <==> paragraphs == [])
      && (Joined(paragraphs) == "" <==> paragraphs == [])
      && (|a.current| > MAX_CHARS <==> !LastFits(paragraphs))
  {
    PackedPacks(paragraphs);
    if paragraphs != [] {
      JoinedNotEmpty(paragraphs);
      RestoredNotEmpty(Packed(paragraphs));
    }
  }

  lemma RestoredNotEmpty(a: Packing)
    requires a.current != "" && Follows(a)
    ensures Restored(a) != ""
  {
  }

  lemma {:induction false} RestoresDocument(paragraphs: seq<string>)
    requires Paragraphs(paragraphs)
    requires paragraphs != [] ==> AllFit(paragraphs[..|paragraphs| - 1])
    ensures Restored(Packed(paragraphs)) == Joined(paragraphs)
  {
    if paragraphs != [] {
      var front := paragraphs[..|paragraphs| - 1];
      RestoresDocument(front);
      PackedFacts(front);
      AddRestores(Packed(front), paragraphs[|paragraphs| - 1]);
    }
  }

  lemma AddShrinks(a: Packing, p: string, document: nat)
    requires |p| > 0 && Restored(a) != "" && (a.current == "" <==> Restored(a) == "") && Follows(a)
    requires |Restored(a)| <= document
    ensures |Restored(Add(a, p))| <= document + |BLANK_LINE| + |p|
    ensures |a.current| > MAX_CHARS || |Restored(a)| < document ==>
      |Restored(Add(a, p))| < document + |BLANK_LINE| + |p|
  {
    if |a.current| > MAX_CHARS { AddLoses(a, p); } else { AddRestores(a, p); }
  }

  lemma {:induction false} NeverRestoresMore(paragraphs: seq<string>)
    requires Paragraphs(paragraphs) && paragraphs != []
    ensures |Restored(Packed(paragraphs))| <= |Joined(paragraphs)|
    ensures !AllFit(paragraphs[..|paragraphs| - 1]) ==> |Restored(Packed(paragraphs))| < |Joined(paragraphs)|
  {
    var front := paragraphs[..|paragraphs| - 1];
    if front != [] {
      NeverRestoresMore(front);
      PackedFacts(front);
      AddShrinks(Packed(front), paragraphs[|paragraphs| - 1], |Joined(front)|);
    }
  }

  /**
   * Stitching the chunks back together gives the document exactly when every paragraph, with the
   * overlap and blank line before it, stays within the maximum; otherwise characters are missing.
   */
  lemma StitchesBackIff(paragraphs: seq<string>)
    requires Paragraphs(paragraphs)
    ensures Stitched(Texts(paragraphs)) == Joined(paragraphs) <==> AllFit(paragraphs)
    ensures !AllFit(paragraphs) ==> |Stitched(Texts(paragraphs))| < |Joined(paragraphs)|
  {
    if paragraphs != [] {
      var a := Packed(paragraphs);
      PackedFacts(paragraphs);
      NeverRestoresMore(paragraphs);
      if |a.current| > MAX_CHARS {
        FinishLoses(a);
      } else {
        StitchedMore(a.done, a.current);
        if AllFit(paragraphs) { RestoresDocument(paragraphs); }
      }
    }
  }

  function Filled(n: nat): string {
    seq(n, _ => 'x')
  }

  /** A paragraph of the maximum length behind one of a hundred characters does not come back whole. */
  lemma LongParagraphIsCut()
    ensures var paragraphs := [Filled(OVERLAP_SIZE), Filled(MAX_CHARS)];
      && Paragraphs(paragraphs) && !AllFit(paragraphs)
      && |Stitched(Texts(paragraphs))| < |Joined(paragraphs)|
  {
    var paragraphs := [Filled(OVERLAP_SIZE), Filled(MAX_CHARS)];
    assert paragraphs[..1] == [Filled(OVERLAP_SIZE)] && [Filled(OVERLAP_SIZE)][..0] == [];
    assert Joined([Filled(OVERLAP_SIZE)]) == Filled(OVERLAP_SIZE);
    assert !LastFits(paragraphs);
    StitchesBackIff(paragraphs);
  }

  /** In particular for paragraphs that leave room for an overlap and a blank line. */
  lemma {:induction false} ShortParagraphsFit(paragraphs: seq<string>)
    requires forall p :: p in paragraphs ==> 0 < |p| <= MAX_CHARS - OVERLAP_SIZE - |BLANK_LINE|
    ensures AllFit(paragraphs)
    ensures Stitched(Texts(paragraphs)) == Joined(paragraphs)
  {
    if paragraphs != [] {
      assert paragraphs[|paragraphs| - 1] in paragraphs;
      ShortParagraphsFit(paragraphs[..|paragraphs| - 1]);
    }
    StitchesBackIff(paragraphs);
  }

  // -------------------------------------------------------------------- sizes

  lemma {:induction false} PackingSizes(paragraphs: seq<string>, longest: nat)
    requires Paragraphs(paragraphs) && forall p :: p in paragraphs ==> |p| <= longest
    ensures var a := Packed(paragraphs);
      && (|a.current| <= TARGET_CHUNK_SIZE || |a.current| <= OVERLAP_SIZE + |BLANK_LINE| + longest)
      && forall t :: t in a.done ==>
           |t| <= MAX_CHARS && (|t| <= TARGET_CHUNK_SIZE || |t| <= OVERLAP_SIZE + |BLANK_LINE| + longest)
  {
    if paragraphs != [] {
      assert paragraphs[|paragraphs| - 1] in paragraphs;
      PackingSizes(paragraphs[..|paragraphs| - 1], longest);
    }
  }

  /** No chunk is over the embedding limit, nor over a thousand characters unless one long paragraph makes it so. */
  lemma ChunkSizes(paragraphs: seq<string>, longest: nat)
    requires Paragraphs(paragraphs) && forall p :: p in paragraphs ==> |p| <= longest
    ensures forall t :: t in Texts(paragraphs) ==>
      |t| <= MAX_CHARS && (|t| <= TARGET_CHUNK_SIZE || |t| <= OVERLAP_SIZE + |BLANK_LINE| + longest)
  {
    PackingSizes(paragraphs, longest);
  }

  ghost predicate StartsWithTail(before: string, text: string) {
    var k := Min(100, |before|);
    && k + 2 <= |text|
    && text[..k] == before[|before| - k..] && text[k] == '\n' && text[k + 1] == '\n'
  }

  ghost predicate Linked(texts: seq<string>) {
    forall i :: 0 < i < |texts| ==> StartsWithTail(texts[i - 1], texts[i])
  }

  ghost predicate PackingLinked(a: Packing) {
    Linked(a.done) && (a.done != [] ==> StartsWithTail(a.done[|a.done| - 1], a.current))
  }

  lemma AddLinks(a: Packing, p: string)
    requires PackingLinked(a) && |a.current| <= MAX_CHARS
    ensures PackingLinked(Add(a, p))
  {
    var t := Add(a, p);
    if t.done != a.done {
      var tail := Tail(a.current);
      assert tail != "" && t.current == tail + (BLANK_LINE + p);
      assert t.current[|tail|] == '\n' && t.current[|tail| + 1] == '\n';
      assert Cut(a.current) == a.current;
    } else if a.done != [] {
      var k := Min(100, |a.done[|a.done| - 1]|);
      assert t.current[..k] == a.current[..k];
      assert t.current[k] == a.current[k] && t.current[k + 1] == a.current[k + 1];
    }
  }

  lemma {:induction false} PackingLinks(paragraphs: seq<string>)
    requires Paragraphs(paragraphs) && (paragraphs != [] ==> AllFit(paragraphs[..|paragraphs| - 1]))
    ensures PackingLinked(Packed(paragraphs))
  {
    if paragraphs != [] {
      var front := paragraphs[..|paragraphs| - 1];
      PackingLinks(front);
      PackedPacks(front);
      AddLinks(Packed(front), paragraphs[|paragraphs| - 1]);
    }
  }

  /** Every chunk but the first starts with the last hundred characters of the one before, when nothing was cut. */
  lemma ChunksOverlap(paragraphs: seq<string>)
    requires Paragraphs(paragraphs) && AllFit(paragraphs)
    ensures Linked(Texts(paragraphs))
  {
    PackingLinks(paragraphs);
    PackedFacts(paragraphs);
    LinkedEnd(Packed(paragraphs));
  }

  lemma LinkedEnd(a: Packing)
    requires PackingLinked(a) && |a.current| <= MAX_CHARS
    ensures Linked(a.done + [Cut(a.current)])
  {
  }

  /** What follows the chunk begins with this paragraph, which would have taken it past a thousand characters. */
  ghost predicate ClosedBy(before: string, text: string, p: string) {
    var k := Min(100, |before|);
    && |before| + |BLANK_LINE| + |p| > 1000
    && k + |BLANK_LINE| + |p| <= |text| && text[k + |BLANK_LINE|..k + |BLANK_LINE| + |p|] == p
  }

  ghost predicate Closed(texts: seq<string>, paragraphs: seq<string>) {
    forall i :: 0 < i < |texts| ==> ClosedAt(texts, paragraphs, i)
  }

  /** All chunks so far, with the one being filled. */
  function All(a: Packing): seq<string> {
    a.done + [a.current]
  }

  lemma GrowsClosed(before: string, text: string, more: string, p: string)
    requires ClosedBy(before, text, p)
    ensures ClosedBy(before, text + more, p)
  {
    var k := Min(100, |before|) + |BLANK_LINE|;
    assert (text + more)[k..k + |p|] == text[k..k + |p|];
  }

  /** The pair of chunks `i - 1` and `i` is closed by some paragraph. */
  ghost predicate ClosedAt(texts: seq<string>, paragraphs: seq<string>, i: nat)
    requires 0 < i < |texts|
  {
    exists p :: p in paragraphs && ClosedBy(texts[i - 1], texts[i], p)
  }

  lemma ClosedFurther(texts: seq<string>, paragraphs: seq<string>, more: seq<string>, i: nat)
    requires 0 < i < |texts| && ClosedAt(texts, paragraphs, i)
    ensures exists p :: p in paragraphs + more && ClosedBy(texts[i - 1], texts[i], p)
  {
    var p :| p in paragraphs && ClosedBy(texts[i - 1], texts[i], p);
    assert p in paragraphs + more;
  }

  lemma GlueCloses(done: seq<string>, current: string, p: string, front: seq<string>)
    requires Closed(done + [current], front)
    ensures Closed(done + [Glue(current, p)], front + [p])
  {
    var was, now := done + [current], done + [Glue(current, p)];
    forall i | 0 < i < |now| ensures ClosedAt(now, front + [p], i) {
      assert ClosedAt(was, front, i);
      ClosedFurther(was, front, [p], i);
      var q :| q in front + [p] && ClosedBy(was[i - 1], was[i], q);
      if i == |done| { GrowsClosed(was[i - 1], current, BLANK_LINE + p, q); }
      assert ClosedBy(now[i - 1], now[i], q);
    }
  }

  lemma FlushCloses(done: seq<string>, current: string, p: string, front: seq<string>)
    requires Closed(done + [current], front) && current != "" && |Glue(current, p)| > TARGET_CHUNK_SIZE
    ensures Closed(done + [current] + [Glue(Tail(current), p)], front + [p])
  {
    var was, now := done + [current], done + [current] + [Glue(Tail(current), p)];
    forall i | 0 < i < |now| ensures ClosedAt(now, front + [p], i) {
      if i < |was| {
        assert ClosedAt(was, front, i);
        ClosedFurther(was, front, [p], i);
        var q :| q in front + [p] && ClosedBy(was[i - 1], was[i], q);
        assert ClosedBy(now[i - 1], now[i], q);
      } else {
        FlushedIsClosed(current, p);
        assert p in front + [p] && ClosedBy(now[i - 1], now[i], p);
      }
    }
  }

  lemma AddCloses(a: Packing, front: seq<string>, p: string)
    requires |a.current| <= MAX_CHARS && Closed(All(a), front)
    ensures Closed(All(Add(a, p)), front + [p])
  {
    if a.current != "" && |Glue(a.current, p)| > TARGET_CHUNK_SIZE {
      FlushCloses(a.done, a.current, p, front);
    } else {
      GlueCloses(a.done, a.current, p, front);
    }
  }

  lemma FlushedIsClosed(current: string, p: string)
    requires current != "" && |Glue(current, p)| > TARGET_CHUNK_SIZE
    ensures ClosedBy(current, Glue(Tail(current), p), p)
  {
    var tail := Tail(current);
    assert tail + (BLANK_LINE + p) == tail + BLANK_LINE + p;
  }

  lemma {:induction false} PackingCloses(paragraphs: seq<string>)
    requires Paragraphs(paragraphs) && (paragraphs != [] ==> AllFit(paragraphs[..|paragraphs| - 1]))
    ensures Closed(All(Packed(paragraphs)), paragraphs)
  {
    if paragraphs != [] {
      var front := paragraphs[..|paragraphs| - 1];
      PackingCloses(front);
      PackedPacks(front);
      AddCloses(Packed(front), front, paragraphs[|paragraphs| - 1]);
      assert front + [paragraphs[|paragraphs| - 1]] == paragraphs;
    }
  }

  /** A chunk is closed only when the paragraph the next one begins with would have made it too long. */
  lemma ChunksAreFull(paragraphs: seq<string>)
    requires Paragraphs(paragraphs) && AllFit(paragraphs)
    ensures Closed(Texts(paragraphs), paragraphs)
  {
    PackingCloses(paragraphs);
    PackedFacts(paragraphs);
  }

  // ----------------------------------------------------------------- the loop

  /** The chunks have these texts and are numbered from 0. */
  ghost predicate Numbered(chunks: seq<Chunk>, texts: seq<string>) {
    |chunks| == |texts| && forall j :: 0 <= j < |chunks| ==> chunks[j] == Chunk(texts[j], j)
  }

  /** The first paragraph that is too long. */
  predicate TooLongAt(paragraphs: seq<string>, i: nat)
    requires i < |paragraphs|
  {
    |paragraphs[i]| > MAX_CHARS && forall j :: 0 <= j < i ==> |paragraphs[j]| <= MAX_CHARS
  }

  /** Fails on the first paragraph that is too long by itself. */
  method ChunkText(paragraphs: seq<string>) returns (r: Result<seq<Chunk>, Error>)
    requires forall p :: p in paragraphs ==> |p| > 0
    ensures r.Ok? <==> Paragraphs(paragraphs)
    ensures r.Ok? ==> Numbered(r.value, Texts(paragraphs))
    ensures r.Err? ==>
      exists i :: 0 <= i < |paragraphs| && TooLongAt(paragraphs, i) && r.error == ParagraphTooLong(|paragraphs[i]|)
  {
    var error, chunks, currentChunk := PackAll(paragraphs);
    if error.Some? { return Err(error.value); }
    chunks := CloseLast(chunks, currentChunk, Packed(paragraphs));
    return Ok(chunks);
  }

  method PackAll(paragraphs: seq<string>) returns (error: Option<Error>, chunks: seq<Chunk>, currentChunk: string)
    ensures error.None? <==> forall i :: 0 <= i < |paragraphs| ==> |paragraphs[i]| <= MAX_CHARS
    ensures error.None? ==>
      Numbered(chunks, Packed(paragraphs).done) && currentChunk == Packed(paragraphs).current
    ensures error.Some? ==>
      exists i :: 0 <= i < |paragraphs| && TooLongAt(paragraphs, i) && error == Some(ParagraphTooLong(|paragraphs[i]|))
  {
    chunks, currentChunk := [], "";
    ghost var a := Packing([], "");
    for i := 0 to |paragraphs|
      invariant forall j :: 0 <= j < i ==> |paragraphs[j]| <= MAX_CHARS
      invariant a == Packed(paragraphs[..i])
      invariant Numbered(chunks, a.done) && currentChunk == a.current
    {
      var paragraph := paragraphs[i];
      assert paragraphs[..i + 1][..i] == paragraphs[..i];
      if |paragraph| > MAX_CHARS {
        assert TooLongAt(paragraphs, i);
        return Some(ParagraphTooLong(|paragraph|)), chunks, currentChunk;
      }
      chunks, currentChunk := AddParagraph(chunks, currentChunk, paragraph, a);
      a := Add(a, paragraph);
    }
    assert paragraphs[..|paragraphs|] == paragraphs;
    error := None;
  }

  /** What is left at the end is the last chunk. */
  method CloseLast(chunks: seq<Chunk>, currentChunk: string, ghost a: Packing) returns (all: seq<Chunk>)
    requires Numbered(chunks, a.done) && currentChunk == a.current
    ensures Numbered(all, if a.current == "" then a.done else a.done + [Cut(a.current)])
  {
    all := chunks;
    if currentChunk != "" {
      var text := if |currentChunk| > MAX_CHARS then currentChunk[..MAX_CHARS] else currentChunk;
      all := chunks + [Chunk(text, |chunks|)];
    }
  }

  /** The loop's body: glue the paragraph on, or give out the current chunk and start from its tail. */
  method AddParagraph(chunks: seq<Chunk>, currentChunk: string, paragraph: string, ghost a: Packing)
    returns (chunks': seq<Chunk>, current': string)
    requires Numbered(chunks, a.done) && currentChunk == a.current
    ensures Numbered(chunks', Add(a, paragraph).done) && current' == Add(a, paragraph).current
  {
    chunks' := chunks;
    var potentialChunk := if currentChunk != "" then currentChunk + (BLANK_LINE + paragraph) else paragraph;
    if currentChunk != "" && |potentialChunk| > TARGET_CHUNK_SIZE {
      if |currentChunk| > MAX_CHARS {
        chunks' := chunks + [Chunk(currentChunk[..MAX_CHARS], |chunks|)];
      } else {
        chunks' := chunks + [Chunk(currentChunk, |chunks|)];
      }
      var overlapText := Tail(currentChunk);
      current' := if overlapText != "" then overlapText + (BLANK_LINE + paragraph) else paragraph;
    } else {
      current' := potentialChunk;
    }
  }
}
