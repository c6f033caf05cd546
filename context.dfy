/** Context assembly: the retrieved (document, metadata) pairs become one
    text of `From {source}:\n{doc}` blocks joined by blank lines, in the
    order the query returned them. */
module Context {
  import opened Text
  import opened Ingest

  const BlockSeparator: string := "\n\n"

  /** The block for one retrieved document. */
  function Block(doc: string, meta: Metadata): (b: string)
    ensures StartsWith(b, "From " + meta.sourceDocument + ":\n")
    ensures |b| == |"From " + meta.sourceDocument + ":\n"| + |doc|
    ensures b[|b| - |doc|..] == doc
  {
    "From " + meta.sourceDocument + ":\n" + doc
  }

  /** `zip(documents, metadatas)`: pairs up to the shorter list. */
  function Blocks(docs: seq<string>, metas: seq<Metadata>): (bs: seq<string>)
    ensures |bs| == if |docs| < |metas| then |docs| else |metas|
    ensures forall k | 0 <= k < |bs| :: bs[k] == Block(docs[k], metas[k])
  {
    var n := if |docs| < |metas| then |docs| else |metas|;
    seq(n, k requires 0 <= k < n => Block(docs[k], metas[k]))
  }

  function AssembleContext(docs: seq<string>, metas: seq<Metadata>): string {
    Join(Blocks(docs, metas), BlockSeparator)
  }

  /** Where the k-th part starts in `Join(parts, sep)`. */
  function Offset(parts: seq<string>, sep: string, k: nat): nat
    requires k <= |parts|
  {
    if k == 0 then 0 else |parts[0]| + |sep| + Offset(parts[1..], sep, k - 1)
  }

  /** A slice of the right operand of `+`, taken in the whole. */
  lemma SliceRight(x: string, y: string, lo: nat, hi: nat)
    requires lo <= hi <= |y|
    ensures (x + y)[|x| + lo..|x| + hi] == y[lo..hi]
  {
  }

  /** `Join` of two or more parts: the first, the separator, the rest. */
  lemma JoinCons(parts: seq<string>, sep: string)
    requires |parts| > 1
    ensures Join(parts, sep) == (parts[0] + sep) + Join(parts[1..], sep)
  {
  }

  /** The k-th part of `Join(parts, sep)` sits at its offset. */
  lemma {:induction false} JoinPartAt(parts: seq<string>, sep: string, k: nat)
    requires k < |parts|
    ensures Offset(parts, sep, k) + |parts[k]| <= |Join(parts, sep)|
    ensures Join(parts, sep)[Offset(parts, sep, k)..Offset(parts, sep, k) + |parts[k]|] == parts[k]
  {
    if |parts| > 1 {
      var rest := parts[1..];
      var head := parts[0] + sep;
      var tail := Join(rest, sep);
      JoinCons(parts, sep);
      if k > 0 {
        JoinPartAt(rest, sep, k - 1);
        var o := Offset(rest, sep, k - 1);
        assert Offset(parts, sep, k) == |head| + o;
        assert rest[k - 1] == parts[k];
        SliceRight(head, tail, o, o + |parts[k]|);
      }
    }
  }

  /** Every part but the last is followed by the separator. */
  lemma {:induction false} JoinSeparatorAfter(parts: seq<string>, sep: string, k: nat)
    requires k + 1 < |parts|
    ensures Offset(parts, sep, k) + |parts[k]| + |sep| <= |Join(parts, sep)|
    ensures Join(parts, sep)[Offset(parts, sep, k) + |parts[k]|..Offset(parts, sep, k) + |parts[k]| + |sep|] == sep
  {
    var rest := parts[1..];
    var head := parts[0] + sep;
    var tail := Join(rest, sep);
    JoinCons(parts, sep);
    if k > 0 {
      JoinSeparatorAfter(rest, sep, k - 1);
      var e := Offset(rest, sep, k - 1) + |parts[k]|;
      assert Offset(parts, sep, k) + |parts[k]| == |head| + e;
      assert rest[k - 1] == parts[k];
      SliceRight(head, tail, e, e + |sep|);
    } else {
      assert head + tail == parts[0] + (sep + tail);
      SliceRight(parts[0], sep + tail, 0, |sep|);
    }
  }

  /** Consecutive offsets differ by the part and one separator. */
  lemma {:induction false} OffsetStep(parts: seq<string>, sep: string, k: nat)
    requires k < |parts|
    ensures Offset(parts, sep, k + 1) == Offset(parts, sep, k) + |parts[k]| + |sep|
  {
    if k > 0 {
      OffsetStep(parts[1..], sep, k - 1);
    }
  }

  /** `Join` ends with its last part. */
  lemma {:induction false} JoinLength(parts: seq<string>, sep: string)
    requires |parts| > 0
    ensures |Join(parts, sep)| == Offset(parts, sep, |parts| - 1) + |parts[|parts| - 1]|
  {
    if |parts| > 1 {
      JoinCons(parts, sep);
      JoinLength(parts[1..], sep);
      assert parts[1..][|parts| - 2] == parts[|parts| - 1];
    }
  }

  /** The context is empty exactly when no pair was retrieved. */
  lemma ContextEmptyIff(docs: seq<string>, metas: seq<Metadata>)
    ensures AssembleContext(docs, metas) == "" <==> |docs| == 0 || |metas| == 0
  {
    var bs := Blocks(docs, metas);
    if |bs| > 0 {
      JoinPartAt(bs, BlockSeparator, 0);
      assert |bs[0]| > 0;
    }
  }

  /** The k-th retrieved pair appears as the k-th block: at its offset, after
      the blocks of all earlier pairs, and followed by a blank line and the
      next block unless it is the last one, in which case the context ends
      with it. */
  lemma ContextBlockAt(docs: seq<string>, metas: seq<Metadata>, k: nat)
    requires k < |docs| && k < |metas|
    ensures var c, bs := AssembleContext(docs, metas), Blocks(docs, metas);
      var at := Offset(bs, BlockSeparator, k);
      at + |Block(docs[k], metas[k])| <= |c| &&
      c[at..at + |Block(docs[k], metas[k])|] == Block(docs[k], metas[k]) &&
      (k + 1 < |bs| ==>
         at + |Block(docs[k], metas[k])| + 2 <= |c| &&
         c[at + |Block(docs[k], metas[k])|..at + |Block(docs[k], metas[k])| + 2] == BlockSeparator &&
         Offset(bs, BlockSeparator, k + 1) == at + |Block(docs[k], metas[k])| + 2) &&
      (k + 1 == |bs| ==> |c| == at + |Block(docs[k], metas[k])|)
  {
    var bs := Blocks(docs, metas);
    JoinPartAt(bs, BlockSeparator, k);
    if k + 1 < |bs| {
      JoinSeparatorAfter(bs, BlockSeparator, k);
      OffsetStep(bs, BlockSeparator, k);
    } else {
      JoinLength(bs, BlockSeparator);
    }
  }
}
