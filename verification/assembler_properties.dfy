/** Reference definitions for what the assembler computes, and the lemmas
    that connect the fold of `Assembler` to them: slot count, per-slot
    concatenation, isolation of slots, chunk-split invariance and the
    content chunks. */
module AssemblerProperties {
  import opened Common
  import opened Assembler

  /** All tool-call deltas of a stream, in arrival order. */
  function Deltas(frags: seq<Fragment>): (ds: seq<ToolDelta>)
    decreases |frags|
  {
    if |frags| == 0 then []
    else Deltas(frags[..|frags| - 1]) + frags[|frags| - 1].toolDeltas
  }

  /** The content chunks a stream keeps: the present, non-empty content
      deltas, in arrival order. */
  function Chunks(frags: seq<Fragment>): seq<string>
    decreases |frags|
  {
    if |frags| == 0 then []
    else
      var last := frags[|frags| - 1];
      Chunks(frags[..|frags| - 1]) + (if Present(last.content) then [last.content.value] else [])
  }

  /** All content text of a stream, absent deltas contributing nothing. */
  function Transcript(frags: seq<Fragment>): string
    decreases |frags|
  {
    if |frags| == 0 then ""
    else Transcript(frags[..|frags| - 1]) + Text(frags[|frags| - 1].content)
  }

  function Join(chunks: seq<string>): string
    decreases |chunks|
  {
    if |chunks| == 0 then ""
    else Join(chunks[..|chunks| - 1]) + chunks[|chunks| - 1]
  }

  function Max(a: nat, b: nat): nat {
    if a < b then b else a
  }

  /** One more than the largest slot index of `ds`, or 0 when `ds` is empty. */
  function SlotCount(ds: seq<ToolDelta>): (n: nat)
    ensures forall j :: 0 <= j < |ds| ==> ds[j].index < n
    ensures |ds| == 0 ==> n == 0
    ensures |ds| > 0 ==> exists j :: 0 <= j < |ds| && n == ds[j].index + 1
    decreases |ds|
  {
    if |ds| == 0 then 0
    else
      var p := ds[..|ds| - 1];
      var n := Max(SlotCount(p), ds[|ds| - 1].index + 1);
      assert forall j :: 0 <= j < |p| ==> ds[j] == p[j];
      n
  }

  /** Every delta names a slot that already exists or the next new one. */
  ghost predicate Dense(ds: seq<ToolDelta>) {
    forall j :: 0 <= j < |ds| ==> ds[j].index <= SlotCount(ds[..j])
  }

  /** The concatenation, in arrival order, of field `f` of the deltas
      tagged with slot `i`. */
  function SlotText(ds: seq<ToolDelta>, i: nat, f: Field): string
    decreases |ds|
  {
    if |ds| == 0 then ""
    else
      var d := ds[|ds| - 1];
      SlotText(ds[..|ds| - 1], i, f) + (if d.index == i then Part(d, f) else "")
  }

  /** The deltas of slot `i`, in arrival order. */
  function Only(ds: seq<ToolDelta>, i: nat): (r: seq<ToolDelta>)
    ensures forall j :: 0 <= j < |r| ==> r[j].index == i
    decreases |ds|
  {
    if |ds| == 0 then []
    else
      var d := ds[|ds| - 1];
      Only(ds[..|ds| - 1], i) + (if d.index == i then [d] else [])
  }

  /** `d1` then `d2` carry, between them, exactly the text of `d` for the same slot. */
  ghost predicate SplitOf(d: ToolDelta, d1: ToolDelta, d2: ToolDelta) {
    && d1.index == d.index
    && d2.index == d.index
    && forall f :: Part(d, f) == Part(d1, f) + Part(d2, f)
  }

  /** A result of the delta fold continued with more deltas. */
  function FoldFrom(r: Result<seq<ToolCall>>, ds: seq<ToolDelta>): Result<seq<ToolCall>> {
    match r
    case Err(e) => Err(e)
    case Ok(calls) => Fold(calls, ds)
  }

  /** A delta-fold result paired with content chunks. */
  function WithContent(r: Result<seq<ToolCall>>, content: seq<string>): Result<Reply> {
    match r
    case Err(e) => Err(e)
    case Ok(calls) => Ok(Reply(content, calls))
  }

  lemma CallEquality(a: ToolCall, b: ToolCall)
    requires forall f :: Get(a, f) == Get(b, f)
    ensures a == b
  {
    assert Get(a, Id) == Get(b, Id);
    assert Get(a, Name) == Get(b, Name);
    assert Get(a, Arguments) == Get(b, Arguments);
  }

  /** Folding `a + b` is folding `a`, then `b` from where `a` left off. */
  lemma {:induction false} FoldAppend(calls: seq<ToolCall>, a: seq<ToolDelta>, b: seq<ToolDelta>)
    ensures Fold(calls, a + b) == FoldFrom(Fold(calls, a), b)
    decreases |b|
  {
    if |b| == 0 {
      assert a + b == a;
    } else {
      var b' := b[..|b| - 1];
      assert (a + b)[..|a + b| - 1] == a + b';
      assert (a + b)[|a + b| - 1] == b[|b| - 1];
      FoldAppend(calls, a, b');
    }
  }

  lemma {:induction false} DeltasAppend(x: seq<Fragment>, y: seq<Fragment>)
    ensures Deltas(x + y) == Deltas(x) + Deltas(y)
    decreases |y|
  {
    if |y| == 0 {
      assert x + y == x;
    } else {
      var y' := y[..|y| - 1];
      assert (x + y)[..|x + y| - 1] == x + y';
      assert (x + y)[|x + y| - 1] == y[|y| - 1];
      DeltasAppend(x, y');
    }
  }

  lemma {:induction false} ChunksAppend(x: seq<Fragment>, y: seq<Fragment>)
    ensures Chunks(x + y) == Chunks(x) + Chunks(y)
    decreases |y|
  {
    if |y| == 0 {
      assert x + y == x;
    } else {
      var y' := y[..|y| - 1];
      assert (x + y)[..|x + y| - 1] == x + y';
      assert (x + y)[|x + y| - 1] == y[|y| - 1];
      ChunksAppend(x, y');
    }
  }

  /** The fragment fold is the delta fold over all deltas of the stream,
      with the stream's kept content chunks. */
  lemma {:induction false} AssembleIsDeltaFold(frags: seq<Fragment>)
    ensures Assemble(frags) == WithContent(Fold([], Deltas(frags)), Chunks(frags))
    decreases |frags|
  {
    if |frags| > 0 {
      var p := frags[..|frags| - 1];
      var f := frags[|frags| - 1];
      AssembleIsDeltaFold(p);
      FoldAppend([], Deltas(p), f.toolDeltas);
    }
  }

  /** A slot at or beyond the slot count has received no text. */
  lemma {:induction false} SlotTextBeyondCount(ds: seq<ToolDelta>, i: nat, f: Field)
    requires SlotCount(ds) <= i
    ensures SlotText(ds, i, f) == ""
    decreases |ds|
  {
    if |ds| > 0 {
      var p := ds[..|ds| - 1];
      assert forall j :: 0 <= j < |p| ==> p[j] == ds[j];
      SlotTextBeyondCount(p, i, f);
    }
  }

  lemma DenseSnoc(p: seq<ToolDelta>, d: ToolDelta)
    ensures Dense(p + [d]) <==> Dense(p) && d.index <= SlotCount(p)
  {
    var ds := p + [d];
    assert forall j :: 0 <= j <= |p| ==> ds[..j] == p[..j];
    assert ds[..|p|] == p;
    if Dense(p) && d.index <= SlotCount(p) {
      forall j | 0 <= j < |ds|
        ensures ds[j].index <= SlotCount(ds[..j])
      {
        if j < |p| {
          assert ds[j] == p[j];
        }
      }
    }
  }

  lemma SlotTextSnoc(p: seq<ToolDelta>, d: ToolDelta, i: nat, f: Field)
    ensures SlotText(p + [d], i, f) == SlotText(p, i, f) + (if d.index == i then Part(d, f) else "")
    ensures SlotCount(p + [d]) == Max(SlotCount(p), d.index + 1)
  {
    assert (p + [d])[..|p|] == p;
  }

  /** One delta extends the per-slot characterisation of the fold. */
  lemma FoldSpecStep(calls: seq<ToolCall>, p: seq<ToolDelta>, d: ToolDelta)
    requires |calls| == SlotCount(p)
    requires forall i, f :: 0 <= i < |calls| ==> Get(calls[i], f) == SlotText(p, i, f)
    requires d.index <= |calls|
    ensures |ApplyDelta(calls, d).value| == SlotCount(p + [d])
    ensures forall i, f :: 0 <= i < SlotCount(p + [d]) ==>
              Get(ApplyDelta(calls, d).value[i], f) == SlotText(p + [d], i, f)
  {
    var r := ApplyDelta(calls, d).value;
    forall i, f | 0 <= i < SlotCount(p + [d])
      ensures Get(r[i], f) == SlotText(p + [d], i, f)
    {
      SlotTextSnoc(p, d, i, f);
      if i == d.index && d.index == |calls| {
        SlotTextBeyondCount(p, i, f);
      } else if i != d.index {
        assert Get(r[i], f) == SlotText(p, i, f);
      }
    }
    SlotTextSnoc(p, d, 0, Id);
  }

  /** The delta fold from an empty list succeeds exactly when every delta
      names an existing slot or the next new one; it then holds one
      accumulator per slot, and each accumulator field is the in-order
      concatenation of that field over the slot's deltas. */
  lemma {:induction false} FoldSpec(ds: seq<ToolDelta>)
    ensures Fold([], ds).Ok? <==> Dense(ds)
    ensures Fold([], ds).Ok? ==> |Fold([], ds).value| == SlotCount(ds)
    ensures Fold([], ds).Ok? ==> forall i, f :: 0 <= i < SlotCount(ds) ==>
              Get(Fold([], ds).value[i], f) == SlotText(ds, i, f)
    decreases |ds|
  {
    if |ds| > 0 {
      var p := ds[..|ds| - 1];
      var d := ds[|ds| - 1];
      assert ds == p + [d];
      FoldSpec(p);
      DenseSnoc(p, d);
      if Fold([], p).Ok? && d.index <= |Fold([], p).value| {
        FoldSpecStep(Fold([], p).value, p, d);
      }
    }
  }

  /** The stream assembles exactly when its deltas are dense; the reply then
      has one call per slot up to the largest slot index, each field the
      concatenation of its slot's parts, and the kept content chunks. */
  lemma AssembleSpec(frags: seq<Fragment>)
    ensures Assemble(frags).Ok? <==> Dense(Deltas(frags))
    ensures Assemble(frags).Ok? ==> |Assemble(frags).value.toolCalls| == SlotCount(Deltas(frags))
    ensures Assemble(frags).Ok? ==> forall i, f :: 0 <= i < |Assemble(frags).value.toolCalls| ==>
              Get(Assemble(frags).value.toolCalls[i], f) == SlotText(Deltas(frags), i, f)
    ensures Assemble(frags).Ok? ==> Assemble(frags).value.content == Chunks(frags)
  {
    AssembleIsDeltaFold(frags);
    FoldSpec(Deltas(frags));
  }

  /** Only the deltas of slot `i` decide the text of slot `i`. */
  lemma {:induction false} SlotTextOnly(ds: seq<ToolDelta>, i: nat, f: Field)
    ensures SlotText(ds, i, f) == SlotText(Only(ds, i), i, f)
    decreases |ds|
  {
    if |ds| > 0 {
      var p := ds[..|ds| - 1];
      var d := ds[|ds| - 1];
      SlotTextOnly(p, i, f);
      var o := Only(ds, i);
      if d.index == i {
        assert o == Only(p, i) + [d];
        assert o[..|o| - 1] == Only(p, i);
        assert o[|o| - 1] == d;
      } else {
        assert o == Only(p, i);
        assert SlotText(ds, i, f) == SlotText(p, i, f) + "";
      }
    }
  }

  /** No cross-slot contamination: two streams that deliver the same deltas
      to slot `i`, however other slots' deltas are interleaved with them,
      assemble the same call in slot `i`. */
  lemma SlotIsolation(x: seq<Fragment>, y: seq<Fragment>, i: nat)
    requires Assemble(x).Ok? && Assemble(y).Ok?
    requires Only(Deltas(x), i) == Only(Deltas(y), i)
    requires i < |Assemble(x).value.toolCalls| && i < |Assemble(y).value.toolCalls|
    ensures Assemble(x).value.toolCalls[i] == Assemble(y).value.toolCalls[i]
  {
    AssembleSpec(x);
    AssembleSpec(y);
    forall f
      ensures Get(Assemble(x).value.toolCalls[i], f) == Get(Assemble(y).value.toolCalls[i], f)
    {
      SlotTextOnly(Deltas(x), i, f);
      SlotTextOnly(Deltas(y), i, f);
    }
    CallEquality(Assemble(x).value.toolCalls[i], Assemble(y).value.toolCalls[i]);
  }

  /** Applying `d` equals applying `d1` then `d2` when they split it. */
  lemma SplitDelta(calls: seq<ToolCall>, d: ToolDelta, d1: ToolDelta, d2: ToolDelta)
    requires SplitOf(d, d1, d2)
    ensures Fold(calls, [d]) == Fold(calls, [d1, d2])
  {
    assert [d1, d2][..1] == [d1];
    assert Fold(calls, [d]) == ApplyDelta(calls, d);
    assert Fold(calls, [d1]) == ApplyDelta(calls, d1);
    if d.index <= |calls| {
      var one := ApplyDelta(calls, d).value;
      var two := ApplyDelta(ApplyDelta(calls, d1).value, d2).value;
      assert |one| == |two|;
      forall i | 0 <= i < |one|
        ensures one[i] == two[i]
      {
        if i == d.index {
          CallEquality(one[i], two[i]);
        }
      }
      assert one == two;
    }
  }

  /** Chunk-split invariance on deltas: splitting one delta into two
      consecutive deltas for the same slot leaves the fold unchanged. */
  lemma SplitInvariantDeltas(calls: seq<ToolCall>, pre: seq<ToolDelta>, d: ToolDelta,
                             d1: ToolDelta, d2: ToolDelta, post: seq<ToolDelta>)
    requires SplitOf(d, d1, d2)
    ensures Fold(calls, pre + [d] + post) == Fold(calls, pre + [d1, d2] + post)
  {
    FoldAppend(calls, pre + [d], post);
    FoldAppend(calls, pre + [d1, d2], post);
    FoldAppend(calls, pre, [d]);
    FoldAppend(calls, pre, [d1, d2]);
    if Fold(calls, pre).Ok? {
      SplitDelta(Fold(calls, pre).value, d, d1, d2);
    }
  }

  /** The deltas and chunks of `pre + mid + post`, in terms of the parts. */
  lemma Sandwich(pre: seq<Fragment>, mid: seq<Fragment>, post: seq<Fragment>)
    ensures Deltas(pre + mid + post) == Deltas(pre) + Deltas(mid) + Deltas(post)
    ensures Chunks(pre + mid + post) == Chunks(pre) + Chunks(mid) + Chunks(post)
  {
    DeltasAppend(pre + mid, post);
    DeltasAppend(pre, mid);
    ChunksAppend(pre + mid, post);
    ChunksAppend(pre, mid);
  }

  lemma SplitFragments(content: Option<string>, a: seq<ToolDelta>, d: ToolDelta,
                       d1: ToolDelta, d2: ToolDelta, b: seq<ToolDelta>)
    ensures Deltas([Fragment(content, a + [d] + b)]) == a + [d] + b
    ensures Deltas([Fragment(content, a + [d1]), Fragment(None, [d2] + b)]) == a + [d1, d2] + b
    ensures Chunks([Fragment(content, a + [d1]), Fragment(None, [d2] + b)])
         == Chunks([Fragment(content, a + [d] + b)])
  {
    var first := Fragment(content, a + [d1]);
    var second := Fragment(None, [d2] + b);
    assert [first, second][..1] == [first];
    assert Deltas([first]) == a + [d1];
    assert (a + [d1]) + ([d2] + b) == a + [d1, d2] + b;
  }

  lemma Regroup<T>(p: seq<T>, a: seq<T>, m: seq<T>, b: seq<T>, q: seq<T>)
    ensures p + (a + m + b) + q == (p + a) + m + (b + q)
  {
  }

  /** The deltas and chunks of the unsplit and the split stream, in terms
      of the parts around the split. */
  lemma SplitStreams(pre: seq<Fragment>, content: Option<string>, a: seq<ToolDelta>,
                     d: ToolDelta, d1: ToolDelta, d2: ToolDelta, b: seq<ToolDelta>,
                     post: seq<Fragment>)
    ensures Deltas(pre + [Fragment(content, a + [d] + b)] + post)
         == (Deltas(pre) + a) + [d] + (b + Deltas(post))
    ensures Deltas(pre + [Fragment(content, a + [d1]), Fragment(None, [d2] + b)] + post)
         == (Deltas(pre) + a) + [d1, d2] + (b + Deltas(post))
    ensures Chunks(pre + [Fragment(content, a + [d] + b)] + post)
         == Chunks(pre + [Fragment(content, a + [d1]), Fragment(None, [d2] + b)] + post)
  {
    var whole := [Fragment(content, a + [d] + b)];
    var halves := [Fragment(content, a + [d1]), Fragment(None, [d2] + b)];
    Sandwich(pre, whole, post);
    Sandwich(pre, halves, post);
    SplitFragments(content, a, d, d1, d2, b);
    Regroup(Deltas(pre), a, [d], b, Deltas(post));
    Regroup(Deltas(pre), a, [d1, d2], b, Deltas(post));
  }

  /** Chunk-split invariance on fragments: a fragment whose tool-call delta
      `d` is split into `d1`, ending that fragment, and `d2`, opening a
      following content-free fragment, assembles to the same reply. */
  lemma SplitInvariant(pre: seq<Fragment>, content: Option<string>, a: seq<ToolDelta>,
                       d: ToolDelta, d1: ToolDelta, d2: ToolDelta, b: seq<ToolDelta>,
                       post: seq<Fragment>)
    requires SplitOf(d, d1, d2)
    ensures Assemble(pre + [Fragment(content, a + [d] + b)] + post)
         == Assemble(pre + [Fragment(content, a + [d1]), Fragment(None, [d2] + b)] + post)
  {
    var x := pre + [Fragment(content, a + [d] + b)] + post;
    var y := pre + [Fragment(content, a + [d1]), Fragment(None, [d2] + b)] + post;
    SplitStreams(pre, content, a, d, d1, d2, b, post);
    SplitInvariantDeltas([], Deltas(pre) + a, d, d1, d2, b + Deltas(post));
    AssembleIsDeltaFold(x);
    AssembleIsDeltaFold(y);
  }

  /** Every kept chunk is non-empty. */
  lemma {:induction false} ChunksNonEmpty(frags: seq<Fragment>)
    ensures forall k :: 0 <= k < |Chunks(frags)| ==> |Chunks(frags)[k]| > 0
    decreases |frags|
  {
    if |frags| > 0 {
      ChunksNonEmpty(frags[..|frags| - 1]);
    }
  }

  lemma {:induction false} JoinAppend(x: seq<string>, y: seq<string>)
    ensures Join(x + y) == Join(x) + Join(y)
    decreases |y|
  {
    if |y| == 0 {
      assert x + y == x;
    } else {
      var y' := y[..|y| - 1];
      assert (x + y)[..|x + y| - 1] == x + y';
      JoinAppend(x, y');
    }
  }

  /** Skipping empty and absent content deltas loses no text: the kept
      chunks, joined, are the whole streamed content. */
  lemma {:induction false} ChunksKeepTranscript(frags: seq<Fragment>)
    ensures Join(Chunks(frags)) == Transcript(frags)
    decreases |frags|
  {
    if |frags| > 0 {
      var p := frags[..|frags| - 1];
      var last := frags[|frags| - 1];
      ChunksKeepTranscript(p);
      var tail := if Present(last.content) then [last.content.value] else [];
      JoinAppend(Chunks(p), tail);
      if Present(last.content) {
        assert Join(tail) == Join(tail[..0]) + tail[0];
      }
    }
  }

  /** The content of an assembled reply: chunks in arrival order, each
      non-empty, together spelling the whole streamed content. */
  lemma AssembledContent(frags: seq<Fragment>)
    requires Assemble(frags).Ok?
    ensures forall k :: 0 <= k < |Assemble(frags).value.content| ==> |Assemble(frags).value.content[k]| > 0
    ensures Join(Assemble(frags).value.content) == Transcript(frags)
  {
    AssembleSpec(frags);
    ChunksNonEmpty(frags);
    ChunksKeepTranscript(frags);
  }
}
