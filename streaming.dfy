/**
 `test_streaming_chat`: a left-to-right pass over the chunks of a streamed
 chat completion that collects `choices[0].delta.content` of every chunk that
 has one, joins the collected fragments, and passes when the joined text is
 non-empty. An error from the call or from the iteration reports false.
 */
module StreamingTest {
  import opened SdkTypes

  /** The fragment a chunk adds to the collected list, if any: the test
      `chunk.choices and chunk.choices[0].delta.content` skips chunks without
      choices and chunks whose first delta has absent or empty content. */
  function Fragment(c: Chunk): Option<string> {
    if |c.choices| > 0 && c.choices[0].delta.content.Some? && |c.choices[0].delta.content.value| > 0
    then Some(c.choices[0].delta.content.value)
    else None
  }

  /** The list the loop has built after seeing `cs`, in arrival order. */
  function Fragments(cs: seq<Chunk>): (r: seq<string>)
    ensures |r| <= |cs|
    ensures forall i :: 0 <= i < |r| ==> |r[i]| > 0
  {
    if cs == [] then []
    else
      var rest := Fragments(cs[..|cs| - 1]);
      match Fragment(cs[|cs| - 1])
      case Some(f) => rest + [f]
      case None => rest
  }

  /** `"".join(fs)`. */
  function Join(fs: seq<string>): (r: string)
    ensures |r| == 0 <==> forall i :: 0 <= i < |fs| ==> |fs[i]| == 0
  {
    if fs == [] then "" else fs[0] + Join(fs[1..])
  }

  /** Reference reading of the aggregate: what the first choice's delta of
      one chunk carries, with every other chunk standing for the empty text. */
  function Contribution(c: Chunk): string {
    if |c.choices| > 0 && c.choices[0].delta.content.Some? then c.choices[0].delta.content.value else ""
  }

  /** The contributions of all chunks, concatenated in arrival order. */
  function Contributions(cs: seq<Chunk>): string {
    if cs == [] then "" else Contribution(cs[0]) + Contributions(cs[1..])
  }

  lemma {:induction false} JoinAppend(a: seq<string>, b: seq<string>)
    ensures Join(a + b) == Join(a) + Join(b)
  {
    if a != [] {
      assert (a + b)[1..] == a[1..] + b;
      JoinAppend(a[1..], b);
    } else {
      assert a + b == b;
    }
  }

  lemma {:induction false} ContributionsSnoc(cs: seq<Chunk>, c: Chunk)
    ensures Contributions(cs + [c]) == Contributions(cs) + Contribution(c)
  {
    if cs != [] {
      assert (cs + [c])[1..] == cs[1..] + [c];
      ContributionsSnoc(cs[1..], c);
    }
  }

  /** Collecting is compositional: the fragments of a stream read in two
      parts are those of the first part followed by those of the second. */
  lemma {:induction false} FragmentsAppend(a: seq<Chunk>, b: seq<Chunk>)
    ensures Fragments(a + b) == Fragments(a) + Fragments(b)
  {
    if b != [] {
      var init := b[..|b| - 1];
      assert (a + b)[..|a + b| - 1] == a + init;
      assert (a + b)[|a + b| - 1] == b[|b| - 1];
      FragmentsAppend(a, init);
    } else {
      assert a + b == a;
    }
  }

  /** The joined text equals the in-order concatenation of every chunk's
      first delta content; the chunks the loop skips contribute nothing. */
  lemma {:induction false} AggregateIsContributions(cs: seq<Chunk>)
    ensures Join(Fragments(cs)) == Contributions(cs)
  {
    if cs != [] {
      var init, last := cs[..|cs| - 1], cs[|cs| - 1];
      assert cs == init + [last];
      AggregateIsContributions(init);
      ContributionsSnoc(init, last);
      match Fragment(last)
      case Some(f) =>
        JoinAppend(Fragments(init), [f]);
        assert Join([f]) == f + Join([]);
      case None =>
    }
  }

  /** No fragment is collected exactly when no chunk carries content. */
  lemma {:induction false} NoFragmentsIffNoContent(cs: seq<Chunk>)
    ensures Fragments(cs) == [] <==> forall i :: 0 <= i < |cs| ==> Fragment(cs[i]).None?
  {
    if cs != [] {
      var init := cs[..|cs| - 1];
      NoFragmentsIffNoContent(init);
      if forall i :: 0 <= i < |cs| ==> Fragment(cs[i]).None? {
        assert forall i :: 0 <= i < |init| ==> Fragment(init[i]).None? by {
          forall i | 0 <= i < |init| ensures Fragment(init[i]).None? {
            assert init[i] == cs[i];
          }
        }
      } else {
        var j :| 0 <= j < |cs| && Fragment(cs[j]).Some?;
        if j < |cs| - 1 {
          assert init[j] == cs[j];
        }
      }
    }
  }

  /** The `for chunk in stream` loop: append every surviving fragment to
      the list, in arrival order. */
  method CollectFragments(stream: seq<Chunk>) returns (chunks: seq<string>)
    ensures chunks == Fragments(stream)
  {
    chunks := [];
    var i := 0;
    while i < |stream|
      invariant 0 <= i <= |stream|
      invariant chunks == Fragments(stream[..i])
    {
      var chunk := stream[i];
      if |chunk.choices| > 0 && chunk.choices[0].delta.content.Some? && |chunk.choices[0].delta.content.value| > 0 {
        chunks := chunks + [chunk.choices[0].delta.content.value];
      }
      assert stream[..i + 1][..i] == stream[..i];
      i := i + 1;
    }
    assert stream[..i] == stream;
  }

  /** Every collected fragment is non-empty, so the joined text is empty
      exactly when nothing was collected. */
  lemma JoinedEmptyIffNothingCollected(cs: seq<Chunk>)
    ensures |Join(Fragments(cs))| == 0 <==> Fragments(cs) == []
  {
  }

  /** When the streaming test passes: the call and the whole iteration
      succeed and the concatenated content is non-empty. */
  predicate StreamPasses(call: Result<ChunkStream>) {
    call.Ok? && call.value.end.Exhausted? && |Contributions(call.value.chunks)| > 0
  }

  /** An empty stream, or one in which no chunk carries content, fails the
      test even when it ends normally. */
  lemma NoContentFails(call: Result<ChunkStream>)
    requires call.Ok?
    requires forall i :: 0 <= i < |call.value.chunks| ==> Fragment(call.value.chunks[i]).None?
    ensures !StreamPasses(call)
  {
    NoFragmentsIffNoContent(call.value.chunks);
    AggregateIsContributions(call.value.chunks);
  }

  /** The test's boolean: true exactly when the call and the whole iteration
      succeed and some chunk carries non-empty content. */
  method TestStreamingChat(call: Result<ChunkStream>) returns (passed: bool)
    ensures passed == StreamPasses(call)
    ensures passed <==>
      && call.Ok?
      && call.value.end.Exhausted?
      && exists i :: 0 <= i < |call.value.chunks| && Fragment(call.value.chunks[i]).Some?
  {
    if call.Err? {
      return false;
    }
    var chunks := CollectFragments(call.value.chunks);
    if call.value.end.Interrupted? {
      return false;
    }
    var fullResponse := Join(chunks);
    AggregateIsContributions(call.value.chunks);
    NoFragmentsIffNoContent(call.value.chunks);
    passed := |fullResponse| > 0;
  }
}
