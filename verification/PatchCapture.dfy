/** Bounded capture of a patch (rust/src/git/inspection.rs:664-697). */
module PatchCapture {
  import opened Numbers
  import opened StatusStream

  datatype Truncation = Truncation(
    truncated: bool,
    maxBytes: nat,
    capturedBytes: nat,
    totalBytes: nat,
    omittedBytes: nat)

  lemma {:induction false} ConcatSnoc(chunks: seq<seq<Byte>>, last: seq<Byte>)
    ensures Concat(chunks + [last]) == Concat(chunks) + last
  {
    if chunks == [] {
      assert [last][1..] == [] && last + [] == last;
    } else {
      assert (chunks + [last])[1..] == chunks[1..] + [last];
      ConcatSnoc(chunks[1..], last);
    }
  }

  /** What is kept is the front of the stream, as long as the limit allows, and nothing is lost count of. */
  method CapturePatch(chunks: seq<seq<Byte>>, maxBytes: nat) returns (captured: seq<Byte>, truncation: Truncation)
    ensures var stream := Concat(chunks);
            && captured == stream[..Min(maxBytes, |stream|)]
            && truncation.capturedBytes == |captured|
            && truncation.totalBytes == |stream|
            && truncation.maxBytes == maxBytes
            && truncation.omittedBytes == SaturatingSub(|stream|, maxBytes)
            && (truncation.truncated <==> |stream| > maxBytes)
  {
    captured := [];
    var total := 0;
    var k := 0;
    while k < |chunks|
      invariant k <= |chunks|
      invariant total == |Concat(chunks[..k])|
      invariant captured == Concat(chunks[..k])[..Min(maxBytes, total)]
    {
      var chunk := chunks[k];
      assert chunks[..k + 1] == chunks[..k] + [chunk];
      ConcatSnoc(chunks[..k], chunk);
      total := total + |chunk|;
      var keep := Min(|chunk|, SaturatingSub(maxBytes, |captured|));
      captured := captured + chunk[..keep];
      k := k + 1;
    }
    assert chunks[..k] == chunks;
    truncation := Truncation(total > |captured|, maxBytes, |captured|, total, total - |captured|);
  }
}
