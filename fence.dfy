/** Unwrapping of a language-model reply that may be wrapped in a markdown
    code fence.  `prune_schema`, `generate_cypher` and `generate_answer` all
    unwrap their reply the same way before parsing it as JSON; this module is
    that one piece of logic. */
module Fence {
  import opened Text

  const Marker: string := "```"
  const JsonTag: string := "json"

  /** A fence marker starts at position `i` of `s`. */
  predicate MarkerAt(s: string, i: int)
  {
    0 <= i && i + 3 <= |s| && s[i] == '`' && s[i + 1] == '`' && s[i + 2] == '`'
  }

  predicate HasMarker(s: string)
  {
    exists i :: 0 <= i < |s| && MarkerAt(s, i)
  }

  /** Start of the first marker at or after `from`, or `|s|` if there is none. */
  function NextMarker(s: string, from: nat): (k: nat)
    requires from <= |s|
    ensures from <= k <= |s|
    ensures k < |s| ==> MarkerAt(s, k)
    ensures forall j :: from <= j < k ==> !MarkerAt(s, j)
    decreases |s| - from
  {
    if from + 3 > |s| then |s|
    else if MarkerAt(s, from) then from
    else NextMarker(s, from + 1)
  }

  /** `s.split('```')[1]` for an `s` that starts with a marker: the text
      after the opening marker up to the next marker, or to the end. */
  function FencedSegment(s: string): (seg: string)
    requires StartsWith(s, Marker)
    ensures !HasMarker(seg)
  {
    var k := NextMarker(s, 3);
    var seg := s[3..k];
    assert forall i :: MarkerAt(seg, i) ==> MarkerAt(s, 3 + i);
    seg
  }

  /** Drop a leading `json` language tag. */
  function DropJsonTag(seg: string): (r: string)
  {
    if StartsWith(seg, JsonTag) then seg[4..] else seg
  }

  /** A slice of a string with no marker has no marker. */
  lemma NoMarkerInSlice(s: string, i: int, j: int)
    requires 0 <= i <= j <= |s|
    requires !HasMarker(s)
    ensures !HasMarker(s[i..j])
  {
    forall k | 0 <= k < j - i && MarkerAt(s[i..j], k) ensures MarkerAt(s, i + k) {
    }
  }

  /** Dropping the tag and stripping whitespace cannot create a marker. */
  lemma UnwrappedHasNoMarker(seg: string)
    requires !HasMarker(seg)
    ensures !HasMarker(Strip(DropJsonTag(seg)))
  {
    var body := DropJsonTag(seg);
    NoMarkerInSlice(seg, |seg| - |body|, |seg|);
    assert body == seg[|seg| - |body|..|seg|];
    var i, j :| 0 <= i <= j <= |body| && Strip(body) == body[i..j];
    NoMarkerInSlice(body, i, j);
  }

  /** The reply unwrapping at src/graph_rag_compute.py:21-25 (and its two
      copies).  A reply that does not start with a marker is returned as it
      is, not even stripped; otherwise the fenced segment loses its `json`
      tag and surrounding whitespace, and contains no marker any more. */
  function StripFence(s: string): (r: string)
    ensures !StartsWith(s, Marker) ==> r == s
    ensures StartsWith(s, Marker) ==> !HasMarker(r)
  {
    if StartsWith(s, Marker) then
      var seg := FencedSegment(s);
      UnwrappedHasNoMarker(seg);
      Strip(DropJsonTag(seg))
    else s
  }

  /** Text without a marker does not start with one. */
  lemma NotFenced(r: string)
    requires !HasMarker(r)
    ensures !StartsWith(r, Marker)
  {
    if StartsWith(r, Marker) {
      assert r[..3] == Marker;
      assert MarkerAt(r, 0);
    }
  }

  /** Unwrapping twice is unwrapping once: the unwrapped text has no marker,
      so it cannot start with one. */
  lemma StripFenceIdempotent(s: string)
    ensures StripFence(StripFence(s)) == StripFence(s)
  {
    if StartsWith(s, Marker) {
      NotFenced(StripFence(s));
    }
  }

  /** A reply the model wraps as "```json" + newline + body + newline + "```"
      unwraps to the body itself, when the body has no marker and no
      surrounding whitespace. */
  lemma {:induction false} StripFenceTaggedRoundTrip(body: string)
    requires !HasMarker(body)
    requires body == [] || (!IsSpace(body[0]) && !IsSpace(body[|body| - 1]))
    ensures StripFence(Marker + JsonTag + "\n" + body + "\n" + Marker) == body
  {
    var s := Marker + JsonTag + "\n" + body + "\n" + Marker;
    var close := |s| - 3;
    assert StartsWith(s, Marker);
    ClosingMarkerIsNext(s, 8, body);
    var seg := FencedSegment(s);
    assert seg == JsonTag + "\n" + body + "\n";
    assert StartsWith(seg, JsonTag);
    assert DropJsonTag(seg) == "\n" + body + "\n";
    StripPadded("\n", body, "\n");
  }

  /** The same without the language tag. */
  lemma {:induction false} StripFencePlainRoundTrip(body: string)
    requires !HasMarker(body)
    requires body == [] || (!IsSpace(body[0]) && !IsSpace(body[|body| - 1]))
    ensures StripFence(Marker + "\n" + body + "\n" + Marker) == body
  {
    var s := Marker + "\n" + body + "\n" + Marker;
    assert StartsWith(s, Marker);
    ClosingMarkerIsNext(s, 4, body);
    var seg := FencedSegment(s);
    assert seg == "\n" + body + "\n";
    assert !StartsWith(seg, JsonTag) by { assert seg[0] == '\n'; }
    StripPadded("\n", body, "\n");
  }

  /** In a reply laid out as head + body + newline + marker, where the head
      ends with a newline at position `at - 1` and holds no marker from
      position 3 on, the first marker after the opening one is the closing one. */
  lemma ClosingMarkerIsNext(s: string, at: nat, body: string)
    requires 4 <= at && at + |body| + 4 == |s|
    requires s[at..at + |body|] == body && !HasMarker(body)
    requires s[at - 1] == '\n' && s[at + |body|] == '\n'
    requires forall j :: 3 <= j < at ==> !MarkerAt(s, j) 
    requires MarkerAt(s, |s| - 3)
    ensures NextMarker(s, 3) == |s| - 3
  {
    var k := NextMarker(s, 3);
    if k < |s| - 3 && k + 3 <= at + |body| {
      MarkerInside(s, at, body, k);
      assert false;
    }
  }

  /** A marker of `s` that lies inside an embedded `body` is a marker of `body`. */
  lemma MarkerInside(s: string, at: nat, body: string, k: int)
    requires at + |body| <= |s| && s[at..at + |body|] == body
    requires at <= k && k + 3 <= at + |body| && MarkerAt(s, k)
    ensures MarkerAt(body, k - at)
  {
    assert body[k - at] == s[k] && body[k - at + 1] == s[k + 1] && body[k - at + 2] == s[k + 2];
  }
}
