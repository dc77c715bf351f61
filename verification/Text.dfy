/** Joining and splitting text on a separator character. */
module Text {

  predicate Free(s: string, c: char) {
    c !in s
  }

  predicate AllFree(parts: seq<string>, c: char) {
    forall i :: 0 <= i < |parts| ==> Free(parts[i], c)
  }

  function Join(parts: seq<string>, c: char): string {
    if parts == [] then ""
    else if |parts| == 1 then parts[0]
    else parts[0] + [c] + Join(parts[1..], c)
  }

  function FirstIndex(s: string, c: char): (i: nat)
    ensures i <= |s| && Free(s[..i], c)
    ensures i < |s| ==> s[i] == c
  {
    if s == "" || s[0] == c then 0 else
      var i := 1 + FirstIndex(s[1..], c);
      assert s[..i] == [s[0]] + s[1..][..i - 1];
      i
  }

  function Split(s: string, c: char): seq<string>
    decreases |s|
  {
    var i := FirstIndex(s, c);
    if i == |s| then [s] else [s[..i]] + Split(s[i + 1..], c)
  }

  lemma FirstIndexAfterFree(head: string, c: char, tail: string)
    requires Free(head, c)
    ensures FirstIndex(head + [c] + tail, c) == |head|
    ensures FirstIndex(head, c) == |head|
  {
    var s := head + [c] + tail;
    assert s[|head|] == c;
    assert s[..|head|] == head;
  }

  lemma {:induction false} SplitJoin(parts: seq<string>, c: char)
    requires parts != [] && AllFree(parts, c)
    ensures Split(Join(parts, c), c) == parts
  {
    if |parts| == 1 {
      FirstIndexAfterFree(parts[0], c, "");
    } else {
      var tail := Join(parts[1..], c);
      FirstIndexAfterFree(parts[0], c, tail);
      var s := Join(parts, c);
      assert s == parts[0] + [c] + tail;
      assert s[..|parts[0]|] == parts[0] && s[|parts[0]| + 1..] == tail;
      SplitJoin(parts[1..], c);
    }
  }

  /** The pieces hold no separator, nor anything the text does not hold. */
  lemma {:induction false} SplitFree(s: string, c: char, d: char)
    requires Free(s, d) || c == d
    ensures AllFree(Split(s, c), d)
    decreases |s|
  {
    var i := FirstIndex(s, c);
    if i < |s| {
      SplitFree(s[i + 1..], c, d);
    }
  }

  lemma {:induction false} JoinFree(parts: seq<string>, c: char, d: char)
    requires AllFree(parts, d) && c != d
    ensures Free(Join(parts, c), d)
  {
    if |parts| > 1 {
      JoinFree(parts[1..], c, d);
    }
  }
}
