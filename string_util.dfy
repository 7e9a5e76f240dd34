/** utils/util/string.go: membership in and removal from a list of strings. */
module StringUtil {

  /** The slice with every occurrence of s left out, the rest in order. */
  function Without(slice: seq<string>, s: string): seq<string> {
    if |slice| == 0 then []
    else if slice[0] == s then Without(slice[1..], s)
    else [slice[0]] + Without(slice[1..], s)
  }

  /** StringInSlice: an early-return scan of the slice. */
  method StringInSlice(slice: seq<string>, s: string) returns (found: bool)
    ensures found <==> s in slice
  {
    for i := 0 to |slice|
      invariant s !in slice[..i]
    {
      if slice[i] == s {
        return true;
      }
    }
    return false;
  }

  /** RemoveStringFromSlice: copies every item that is not s. */
  method RemoveStringFromSlice(slice: seq<string>, s: string) returns (result: seq<string>)
    ensures result == Without(slice, s)
  {
    result := [];
    var i := 0;
    while i < |slice|
      invariant 0 <= i <= |slice|
      invariant Without(slice, s) == result + Without(slice[i..], s)
    {
      assert slice[i..][1..] == slice[i + 1..];
      if slice[i] != s {
        result := result + [slice[i]];
      }
      i := i + 1;
    }
  }

  /** No occurrence of s is left, and every other item is kept. */
  lemma {:induction false} WithoutMembers(slice: seq<string>, s: string, x: string)
    ensures x in Without(slice, s) <==> x in slice && x != s
  {
    if |slice| > 0 {
      WithoutMembers(slice[1..], s, x);
      assert slice == [slice[0]] + slice[1..];
    }
  }

  /** Every item other than s keeps its number of occurrences; s has none. */
  lemma {:induction false} WithoutCounts(slice: seq<string>, s: string)
    ensures multiset(Without(slice, s)) == multiset(slice)[s := 0]
  {
    if |slice| > 0 {
      WithoutCounts(slice[1..], s);
      assert slice == [slice[0]] + slice[1..];
    }
  }

  /** The result is as long as the slice less the occurrences of s. */
  lemma WithoutLength(slice: seq<string>, s: string)
    ensures |Without(slice, s)| == |slice| - multiset(slice)[s]
  {
    WithoutCounts(slice, s);
    assert |multiset(Without(slice, s))| == |Without(slice, s)|;
    assert multiset(slice) == multiset(slice)[s := 0] + multiset{}[s := multiset(slice)[s]];
  }

  /** x is a subsequence of y: y with some items dropped, order kept. */
  predicate Subsequence(x: seq<string>, y: seq<string>)
    decreases |y|
  {
    if |x| == 0 then true
    else if |y| == 0 then false
    else if x[0] == y[0] then Subsequence(x[1..], y[1..])
    else Subsequence(x, y[1..])
  }

  /** The kept items appear in their original order. */
  lemma {:induction false} WithoutIsSubsequence(slice: seq<string>, s: string)
    ensures Subsequence(Without(slice, s), slice)
  {
    if |slice| > 0 {
      WithoutIsSubsequence(slice[1..], s);
      var rest := Without(slice[1..], s);
      if slice[0] != s {
        assert ([slice[0]] + rest)[1..] == rest;
      } else if |rest| > 0 {
        WithoutMembers(slice[1..], s, s);
        assert rest[0] != s;
      }
    }
  }

  /** Removing an absent item changes nothing. */
  lemma {:induction false} WithoutAbsent(slice: seq<string>, s: string)
    requires s !in slice
    ensures Without(slice, s) == slice
  {
    if |slice| > 0 {
      assert s !in slice[1..];
      WithoutAbsent(slice[1..], s);
      assert slice == [slice[0]] + slice[1..];
    }
  }

  /** Removing twice is removing once. */
  lemma WithoutIdempotent(slice: seq<string>, s: string)
    ensures Without(Without(slice, s), s) == Without(slice, s)
  {
    WithoutMembers(slice, s, s);
    WithoutAbsent(Without(slice, s), s);
  }
}
