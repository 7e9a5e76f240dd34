/**
 * utils/resources.go: which tracked resources dropped out of the desired
 * list. Resources are compared on all five fields (reflect.DeepEqual of a
 * struct of strings), which is Dafny's datatype equality.
 */
module Resources {
  import opened Api

  predicate SameResource(a: Resource, b: Resource) {
    && a.group == b.group && a.version == b.version && a.kind == b.kind
    && a.name == b.name && a.namespace == b.namespace
  }

  /** The members of current that are not in resources, in their order. */
  function Deleted(resources: seq<Resource>, current: seq<Resource>): seq<Resource> {
    if |current| == 0 then []
    else if current[0] in resources then Deleted(resources, current[1..])
    else [current[0]] + Deleted(resources, current[1..])
  }

  /** containResource: an early-return scan comparing all five fields. */
  method ContainResource(resources: seq<Resource>, resource: Resource) returns (found: bool)
    ensures found <==> exists i :: 0 <= i < |resources| && SameResource(resources[i], resource)
    ensures found <==> resource in resources
  {
    for i := 0 to |resources|
      invariant forall j :: 0 <= j < i ==> !SameResource(resources[j], resource)
    {
      if resources[i] == resource {
        return true;
      }
    }
    return false;
  }

  /** GetDeletedResources: appends every member of currentResources not in resources. */
  method GetDeletedResources(resources: seq<Resource>, currentResources: seq<Resource>) returns (result: seq<Resource>)
    ensures result == Deleted(resources, currentResources)
    ensures forall r :: r in result <==> r in currentResources && r !in resources
  {
    result := [];
    var i := 0;
    while i < |currentResources|
      invariant 0 <= i <= |currentResources|
      invariant Deleted(resources, currentResources) == result + Deleted(resources, currentResources[i..])
    {
      var resource := currentResources[i];
      assert currentResources[i..][1..] == currentResources[i + 1..];
      var contained := ContainResource(resources, resource);
      if !contained {
        result := result + [resource];
      }
      i := i + 1;
    }
    forall r ensures r in result <==> r in currentResources && r !in resources {
      DeletedMembers(resources, currentResources, r);
    }
  }

  /** Exactly the members of current that resources lacks. */
  lemma {:induction false} DeletedMembers(resources: seq<Resource>, current: seq<Resource>, r: Resource)
    ensures r in Deleted(resources, current) <==> r in current && r !in resources
  {
    if |current| > 0 {
      DeletedMembers(resources, current[1..], r);
      assert current == [current[0]] + current[1..];
    }
  }

  /** x is a subsequence of y: y with some members dropped, order and repeats kept. */
  predicate Subsequence(x: seq<Resource>, y: seq<Resource>)
    decreases |y|
  {
    if |x| == 0 then true
    else if |y| == 0 then false
    else if x[0] == y[0] then Subsequence(x[1..], y[1..])
    else Subsequence(x, y[1..])
  }

  lemma {:induction false} SubsequenceLength(x: seq<Resource>, y: seq<Resource>)
    requires Subsequence(x, y)
    ensures |x| <= |y|
    decreases |y|
  {
    if |x| > 0 {
      if x[0] == y[0] { SubsequenceLength(x[1..], y[1..]); } else { SubsequenceLength(x, y[1..]); }
    }
  }

  /** The result keeps the order and the repeats of current, so it is no longer than current. */
  lemma {:induction false} DeletedIsSubsequence(resources: seq<Resource>, current: seq<Resource>)
    ensures Subsequence(Deleted(resources, current), current)
    ensures |Deleted(resources, current)| <= |current|
  {
    if |current| > 0 {
      DeletedIsSubsequence(resources, current[1..]);
      var rest := Deleted(resources, current[1..]);
      if current[0] !in resources {
        assert ([current[0]] + rest)[1..] == rest;
      } else if |rest| > 0 {
        DeletedMembers(resources, current[1..], current[0]);
        assert rest[0] != current[0] by { DeletedMembers(resources, current[1..], rest[0]); }
      }
    }
    SubsequenceLength(Deleted(resources, current), current);
  }

  /** A removed member keeps its number of occurrences. */
  lemma {:induction false} DeletedCounts(resources: seq<Resource>, current: seq<Resource>, r: Resource)
    requires r !in resources
    ensures multiset(Deleted(resources, current))[r] == multiset(current)[r]
  {
    if |current| > 0 {
      DeletedCounts(resources, current[1..], r);
      assert current == [current[0]] + current[1..];
    }
  }

  /** Nothing is removed when every current member is still wanted. */
  lemma {:induction false} DeletedOfSubset(resources: seq<Resource>, current: seq<Resource>)
    requires forall r :: r in current ==> r in resources
    ensures Deleted(resources, current) == []
  {
    if |current| > 0 {
      assert current[0] in current;
      DeletedOfSubset(resources, current[1..]);
    }
  }

  /** With nothing wanted, everything current is removed, in order. */
  lemma {:induction false} DeletedOfNothingWanted(current: seq<Resource>)
    ensures Deleted([], current) == current
  {
    if |current| > 0 {
      DeletedOfNothingWanted(current[1..]);
      assert current == [current[0]] + current[1..];
    }
  }
}
