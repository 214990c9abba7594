/** GetAllServicePathsForService (iota-sdk.go): the service paths of a
    service's config groups, each once, in the order they first appear. */
module ServicePaths {
  import opened Wrappers
  import opened Types
  import opened Agent
  import opened ConfigGroups

  /** The service path of every group, in listing order. */
  function ServicePathsOf(gs: seq<ConfigGroup>): (ps: seq<string>)
    ensures |ps| == |gs|
    ensures forall i :: 0 <= i < |gs| ==> ps[i] == gs[i].servicePath
  {
    seq(|gs|, i requires 0 <= i < |gs| => gs[i].servicePath)
  }

  predicate NoDuplicates(s: seq<string>) {
    forall i, j :: 0 <= i < j < |s| ==> s[i] != s[j]
  }

  /** The position of the first occurrence of `x` in `xs`. */
  function FirstIndex(xs: seq<string>, x: string): (k: nat)
    requires x in xs
    ensures k < |xs| && xs[k] == x
    ensures forall j :: 0 <= j < k ==> xs[j] != x
  {
    if xs[0] == x then 0
    else
      var k := FirstIndex(xs[1..], x);
      assert forall j :: 1 <= j < k + 1 ==> xs[j] == xs[1..][j - 1];
      k + 1
  }

  /** The elements of `r` appear in the order of their first occurrences in
      `xs`. */
  predicate InFirstOccurrenceOrder(r: seq<string>, xs: seq<string>)
    requires forall x :: x in r ==> x in xs
  {
    forall a, b :: 0 <= a < b < |r| ==> FirstIndex(xs, r[a]) < FirstIndex(xs, r[b])
  }

  /** An element of a prefix first occurs inside that prefix. */
  lemma FirstIndexInPrefix(xs: seq<string>, i: nat, x: string)
    requires i <= |xs| && x in xs[..i]
    ensures x in xs && FirstIndex(xs, x) < i
  {
    var j :| 0 <= j < i && xs[..i][j] == x;
    assert xs[j] == x;
  }

  /** An element new at position i first occurs there. */
  lemma FirstIndexAt(xs: seq<string>, i: nat)
    requires i < |xs| && xs[i] !in xs[..i]
    ensures FirstIndex(xs, xs[i]) == i
  {
    assert forall j :: 0 <= j < i ==> xs[..i][j] == xs[j];
  }

  /** The wildcard service path: every path of the service. */
  const AllServicePaths := "/*"

  /** GetAllServicePathsForService: lists the service's groups under the
      wildcard service path AllServicePaths; a listing error is returned as is; a count of 0
      gives nil; otherwise the groups' service paths without duplicates, in
      first-occurrence order. */
  method GetAllServicePathsForService(a: IoTA, server: Server, history: seq<Request>, service: string)
    returns (c: Call<Result<Option<seq<string>>, Error>>)
    ensures c.sent == [ListGroupsRequest(a, FiwareService(service, AllServicePaths))]
    ensures var l := ListConfigGroups(a, server, history, FiwareService(service, AllServicePaths)).result;
      (l.Err? ==> c.result == Err(l.error))
      && (l.Ok? && l.value.count == 0 ==> c.result == Ok(None))
      && (l.Ok? && l.value.count != 0 ==>
        (c.result.Ok? && c.result.value.Some?
         && var r := c.result.value.value;
         var ps := ServicePathsOf(l.value.services);
         NoDuplicates(r)
         && (forall x :: x in r <==> x in ps)
         && |r| <= |ps|
         && InFirstOccurrenceOrder(r, ps)))
  {
    var listing := ListConfigGroups(a, server, history, FiwareService(service, AllServicePaths));
    if listing.result.Err? {
      return Call(Err(listing.result.error), listing.sent);
    }
    var groups := listing.result.value.services;
    if listing.result.value.count == 0 {
      return Call(Ok(None), listing.sent);
    }
    ghost var ps := ServicePathsOf(groups);
    var paths: seq<string> := [];
    var i := 0;
    while i < |groups|
      invariant 0 <= i <= |groups|
      invariant NoDuplicates(paths)
      invariant forall x :: x in paths <==> x in ps[..i]
      invariant |paths| <= i
      invariant forall x :: x in paths ==> x in ps
      invariant InFirstOccurrenceOrder(paths, ps)
    {
      var p := groups[i].servicePath;
      assert ps[..i + 1] == ps[..i] + [p];
      if p !in paths {
        forall k | 0 <= k < |paths|
          ensures FirstIndex(ps, paths[k]) < i
        {
          FirstIndexInPrefix(ps, i, paths[k]);
        }
        FirstIndexAt(ps, i);
        paths := paths + [p];
      }
      i := i + 1;
    }
    assert ps[..i] == ps;
    c := Call(Ok(Some(paths)), listing.sent);
  }
}
