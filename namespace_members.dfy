/** The approver lookup of the namespace-members service
    (`NamespaceMembersService.FindApprovePermissionsByNamespaceTag`): the users allowed to
    approve in a namespace, each listed once in the order first met. The repository query
    is its result, passed in. */
module NamespaceMembers {
  import opened Wrappers

  /** A membership row with approval permission: the user it belongs to. */
  datatype Owner = Owner(userId: nat)

  /** The ids of `xs` not in `seen`, each once, in the order first met. */
  function DistinctFrom(xs: seq<nat>, seen: set<nat>): seq<nat>
    decreases |xs|
  {
    if xs == [] then []
    else if xs[0] in seen then DistinctFrom(xs[1..], seen)
    else [xs[0]] + DistinctFrom(xs[1..], seen + {xs[0]})
  }

  function Distinct(xs: seq<nat>): seq<nat> {
    DistinctFrom(xs, {})
  }

  predicate NoDuplicates(s: seq<nat>) {
    forall i, j :: 0 <= i < j < |s| ==> s[i] != s[j]
  }

  /** The position where `x` first occurs. */
  function FirstIndex(xs: seq<nat>, x: nat): (r: nat)
    requires x in xs
    ensures r < |xs| && xs[r] == x && x !in xs[..r]
  {
    if xs[0] == x then 0 else 1 + FirstIndex(xs[1..], x)
  }

  /** The ids kept are the ids of the list not yet seen, each exactly once. */
  lemma {:induction false} DistinctFromElements(xs: seq<nat>, seen: set<nat>)
    ensures forall x :: x in DistinctFrom(xs, seen) <==> x in xs && x !in seen
    ensures NoDuplicates(DistinctFrom(xs, seen))
    decreases |xs|
  {
    if xs != [] {
      assert xs == [xs[0]] + xs[1..];
      if xs[0] in seen {
        DistinctFromElements(xs[1..], seen);
      } else {
        DistinctFromElements(xs[1..], seen + {xs[0]});
      }
    }
  }

  /** `r` lists ids of `xs` in the order of their first occurrence in `xs`. */
  predicate InOrderOf(r: seq<nat>, xs: seq<nat>) {
    forall i, j :: 0 <= i < j < |r| ==> Before(xs, r[i], r[j])
  }

  /** `a` and `b` occur in `xs`, and `a` first occurs before `b` does. */
  predicate Before(xs: seq<nat>, a: nat, b: nat) {
    a in xs && b in xs && FirstIndex(xs, a) < FirstIndex(xs, b)
  }

  lemma FirstIndexTail(xs: seq<nat>, y: nat)
    requires xs != [] && y in xs[1..] && y != xs[0]
    ensures y in xs && FirstIndex(xs, y) == 1 + FirstIndex(xs[1..], y)
  {
    assert xs == [xs[0]] + xs[1..];
  }

  /** Ids other than the head keep their relative order once the head is put in front. */
  lemma ShiftOrder(xs: seq<nat>, rest: seq<nat>)
    requires xs != [] && forall y :: y in rest ==> y != xs[0]
    requires InOrderOf(rest, xs[1..])
    ensures InOrderOf(rest, xs)
  {
    forall i, j | 0 <= i < j < |rest|
      ensures Before(xs, rest[i], rest[j])
    {
      assert Before(xs[1..], rest[i], rest[j]);
      assert rest[i] in rest && rest[j] in rest;
      FirstIndexTail(xs, rest[i]);
      FirstIndexTail(xs, rest[j]);
    }
  }

  lemma HeadBefore(xs: seq<nat>, y: nat)
    requires xs != [] && y in xs[1..] && y != xs[0]
    ensures Before(xs, xs[0], y)
  {
    FirstIndexTail(xs, y);
  }

  /** The head, listed first, comes before every other id. */
  lemma ConsOrder(xs: seq<nat>, rest: seq<nat>)
    requires xs != [] && forall y :: y in rest ==> y != xs[0] && y in xs[1..]
    requires InOrderOf(rest, xs)
    ensures InOrderOf([xs[0]] + rest, xs)
  {
    var r := [xs[0]] + rest;
    forall i, j | 0 <= i < j < |r|
      ensures Before(xs, r[i], r[j])
    {
      assert r[j] == rest[j - 1] && r[j] in rest;
      if i == 0 {
        HeadBefore(xs, r[j]);
      } else {
        assert r[i] == rest[i - 1];
        assert Before(xs, rest[i - 1], rest[j - 1]);
      }
    }
  }

  /** The ids kept stand in the order of their first occurrence. */
  lemma {:induction false} DistinctFromOrder(xs: seq<nat>, seen: set<nat>)
    ensures InOrderOf(DistinctFrom(xs, seen), xs)
    decreases |xs|
  {
    if xs != [] {
      var seen' := if xs[0] in seen then seen else seen + {xs[0]};
      var rest := DistinctFrom(xs[1..], seen');
      DistinctFromOrder(xs[1..], seen');
      DistinctFromElements(xs[1..], seen');
      ShiftOrder(xs, rest);
      if xs[0] !in seen {
        ConsOrder(xs, rest);
      }
    }
  }

  /** The approver list: no id twice, every id of the rows listed, and the ids in the
      order of their first row. */
  lemma DistinctProperties(xs: seq<nat>)
    ensures NoDuplicates(Distinct(xs))
    ensures forall x :: x in Distinct(xs) <==> x in xs
    ensures InOrderOf(Distinct(xs), xs)
  {
    DistinctFromElements(xs, {});
    DistinctFromOrder(xs, {});
  }

  /** Listing the ids of a list already without repetition changes nothing. */
  lemma {:induction false} DistinctOfDistinct(xs: seq<nat>, seen: set<nat>)
    requires NoDuplicates(xs) && forall x :: x in xs ==> x !in seen
    ensures DistinctFrom(xs, seen) == xs
    decreases |xs|
  {
    if xs != [] {
      assert forall x :: x in xs[1..] ==> x in xs && x != xs[0] by {
        forall x | x in xs[1..]
          ensures x in xs && x != xs[0]
        {
          var k :| 0 <= k < |xs[1..]| && xs[1..][k] == x;
          assert xs[k + 1] == x;
        }
      }
      DistinctOfDistinct(xs[1..], seen + {xs[0]});
    }
  }

  function Ids(owners: seq<Owner>): (r: seq<nat>)
    ensures |r| == |owners| && forall i :: 0 <= i < |owners| ==> r[i] == owners[i].userId
  {
    seq(|owners|, i requires 0 <= i < |owners| => owners[i].userId)
  }

  function RepositoryError(err: string, tag: string): string {
    "FindApprovePermissionsByNamespaceTag has error: " + err + " search param is: " + tag
  }

  function EmptyResult(tag: string): string {
    "FindApprovePermissionsByNamespaceTag result is empty search param is: " + tag
  }

  /** `FindApprovePermissionsByNamespaceTag`: a repository error, or no rows, is an error;
      otherwise the distinct user ids in the order first met. */
  method FindApprovePermissionsByNamespaceTag(namespaceTag: string, query: Result<seq<Owner>>)
    returns (r: Result<seq<nat>>)
    ensures query.Err? ==> r == Err(RepositoryError(query.msg, namespaceTag))
    ensures query.Ok? && query.value == [] ==> r == Err(EmptyResult(namespaceTag))
    ensures query.Ok? && query.value != [] ==> r == Ok(Distinct(Ids(query.value))) && r.value != []
  {
    if query.Err? {
      return Err(RepositoryError(query.msg, namespaceTag));
    }
    var owners := query.value;
    if |owners| == 0 {
      return Err(EmptyResult(namespaceTag));
    }
    var approverUsers: seq<nat> := [];
    var approverUsersDistinct: set<nat> := {};
    ghost var ids := Ids(owners);
    for i := 0 to |owners|
      invariant approverUsers + DistinctFrom(ids[i..], approverUsersDistinct) == Distinct(ids)
    {
      var userId := owners[i].userId;
      assert ids[i..] == [userId] + ids[i + 1..];
      if userId in approverUsersDistinct {
        continue;
      } else {
        approverUsers := approverUsers + [userId];
        approverUsersDistinct := approverUsersDistinct + {userId};
      }
    }
    assert approverUsers == Distinct(ids) by {
      assert ids[|owners|..] == [];
      assert approverUsers + [] == approverUsers;
    }
    NonEmptyDistinct(ids);
    return Ok(approverUsers);
  }

  /** A non-empty list has a non-empty distinct listing. */
  lemma NonEmptyDistinct(xs: seq<nat>)
    requires xs != []
    ensures Distinct(xs) != []
  {
    var none: set<nat> := {};
    assert xs[0] !in none;
    assert DistinctFrom(xs, none) == [xs[0]] + DistinctFrom(xs[1..], none + {xs[0]});
  }
}
