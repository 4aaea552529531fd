/** Directory listings in the order of their names. */
module Listings {
  /** Strings ordered by their first difference, a prefix before what extends it. */
  predicate Before(a: string, b: string) {
    b != "" && (a == "" || a[0] < b[0] || (a[0] == b[0] && Before(a[1..], b[1..])))
  }

  function Insert<A>(entry: (string, A), sorted: seq<(string, A)>): seq<(string, A)> {
    if sorted == [] || Before(entry.0, sorted[0].0) then [entry] + sorted
    else [sorted[0]] + Insert(entry, sorted[1..])
  }

  /** Sorting by name. */
  function ByName<A>(entries: seq<(string, A)>): seq<(string, A)> {
    if entries == [] then [] else Insert(entries[0], ByName(entries[1..]))
  }

  ghost predicate Ascending<A>(entries: seq<(string, A)>) {
    forall i, j :: 0 <= i < j < |entries| ==> Before(entries[i].0, entries[j].0)
  }

  ghost predicate Distinct<A>(entries: seq<(string, A)>) {
    forall i, j :: 0 <= i < j < |entries| ==> entries[i].0 != entries[j].0
  }

  lemma {:induction false} BeforeIsTotal(a: string, b: string)
    ensures a == b || Before(a, b) || Before(b, a)
    decreases |a|
  {
    if a == "" || b == "" {
    } else {
      BeforeIsTotal(a[1..], b[1..]);
      assert a == [a[0]] + a[1..] && b == [b[0]] + b[1..];
    }
  }

  lemma {:induction false} BeforeIsTransitive(a: string, b: string, c: string)
    requires Before(a, b) && Before(b, c)
    ensures Before(a, c)
    decreases |a|
  {
    if a == "" {
    } else if a[0] == b[0] == c[0] {
      BeforeIsTransitive(a[1..], b[1..], c[1..]);
    }
  }

  lemma {:induction false} InsertSorts<A>(entry: (string, A), sorted: seq<(string, A)>)
    requires Ascending(sorted) && forall e :: e in sorted ==> e.0 != entry.0
    ensures var r := Insert(entry, sorted); Ascending(r) && multiset(r) == multiset([entry] + sorted)
    decreases |sorted|
  {
    var all := [entry] + sorted;
    if sorted == [] {
    } else if Before(entry.0, sorted[0].0) {
      forall j | 0 < j < |all|
        ensures Before(entry.0, all[j].0)
      {
        if j > 1 {
          BeforeIsTransitive(entry.0, sorted[0].0, all[j].0);
        }
      }
    } else {
      var rest := sorted[1..];
      InsertSorts(entry, rest);
      var r := Insert(entry, rest);
      assert sorted == [sorted[0]] + rest;
      assert sorted[0] in sorted;
      BeforeIsTotal(entry.0, sorted[0].0);
      forall j | 0 <= j < |r|
        ensures Before(sorted[0].0, r[j].0)
      {
        assert r[j] in multiset(r);
        if r[j] != entry {
          assert r[j] in rest;
          var k :| 0 <= k < |rest| && rest[k] == r[j];
          assert sorted[k + 1] == r[j];
        }
      }
    }
  }

  /** Distinct names come out in ascending order, nothing lost and nothing added. */
  lemma {:induction false} ByNameSorts<A>(entries: seq<(string, A)>)
    requires Distinct(entries)
    ensures Ascending(ByName(entries)) && multiset(ByName(entries)) == multiset(entries)
    decreases |entries|
  {
    if entries == [] {
    } else {
      var rest := entries[1..];
      ByNameSorts(rest);
      assert entries == [entries[0]] + rest;
      forall e | e in ByName(rest)
        ensures e.0 != entries[0].0
      {
        assert e in multiset(ByName(rest));
        var k :| 0 <= k < |rest| && rest[k] == e;
        assert entries[k + 1] == e;
      }
      InsertSorts(entries[0], ByName(rest));
    }
  }
}
