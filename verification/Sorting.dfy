// Sorting of durations. The library sort is represented by one sorting function;
// SortedIsUnique shows that any correct sort returns the same sequence.
module Sorting {
  import opened Prelude

  ghost predicate Sorted(s: seq<real>) {
    forall i, j | 0 <= i <= j < |s| :: s[i] <= s[j]
  }

  function Insert(x: real, s: seq<real>): (r: seq<real>)
    ensures |r| == |s| + 1
  {
    if |s| == 0 || x <= s[0] then [x] + s else [s[0]] + Insert(x, s[1..])
  }

  function Sort(s: seq<real>): (r: seq<real>)
    ensures |r| == |s|
  {
    if |s| == 0 then [] else Insert(s[|s| - 1], Sort(s[..|s| - 1]))
  }

  lemma {:induction false} InsertAdds(x: real, s: seq<real>)
    ensures multiset(Insert(x, s)) == multiset(s) + multiset{x}
  {
    if |s| == 0 || x <= s[0] {
    } else {
      InsertAdds(x, s[1..]);
      assert s == [s[0]] + s[1..];
    }
  }

  lemma {:induction false} InsertSorts(x: real, s: seq<real>)
    requires Sorted(s)
    ensures Sorted(Insert(x, s))
    ensures Insert(x, s)[0] == if |s| == 0 || x <= s[0] then x else s[0]
  {
    if |s| == 0 || x <= s[0] {
    } else {
      InsertSorts(x, s[1..]);
      PrependSorted(s[0], Insert(x, s[1..]));
    }
  }

  lemma PrependSorted(x: real, s: seq<real>)
    requires Sorted(s) && |s| > 0 && x <= s[0]
    ensures Sorted([x] + s)
  {
    var t := [x] + s;
    forall i, j | 0 <= i <= j < |t|
      ensures t[i] <= t[j]
    {
      if i == 0 && j > 0 {
        assert t[j] == s[j - 1] && s[0] <= s[j - 1];
      } else if i > 0 {
        assert t[i] == s[i - 1] && t[j] == s[j - 1];
      }
    }
  }

  lemma {:induction false} SortSorts(s: seq<real>)
    ensures Sorted(Sort(s))
    ensures multiset(Sort(s)) == multiset(s)
  {
    if |s| > 0 {
      SortSorts(s[..|s| - 1]);
      InsertSorts(s[|s| - 1], Sort(s[..|s| - 1]));
      InsertAdds(s[|s| - 1], Sort(s[..|s| - 1]));
      assert s == s[..|s| - 1] + [s[|s| - 1]];
    }
  }

  // How many values are at most the limit.
  function AtMost(s: seq<real>, limit: real): nat {
    |Filter(s, (x: real) => x <= limit)|
  }

  lemma AtMostPermutes(a: seq<real>, b: seq<real>, limit: real)
    requires multiset(a) == multiset(b)
    ensures AtMost(a, limit) == AtMost(b, limit)
  {
    FilterPermutes(a, b, (x: real) => x <= limit);
  }

  lemma {:induction false} AtMostOfSorted(s: seq<real>, k: nat, limit: real)
    requires Sorted(s) && k < |s|
    ensures s[k] <= limit <==> AtMost(s, limit) >= k + 1
    decreases |s|
  {
    var front, last := s[..|s| - 1], s[|s| - 1];
    assert s == front + [last];
    FilterPush(front, last, (x: real) => x <= limit);
    if k == |front| {
      if last <= limit {
        AllAtMost(front, limit);
      }
    } else {
      AtMostOfSorted(front, k, limit);
      if s[k] > limit {
        assert last > limit;
      }
    }
  }

  lemma {:induction false} AllAtMost(s: seq<real>, limit: real)
    requires forall i | 0 <= i < |s| :: s[i] <= limit
    ensures AtMost(s, limit) == |s|
  {
    if |s| > 0 {
      var front, last := s[..|s| - 1], s[|s| - 1];
      assert s == front + [last];
      AllAtMost(front, limit);
      FilterPush(front, last, (x: real) => x <= limit);
    }
  }

  // Two sorted arrangements of the same values are equal, whatever algorithm made them.
  lemma SortedIsUnique(a: seq<real>, b: seq<real>)
    requires Sorted(a) && Sorted(b) && multiset(a) == multiset(b)
    ensures a == b
  {
    assert |multiset(a)| == |multiset(b)|;
    forall k | 0 <= k < |a|
      ensures a[k] == b[k]
    {
      hide Sorted, AtMost;
      AtMostPermutes(a, b, a[k]);
      AtMostPermutes(a, b, b[k]);
      AtMostOfSorted(a, k, a[k]);
      AtMostOfSorted(b, k, a[k]);
      AtMostOfSorted(a, k, b[k]);
      AtMostOfSorted(b, k, b[k]);
    }
  }
}
