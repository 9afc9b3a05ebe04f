/** Retention of releases (prune_releases of both installers). */
module Releases {
  import opened Options

  /** Releases other than `current` and `previous`, in the order listed. */
  function Others(listed: seq<string>, cur: string, prev: string): seq<string> {
    if listed == [] then []
    else
      var d := listed[|listed| - 1];
      Others(listed[..|listed| - 1], cur, prev) + if d == cur || d == prev then [] else [d]
  }

  /** s without its first n elements. */
  function Beyond(s: seq<string>, n: nat): seq<string> {
    if n <= |s| then s[n..] else []
  }

  predicate Distinct(s: seq<string>) {
    forall i, j :: 0 <= i < j < |s| ==> s[i] != s[j]
  }

  function Names(s: seq<string>): set<string> {
    set d | d in s
  }

  lemma LastIsNew(s: seq<string>)
    requires Distinct(s) && s != []
    ensures s[|s| - 1] !in s[..|s| - 1] && Distinct(s[..|s| - 1])
  {
  }

  lemma {:induction false} OthersAre(listed: seq<string>, cur: string, prev: string)
    ensures forall d :: d in Others(listed, cur, prev) <==> d in listed && d != cur && d != prev
    ensures Distinct(listed) ==> Distinct(Others(listed, cur, prev))
  {
    if listed != [] {
      var n := |listed| - 1;
      OthersAre(listed[..n], cur, prev);
      assert listed == listed[..n] + [listed[n]];
      if Distinct(listed) {
        LastIsNew(listed);
      }
    }
  }

  class ReleaseDirectory {
    var dirs: set<string>

    /**
     `listed` is what find and sort print: the releases, newest first. `cur` and `prev` are
     the targets of the two links, empty if there is none.
     */
    method PruneReleases(listed: seq<string>, cur: string, prev: string, keep: nat)
      requires keep >= 2 && Distinct(listed) && Names(listed) == dirs
      modifies this
      ensures dirs == old(dirs) - Names(Beyond(Others(listed, cur, prev), keep - 2))
      ensures forall i :: 0 <= i < |listed| ==>
        (listed[i] in dirs <==> listed[i] == cur || listed[i] == prev || Newer(listed, cur, prev, i) < keep - 2)
    {
      var count := 0;
      for i := 0 to |listed|
        invariant count == |Others(listed[..i], cur, prev)|
        invariant dirs == old(dirs) - Names(Beyond(Others(listed[..i], cur, prev), keep - 2))
      {
        var d := listed[i];
        assert listed[..i + 1][..i] == listed[..i];
        NotYetRemoved(listed, i, cur, prev, keep);
        assert d in Names(listed);
        if d !in dirs {
          continue;
        }
        if d == cur || d == prev {
          assert Others(listed[..i + 1], cur, prev) == Others(listed[..i], cur, prev);
          continue;
        }
        assert Others(listed[..i + 1], cur, prev) == Others(listed[..i], cur, prev) + [d];
        count := count + 1;
        BeyondGrows(Others(listed[..i], cur, prev), d, keep - 2);
        if count > keep - 2 {
          dirs := dirs - {d};
        }
      }
      assert listed[..|listed|] == listed;
      forall i | 0 <= i < |listed|
        ensures listed[i] in dirs <==>
                listed[i] == cur || listed[i] == prev || Newer(listed, cur, prev, i) < keep - 2
      {
        KeptIff(listed, cur, prev, keep, i);
      }
    }
  }

  lemma BeyondGrows(s: seq<string>, d: string, n: nat)
    ensures Names(Beyond(s + [d], n)) == Names(Beyond(s, n)) + if |s| + 1 > n then {d} else {}
  {
    if |s| + 1 > n {
      assert Beyond(s + [d], n) == (if n <= |s| then s[n..] else []) + [d];
    }
  }

  lemma NotYetRemoved(listed: seq<string>, i: nat, cur: string, prev: string, keep: nat)
    requires keep >= 2 && i < |listed| && Distinct(listed)
    ensures listed[i] !in Names(Beyond(Others(listed[..i], cur, prev), keep - 2))
  {
    OthersAre(listed[..i], cur, prev);
    assert listed[..i + 1][..i] == listed[..i];
    LastIsNew(listed[..i + 1]);
  }

  lemma {:induction false} NamesCount(s: seq<string>)
    requires Distinct(s)
    ensures |Names(s)| == |s|
  {
    if s != [] {
      var n := |s| - 1;
      NamesCount(s[..n]);
      assert Names(s) == Names(s[..n]) + {s[n]};
    }
  }

  function Newest(others: seq<string>, n: nat): seq<string> {
    if |others| < n then others else others[..n]
  }

  lemma SplitOthers(others: seq<string>, n: nat)
    requires Distinct(others)
    ensures Names(others) == Names(Newest(others, n)) + Names(Beyond(others, n))
    ensures Names(Newest(others, n)) !! Names(Beyond(others, n))
    ensures |Names(Newest(others, n))| == |Newest(others, n)| <= n
  {
    assert others == Newest(others, n) + Beyond(others, n);
    NamesCount(Newest(others, n));
  }

  /** Everything listed but what pruning removes. */
  function LeftOver(listed: seq<string>, cur: string, prev: string, keep: nat): set<string>
    requires keep >= 2
  {
    Names(listed) - Names(Beyond(Others(listed, cur, prev), keep - 2))
  }

  /**
   What is left: `current` and `previous` if they were there, and exactly the newest keep - 2
   of the others (all if fewer).
   */
  lemma Retention(listed: seq<string>, cur: string, prev: string, keep: nat)
    requires keep >= 2 && Distinct(listed)
    ensures LeftOver(listed, cur, prev, keep) ==
            Names(Newest(Others(listed, cur, prev), keep - 2)) + Names(listed) * {cur, prev}
  {
    OthersAre(listed, cur, prev);
    var others := Others(listed, cur, prev);
    SplitOthers(others, keep - 2);
    assert Names(listed) == Names(others) + Names(listed) * {cur, prev};
    assert Names(others) !! {cur, prev};
    Partition(Names(Newest(others, keep - 2)), Names(Beyond(others, keep - 2)), Names(listed) * {cur, prev});
  }

  lemma Partition(newest: set<string>, beyond: set<string>, links: set<string>)
    requires newest !! beyond && links !! beyond
    ensures newest + beyond + links - beyond == newest + links
  {
  }

  /** `current` and `previous` stay, and at most `keep` releases do. */
  lemma RetentionBounds(listed: seq<string>, cur: string, prev: string, keep: nat)
    requires keep >= 2 && Distinct(listed)
    ensures var left := LeftOver(listed, cur, prev, keep);
            && (cur in listed ==> cur in left) && (prev in listed ==> prev in left)
            && |left| <= keep
  {
    hide LeftOver, Newest, Others;
    Retention(listed, cur, prev, keep);
    OthersAre(listed, cur, prev);
    var newest, links := Names(Newest(Others(listed, cur, prev), keep - 2)), Names(listed) * {cur, prev};
    SplitOthers(Others(listed, cur, prev), keep - 2);
    LinksSize(links, cur, prev);
    UnionSize(newest, links);
  }

  lemma LinksSize(links: set<string>, cur: string, prev: string)
    requires links <= {cur, prev}
    ensures |links| <= 2
  {
    SubsetSize(links, {cur, prev});
    SubsetSize({prev}, {cur, prev});
  }

  lemma UnionSize(a: set<string>, b: set<string>)
    ensures |a + b| <= |a| + |b|
  {
    assert a + b == a + (b - a);
    SubsetSize(b - a, b);
  }

  /** How many releases other than the two linked ones are listed before place i, that is, are newer. */
  function Newer(listed: seq<string>, cur: string, prev: string, i: nat): nat
    requires i <= |listed|
  {
    if i == 0 then 0
    else Newer(listed, cur, prev, i - 1) + if listed[i - 1] == cur || listed[i - 1] == prev then 0 else 1
  }

  /** The others are numbered in the order listed: the one at place i has Newer(i) before it. */
  lemma {:induction false} OthersInOrder(listed: seq<string>, cur: string, prev: string, i: nat)
    requires i < |listed| && listed[i] != cur && listed[i] != prev
    ensures var others := Others(listed, cur, prev);
            Newer(listed, cur, prev, i) < |others| && others[Newer(listed, cur, prev, i)] == listed[i]
    decreases |listed|
  {
    var n := |listed| - 1;
    OthersCount(listed[..n], cur, prev, n);
    NewerPrefix(listed, cur, prev, n, n);
    NewerPrefix(listed, cur, prev, n, i);
    if i < n {
      OthersInOrder(listed[..n], cur, prev, i);
    }
  }

  lemma {:induction false} OthersCount(listed: seq<string>, cur: string, prev: string, n: nat)
    requires n == |listed|
    ensures |Others(listed, cur, prev)| == Newer(listed, cur, prev, n)
  {
    if n > 0 {
      OthersCount(listed[..n - 1], cur, prev, n - 1);
      NewerPrefix(listed, cur, prev, n - 1, n - 1);
    }
  }

  lemma {:induction false} NewerPrefix(listed: seq<string>, cur: string, prev: string, n: nat, i: nat)
    requires i <= n <= |listed|
    ensures Newer(listed[..n], cur, prev, i) == Newer(listed, cur, prev, i)
  {
    if i > 0 {
      NewerPrefix(listed, cur, prev, n, i - 1);
    }
  }

  /**
   A release survives pruning if and only if it is `current` or `previous`, or fewer than keep - 2
   others are newer.
   */
  lemma KeptIff(listed: seq<string>, cur: string, prev: string, keep: nat, i: nat)
    requires keep >= 2 && Distinct(listed) && i < |listed|
    ensures listed[i] in LeftOver(listed, cur, prev, keep) <==>
            listed[i] == cur || listed[i] == prev || Newer(listed, cur, prev, i) < keep - 2
  {
    var others := Others(listed, cur, prev);
    var beyond := Beyond(others, keep - 2);
    OthersAre(listed, cur, prev);
    assert listed[i] in Names(listed);
    assert forall j :: 0 <= j < |beyond| ==> beyond[j] == others[j + (keep - 2)] && beyond[j] in others;
    if listed[i] != cur && listed[i] != prev {
      var k := Newer(listed, cur, prev, i);
      OthersInOrder(listed, cur, prev, i);
      if k >= keep - 2 {
        assert beyond[k - (keep - 2)] == listed[i];
      }
    }
  }
}
