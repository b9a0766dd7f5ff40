/** Round-robin leader election (pacemaker/src/elector.rs).  The hash of a view is a fixed
    function that all replicas share. */
module Election {
  import opened HsData

  /** Replica names are compared byte by byte. */
  type Name = seq<Byte>

  predicate Less(a: Name, b: Name) {
    if b == [] then false
    else if a == [] then true
    else a[0] < b[0] || (a[0] == b[0] && Less(a[1..], b[1..]))
  }

  lemma {:induction false} LessIsTotal(a: Name, b: Name)
    ensures Less(a, b) || a == b || Less(b, a)
    ensures !(Less(a, b) && Less(b, a)) && !Less(a, a)
    decreases |a|
  {
    if a != [] {
      LessIsTotal(a[1..], a[1..]);
      if b != [] {
        LessIsTotal(a[1..], b[1..]);
        if a[0] == b[0] && a[1..] == b[1..] {
          assert a == [a[0]] + a[1..] && b == [b[0]] + b[1..];
        }
      }
    }
  }

  lemma {:induction false} LessIsTransitive(a: Name, b: Name, c: Name)
    requires Less(a, b) && Less(b, c)
    ensures Less(a, c)
    decreases |a|
  {
    if a != [] && a[0] == b[0] == c[0] {
      LessIsTransitive(a[1..], b[1..], c[1..]);
    }
  }

  predicate Sorted(s: seq<Name>) {
    forall i, j :: 0 <= i < j < |s| ==> !Less(s[j], s[i])
  }

  predicate StrictlySorted(s: seq<Name>) {
    forall i, j :: 0 <= i < j < |s| ==> Less(s[i], s[j])
  }

  function Elements(s: seq<Name>): set<Name> {
    set x | x in s
  }

  /** The place of `x` in a sorted sequence. */
  method InsertSorted(s: seq<Name>, x: Name) returns (r: seq<Name>)
    requires Sorted(s)
    ensures Sorted(r) && Elements(r) == Elements(s) + {x} && |r| == |s| + 1
  {
    var i := |s|;
    while i > 0 && Less(x, s[i - 1])
      invariant 0 <= i <= |s|
      invariant forall k :: i <= k < |s| ==> Less(x, s[k])
    {
      i := i - 1;
    }
    r := s[..i] + [x] + s[i..];
    forall j, k | 0 <= j < k < |r| ensures !Less(r[k], r[j]) {
      InsertKeepsOrder(s, x, i, j, k);
    }
    forall y | y in Elements(s) + {x} ensures y in r {
      if y in s {
        var k :| 0 <= k < |s| && s[k] == y;
        assert r[if k < i then k else k + 1] == y;
      } else {
        assert r[i] == y;
      }
    }
  }

  lemma InsertKeepsOrder(s: seq<Name>, x: Name, i: nat, j: nat, k: nat)
    requires Sorted(s) && i <= |s| && j < k <= |s|
    requires forall k :: i <= k < |s| ==> Less(x, s[k])
    requires i > 0 ==> !Less(x, s[i - 1])
    ensures var r := s[..i] + [x] + s[i..]; !Less(r[k], r[j])
  {
    var r := s[..i] + [x] + s[i..];
    if j == i {
      LessIsTotal(x, s[k - 1]);
    } else if k == i && j < i - 1 {
      if Less(x, s[j]) {
        LessIsTotal(s[j], s[i - 1]);
        if Less(s[j], s[i - 1]) {
          LessIsTransitive(x, s[j], s[i - 1]);
        }
      }
    }
  }

  method Sort(names: seq<Name>) returns (s: seq<Name>)
    ensures Sorted(s) && Elements(s) == Elements(names)
  {
    s := [];
    for i := 0 to |names|
      invariant Sorted(s) && Elements(s) == Elements(names[..i])
    {
      s := InsertSorted(s, names[i]);
      assert names[..i + 1] == names[..i] + [names[i]];
    }
    assert names[..|names|] == names;
  }

  /** Drops repeated neighbours. */
  method Dedup(s: seq<Name>) returns (r: seq<Name>)
    requires Sorted(s)
    ensures StrictlySorted(r) && Elements(r) == Elements(s)
  {
    r := [];
    for i := 0 to |s|
      invariant StrictlySorted(r) && Elements(r) == Elements(s[..i])
      invariant r == [] <==> i == 0
      invariant i > 0 ==> r[|r| - 1] == s[i - 1]
    {
      assert s[..i + 1] == s[..i] + [s[i]];
      if i == 0 || s[i] != s[i - 1] {
        if i > 0 {
          LessIsTotal(s[i - 1], s[i]);
          forall k | 0 <= k < |r| ensures Less(r[k], s[i]) {
            if k < |r| - 1 {
              LessIsTransitive(r[k], r[|r| - 1], s[i]);
            }
          }
        }
        ghost var before := r;
        r := r + [s[i]];
        assert Elements(r) == Elements(before) + {s[i]};
      } else {
        assert s[i] in Elements(r);
      }
      assert Elements(s[..i + 1]) == Elements(s[..i]) + {s[i]};
    }
    assert s[..|s|] == s;
  }

  /** How many of the names come before `x`. */
  ghost function Rank(names: set<Name>, x: Name): nat {
    |set n | n in names && Less(n, x)|
  }

  lemma {:induction false} ListingSize(s: seq<Name>)
    requires StrictlySorted(s)
    ensures |Elements(s)| == |s|
    decreases |s|
  {
    if s != [] {
      var front := s[..|s| - 1];
      ListingSize(front);
      if s[|s| - 1] in front {
        LessIsTotal(s[|s| - 1], s[|s| - 1]);
      }
      assert s == front + [s[|s| - 1]];
      assert Elements(s) == Elements(front) + {s[|s| - 1]};
    }
  }

  /** In a strictly sorted listing as many names come before one as the place says. */
  lemma RankIsPlace(s: seq<Name>, k: nat)
    requires StrictlySorted(s) && k < |s|
    ensures Rank(Elements(s), s[k]) == k && |Elements(s)| == |s|
  {
    forall n | n in Elements(s) ensures Less(n, s[k]) <==> n in s[..k] {
      var j :| 0 <= j < |s| && s[j] == n;
      LessIsTotal(s[j], s[k]);
      if n in s[..k] {
        var i :| 0 <= i < k && s[..k][i] == n;
      }
    }
    assert forall n :: n in s[..k] ==> n in s;
    assert (set n | n in Elements(s) && Less(n, s[k])) == Elements(s[..k]);
    ListingSize(s[..k]);
    ListingSize(s);
  }

  class RoundRobinLeaderElector {
    var roundMapper: seq<Name>

    constructor ()
      ensures roundMapper == []
    {
      roundMapper := [];
    }

    method Init(replicas: seq<Name>)
      modifies this
      ensures StrictlySorted(roundMapper) && Elements(roundMapper) == Elements(replicas)
    {
      var tmp := Sort(replicas);
      roundMapper := Dedup(tmp);
    }

    method GetLeader(viewHash: ViewNumber -> nat, view: ViewNumber) returns (leader: Name)
      requires roundMapper != []
      ensures leader == Leader(roundMapper, viewHash, view) && leader in roundMapper
      ensures StrictlySorted(roundMapper) ==>
                && |Elements(roundMapper)| == |roundMapper|
                && Rank(Elements(roundMapper), leader) == viewHash(view) % |Elements(roundMapper)|
    {
      if StrictlySorted(roundMapper) {
        RankIsPlace(roundMapper, viewHash(view) % |roundMapper|);
      }
      leader := roundMapper[viewHash(view) % |roundMapper|];
    }
  }

  function Leader(roundMapper: seq<Name>, viewHash: ViewNumber -> nat, view: ViewNumber): (leader: Name)
    requires roundMapper != []
    ensures leader in roundMapper
  {
    roundMapper[viewHash(view) % |roundMapper|]
  }

  /** A set of names has one strictly sorted listing. */
  lemma {:induction false} StrictlySortedIsUnique(s: seq<Name>, t: seq<Name>)
    requires StrictlySorted(s) && StrictlySorted(t) && Elements(s) == Elements(t)
    ensures s == t
    decreases |s|
  {
    assert t != [] ==> t[0] in Elements(t);
    if s != [] {
      assert s[0] in Elements(t);
      assert t[0] in Elements(s);
      var i :| 0 <= i < |t| && t[i] == s[0];
      var j :| 0 <= j < |s| && s[j] == t[0];
      LessIsTotal(s[0], t[0]);
      assert s[0] == t[0];
      RestElements(s);
      RestElements(t);
      StrictlySortedIsUnique(s[1..], t[1..]);
      assert s == [s[0]] + s[1..] && t == [t[0]] + t[1..];
    }
  }

  lemma RestElements(s: seq<Name>)
    requires s != [] && StrictlySorted(s)
    ensures Elements(s[1..]) == Elements(s) - {s[0]}
  {
    forall x | x in Elements(s) - {s[0]} ensures x in s[1..] {
      var k :| 0 <= k < |s| && s[k] == x;
      assert s[1..][k - 1] == x;
    }
    if s[0] in s[1..] {
      var k :| 0 <= k < |s[1..]| && s[1..][k] == s[0];
      LessIsTotal(s[0], s[k + 1]);
    }
  }

  /** Two electors that were given the same names, in any order and with any repeats, agree on
      the leader of every view. */
  lemma LeadersAgree(mapper: seq<Name>, mapper': seq<Name>, names: seq<Name>, names': seq<Name>,
                     viewHash: ViewNumber -> nat, view: ViewNumber)
    requires names != [] && Elements(names) == Elements(names')
    requires StrictlySorted(mapper) && Elements(mapper) == Elements(names)
    requires StrictlySorted(mapper') && Elements(mapper') == Elements(names')
    ensures mapper != [] && mapper' != []
    ensures Leader(mapper, viewHash, view) == Leader(mapper', viewHash, view)
    ensures Leader(mapper, viewHash, view) in names
  {
    assert names[0] in Elements(names);
    StrictlySortedIsUnique(mapper, mapper');
    assert Leader(mapper, viewHash, view) in Elements(mapper);
  }

  /** Leadership goes by rank: the leader of a view is the name that as many names come before as
      the hash of the view says, so each name leads exactly the views whose hash has its rank. */
  lemma LeaderHasRank(mapper: seq<Name>, names: seq<Name>, viewHash: ViewNumber -> nat, view: ViewNumber, name: Name)
    requires names != [] && StrictlySorted(mapper) && Elements(mapper) == Elements(names) && name in names
    ensures mapper != [] && Elements(names) != {}
    ensures Rank(Elements(names), Leader(mapper, viewHash, view)) == viewHash(view) % |Elements(names)|
    ensures Leader(mapper, viewHash, view) == name <==> Rank(Elements(names), name) == viewHash(view) % |Elements(names)|
  {
    assert name in Elements(mapper);
    RankIsPlace(mapper, viewHash(view) % |mapper|);
    var k :| 0 <= k < |mapper| && mapper[k] == name;
    RankIsPlace(mapper, k);
  }
}
