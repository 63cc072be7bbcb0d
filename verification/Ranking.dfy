/** Ranked candidate lists: larger stake first, ties by smaller address. Shared by the two
    election contracts, which keep such lists sorted and act on their first places. */
module Ranking {

  /** `data` is whatever a contract stores with a candidate besides address and stake. */
  datatype Entry<+T> = Entry(address: string, stake: int, data: T)

  // ---- String order ----

  predicate Less(a: string, b: string)
  {
    b != [] && (a == [] || a[0] < b[0] || (a[0] == b[0] && Less(a[1..], b[1..])))
  }

  lemma {:induction false} LessTotal(a: string, b: string)
    ensures a == b || Less(a, b) || Less(b, a)
  {
    if a != [] && b != [] && a[0] == b[0] {
      LessTotal(a[1..], b[1..]);
      assert a == [a[0]] + a[1..] && b == [b[0]] + b[1..];
    }
  }

  lemma {:induction false} LessTransitive(a: string, b: string, c: string)
    requires Less(a, b) && Less(b, c)
    ensures Less(a, c)
  {
    if a != [] && a[0] == b[0] == c[0] {
      LessTransitive(a[1..], b[1..], c[1..]);
    }
  }

  lemma {:induction false} LessIrreflexive(a: string)
    ensures !Less(a, a)
  {
    if a != [] {
      LessIrreflexive(a[1..]);
    }
  }

  // ---- Ranking order (`doubleSort`; `by(1, byString(0))`) ----

  predicate Ahead<T>(a: Entry<T>, b: Entry<T>)
  {
    a.stake > b.stake || (a.stake == b.stake && Less(a.address, b.address))
  }

  lemma AheadTransitive<T>(a: Entry<T>, b: Entry<T>, c: Entry<T>)
    requires Ahead(a, b) && Ahead(b, c)
    ensures Ahead(a, c)
  {
    if a.stake == b.stake == c.stake {
      LessTransitive(a.address, b.address, c.address);
    }
  }

  lemma AheadAsymmetric<T>(a: Entry<T>, b: Entry<T>)
    requires Ahead(a, b)
    ensures !Ahead(b, a)
  {
    if a.stake == b.stake && Less(b.address, a.address) {
      LessTransitive(a.address, b.address, a.address);
      LessIrreflexive(a.address);
    }
  }

  lemma AheadTotal<T>(a: Entry<T>, b: Entry<T>)
    requires a.address != b.address
    ensures Ahead(a, b) || Ahead(b, a)
  {
    LessTotal(a.address, b.address);
  }

  predicate Ranked<T>(cs: seq<Entry<T>>)
  {
    forall i, j :: 0 <= i < j < |cs| ==> Ahead(cs[i], cs[j])
  }

  predicate UniqueAddresses<T>(cs: seq<Entry<T>>)
  {
    forall i, j :: 0 <= i < j < |cs| ==> cs[i].address != cs[j].address
  }

  /** First position with the address, or the length. */
  function Position<T>(cs: seq<Entry<T>>, address: string): (p: nat)
    ensures p <= |cs|
    ensures p < |cs| ==> cs[p].address == address
    ensures forall k :: 0 <= k < p ==> cs[k].address != address
  {
    if cs == [] then 0
    else if cs[0].address == address then 0
    else 1 + Position(cs[1..], address)
  }

  /** The search loop of the contracts, which answers the length where they find nothing. */
  method Find<T>(cs: seq<Entry<T>>, address: string) returns (p: nat)
    ensures p == Position(cs, address)
  {
    p := 0;
    while p < |cs| && cs[p].address != address
      invariant 0 <= p <= |cs| && forall k :: 0 <= k < p ==> cs[k].address != address
    {
      p := p + 1;
    }
    hide Position;
  }

  predicate Contains<T>(cs: seq<Entry<T>>, address: string)
  {
    Position(cs, address) < |cs|
  }

  function Without<T>(cs: seq<Entry<T>>, p: nat): seq<Entry<T>>
    requires p < |cs|
  {
    cs[..p] + cs[p + 1..]
  }

  /** Where a sorted insertion puts c: before the first entry it is ahead of. */
  function Place<T>(cs: seq<Entry<T>>, c: Entry<T>): (p: nat)
    ensures p <= |cs|
    ensures forall k :: 0 <= k < p ==> !Ahead(c, cs[k])
    ensures p < |cs| ==> Ahead(c, cs[p])
  {
    if cs == [] || Ahead(c, cs[0]) then 0 else 1 + Place(cs[1..], c)
  }

  function Insert<T>(cs: seq<Entry<T>>, c: Entry<T>): seq<Entry<T>>
  {
    var p := Place(cs, c);
    cs[..p] + [c] + cs[p..]
  }

  /** The result of sorting, whatever the algorithm (see `SortIsUnique`). */
  function Sort<T>(cs: seq<Entry<T>>): seq<Entry<T>>
  {
    if cs == [] then [] else Insert(Sort(cs[..|cs| - 1]), cs[|cs| - 1])
  }

  function Addresses<T(==)>(cs: seq<Entry<T>>): set<string>
  {
    set c | c in cs :: c.address
  }

  // ---- Insertion ----

  lemma InsertRanked<T>(cs: seq<Entry<T>>, c: Entry<T>)
    requires Ranked(cs) && c.address !in Addresses(cs)
    ensures Ranked(Insert(cs, c))
  {
    var p := Place(cs, c);
    var r := Insert(cs, c);
    forall i, j | 0 <= i < j < |r|
      ensures Ahead(r[i], r[j])
    {
      if j == p {
        AheadTotal(cs[i], c);
      } else if i == p {
        if j - 1 > p { AheadTransitive(c, cs[p], cs[j - 1]); }
      } else if i < p && j > p {
      }
    }
  }

  lemma InsertContents<T>(cs: seq<Entry<T>>, c: Entry<T>)
    ensures multiset(Insert(cs, c)) == multiset(cs) + multiset{c}
    ensures |Insert(cs, c)| == |cs| + 1
    ensures forall x :: x in Insert(cs, c) <==> x in cs || x == c
    ensures Addresses(Insert(cs, c)) == Addresses(cs) + {c.address}
  {
    var p := Place(cs, c);
    assert cs == cs[..p] + cs[p..];
    assert forall x :: x in Insert(cs, c) <==> x in cs[..p] || x == c || x in cs[p..];
    assert forall x :: x in cs <==> x in cs[..p] || x in cs[p..];
  }

  lemma UniqueInsert<T>(cs: seq<Entry<T>>, c: Entry<T>)
    requires UniqueAddresses(cs) && c.address !in Addresses(cs)
    ensures UniqueAddresses(Insert(cs, c))
  {
    var p := Place(cs, c);
    var r := Insert(cs, c);
    forall i, j | 0 <= i < j < |r|
      ensures r[i].address != r[j].address
    {
      var x := if i < p then cs[i] else if i == p then c else cs[i - 1];
      var y := if j < p then cs[j] else if j == p then c else cs[j - 1];
      assert r[i] == x && r[j] == y;
    }
  }

  // ---- Sorting is determined by the contents ----

  lemma WithoutContents<T>(cs: seq<Entry<T>>, p: nat)
    requires p < |cs|
    ensures multiset(cs) == multiset(Without(cs, p)) + multiset{cs[p]}
    ensures forall x :: x in Without(cs, p) ==> x in cs
  {
    assert cs == cs[..p] + [cs[p]] + cs[p + 1..];
  }

  /** An entry of the shortened list, in the list it came from. */
  function Origin(p: nat, k: nat): nat
  {
    if k < p then k else k + 1
  }

  lemma WithoutRanked<T>(cs: seq<Entry<T>>, p: nat)
    requires p < |cs| && Ranked(cs)
    ensures Ranked(Without(cs, p))
  {
    var r := Without(cs, p);
    forall i, j | 0 <= i < j < |r|
      ensures Ahead(r[i], r[j])
    {
      assert r[i] == cs[Origin(p, i)] && r[j] == cs[Origin(p, j)];
    }
  }

  lemma WithoutUnique<T>(cs: seq<Entry<T>>, p: nat)
    requires p < |cs| && UniqueAddresses(cs)
    ensures UniqueAddresses(Without(cs, p)) && cs[p].address !in Addresses(Without(cs, p))
  {
    var r := Without(cs, p);
    forall i, j | 0 <= i < j < |r|
      ensures r[i].address != r[j].address
    {
      assert r[i] == cs[Origin(p, i)] && r[j] == cs[Origin(p, j)];
    }
    forall c | c in r
      ensures c.address != cs[p].address
    {
      var k :| 0 <= k < |r| && r[k] == c;
      assert r[k] == cs[Origin(p, k)];
    }
  }

  lemma FirstOf<T>(a: seq<Entry<T>>, b: seq<Entry<T>>)
    requires Ranked(a) && Ranked(b) && multiset(a) == multiset(b) && a != []
    ensures b != [] && a[0] == b[0]
  {
    assert a[0] in multiset(b);
    assert b[0] in multiset(a);
    if a[0] != b[0] {
      assert Ahead(a[0], b[0]) && Ahead(b[0], a[0]);
      AheadAsymmetric(a[0], b[0]);
    }
  }

  /** Two ranked lists with the same contents are the same list, so any sorting algorithm
      gives the result of `Sort`. */
  lemma {:induction false} SortIsUnique<T>(a: seq<Entry<T>>, b: seq<Entry<T>>)
    requires Ranked(a) && Ranked(b) && multiset(a) == multiset(b)
    ensures a == b
  {
    if a == [] {
      assert |b| == |multiset(b)| == 0;
    } else {
      FirstOf(a, b);
      assert a == [a[0]] + a[1..] && b == [b[0]] + b[1..];
      assert multiset(a) == multiset{a[0]} + multiset(a[1..]);
      assert multiset(b) == multiset{b[0]} + multiset(b[1..]);
      assert multiset(a[1..]) == multiset(a) - multiset{a[0]};
      SortIsUnique(a[1..], b[1..]);
    }
  }

  lemma {:induction false} SortRanks<T>(cs: seq<Entry<T>>)
    requires UniqueAddresses(cs)
    ensures Ranked(Sort(cs)) && multiset(Sort(cs)) == multiset(cs)
    ensures Addresses(Sort(cs)) == Addresses(cs)
  {
    if cs != [] {
      var before, c := cs[..|cs| - 1], cs[|cs| - 1];
      assert cs == before + [c];
      SortRanks(before);
      assert c.address !in Addresses(before);
      InsertRanked(Sort(before), c);
      InsertContents(Sort(before), c);
      assert Addresses(cs) == Addresses(before) + {c.address};
    }
  }

  lemma SortOfRanked<T>(cs: seq<Entry<T>>)
    requires Ranked(cs) && UniqueAddresses(cs)
    ensures Sort(cs) == cs
  {
    SortRanks(cs);
    SortIsUnique(Sort(cs), cs);
  }

  /** Sorting after a push is a sorted insertion. */
  lemma SortAfterPush<T>(cs: seq<Entry<T>>, c: Entry<T>)
    requires Ranked(cs) && UniqueAddresses(cs) && c.address !in Addresses(cs)
    ensures Sort(cs + [c]) == Insert(cs, c)
  {
    SortOfRanked(cs);
    assert (cs + [c])[..|cs|] == cs;
  }

  /** Sorting after one entry changed its stake moves just that entry. */
  lemma SortAfterChange<T>(cs: seq<Entry<T>>, p: nat, c: Entry<T>)
    requires Ranked(cs) && UniqueAddresses(cs) && p < |cs| && c.address == cs[p].address
    ensures Sort(cs[p := c]) == Insert(Without(cs, p), c)
    ensures c.address !in Addresses(Without(cs, p)) && Ranked(Without(cs, p)) && UniqueAddresses(Without(cs, p))
  {
    var rest := Without(cs, p);
    WithoutContents(cs, p);
    WithoutRanked(cs, p);
    WithoutUnique(cs, p);
    InsertRanked(rest, c);
    InsertContents(rest, c);
    SortRanks(cs[p := c]);
    assert multiset(cs[p := c]) == multiset(rest) + multiset{c} by {
      WithoutContents(cs[p := c], p);
      assert Without(cs[p := c], p) == rest;
    }
    SortIsUnique(Sort(cs[p := c]), Insert(rest, c));
  }

  // ---- The first k places ----

  function Top<T>(cs: seq<Entry<T>>, k: nat): seq<Entry<T>>
  {
    if |cs| <= k then cs else cs[..k]
  }

  function Data<T>(cs: seq<Entry<T>>): seq<T>
  {
    seq(|cs|, k requires 0 <= k < |cs| => cs[k].data)
  }

  /** What the first k places store, whatever their order. */
  function TopData<T(==)>(cs: seq<Entry<T>>, k: nat): multiset<T>
  {
    multiset(Data(Top(cs, k)))
  }

  /** The entries ranked before c. */
  function Better<T(==)>(cs: seq<Entry<T>>, c: Entry<T>): set<Entry<T>>
  {
    set d | d in cs && Ahead(d, c)
  }

  lemma {:induction false} BetterCount<T>(cs: seq<Entry<T>>, i: nat)
    requires Ranked(cs) && i < |cs|
    ensures |Better(cs, cs[i])| == i
  {
    forall d
      ensures d in Better(cs, cs[i]) <==> d in cs[..i]
    {
      if d in cs && Ahead(d, cs[i]) {
        var j :| 0 <= j < |cs| && cs[j] == d;
        if j >= i {
          AheadAsymmetric(d, cs[i]);
        }
        assert cs[..i][j] == d;
      }
    }
    assert Better(cs, cs[i]) == Elements(cs[..i]);
    PrefixCount(cs, i);
  }

  function Elements<T(==)>(cs: seq<Entry<T>>): set<Entry<T>>
  {
    set d | d in cs
  }

  lemma {:induction false} PrefixCount<T>(cs: seq<Entry<T>>, i: nat)
    requires Ranked(cs) && i <= |cs|
    ensures |Elements(cs[..i])| == i
  {
    hide Ahead;
    if i > 0 {
      PrefixCount(cs, i - 1);
      assert cs[..i] == cs[..i - 1] + [cs[i - 1]];
      if cs[i - 1] in cs[..i - 1] {
        var j :| 0 <= j < i - 1 && cs[j] == cs[i - 1];
        assert Ahead(cs[j], cs[i - 1]);
        AheadAsymmetric(cs[j], cs[i - 1]);
      }
      assert Elements(cs[..i]) == Elements(cs[..i - 1]) + {cs[i - 1]};
    }
  }

  /** In a ranked list the first k places hold exactly the entries that fewer than k others
      are ahead of: a description of the elected without any list order. */
  lemma TopIsElected<T>(cs: seq<Entry<T>>, k: nat, c: Entry<T>)
    requires Ranked(cs)
    ensures c in Top(cs, k) <==> c in cs && |Better(cs, c)| < k
  {
    if c in cs {
      var i :| 0 <= i < |cs| && cs[i] == c;
      BetterCount(cs, i);
      assert i < k ==> Top(cs, k)[i] == c;
      if c in Top(cs, k) {
        var j :| 0 <= j < |Top(cs, k)| && Top(cs, k)[j] == c;
        assert cs[j] == c;
        BetterCount(cs, j);
      }
    }
  }

  /** An insertion behind the first k places leaves them alone. */
  lemma TopAfterInsert<T>(cs: seq<Entry<T>>, c: Entry<T>, k: nat)
    requires Place(cs, c) >= k
    ensures Top(Insert(cs, c), k) == Top(cs, k)
  {
  }

  lemma TopAfterRemove<T>(cs: seq<Entry<T>>, p: nat, k: nat)
    requires k <= p < |cs|
    ensures Top(Without(cs, p), k) == Top(cs, k)
  {
  }

  lemma TopWithMember<T>(rest: seq<Entry<T>>, q: nat, c: Entry<T>, k: nat)
    requires q <= |rest| && q < k
    ensures TopData(rest[..q] + [c] + rest[q..], k) == TopData(rest, k - 1) + multiset{c.data}
  {
    var cs := rest[..q] + [c] + rest[q..];
    var t, u := Top(cs, k), Top(rest, k - 1);
    assert t == u[..q] + [c] + u[q..];
    assert u == u[..q] + u[q..];
    assert Data(t) == Data(u[..q]) + [c.data] + Data(u[q..]);
    assert Data(u) == Data(u[..q]) + Data(u[q..]);
  }

  /** Moving one entry within, or outside, the first k places does not change who is there. */
  lemma TopAfterMove<T>(cs: seq<Entry<T>>, p: nat, c: Entry<T>, k: nat)
    requires p < |cs| && c.data == cs[p].data
    requires p < k <==> Place(Without(cs, p), c) < k
    ensures TopData(Insert(Without(cs, p), c), k) == TopData(cs, k)
  {
    var rest := Without(cs, p);
    var q := Place(rest, c);
    assert cs == rest[..p] + [cs[p]] + rest[p..];
    if p < k {
      TopWithMember(rest, p, cs[p], k);
      TopWithMember(rest, q, c, k);
    } else {
      TopAfterInsert(rest, c, k);
      TopAfterRemove(cs, p, k);
    }
  }

  // ---- What the list operations of the contracts keep ----

  lemma PositionOfMember<T>(cs: seq<Entry<T>>, k: nat)
    requires UniqueAddresses(cs) && k < |cs|
    ensures Position(cs, cs[k].address) == k
  {
  }

  lemma ContainsIsMembership<T>(cs: seq<Entry<T>>, a: string)
    ensures Contains(cs, a) <==> a in Addresses(cs)
  {
    if a in Addresses(cs) {
      var c :| c in cs && c.address == a;
      var k :| 0 <= k < |cs| && cs[k] == c;
    }
    var p := Position(cs, a);
    assert p < |cs| ==> cs[p] in cs;
  }

  lemma TopKeeps<T>(cs: seq<Entry<T>>, k: nat)
    requires Ranked(cs) && UniqueAddresses(cs)
    ensures Ranked(Top(cs, k)) && UniqueAddresses(Top(cs, k)) && Addresses(Top(cs, k)) <= Addresses(cs)
  {
  }

  /** A changed stake: the same addresses in ranking order, and the same entries in the first
      k places unless the changed one crossed the boundary. */
  lemma ChangeKeeps<T>(cs: seq<Entry<T>>, p: nat, c: Entry<T>, k: nat)
    requires Ranked(cs) && UniqueAddresses(cs) && p < |cs| && c.address == cs[p].address && c.data == cs[p].data
    ensures var r := Sort(cs[p := c]);
            && Ranked(r) && UniqueAddresses(r) && Addresses(r) == Addresses(cs)
            && ((p < k <==> Position(r, c.address) < k) ==> TopData(r, k) == TopData(cs, k))
  {
    var rest := Without(cs, p);
    var r := Insert(rest, c);
    SortAfterChange(cs, p, c);
    assert Ranked(r) && UniqueAddresses(r) by { hide *; InsertRanked(rest, c); UniqueInsert(rest, c); }
    assert Addresses(r) == Addresses(cs) by { WithoutAddresses(cs, p); hide *; InsertContents(rest, c); AddressIn(cs, p); }
    assert Position(r, c.address) == Place(rest, c) by { PositionOfMember(r, Place(rest, c)); }
    hide *;
    if p < k <==> Place(rest, c) < k {
      TopAfterMove(cs, p, c, k);
    }
  }

  /** A lowered stake: the entry leaves the first k places exactly if it was in one of them and
      the entry right behind them is now ahead of it. It never enters them. */
  lemma LoweredCrosses<T>(cs: seq<Entry<T>>, p: nat, c: Entry<T>, k: nat)
    requires Ranked(cs) && UniqueAddresses(cs) && p < |cs| && c.address == cs[p].address && c.stake <= cs[p].stake
    ensures (p < k <==> Position(Sort(cs[p := c]), c.address) < k) <==> !(p < k < |cs| && Ahead(cs[k], c))
  {
    hide Sort, Position, Ahead, Ranked, UniqueAddresses;
    ChangedPosition(cs, p, c);
    if p < k < |cs| {
      BehindPlace(cs, p, c, k);
    } else if k <= p {
      LoweredStays(cs, p, c);
    }
  }

  /** A raised stake: the entry comes into the first k places exactly if it was behind them and is
      now ahead of the last of them. It never leaves them. */
  lemma RaisedCrosses<T>(cs: seq<Entry<T>>, p: nat, c: Entry<T>, k: nat)
    requires Ranked(cs) && UniqueAddresses(cs) && p < |cs| && c.address == cs[p].address && c.stake >= cs[p].stake
    ensures (p < k <==> Position(Sort(cs[p := c]), c.address) < k) <==> !(0 < k <= p && Ahead(c, cs[k - 1]))
  {
    hide Sort, Position, Ahead, Ranked, UniqueAddresses;
    ChangedPosition(cs, p, c);
    if p < k {
      RaisedStays(cs, p, c);
    } else if k > 0 {
      BeforePlace(cs, p, c, k - 1);
    }
  }

  lemma RaisedStays<T>(cs: seq<Entry<T>>, p: nat, c: Entry<T>)
    requires Ranked(cs) && p < |cs| && c.address == cs[p].address && c.stake >= cs[p].stake
    ensures Place(Without(cs, p), c) <= p
  {
    if p + 1 < |cs| {
      assert Without(cs, p)[p] == cs[p + 1] && Ahead(cs[p], cs[p + 1]);
    }
  }

  lemma BeforePlace<T>(cs: seq<Entry<T>>, p: nat, c: Entry<T>, j: nat)
    requires Ranked(cs) && j < p < |cs|
    ensures j < Place(Without(cs, p), c) <==> !Ahead(c, cs[j])
  {
    WithoutRanked(cs, p);
    hide Ranked, Ahead;
    PlaceBefore(Without(cs, p), c, j);
  }

  lemma ChangedPosition<T>(cs: seq<Entry<T>>, p: nat, c: Entry<T>)
    requires Ranked(cs) && UniqueAddresses(cs) && p < |cs| && c.address == cs[p].address
    ensures Position(Sort(cs[p := c]), c.address) == Place(Without(cs, p), c)
  {
    hide Sort, Position, Ranked, Place;
    var rest := Without(cs, p);
    SortAfterChange(cs, p, c);
    UniqueInsert(rest, c);
    assert Insert(rest, c)[Place(rest, c)] == c;
    PositionOfMember(Insert(rest, c), Place(rest, c));
  }

  lemma BehindPlace<T>(cs: seq<Entry<T>>, p: nat, c: Entry<T>, k: nat)
    requires Ranked(cs) && UniqueAddresses(cs) && p < k < |cs| && c.address == cs[p].address
    ensures k <= Place(Without(cs, p), c) <==> Ahead(cs[k], c)
  {
    AheadTotal(cs[k], c);
    if Ahead(cs[k], c) { AheadAsymmetric(cs[k], c); }
    WithoutRanked(cs, p);
    hide Ranked, Ahead, UniqueAddresses;
    PlaceBefore(Without(cs, p), c, k - 1);
  }

  /** In a ranked list an entry is placed behind exactly those it is not ahead of. */
  lemma PlaceBefore<T>(cs: seq<Entry<T>>, c: Entry<T>, k: nat)
    requires Ranked(cs) && k < |cs|
    ensures k < Place(cs, c) <==> !Ahead(c, cs[k])
  {
    hide Ahead;
    var q := Place(cs, c);
    if q < k {
      AheadTransitive(c, cs[q], cs[k]);
    }
  }

  lemma LoweredStays<T>(cs: seq<Entry<T>>, p: nat, c: Entry<T>)
    requires Ranked(cs) && p < |cs| && c.address == cs[p].address && c.stake <= cs[p].stake
    ensures p <= Place(Without(cs, p), c)
  {
    var rest := Without(cs, p);
    var q := Place(rest, c);
    if q < p {
      assert rest[q] == cs[q] && Ahead(cs[q], cs[p]);
      AheadAsymmetric(c, cs[q]);
    }
  }

  lemma AddressIn<T>(cs: seq<Entry<T>>, p: nat)
    requires p < |cs|
    ensures cs[p].address in Addresses(cs)
  {
    assert cs[p] in cs;
  }

  lemma WithoutAddresses<T>(cs: seq<Entry<T>>, p: nat)
    requires UniqueAddresses(cs) && p < |cs|
    ensures Addresses(Without(cs, p)) == Addresses(cs) - {cs[p].address}
  {
    WithoutUnique(cs, p);
    WithoutContents(cs, p);
    forall a | a in Addresses(cs) && a != cs[p].address
      ensures a in Addresses(Without(cs, p))
    {
      var c :| c in cs && c.address == a;
      var k :| 0 <= k < |cs| && cs[k] == c;
      assert Without(cs, p)[if k < p then k else k - 1] == c;
    }
  }

  /** A push, sorted and cut to `size`. */
  lemma PushKeeps<T>(cs: seq<Entry<T>>, c: Entry<T>, size: nat, k: nat)
    requires Ranked(cs) && UniqueAddresses(cs) && c.address !in Addresses(cs)
    ensures var r := Top(Sort(cs + [c]), size);
            var p := Position(r, c.address);
            && Ranked(r) && UniqueAddresses(r) && Addresses(r) <= Addresses(cs) + {c.address}
            && (k <= p < |r| ==> TopData(r, k) == TopData(cs, k))
  {
    hide Sort, Ahead, Ranked, UniqueAddresses, Position;
    SortAfterPush(cs, c);
    InsertRanked(cs, c);
    UniqueInsert(cs, c);
    InsertContents(cs, c);
    var all := Insert(cs, c);
    TopKeeps(all, size);
    if k <= Position(Top(all, size), c.address) < |Top(all, size)| {
      PushedBehind(cs, c, size, k);
    }
  }

  lemma PushedBehind<T>(cs: seq<Entry<T>>, c: Entry<T>, size: nat, k: nat)
    requires UniqueAddresses(Insert(cs, c))
    requires k <= Position(Top(Insert(cs, c), size), c.address) < |Top(Insert(cs, c), size)|
    ensures TopData(Top(Insert(cs, c), size), k) == TopData(cs, k)
  {
    hide Place;
    var all := Insert(cs, c);
    var r := Top(all, size);
    var p := Position(r, c.address);
    assert all[p] == r[p];
    PositionOfMember(all, p);
    PositionOfMember(all, Place(cs, c));
    TopAfterInsert(cs, c, k);
    assert Top(r, k) == Top(all, k);
  }

  /** A removal; sorting what remains changes nothing. */
  lemma RemoveKeeps<T>(cs: seq<Entry<T>>, p: nat, k: nat)
    requires Ranked(cs) && UniqueAddresses(cs) && p < |cs|
    ensures var r := Sort(Without(cs, p));
            && Ranked(r) && UniqueAddresses(r) && Addresses(r) == Addresses(cs) - {cs[p].address}
            && (k <= p ==> TopData(r, k) == TopData(cs, k))
  {
    hide Ahead;
    WithoutRanked(cs, p);
    WithoutUnique(cs, p);
    WithoutAddresses(cs, p);
    SortOfRanked(Without(cs, p));
    if k <= p { TopAfterRemove(cs, p, k); }
  }

  lemma InsertData<T>(cs: seq<Entry<T>>, c: Entry<T>)
    ensures multiset(Data(Insert(cs, c))) == multiset(Data(cs)) + multiset{c.data}
  {
    var p := Place(cs, c);
    assert Data(Insert(cs, c)) == Data(cs[..p]) + [c.data] + Data(cs[p..]);
    assert Data(cs) == Data(cs[..p]) + Data(cs[p..]);
  }

  lemma {:induction false} SortData<T>(cs: seq<Entry<T>>)
    ensures multiset(Data(Sort(cs))) == multiset(Data(cs))
  {
    if cs != [] {
      var before := cs[..|cs| - 1];
      SortData(before);
      InsertData(Sort(before), cs[|cs| - 1]);
      assert Data(cs) == Data(before) + [cs[|cs| - 1].data];
    }
  }

  lemma SortUnique<T>(cs: seq<Entry<T>>)
    requires UniqueAddresses(cs)
    ensures UniqueAddresses(Sort(cs)) && |Sort(cs)| == |cs|
  {
    SortRanks(cs);
    var r := Sort(cs);
    assert |multiset(r)| == |r| && |multiset(cs)| == |cs|;
    forall i, j | 0 <= i < j < |r|
      ensures r[i].address != r[j].address
    {
      assert Ahead(r[i], r[j]);
      LessIrreflexive(r[i].address);
      assert r[i] in multiset(cs) && r[j] in multiset(cs);
      var x :| 0 <= x < |cs| && cs[x] == r[i];
      var y :| 0 <= y < |cs| && cs[y] == r[j];
      assert x != y;
    }
  }
}
