/** What the create batch's count and poll compute, and what that gives its requests. */
module CreateSpec {
  import opened Common
  import opened Machines
  import opened ApiServer
  import opened Replicas

  function Names(found: seq<Listed>): set<string> { set x | x in found :: x.key.name }

  function AddNew(found: seq<Listed>, x: Listed): seq<Listed> {
    if x.key.name in Names(found) || !x.machine.Usable() then found else found + [x]
  }

  function AddAll(found: seq<Listed>, listing: seq<Listed>): seq<Listed> {
    if listing == [] then found else AddNew(AddAll(found, listing[..|listing| - 1]), listing[|listing| - 1])
  }

  /** Everything a poll without a target count would gather from successive listings. */
  function Collected(listings: seq<seq<Listed>>): seq<Listed> {
    if listings == [] then [] else AddAll(Collected(listings[..|listings| - 1]), listings[|listings| - 1])
  }

  /** What has been found out of what was seen: all of it, unless that is enough. */
  ghost predicate Gathered(found: seq<Listed>, listings: seq<seq<Listed>>, count: nat) {
    found == Collected(listings)[..Min(Max(count, 1), |Collected(listings)|)]
  }

  predicate DistinctNames(found: seq<Listed>) {
    forall i, j | 0 <= i < j < |found| :: found[i].key.name != found[j].key.name
  }

  /** The Machines the count counts. */
  function UnclaimedOf(ms: map<Key, Machine>, d: Key): set<Key> {
    set k | k in ms && Selected(k, ms[k], d) && ms[k].Usable()
  }

  lemma {:induction false} AddAllFacts(found: seq<Listed>, listing: seq<Listed>)
    ensures found <= AddAll(found, listing)
    ensures DistinctNames(found) ==> DistinctNames(AddAll(found, listing))
    ensures forall x | x in AddAll(found, listing) :: x in found || (x in listing && x.machine.Usable())
    ensures forall x | x in listing && x.machine.Usable() :: x.key.name in Names(AddAll(found, listing))
  {
    if listing != [] {
      var front, last := listing[..|listing| - 1], listing[|listing| - 1];
      assert listing == front + [last];
      AddAllFacts(found, front);
      var f := AddAll(found, front);
      assert forall x | x in f :: x.key.name in Names(f);
      AddNewFacts(f, last);
    }
  }

  lemma AddNewFacts(f: seq<Listed>, x: Listed)
    ensures f <= AddNew(f, x) && (DistinctNames(f) ==> DistinctNames(AddNew(f, x)))
    ensures forall y | y in AddNew(f, x) :: y in f || (y == x && x.machine.Usable())
    ensures x.machine.Usable() ==> x.key.name in Names(AddNew(f, x))
    ensures Names(f) <= Names(AddNew(f, x))
  {
  }

  /** Nothing is gathered twice, nothing claimed, marked or deleting is gathered, and
      nothing that was eligible in some listing is missed. */
  lemma {:induction false} CollectedFacts(listings: seq<seq<Listed>>)
    ensures DistinctNames(Collected(listings))
    ensures forall x | x in Collected(listings) ::
      x.machine.Usable() && exists i :: 0 <= i < |listings| && x in listings[i]
    ensures forall i, x | 0 <= i < |listings| && x in listings[i] && x.machine.Usable() ::
      x.key.name in Names(Collected(listings))
  {
    if listings != [] {
      var n := |listings| - 1;
      CollectedFacts(listings[..n]);
      var f := Collected(listings[..n]);
      AddAllFacts(f, listings[n]);
      forall x | x in Collected(listings)
        ensures x.machine.Usable() && exists i :: 0 <= i < |listings| && x in listings[i]
      {
        if x in f {
          var i :| 0 <= i < n && x in listings[..n][i];
          assert x in listings[i];
        } else {
          assert x in listings[n];
        }
      }
      forall i, x | 0 <= i < |listings| && x in listings[i] && x.machine.Usable()
        ensures x.key.name in Names(Collected(listings))
      {
        if i < n {
          assert x in listings[..n][i];
          var y :| y in f && y.key.name == x.key.name;
          assert y in Collected(listings);
        }
      }
    }
  }

  lemma NamesCard(found: seq<Listed>)
    requires DistinctNames(found)
    ensures |Names(found)| == |found|
  {
    if found != [] {
      var front, last := found[..|found| - 1], found[|found| - 1];
      assert found == front + [last];
      NamesCard(front);
      assert Names(found) == Names(front) + {last.key.name};
    }
  }

  function NamesOf(ks: set<Key>): set<string> { set k | k in ks :: k.name }

  lemma NamesOfCard(ks: set<Key>, ns: string)
    requires forall k | k in ks :: k.ns == ns
    ensures |NamesOf(ks)| == |ks|
  {
    if ks != {} {
      var k :| k in ks;
      NamesOfCard(ks - {k}, ns);
      assert NamesOf(ks) == NamesOf(ks - {k}) + {k.name};
    }
  }

  lemma ListedNames(listing: seq<Listed>, ms: map<Key, Machine>, d: Key)
    requires IsListing(listing, ms, d) && d.ns != ""
    ensures Names(AddAll([], listing)) == NamesOf(UnclaimedOf(ms, d))
    ensures |NamesOf(UnclaimedOf(ms, d))| == |UnclaimedOf(ms, d)|
  {
    AddAllFacts([], listing);
    forall k | k in UnclaimedOf(ms, d)
      ensures k.name in Names(AddAll([], listing))
    {
      assert Listed(k, ms[k]) in listing;
    }
    forall x | x in AddAll([], listing)
      ensures x.key in UnclaimedOf(ms, d)
    {
    }
    NamesOfCard(UnclaimedOf(ms, d), d.ns);
  }

  /** On an unchanged store the count and the poll agree: the first round of a poll for
      `n` Machines yields exactly as many as were counted, up to `n`. */
  lemma CountAndPollAgree(found: seq<Listed>, listing: seq<Listed>, n: nat, ms: map<Key, Machine>, d: Key)
    requires IsListing(listing, ms, d) && d.ns != "" && n >= 1 && Gathered(found, [listing], n)
    ensures |found| == Min(n, |UnclaimedOf(ms, d)|)
  {
    assert [listing][..0] == [];
    assert Collected([listing]) == AddAll([], listing);
    ListedNames(listing, ms, d);
    AddAllFacts([], listing);
    NamesCard(AddAll([], listing));
  }

  /** One listing that shows enough Machines is enough for the whole poll. */
  lemma ListingSuffices(listings: seq<seq<Listed>>, i: nat, ms: map<Key, Machine>, d: Key)
    requires i < |listings| && IsListing(listings[i], ms, d) && d.ns != ""
    ensures |Collected(listings)| >= |UnclaimedOf(ms, d)|
  {
    CollectedFacts(listings);
    forall k | k in UnclaimedOf(ms, d)
      ensures k.name in Names(Collected(listings))
    {
      assert Listed(k, ms[k]) in listings[i];
    }
    NamesOfCard(UnclaimedOf(ms, d), d.ns);
    CardSubset(NamesOf(UnclaimedOf(ms, d)), Names(Collected(listings)));
    NamesCard(Collected(listings));
  }

  /** The deficit suffices: what was counted plus what was ordered covers the requests;
      so once a listing shows those Machines the poll has one for each request. */
  lemma DeficitSuffices(n: nat, unclaimed: nat, listings: seq<seq<Listed>>, i: nat, ms: map<Key, Machine>, d: Key)
    requires n <= MAX_INT32 && unclaimed <= MAX_INT32
    requires i < |listings| && IsListing(listings[i], ms, d) && d.ns != ""
    requires |UnclaimedOf(ms, d)| >= unclaimed + Deficit(n, unclaimed)
    ensures |Collected(listings)| >= n
  {
    ListingSuffices(listings, i, ms, d);
  }
}
