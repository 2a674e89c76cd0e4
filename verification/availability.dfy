/** Datacenter selection over the provider's availability records
    (`OVHManager._check_availability` and the selection loop of the legacy
    script's `run_task`). */
module Availability {
  import opened Wrappers
  import opened Strings

  /** One `{"datacenter": ..., "availability": ...}` entry of a record. */
  datatype DatacenterStatus = DatacenterStatus(datacenter: string, availability: string)

  /** One element of the availability endpoint's answer. */
  datatype AvailabilityRecord =
    AvailabilityRecord(planCode: string, fqn: string, datacenters: seq<DatacenterStatus>)

  /** The two selection variants: the managed one sorts by priority and also
      skips "coming soon" entries, the legacy script does neither. */
  datatype Policy = Managed | Legacy

  /** Rank given to a datacenter the configured order does not mention. */
  const UnknownRank: int := 999

  /** Whether a datacenter with this availability string may be bought. */
  predicate Admits(policy: Policy, availability: string)
  {
    availability != "unavailable" && (policy == Legacy || !Contains(availability, "coming"))
  }

  /** `{dc: idx + 1 for idx, dc in enumerate(order)}`: entries are written
      left to right, so a repeated code ends up with the rank of its last
      position (see `PriorityRanks`). */
  function PriorityMap(order: seq<string>): (m: map<string, int>)
    ensures forall dc :: dc in m <==> dc in order
    ensures forall dc | dc in m :: 1 <= m[dc] <= |order|
  {
    if order == [] then map[]
    else
      var prefix := order[..|order| - 1];
      assert order == prefix + [order[|order| - 1]];
      PriorityMap(prefix)[order[|order| - 1] := |order|]
  }

  /** `i` is the last position at which `order[i]` occurs. */
  ghost predicate LastOccurrence(order: seq<string>, i: int)
  {
    0 <= i < |order| && forall j | i < j < |order| :: order[j] != order[i]
  }

  /** The datacenter at position `i` of the configured order has rank
      `i + 1`; for a repeated code the later position wins. */
  lemma {:induction false} PriorityRanks(order: seq<string>, i: int)
    requires LastOccurrence(order, i)
    ensures PriorityMap(order)[order[i]] == i + 1
    decreases |order|
  {
    var prefix := order[..|order| - 1];
    if i < |order| - 1 {
      assert order[|order| - 1] != order[i];
      assert LastOccurrence(prefix, i);
      PriorityRanks(prefix, i);
    }
  }

  /** `priority.get(dc, 999)`. */
  function Rank(m: map<string, int>, dc: string): int
  {
    if dc in m then m[dc] else UnknownRank
  }

  /** The sort key of one entry. */
  function Key(m: map<string, int>, d: DatacenterStatus): int
  {
    Rank(m, d.datacenter)
  }

  ghost predicate SortedByRank(m: map<string, int>, ds: seq<DatacenterStatus>)
  {
    forall i, j | 0 <= i < j < |ds| :: Key(m, ds[i]) <= Key(m, ds[j])
  }

  /** Places `d` after every entry, from the back, whose rank is larger
      than its own. */
  function InsertByRank(m: map<string, int>, ds: seq<DatacenterStatus>, d: DatacenterStatus)
    : (r: seq<DatacenterStatus>)
    ensures multiset(r) == multiset(ds) + multiset{d}
  {
    if ds == [] then [d]
    else if Key(m, ds[|ds| - 1]) <= Key(m, d) then ds + [d]
    else
      assert ds == ds[..|ds| - 1] + [ds[|ds| - 1]];
      InsertByRank(m, ds[..|ds| - 1], d) + [ds[|ds| - 1]]
  }

  /** Insertion into a sorted sequence yields a sorted sequence. */
  lemma {:induction false} InsertSorted(m: map<string, int>, ds: seq<DatacenterStatus>, d: DatacenterStatus)
    requires SortedByRank(m, ds)
    ensures SortedByRank(m, InsertByRank(m, ds, d))
    decreases |ds|
  {
    if ds != [] && Key(m, d) < Key(m, ds[|ds| - 1]) {
      var last := ds[|ds| - 1];
      var prefix := ds[..|ds| - 1];
      assert ds == prefix + [last];
      SortedPrefix(m, prefix, last);
      InsertSorted(m, prefix, d);
      InsertBelow(m, prefix, last, d, InsertByRank(m, prefix, d));
    }
  }

  /** Appending `last` keeps `r0` sorted when `last` outranks everything
      `r0` was built from. */
  lemma InsertBelow(m: map<string, int>, prefix: seq<DatacenterStatus>, last: DatacenterStatus,
                    d: DatacenterStatus, r0: seq<DatacenterStatus>)
    requires SortedByRank(m, prefix + [last])
    requires Key(m, d) < Key(m, last)
    requires SortedByRank(m, r0)
    requires multiset(r0) == multiset(prefix) + multiset{d}
    ensures SortedByRank(m, r0 + [last])
  {
    forall i | 0 <= i < |r0|
      ensures Key(m, r0[i]) <= Key(m, last)
    {
      assert r0[i] in multiset(r0);
      if r0[i] != d {
        assert r0[i] in multiset(prefix);
        var j :| 0 <= j < |prefix| && prefix[j] == r0[i];
        assert (prefix + [last])[j] == prefix[j];
        assert (prefix + [last])[|prefix|] == last;
      }
    }
  }

  /** `datacenters.sort(key=...)`: an insertion sort, stable like Python's. */
  function SortByPriority(m: map<string, int>, ds: seq<DatacenterStatus>): (r: seq<DatacenterStatus>)
    ensures SortedByRank(m, r)
    ensures multiset(r) == multiset(ds)
  {
    if ds == [] then []
    else
      var prefix := ds[..|ds| - 1];
      assert ds == prefix + [ds[|ds| - 1]];
      InsertSorted(m, SortByPriority(m, prefix), ds[|ds| - 1]);
      InsertByRank(m, SortByPriority(m, prefix), ds[|ds| - 1])
  }

  /** The entries of rank `k`, in the order they appear in `ds`. */
  function RankClass(m: map<string, int>, ds: seq<DatacenterStatus>, k: int): seq<DatacenterStatus>
  {
    if ds == [] then []
    else RankClass(m, ds[..|ds| - 1], k) + (if Key(m, ds[|ds| - 1]) == k then [ds[|ds| - 1]] else [])
  }

  lemma RankClassSnoc(m: map<string, int>, ds: seq<DatacenterStatus>, d: DatacenterStatus, k: int)
    ensures RankClass(m, ds + [d], k) == RankClass(m, ds, k) + (if Key(m, d) == k then [d] else [])
  {
    assert (ds + [d])[..|ds|] == ds;
  }

  lemma SortedPrefix(m: map<string, int>, prefix: seq<DatacenterStatus>, last: DatacenterStatus)
    requires SortedByRank(m, prefix + [last])
    ensures SortedByRank(m, prefix)
  {
    forall i, j | 0 <= i < j < |prefix|
      ensures Key(m, prefix[i]) <= Key(m, prefix[j])
    {
      assert (prefix + [last])[i] == prefix[i] && (prefix + [last])[j] == prefix[j];
    }
  }

  lemma {:induction false} InsertStable(m: map<string, int>, ds: seq<DatacenterStatus>, d: DatacenterStatus, k: int)
    ensures RankClass(m, InsertByRank(m, ds, d), k) == RankClass(m, ds, k) + (if Key(m, d) == k then [d] else [])
    decreases |ds|
  {
    if ds == [] {
      RankClassSnoc(m, [], d, k);
    } else if Key(m, ds[|ds| - 1]) <= Key(m, d) {
      RankClassSnoc(m, ds, d, k);
    } else {
      var last := ds[|ds| - 1];
      var prefix := ds[..|ds| - 1];
      assert ds == prefix + [last];
      var r0 := InsertByRank(m, prefix, d);
      assert InsertByRank(m, ds, d) == r0 + [last];
      InsertStable(m, prefix, d, k);
      PassLast(m, prefix, last, d, k, r0);
    }
  }

  /** Moving `d` in front of a larger-ranked `last` does not change the
      order within any rank class. */
  lemma PassLast(m: map<string, int>, prefix: seq<DatacenterStatus>, last: DatacenterStatus,
                 d: DatacenterStatus, k: int, r0: seq<DatacenterStatus>)
    requires Key(m, d) < Key(m, last)
    requires RankClass(m, r0, k) == RankClass(m, prefix, k) + (if Key(m, d) == k then [d] else [])
    ensures RankClass(m, r0 + [last], k)
            == RankClass(m, prefix + [last], k) + (if Key(m, d) == k then [d] else [])
  {
    RankClassSnoc(m, r0, last, k);
    RankClassSnoc(m, prefix, last, k);
    if Key(m, d) == k {
      // `last` ranks above `d`, so it is outside the class
      assert RankClass(m, r0 + [last], k) == RankClass(m, r0, k) + [];
      assert RankClass(m, prefix + [last], k) == RankClass(m, prefix, k) + [];
    } else {
      assert RankClass(m, r0, k) == RankClass(m, prefix, k) + [];
    }
  }

  /** Stability: for every rank, the entries of that rank keep their
      original relative order. Together with `SortedByRank` and the
      multiset equality this pins the output down completely. */
  lemma {:induction false} SortStable(m: map<string, int>, ds: seq<DatacenterStatus>)
    ensures forall k :: RankClass(m, SortByPriority(m, ds), k) == RankClass(m, ds, k)
    decreases |ds|
  {
    if ds != [] {
      var prefix := ds[..|ds| - 1];
      var last := ds[|ds| - 1];
      assert ds == prefix + [last];
      SortStable(m, prefix);
      forall k
        ensures RankClass(m, SortByPriority(m, ds), k) == RankClass(m, ds, k)
      {
        InsertStable(m, SortByPriority(m, prefix), last, k);
        RankClassSnoc(m, prefix, last, k);
      }
    }
  }

  /** With fewer than 999 configured codes, every listed datacenter comes
      before every unlisted one after sorting, and the unlisted ones keep
      their original relative order. */
  lemma UnlistedSortLast(order: seq<string>, ds: seq<DatacenterStatus>)
    requires |order| < UnknownRank
    ensures var r := SortByPriority(PriorityMap(order), ds);
            forall i, j | 0 <= i < j < |r| :: r[i].datacenter !in order ==> r[j].datacenter !in order
    ensures RankClass(PriorityMap(order), SortByPriority(PriorityMap(order), ds), UnknownRank)
            == RankClass(PriorityMap(order), ds, UnknownRank)
  {
    SortStable(PriorityMap(order), ds);
  }

  /** The index of the first admitted entry, scanning in order. */
  function FirstAdmitted(ds: seq<DatacenterStatus>, policy: Policy): (r: Option<nat>)
    ensures r.Some? ==> r.value < |ds| && Admits(policy, ds[r.value].availability)
    ensures r.Some? ==> forall j | 0 <= j < r.value :: !Admits(policy, ds[j].availability)
    ensures r.None? <==> forall j | 0 <= j < |ds| :: !Admits(policy, ds[j].availability)
  {
    if ds == [] then None
    else if Admits(policy, ds[0].availability) then Some(0)
    else match FirstAdmitted(ds[1..], policy)
      case Some(i) => Some(i + 1)
      case None => None
  }

  /** The entries a record offers, in the order the policy examines them. */
  function Candidates(m: map<string, int>, rec: AvailabilityRecord, policy: Policy): seq<DatacenterStatus>
  {
    if policy == Managed then SortByPriority(m, rec.datacenters) else rec.datacenters
  }

  /** The walk over the records: a matching record without an admitted
      entry does not stop the search. */
  function SelectIn(records: seq<AvailabilityRecord>, planCode: string, policy: Policy, m: map<string, int>)
    : Option<string>
  {
    if records == [] then None
    else
      var cands := Candidates(m, records[0], policy);
      if records[0].planCode == planCode && FirstAdmitted(cands, policy).Some? then
        Some(cands[FirstAdmitted(cands, policy).value].datacenter)
      else SelectIn(records[1..], planCode, policy, m)
  }

  /** The datacenter to buy in, or `None` when nothing is purchasable. */
  function Select(records: seq<AvailabilityRecord>, planCode: string, policy: Policy, order: seq<string>)
    : Option<string>
  {
    SelectIn(records, planCode, policy, PriorityMap(order))
  }

  // ---------------------------------------------------------------------
  // Independent statement of what selection returns.

  ghost predicate HasAdmitted(ds: seq<DatacenterStatus>, policy: Policy)
  {
    exists j :: 0 <= j < |ds| && Admits(policy, ds[j].availability)
  }

  /** `dc` names the first admitted entry of `ds`. */
  ghost predicate FirstAdmittedIs(ds: seq<DatacenterStatus>, policy: Policy, dc: string)
  {
    exists i :: 0 <= i < |ds| && ds[i].datacenter == dc && Admits(policy, ds[i].availability)
      && forall j | 0 <= j < i :: !Admits(policy, ds[j].availability)
  }

  /** Record `k` is the first record of the plan whose candidates contain an
      admitted entry. */
  ghost predicate FirstStocked(records: seq<AvailabilityRecord>, planCode: string, policy: Policy,
                               m: map<string, int>, k: int)
  {
    && 0 <= k < |records|
    && records[k].planCode == planCode
    && HasAdmitted(Candidates(m, records[k], policy), policy)
    && forall j | 0 <= j < k && records[j].planCode == planCode ::
         !HasAdmitted(Candidates(m, records[j], policy), policy)
  }

  /** Selection returns nothing exactly when no record of the plan has an
      admitted candidate. */
  lemma {:induction false} SelectNoneSpec(records: seq<AvailabilityRecord>, planCode: string, policy: Policy,
                                          m: map<string, int>)
    ensures SelectIn(records, planCode, policy, m).None? <==>
            forall k | 0 <= k < |records| && records[k].planCode == planCode ::
              !HasAdmitted(Candidates(m, records[k], policy), policy)
    decreases |records|
  {
    if records != [] {
      var cands := Candidates(m, records[0], policy);
      var rest := records[1..];
      assert FirstAdmitted(cands, policy).Some? <==> HasAdmitted(cands, policy);
      SelectNoneSpec(rest, planCode, policy, m);
      assert forall k | 1 <= k < |records| :: records[k] == rest[k - 1];
    }
  }

  /** Otherwise it returns the first admitted candidate of the first record
      of the plan that has one. */
  lemma {:induction false} SelectSomeSpec(records: seq<AvailabilityRecord>, planCode: string, policy: Policy,
                                          m: map<string, int>)
    requires SelectIn(records, planCode, policy, m).Some?
    ensures exists k :: FirstStocked(records, planCode, policy, m, k)
              && FirstAdmittedIs(Candidates(m, records[k], policy), policy,
                                 SelectIn(records, planCode, policy, m).value)
    decreases |records|
  {
    var cands := Candidates(m, records[0], policy);
    var fa := FirstAdmitted(cands, policy);
    if records[0].planCode == planCode && fa.Some? {
      assert HasAdmitted(cands, policy);
      assert FirstStocked(records, planCode, policy, m, 0);
      assert FirstAdmittedIs(cands, policy, cands[fa.value].datacenter);
    } else {
      var rest := records[1..];
      var dc := SelectIn(records, planCode, policy, m).value;
      assert SelectIn(rest, planCode, policy, m).value == dc;
      assert records[0].planCode != planCode || !HasAdmitted(cands, policy);
      SelectSomeSpec(rest, planCode, policy, m);
      var k :| FirstStocked(rest, planCode, policy, m, k)
               && FirstAdmittedIs(Candidates(m, rest[k], policy), policy, dc);
      assert records[k + 1] == rest[k];
      forall j | 0 <= j < k + 1 && records[j].planCode == planCode
        ensures !HasAdmitted(Candidates(m, records[j], policy), policy)
      {
        if j > 0 {
          assert records[j] == rest[j - 1];
        }
      }
      assert FirstStocked(records, planCode, policy, m, k + 1);
    }
  }

  /** Sorting never hides or creates stock: a record has an admitted entry
      after sorting iff it had one before. */
  lemma SortKeepsStock(m: map<string, int>, ds: seq<DatacenterStatus>, policy: Policy)
    ensures HasAdmitted(SortByPriority(m, ds), policy) <==> HasAdmitted(ds, policy)
  {
    var r := SortByPriority(m, ds);
    if HasAdmitted(ds, policy) {
      var j :| 0 <= j < |ds| && Admits(policy, ds[j].availability);
      assert ds[j] in multiset(r);
    }
    if HasAdmitted(r, policy) {
      var j :| 0 <= j < |r| && Admits(policy, r[j].availability);
      assert r[j] in multiset(ds);
    }
  }

  /** Whenever the managed checker finds stock, the legacy scan (same
      records, no sort, no "coming" filter) finds stock too. */
  lemma ManagedStockImpliesLegacyStock(records: seq<AvailabilityRecord>, planCode: string, order: seq<string>)
    ensures Select(records, planCode, Managed, order).Some? ==> Select(records, planCode, Legacy, order).Some?
  {
    var m := PriorityMap(order);
    SelectNoneSpec(records, planCode, Legacy, m);
    if Select(records, planCode, Managed, order).Some? {
      SelectSomeSpec(records, planCode, Managed, m);
      var k :| FirstStocked(records, planCode, Managed, m, k)
               && FirstAdmittedIs(Candidates(m, records[k], Managed), Managed,
                                  Select(records, planCode, Managed, order).value);
      SortKeepsStock(m, records[k].datacenters, Managed);
      var j :| 0 <= j < |records[k].datacenters| && Admits(Managed, records[k].datacenters[j].availability);
      assert Admits(Legacy, records[k].datacenters[j].availability);
      assert HasAdmitted(Candidates(m, records[k], Legacy), Legacy);
    }
  }

  /** An availability string without the letter 'c' is not "coming soon". */
  lemma NoCNoComing(availability: string)
    requires 'c' !in availability
    ensures !Contains(availability, "coming")
  {
    if Contains(availability, "coming") {
      ContainsFirstChar(availability, "coming");
    }
  }

  /** The priority map of a two-code order with distinct codes. */
  lemma TwoCodeMap(a: string, b: string)
    requires a != b
    ensures Rank(PriorityMap([a, b]), a) == 1 && Rank(PriorityMap([a, b]), b) == 2
  {
    assert [a, b][..1] == [a];
    assert [a][..0] == [];
  }

  /** Sorting two entries whose ranks are out of order swaps them. */
  lemma SortSwapsTwo(m: map<string, int>, x: DatacenterStatus, y: DatacenterStatus)
    requires Key(m, y) < Key(m, x)
    ensures SortByPriority(m, [x, y]) == [y, x]
  {
    assert [x, y][..1] == [x];
    assert [x][..0] == [];
    assert SortByPriority(m, [x]) == InsertByRank(m, [], x) == [x];
    assert SortByPriority(m, [x, y]) == InsertByRank(m, [x], y);
  }

  /** Sorting two entries already in rank order keeps them. */
  lemma SortKeepsTwo(m: map<string, int>, x: DatacenterStatus, y: DatacenterStatus)
    requires Key(m, x) <= Key(m, y)
    ensures SortByPriority(m, [x, y]) == [x, y]
  {
    assert [x, y][..1] == [x];
    assert [x][..0] == [];
    assert SortByPriority(m, [x]) == InsertByRank(m, [], x) == [x];
    assert SortByPriority(m, [x, y]) == InsertByRank(m, [x], y);
  }

  /** A two-datacenter example: `fra` is unavailable, `gra` available, the
      order is `gra,fra`, so `gra` is chosen. */
  lemma ScenarioPicksGra()
    ensures Select([AvailabilityRecord("X", "X.fqn", [DatacenterStatus("fra", "unavailable"),
                                                     DatacenterStatus("gra", "available")])],
                   "X", Managed, ["gra", "fra"]) == Some("gra")
  {
    var fra := DatacenterStatus("fra", "unavailable");
    var gra := DatacenterStatus("gra", "available");
    var rec := AvailabilityRecord("X", "X.fqn", [fra, gra]);
    var m := PriorityMap(["gra", "fra"]);
    TwoCodeMap("gra", "fra");
    SortSwapsTwo(m, fra, gra);
    AvailableIsAdmitted();
    assert Candidates(m, rec, Managed) == [gra, fra];
    assert FirstAdmitted([gra, fra], Managed) == Some(0);
    assert SelectIn([rec], "X", Managed, m) == Some("gra");
  }

  /** The plain "available" status is admitted by both variants. */
  lemma AvailableIsAdmitted()
    ensures Admits(Managed, "available") && Admits(Legacy, "available")
  {
    assert |"available"| != |"unavailable"|;
    NoCNoComing("available");
  }

  /** Where the variants differ: a "comingSoon" entry ranked first is skipped
      by the managed checker but bought by the legacy script. */
  lemma ComingSoonSplitsVariants()
    ensures var recs := [AvailabilityRecord("X", "X.fqn", [DatacenterStatus("fra", "comingSoon"),
                                                          DatacenterStatus("gra", "1H-low")])];
            Select(recs, "X", Managed, ["fra", "gra"]) == Some("gra")
            && Select(recs, "X", Legacy, ["fra", "gra"]) == Some("fra")
  {
    var fra := DatacenterStatus("fra", "comingSoon");
    var gra := DatacenterStatus("gra", "1H-low");
    var rec := AvailabilityRecord("X", "X.fqn", [fra, gra]);
    var m := PriorityMap(["fra", "gra"]);
    TwoCodeMap("fra", "gra");
    SortKeepsTwo(m, fra, gra);
    assert "comingSoon"[..6] == "coming";
    assert StartsWith(fra.availability, "coming");
    assert !Admits(Managed, fra.availability);
    assert Admits(Legacy, fra.availability);
    NoCNoComing("1H-low");
    assert Admits(Managed, gra.availability);
    assert Candidates(m, rec, Managed) == [fra, gra];
    assert FirstAdmitted([fra, gra], Managed) == Some(1);
    assert FirstAdmitted([fra, gra], Legacy) == Some(0);
  }
}
