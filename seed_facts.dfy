/** Filtering shapes the shipped catalogue's country groups take. */
module SeedFilters {
  import opened Seqs

  /** The shape of the US filter over the catalogue: it keeps the first
      record, drops a middle run, and keeps two of the last three. */
  lemma KeepFirstAndTwoOfLast<T>(a: T, mid: seq<T>, b: T, c: T, d: T, p: T -> bool)
    requires p(a) && p(b) && !p(c) && p(d)
    requires forall i :: 0 <= i < |mid| ==> !p(mid[i])
    ensures Filter([a] + mid + [b, c, d], p) == [a, b, d]
  {
    var head, tail := [a] + mid, [b, c, d];
    FilterConcat(head, tail, p);
    KeepOnlyFirst(a, mid, p);
    KeepOuterTwo(b, c, d, p);
    PrependToPair(a, b, d);
  }

  /** Kept apart so that the sequence equality is proved without the
      filter facts in scope, where it costs far more. */
  lemma PrependToPair<T>(a: T, b: T, d: T)
    ensures [a] + [b, d] == [a, b, d]
  {
  }

  lemma KeepOnlyFirst<T>(a: T, mid: seq<T>, p: T -> bool)
    requires p(a)
    requires forall i :: 0 <= i < |mid| ==> !p(mid[i])
    ensures Filter([a] + mid, p) == [a]
  {
    FilterConcat([a], mid, p);
    FilterNone(mid, p);
    FilterSingle(a, p);
  }

  lemma KeepOuterTwo<T>(b: T, c: T, d: T, p: T -> bool)
    requires p(b) && !p(c) && p(d)
    ensures Filter([b, c, d], p) == [b, d]
  {
    assert [b, c, d] == [b] + ([c] + [d]);
    FilterConcat([b], [c] + [d], p);
    FilterConcat([c], [d], p);
    FilterSingle(b, p);
    FilterSingle(c, p);
    FilterSingle(d, p);
  }
}

/** What the general lemmas say about the catalogue the app ships with. */
module SeedFacts {
  import opened Wrappers
  import opened Seqs
  import opened JsNumber
  import opened DataCenterType
  import opened SeedData
  import opened ComparisonTool
  import opened AdvancedAnalytics
  import opened AdminPanel
  import opened AuthContext
  import opened App
  import opened SeedFilters

  /** The shipped ids are pairwise distinct, so saving by id edits one row. */
  lemma SeedIdsUnique()
    ensures UniqueIds(DataCenters)
  {
    var ids := ["1", "2", "3", "4", "5", "6", "7", "8", "9", "10"];
    assert forall i :: 0 <= i < |DataCenters| ==> DataCenters[i].id == ids[i];
    assert forall i, j :: 0 <= i < j < |ids| ==> ids[i] != ids[j];
  }

  /** Every shipped facility's used capacity is a percentage, and every
      rating and sub-rating is at most 5. */
  lemma SeedRanges()
    ensures forall i :: 0 <= i < |DataCenters| ==> 0.0 <= DataCenters[i].capacity.used <= 100.0
    ensures forall i :: 0 <= i < |DataCenters| ==>
              var r := DataCenters[i].reviews;
              r.rating <= 5.0 && r.reliability <= 5.0 && r.support <= 5.0 && r.value <= 5.0
  {
  }

  /** The tier of each shipped facility, in catalogue order. */
  const SeedTiers: seq<string> :=
    ["Tier 3", "Tier 4", "Tier 3", "Tier 3", "Tier 2", "Tier 3", "Tier 4", "Tier 4", "Tier 4", "Tier 4"]

  lemma SeedTierList()
    ensures Map(DataCenters, TierOf) == SeedTiers
  {
  }

  lemma SeedTierTally()
    ensures multiset(SeedTiers)["Tier 3"] == 4
    ensures multiset(SeedTiers)["Tier 4"] == 5
    ensures multiset(SeedTiers)["Tier 2"] == 1
  {
  }

  /** The shipped catalogue has four Tier 3, five Tier 4 and one Tier 2
      facility. */
  lemma SeedTierCounts()
    ensures CountWhere(DataCenters, TierOf, "Tier 3") == 4
    ensures CountWhere(DataCenters, TierOf, "Tier 4") == 5
    ensures CountWhere(DataCenters, TierOf, "Tier 2") == 1
  {
    SeedTierList();
    SeedTierTally();
    MultisetOfMap(DataCenters, TierOf, "Tier 3");
    MultisetOfMap(DataCenters, TierOf, "Tier 4");
    MultisetOfMap(DataCenters, TierOf, "Tier 2");
  }

  /** Every shipped facility meets the Total Score's bound of 100. */
  lemma SeedScoresAtMost100()
    ensures forall i :: 0 <= i < |DataCenters| ==> TotalScore(DataCenters[i]) <= 100.0
  {
    forall i | 0 <= i < |DataCenters| ensures TotalScore(DataCenters[i]) <= 100.0 {
      TotalScoreAtMost100(DataCenters[i]);
    }
  }

  /** Two facilities share the lowest PUE, 1.1; "Most Efficient" names the
      first of them, the AWS region. */
  lemma SeedMostEfficient()
    ensures MostEfficient(DataCenters) == Ok(Record8)
  {
    var xs := PueValues(DataCenters);
    ReduceMinSpec(xs);
    var k := ReduceMinIndex(xs);
    assert xs[7].value == 1.1;
    assert xs[k].value <= 1.1;
    assert k == 7 by {
      assert forall j :: 0 <= j < |xs| && j != 7 && j != 8 ==> xs[j].value > 1.1;
    }
  }

  /** Two facilities share the highest rating, 4.9; "Highest Rated" names
      the first of them, the London facility. */
  lemma SeedHighestRated()
    ensures HighestRated(DataCenters) == Ok(Record2)
  {
    var xs := RatingValues(DataCenters);
    ReduceMaxSpec(xs);
    var k := ReduceMaxIndex(xs);
    assert xs[1].value == 4.9;
    assert xs[k].value >= 4.9;
    assert k == 1 by {
      assert forall j :: 0 <= j < |xs| && j != 1 && j != 7 ==> xs[j].value < 4.9;
    }
  }

  /** The cloud regions quote their power as "Hundreds of MW", so the
      admin panel's total power is NaN for the shipped catalogue. */
  lemma SeedTotalPowerNaN()
    ensures TotalPower(DataCenters).NaN?
  {
    var power := Record8.specifications.power;
    assert power[0] == 'H';
    ParseIntNoDigits(power);
    assert DataCenters[7] == Record8;
    TotalPowerSpec(DataCenters);
  }

  /** The cloud regions quote no colocation price: their bars are NaN. */
  lemma SeedCloudPricesNotQuoted()
    ensures PricingData(DataCenters)[7].colocation == NaN
    ensures PricingData(DataCenters)[8].colocation == NaN
    ensures PricingData(DataCenters)[9].colocation == NaN
  {
    PricingNotQuoted(DataCenters, 7);
    PricingNotQuoted(DataCenters, 8);
    PricingNotQuoted(DataCenters, 9);
  }

  /** Only "USA" has three letters among the shipped countries, so the
      case-insensitive test picks exactly the three US facilities. */
  lemma SeedUsaMembers()
    ensures forall i :: 0 <= i < |DataCenters| ==> (InCountry(DataCenters[i], "USA") <==> i in {0, 7, 9})
  {
    forall i | 0 <= i < |DataCenters| ensures InCountry(DataCenters[i], "USA") <==> i in {0, 7, 9} {
      if i !in {0, 7, 9} {
        assert |DataCenters[i].country| != 3;
      }
    }
  }

  /** A signed-in US user sees the New York, Ashburn and Boydton
      facilities first, in catalogue order. */
  lemma SeedUsaFirst(user: User)
    requires user.country == "USA"
    ensures HomeGroup(DataCenters, user.country) == [Record1, Record8, Record10]
    ensures Prioritize(DataCenters, Some(user), false)[..3] == [Record1, Record8, Record10]
  {
    SeedUsaMembers();
    var mid := DataCenters[1..7];
    assert DataCenters == [Record1] + mid + [Record8, Record9, Record10];
    KeepFirstAndTwoOfLast(Record1, mid, Record8, Record9, Record10, (dc: DataCenter) => InCountry(dc, "USA"));
  }

  /** The demo credentials of the sign-in dialog reach the two seeded
      accounts: the admin and the Malaysian user, each found by email. An
      email not in the seed is free to register. */
  lemma SeedAccounts(email: string)
    ensures LoginAccepted(MockUsersSeed, "admin@datacenter.com", "admin123")
    ensures FindByEmail(MockUsersSeed, "admin@datacenter.com") == Some(MockUsersSeed[0])
    ensures MockUsersSeed[0].role == AdminRole && MockUsersSeed[0].id == "1"
    ensures LoginAccepted(MockUsersSeed, "user@example.com", "user123")
    ensures FindByEmail(MockUsersSeed, "user@example.com") == Some(MockUsersSeed[1])
    ensures MockUsersSeed[1].role == UserRole && MockUsersSeed[1].country == "Malaysia"
    ensures EmailTaken(MockUsersSeed, email) <==> email in {"admin@datacenter.com", "user@example.com"}
  {
    FindByEmailIsFirst(MockUsersSeed, "admin@datacenter.com", 0);
    assert "user@example.com" != "admin@datacenter.com";
    FindByEmailIsFirst(MockUsersSeed, "user@example.com", 1);
  }

  /** The figure shown beside "Best Value", `Math.min` over every parsed
      price, is NaN for the shipped catalogue: the cloud regions quote
      "N/A". */
  lemma SeedMinPriceNaN()
    ensures MathMin(ColocationValues(DataCenters)).NaN?
  {
    var xs := ColocationValues(DataCenters);
    ParseIntNoDigits(Record8.pricing.colocation);
    assert xs[7].NaN?;
  }
}
