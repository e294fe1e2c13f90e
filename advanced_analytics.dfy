/** The analytics dashboard: distributions by tier and by country, the
    per-facility chart series, the averages and the three "Market
    Insights" picks. */
module AdvancedAnalytics {
  import opened Wrappers
  import opened Seqs
  import opened JsNumber
  import opened JsString
  import opened DataCenterType

  // ---------------------------------------------------------------------
  // Counting by key (`reduce` into a `Record<string, number>`, read back
  // with `Object.entries`, which lists keys in insertion order)
  // ---------------------------------------------------------------------

  /** `acc[key] = (acc[key] || 0) + 1` on an insertion-ordered record. */
  function Bump(acc: seq<(string, nat)>, key: string): seq<(string, nat)> {
    if acc == [] then [(key, 1)]
    else if acc[0].0 == key then [(key, acc[0].1 + 1)] + acc[1..]
    else [acc[0]] + Bump(acc[1..], key)
  }

  function Tally(keys: seq<string>): seq<(string, nat)> {
    if keys == [] then []
    else Bump(Tally(keys[..|keys| - 1]), keys[|keys| - 1])
  }

  function Keys(acc: seq<(string, nat)>): seq<string> {
    if acc == [] then [] else [acc[0].0] + Keys(acc[1..])
  }

  /** The count stored under `key`, 0 when there is none. */
  function CountOf(acc: seq<(string, nat)>, key: string): nat {
    if acc == [] then 0 else if acc[0].0 == key then acc[0].1 else CountOf(acc[1..], key)
  }

  function TotalCount(acc: seq<(string, nat)>): nat {
    if acc == [] then 0 else acc[0].1 + TotalCount(acc[1..])
  }

  lemma {:induction false} BumpSpec(acc: seq<(string, nat)>, key: string)
    ensures Keys(Bump(acc, key)) == if key in Keys(acc) then Keys(acc) else Keys(acc) + [key]
    ensures forall k :: CountOf(Bump(acc, key), k) == CountOf(acc, k) + (if k == key then 1 else 0)
    ensures TotalCount(Bump(acc, key)) == TotalCount(acc) + 1
  {
    if acc != [] && acc[0].0 != key {
      BumpSpec(acc[1..], key);
      assert Bump(acc, key)[1..] == Bump(acc[1..], key);
    }
  }

  /** The record lists every key once, in the order keys first occur; each
      count is the number of occurrences, and the counts add up to the
      number of keys counted. */
  lemma {:induction false} TallySpec(keys: seq<string>)
    ensures Keys(Tally(keys)) == Distinct(keys)
    ensures forall k :: CountOf(Tally(keys), k) == multiset(keys)[k]
    ensures TotalCount(Tally(keys)) == |keys|
  {
    if keys != [] {
      var init, last := keys[..|keys| - 1], keys[|keys| - 1];
      assert keys == init + [last];
      TallySpec(init);
      BumpSpec(Tally(init), last);
    }
  }

  function TierOf(dc: DataCenter): string { dc.tier }

  function CountryOf(dc: DataCenter): string { dc.country }

  function TierCounts(dcs: seq<DataCenter>): seq<(string, nat)> {
    Tally(Map(dcs, TierOf))
  }

  function RegionCounts(dcs: seq<DataCenter>): seq<(string, nat)> {
    Tally(Map(dcs, CountryOf))
  }

  /** The number of facilities whose field `f` equals `k`. */
  function CountWhere(dcs: seq<DataCenter>, f: DataCenter -> string, k: string): nat {
    if dcs == [] then 0 else (if f(dcs[0]) == k then 1 else 0) + CountWhere(dcs[1..], f, k)
  }

  lemma {:induction false} MultisetOfMap(dcs: seq<DataCenter>, f: DataCenter -> string, k: string)
    ensures multiset(Map(dcs, f))[k] == CountWhere(dcs, f, k)
  {
    if dcs != [] {
      MultisetOfMap(dcs[1..], f, k);
      assert Map(dcs, f) == [f(dcs[0])] + Map(dcs[1..], f);
    }
  }

  /** Counting facilities by a field: one entry per value present, each
      counting the facilities with that value, all adding up to the number
      of facilities. */
  lemma CountsByField(dcs: seq<DataCenter>, f: DataCenter -> string)
    ensures forall k :: k in Keys(Tally(Map(dcs, f))) <==> exists dc :: dc in dcs && f(dc) == k
    ensures forall k :: CountOf(Tally(Map(dcs, f)), k) == CountWhere(dcs, f, k)
    ensures TotalCount(Tally(Map(dcs, f))) == |dcs|
  {
    var values := Map(dcs, f);
    TallySpec(values);
    DistinctSpec(values);
    forall k ensures CountOf(Tally(values), k) == CountWhere(dcs, f, k) {
      MultisetOfMap(dcs, f, k);
    }
    forall k ensures k in values <==> exists dc :: dc in dcs && f(dc) == k {
      if k in values {
        var i :| 0 <= i < |values| && values[i] == k;
        assert dcs[i] in dcs;
      }
      if exists dc :: dc in dcs && f(dc) == k {
        var dc :| dc in dcs && f(dc) == k;
        var i :| 0 <= i < |dcs| && dcs[i] == dc;
        assert values[i] == k;
      }
    }
  }

  /** The tier chart has one slice per tier present, each counting the
      facilities of that tier. */
  lemma TierCountsSpec(dcs: seq<DataCenter>)
    ensures forall t :: t in Keys(TierCounts(dcs)) <==> exists dc :: dc in dcs && dc.tier == t
    ensures forall t :: CountOf(TierCounts(dcs), t) == CountWhere(dcs, TierOf, t)
    ensures TotalCount(TierCounts(dcs)) == |dcs|
  {
    CountsByField(dcs, TierOf);
  }

  /** The region chart has one bar per country present, each counting the
      facilities in that country. */
  lemma RegionCountsSpec(dcs: seq<DataCenter>)
    ensures forall c :: c in Keys(RegionCounts(dcs)) <==> exists dc :: dc in dcs && dc.country == c
    ensures forall c :: CountOf(RegionCounts(dcs), c) == CountWhere(dcs, CountryOf, c)
    ensures TotalCount(RegionCounts(dcs)) == |dcs|
  {
    CountsByField(dcs, CountryOf);
  }

  /** One slice of the tier pie chart, before `toFixed(1)`. */
  datatype TierSlice = TierSlice(tier: string, count: nat, percentage: real)

  function Slices(counts: seq<(string, nat)>, total: nat): seq<TierSlice>
    requires total > 0
  {
    if counts == [] then []
    else [TierSlice(counts[0].0, counts[0].1, counts[0].1 as real / total as real * 100.0)]
         + Slices(counts[1..], total)
  }

  /** `tierChartData`: no entries at all for an empty catalogue, so the
      division by the catalogue's size never sees zero. */
  function TierChartData(dcs: seq<DataCenter>): seq<TierSlice> {
    if dcs == [] then [] else Slices(TierCounts(dcs), |dcs|)
  }

  function PercentageSum(slices: seq<TierSlice>): real {
    if slices == [] then 0.0 else slices[0].percentage + PercentageSum(slices[1..])
  }

  lemma {:induction false} SlicesSum(counts: seq<(string, nat)>, total: nat)
    requires total > 0
    ensures PercentageSum(Slices(counts, total)) == TotalCount(counts) as real / total as real * 100.0
  {
    if counts != [] {
      SlicesSum(counts[1..], total);
      var c, rest, n := counts[0].1 as real, TotalCount(counts[1..]) as real, total as real;
      assert c / n * 100.0 + rest / n * 100.0 == (c + rest) / n * 100.0;
    }
  }

  /** The percentages of the tier chart add up to 100. */
  lemma TierPercentagesSum(dcs: seq<DataCenter>)
    requires dcs != []
    ensures PercentageSum(TierChartData(dcs)) == 100.0
  {
    var n := |dcs|;
    SlicesSum(TierCounts(dcs), n);
    TierCountsTotal(dcs);
    PercentOfWhole(n as real);
  }

  /** A whole, as a percentage of itself, is 100. */
  lemma PercentOfWhole(r: real)
    requires r > 0.0
    ensures r / r * 100.0 == 100.0
  {
  }

  lemma TierCountsTotal(dcs: seq<DataCenter>)
    ensures TotalCount(TierCounts(dcs)) == |dcs|
  {
    TallySpec(Map(dcs, TierOf));
  }

  // ---------------------------------------------------------------------
  // Per-facility chart series
  // ---------------------------------------------------------------------

  /** `name.split(' ')[0]` */
  function FirstWord(name: string): string {
    Split(name, ' ')[0]
  }

  /** The label is the name up to its first space. */
  lemma FirstWordSpec(name: string)
    ensures var w := FirstWord(name);
            ' ' !in w && |w| <= |name| && w == name[..|w|] && (|w| < |name| ==> name[|w|] == ' ')
  {
    var pieces := Split(name, ' ');
    SplitJoin(name, ' ');
    var w := pieces[0];
    if |pieces| > 1 {
      var rest := [' '] + Join(pieces[1..], ' ');
      assert name == w + rest;
      assert name[..|w|] == w && name[|w|] == rest[0];
    } else {
      assert name == w;
    }
  }

  datatype CapacityPoint = CapacityPoint(name: string, used: real, available: real, power: Number)

  function CapacityData(dcs: seq<DataCenter>): (r: seq<CapacityPoint>)
    ensures |r| == |dcs|
  {
    seq(|dcs|, i requires 0 <= i < |dcs| =>
      CapacityPoint(FirstWord(dcs[i].name), dcs[i].capacity.used, 100.0 - dcs[i].capacity.used,
                    ParseInt(dcs[i].specifications.power)))
  }

  /** The used and available bars of each facility stack to 100%, and a
      power figure that starts with a letter draws NaN. */
  lemma CapacityDataSpec(dcs: seq<DataCenter>, i: nat)
    requires i < |dcs|
    ensures CapacityData(dcs)[i].used + CapacityData(dcs)[i].available == 100.0
    ensures CapacityData(dcs)[i].name == FirstWord(dcs[i].name)
    ensures var power := dcs[i].specifications.power;
            power != [] && ('a' <= power[0] <= 'z' || 'A' <= power[0] <= 'Z') ==> CapacityData(dcs)[i].power == NaN
  {
    var power := dcs[i].specifications.power;
    if power != [] && ('a' <= power[0] <= 'z' || 'A' <= power[0] <= 'Z') {
      ParseIntNoDigits(power);
    }
  }

  /** The power bar is the leading number of the power figure: "25 MW"
      draws 25. */
  lemma CapacityPowerOfNumeral(dcs: seq<DataCenter>, i: nat, n: nat, unit: string)
    requires i < |dcs| && dcs[i].specifications.power == Decimal(n) + unit
    requires unit == [] || DigitValue(unit[0]) < 0
    ensures CapacityData(dcs)[i].power == FromInt(n)
  {
    ParseIntOfNumeral(n, unit);
  }

  datatype SustainabilityPoint = SustainabilityPoint(name: string, pue: real, renewable: real, rating: real)

  function SustainabilityData(dcs: seq<DataCenter>): (r: seq<SustainabilityPoint>)
    ensures |r| == |dcs|
  {
    seq(|dcs|, i requires 0 <= i < |dcs| =>
      SustainabilityPoint(FirstWord(dcs[i].name), dcs[i].sustainability.pue,
                          dcs[i].sustainability.renewableEnergy, dcs[i].reviews.rating))
  }

  /** The scatter chart and the insight cards agree: every point is
      labelled by its facility's first word, no point lies at a lower PUE
      than the "Most Efficient" facility's, and none is rated above the
      "Highest Rated" facility. */
  lemma SustainabilityDataSpec(dcs: seq<DataCenter>)
    ensures var pts := SustainabilityData(dcs);
            forall i :: 0 <= i < |pts| ==> pts[i].name == FirstWord(dcs[i].name)
    ensures dcs != [] ==>
              var pts := SustainabilityData(dcs);
              && (forall i :: 0 <= i < |pts| ==> MostEfficient(dcs).value.sustainability.pue <= pts[i].pue)
              && (forall i :: 0 <= i < |pts| ==> pts[i].rating <= HighestRated(dcs).value.reviews.rating)
  {
    if dcs != [] {
      var pts := SustainabilityData(dcs);
      MostEfficientSpec(dcs);
      HighestRatedSpec(dcs);
      var pues, ratings := PueValues(dcs), RatingValues(dcs);
      var best, top := MostEfficient(dcs).value, HighestRated(dcs).value;
      forall i | 0 <= i < |pts|
        ensures best.sustainability.pue <= pts[i].pue && pts[i].rating <= top.reviews.rating
      {
        assert pues[i] == Finite(pts[i].pue);
        assert ratings[i] == Finite(pts[i].rating);
      }
    }
  }

  /** The colocation and dedicated-server bars; the cloud bar is not part
      of this model. */
  datatype PricingPoint = PricingPoint(name: string, colocation: Number, dedicated: Number)

  function PricingData(dcs: seq<DataCenter>): (r: seq<PricingPoint>)
    ensures |r| == |dcs|
  {
    seq(|dcs|, i requires 0 <= i < |dcs| =>
      PricingPoint(FirstWord(dcs[i].name), ParseInt(dcs[i].pricing.colocation),
                   ParseInt(dcs[i].pricing.dedicatedServer)))
  }

  /** A price quoted as "N/A" draws no bar. */
  lemma PricingNotQuoted(dcs: seq<DataCenter>, i: nat)
    requires i < |dcs| && dcs[i].pricing.colocation == "N/A"
    ensures PricingData(dcs)[i].colocation == NaN
  {
    ParseIntNoDigits("N/A");
  }

  // ---------------------------------------------------------------------
  // Averages
  // ---------------------------------------------------------------------

  function SumReal(xs: seq<real>): real {
    if xs == [] then 0.0 else SumReal(xs[..|xs| - 1]) + xs[|xs| - 1]
  }

  /** `xs.reduce((sum, x) => sum + x, 0) / xs.length`: NaN (0 / 0) for an
      empty catalogue. */
  function Average(xs: seq<real>): (r: Number)
    ensures r.NaN? <==> xs == []
  {
    if xs == [] then NaN else Finite(SumReal(xs) / |xs| as real)
  }

  lemma {:induction false} SumRealBounds(xs: seq<real>, lo: real, hi: real)
    requires forall i :: 0 <= i < |xs| ==> lo <= xs[i] <= hi
    ensures |xs| as real * lo <= SumReal(xs) <= |xs| as real * hi
  {
    if xs != [] {
      SumRealBounds(xs[..|xs| - 1], lo, hi);
    }
  }

  /** An average lies between any lower and upper bound of its values. */
  lemma AverageBounds(xs: seq<real>, lo: real, hi: real)
    requires xs != []
    requires forall i :: 0 <= i < |xs| ==> lo <= xs[i] <= hi
    ensures lo <= Average(xs).value <= hi
  {
    SumRealBounds(xs, lo, hi);
    var n := |xs| as real;
    assert n * lo <= SumReal(xs) <= n * hi;
    assert lo == n * lo / n && hi == n * hi / n;
  }

  datatype AverageMetrics = AverageMetrics(pue: Number, renewable: Number, rating: Number, uptime: Number, capacity: Number)

  function Field(dcs: seq<DataCenter>, f: DataCenter -> real): seq<real> {
    seq(|dcs|, i requires 0 <= i < |dcs| => f(dcs[i]))
  }

  /** `averageMetrics`, before `toFixed`. */
  function Averages(dcs: seq<DataCenter>): AverageMetrics {
    AverageMetrics(
      Average(Field(dcs, (dc: DataCenter) => dc.sustainability.pue)),
      Average(Field(dcs, (dc: DataCenter) => dc.sustainability.renewableEnergy)),
      Average(Field(dcs, (dc: DataCenter) => dc.reviews.rating)),
      Average(Field(dcs, (dc: DataCenter) => dc.realTimeData.uptime)),
      Average(Field(dcs, (dc: DataCenter) => dc.capacity.used)))
  }

  /** With ratings between 0 and 5 the average rating is too; with no
      facility every average is NaN. */
  lemma AveragesSpec(dcs: seq<DataCenter>)
    ensures dcs == [] ==> Averages(dcs) == AverageMetrics(NaN, NaN, NaN, NaN, NaN)
    ensures dcs != [] ==>
              var m := Averages(dcs);
              m.pue.Finite? && m.renewable.Finite? && m.rating.Finite? && m.uptime.Finite? && m.capacity.Finite?
    ensures (dcs != [] && forall i :: 0 <= i < |dcs| ==> 0.0 <= dcs[i].reviews.rating <= 5.0)
            ==> 0.0 <= Averages(dcs).rating.value <= 5.0
  {
    if dcs != [] && (forall i :: 0 <= i < |dcs| ==> 0.0 <= dcs[i].reviews.rating <= 5.0) {
      AverageBounds(Field(dcs, (dc: DataCenter) => dc.reviews.rating), 0.0, 5.0);
    }
  }

  // ---------------------------------------------------------------------
  // Market insights: `reduce` without an initial value
  // ---------------------------------------------------------------------

  /** `xs.reduce((m, x) => x < m ? x : m)` as the index it lands on. */
  function ReduceMinIndex(xs: seq<Number>): (k: nat)
    requires |xs| > 0
    ensures k < |xs|
  {
    if |xs| == 1 then 0
    else
      var k := ReduceMinIndex(xs[..|xs| - 1]);
      if Less(xs[|xs| - 1], xs[k]) then |xs| - 1 else k
  }

  /** `xs.reduce((m, x) => x > m ? x : m)` as the index it lands on. */
  function ReduceMaxIndex(xs: seq<Number>): (k: nat)
    requires |xs| > 0
    ensures k < |xs|
  {
    if |xs| == 1 then 0
    else
      var k := ReduceMaxIndex(xs[..|xs| - 1]);
      if Greater(xs[|xs| - 1], xs[k]) then |xs| - 1 else k
  }

  /** From a number first element the reduction lands on the first of the
      smallest numbers; NaN elements are passed over. */
  lemma {:induction false} ReduceMinSpec(xs: seq<Number>)
    requires |xs| > 0 && xs[0].Finite?
    ensures var k := ReduceMinIndex(xs);
            && xs[k].Finite?
            && (forall j :: 0 <= j < |xs| && xs[j].Finite? ==> xs[k].value <= xs[j].value)
            && (forall j :: 0 <= j < k && xs[j].Finite? ==> xs[k].value < xs[j].value)
  {
    if |xs| > 1 {
      var init := xs[..|xs| - 1];
      ReduceMinSpec(init);
      var k := ReduceMinIndex(init);
      assert forall j :: 0 <= j < |init| ==> xs[j] == init[j];
    }
  }

  /** From a number first element the reduction lands on the first of the
      largest numbers; NaN elements are passed over. */
  lemma {:induction false} ReduceMaxSpec(xs: seq<Number>)
    requires |xs| > 0 && xs[0].Finite?
    ensures var k := ReduceMaxIndex(xs);
            && xs[k].Finite?
            && (forall j :: 0 <= j < |xs| && xs[j].Finite? ==> xs[j].value <= xs[k].value)
            && (forall j :: 0 <= j < k && xs[j].Finite? ==> xs[j].value < xs[k].value)
  {
    if |xs| > 1 {
      var init := xs[..|xs| - 1];
      ReduceMaxSpec(init);
      var k := ReduceMaxIndex(init);
      assert forall j :: 0 <= j < |init| ==> xs[j] == init[j];
    }
  }

  /** A NaN first element is never replaced: every comparison with it is false. */
  lemma {:induction false} ReduceMinStuckOnNaN(xs: seq<Number>)
    requires |xs| > 0 && xs[0].NaN?
    ensures ReduceMinIndex(xs) == 0
  {
    if |xs| > 1 {
      ReduceMinStuckOnNaN(xs[..|xs| - 1]);
    }
  }

  function PueValues(dcs: seq<DataCenter>): (r: seq<Number>)
    ensures |r| == |dcs| && forall i :: 0 <= i < |dcs| ==> r[i] == Finite(dcs[i].sustainability.pue)
  {
    seq(|dcs|, i requires 0 <= i < |dcs| => Finite(dcs[i].sustainability.pue))
  }

  function RatingValues(dcs: seq<DataCenter>): (r: seq<Number>)
    ensures |r| == |dcs| && forall i :: 0 <= i < |dcs| ==> r[i] == Finite(dcs[i].reviews.rating)
  {
    seq(|dcs|, i requires 0 <= i < |dcs| => Finite(dcs[i].reviews.rating))
  }

  function ColocationValues(dcs: seq<DataCenter>): (r: seq<Number>)
    ensures |r| == |dcs| && forall i :: 0 <= i < |dcs| ==> r[i] == ParseInt(dcs[i].pricing.colocation)
  {
    seq(|dcs|, i requires 0 <= i < |dcs| => ParseInt(dcs[i].pricing.colocation))
  }

  /** What `reduce` without an initial value throws on an empty list. */
  const EmptyReduce := "Reduce of empty array with no initial value"

  function MostEfficient(dcs: seq<DataCenter>): Result<DataCenter> {
    if dcs == [] then Err(EmptyReduce) else Ok(dcs[ReduceMinIndex(PueValues(dcs))])
  }

  function HighestRated(dcs: seq<DataCenter>): Result<DataCenter> {
    if dcs == [] then Err(EmptyReduce) else Ok(dcs[ReduceMaxIndex(RatingValues(dcs))])
  }

  function BestValue(dcs: seq<DataCenter>): Result<DataCenter> {
    if dcs == [] then Err(EmptyReduce) else Ok(dcs[ReduceMinIndex(ColocationValues(dcs))])
  }

  /** "Most Efficient" names the first facility with the lowest PUE, and
      the figure beside it is that PUE; an empty catalogue throws. */
  lemma MostEfficientSpec(dcs: seq<DataCenter>)
    ensures MostEfficient(dcs).Err? <==> dcs == []
    ensures MostEfficient(dcs).Ok? ==>
              var best := MostEfficient(dcs).value;
              && best in dcs
              && MathMin(PueValues(dcs)) == Finite(best.sustainability.pue)
              && forall i :: 0 <= i < ReduceMinIndex(PueValues(dcs)) ==> best.sustainability.pue < dcs[i].sustainability.pue
  {
    if dcs != [] {
      var xs := PueValues(dcs);
      ReduceMinSpec(xs);
      var m := MathMin(xs);
      assert !HasNaN(xs);
      var k := ReduceMinIndex(xs);
      var j :| 0 <= j < |xs| && xs[j] == m;
      assert m.value <= xs[k].value && xs[k].value <= xs[j].value;
    }
  }

  /** "Highest Rated" names the first facility with the highest rating,
      and the figure beside it is that rating; an empty catalogue throws. */
  lemma HighestRatedSpec(dcs: seq<DataCenter>)
    ensures HighestRated(dcs).Err? <==> dcs == []
    ensures HighestRated(dcs).Ok? ==>
              var best := HighestRated(dcs).value;
              && best in dcs
              && MathMax(RatingValues(dcs)) == Finite(best.reviews.rating)
              && forall i :: 0 <= i < ReduceMaxIndex(RatingValues(dcs)) ==> dcs[i].reviews.rating < best.reviews.rating
  {
    if dcs != [] {
      var xs := RatingValues(dcs);
      ReduceMaxSpec(xs);
      var m := MathMax(xs);
      assert !HasNaN(xs);
      var k := ReduceMaxIndex(xs);
      var j :| 0 <= j < |xs| && xs[j] == m;
      assert xs[j].value <= xs[k].value && xs[k].value <= m.value;
    }
  }

  /** With no NaN in the list, `Math.min` over it is the element the
      min-reduce lands on. */
  lemma ReduceMinShown(xs: seq<Number>)
    requires |xs| > 0 && !HasNaN(xs)
    ensures MathMin(xs) == xs[ReduceMinIndex(xs)]
  {
    assert xs[0].Finite?;
    ReduceMinSpec(xs);
    var m, k := MathMin(xs), ReduceMinIndex(xs);
    var j :| 0 <= j < |xs| && xs[j] == m;
    assert m.value <= xs[k].value && xs[k].value <= xs[j].value;
  }

  /** "Best Value": when the first facility has a price, the pick is the
      first facility with the lowest price among those with one, and when
      no price is missing the figure beside it is the pick's own price;
      when the first has none, the pick is the first facility. The price
      printed beside it is NaN as soon as any facility has no price. */
  lemma BestValueSpec(dcs: seq<DataCenter>)
    ensures BestValue(dcs).Err? <==> dcs == []
    ensures dcs != [] && ParseInt(dcs[0].pricing.colocation).Finite? ==>
              var k := ReduceMinIndex(ColocationValues(dcs));
              var best := BestValue(dcs).value;
              var p := ParseInt(best.pricing.colocation);
              && best == dcs[k]
              && p.Finite?
              && (forall i :: 0 <= i < |dcs| && ParseInt(dcs[i].pricing.colocation).Finite?
                   ==> p.value <= ParseInt(dcs[i].pricing.colocation).value)
              && (forall i :: 0 <= i < k && ParseInt(dcs[i].pricing.colocation).Finite?
                   ==> p.value < ParseInt(dcs[i].pricing.colocation).value)
    ensures dcs != [] && !HasNaN(ColocationValues(dcs)) ==>
              MathMin(ColocationValues(dcs)) == ParseInt(BestValue(dcs).value.pricing.colocation)
    ensures dcs != [] && ParseInt(dcs[0].pricing.colocation).NaN? ==> BestValue(dcs) == Ok(dcs[0])
    ensures dcs != [] ==> (MathMin(ColocationValues(dcs)).NaN? <==> HasNaN(ColocationValues(dcs)))
  {
    if dcs != [] {
      var xs := ColocationValues(dcs);
      if xs[0].Finite? {
        BestValueLowest(dcs);
      } else {
        ReduceMinStuckOnNaN(xs);
      }
      if !HasNaN(xs) {
        ReduceMinShown(xs);
      }
    }
  }

  lemma BestValueLowest(dcs: seq<DataCenter>)
    requires dcs != [] && ParseInt(dcs[0].pricing.colocation).Finite?
    ensures var k := ReduceMinIndex(ColocationValues(dcs));
            var p := ParseInt(dcs[k].pricing.colocation);
            && BestValue(dcs) == Ok(dcs[k])
            && p.Finite?
            && (forall i :: 0 <= i < |dcs| && ParseInt(dcs[i].pricing.colocation).Finite?
                 ==> p.value <= ParseInt(dcs[i].pricing.colocation).value)
            && (forall i :: 0 <= i < k && ParseInt(dcs[i].pricing.colocation).Finite?
                 ==> p.value < ParseInt(dcs[i].pricing.colocation).value)
  {
    ReduceMinSpec(ColocationValues(dcs));
  }
}
