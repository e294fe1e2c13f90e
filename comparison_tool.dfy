/** The side-by-side comparison of up to three facilities: the selection,
    the per-row highlighting of the largest and smallest value, and the
    "Best for" summary. */
module ComparisonTool {
  import opened Seqs
  import opened JsNumber
  import opened DataCenterType

  const MaxSelected := 3

  /** What the selection always satisfies: at most three facilities, no
      facility twice. */
  predicate ValidSelection(sel: seq<DataCenter>) {
    |sel| <= MaxSelected && UniqueIds(sel)
  }

  /** `addDataCenter`: ignored when three are selected or the facility is
      already selected. */
  function WithAdded(sel: seq<DataCenter>, dc: DataCenter): seq<DataCenter> {
    if |sel| < MaxSelected && !HasId(sel, dc.id) then sel + [dc] else sel
  }

  /** `removeDataCenter` */
  function WithRemoved(sel: seq<DataCenter>, id: string): seq<DataCenter> {
    Filter(sel, (dc: DataCenter) => dc.id != id)
  }

  /** Adding keeps the selection valid, and appends exactly when there is
      room and the facility is new. */
  lemma AddSpec(sel: seq<DataCenter>, dc: DataCenter)
    requires ValidSelection(sel)
    ensures ValidSelection(WithAdded(sel, dc))
    ensures HasId(WithAdded(sel, dc), dc.id) <==> HasId(sel, dc.id) || |sel| < MaxSelected
    ensures WithAdded(sel, dc) == sel || WithAdded(sel, dc) == sel + [dc]
  {
    var r := WithAdded(sel, dc);
    if r != sel {
      assert r[|sel|] == dc;
    }
  }

  /** Removing keeps the selection valid, drops the facility with that id
      and keeps every other one in order. */
  lemma RemoveSpec(sel: seq<DataCenter>, id: string)
    requires ValidSelection(sel)
    ensures ValidSelection(WithRemoved(sel, id))
    ensures !HasId(WithRemoved(sel, id), id)
    ensures forall dc :: dc in WithRemoved(sel, id) <==> dc in sel && dc.id != id
    ensures IsSubsequence(WithRemoved(sel, id), sel)
  {
    var p := (dc: DataCenter) => dc.id != id;
    FilterKeepsUniqueIds(sel, p);
    forall dc ensures dc in WithRemoved(sel, id) <==> dc in sel && dc.id != id {
      FilterMembership(sel, p, dc);
    }
    FilterIsSubsequence(sel, p);
  }

  /** Removing a facility that was just added restores the selection. */
  lemma RemoveUndoesAdd(sel: seq<DataCenter>, dc: DataCenter)
    requires ValidSelection(sel) && |sel| < MaxSelected && !HasId(sel, dc.id)
    ensures WithRemoved(WithAdded(sel, dc), dc.id) == sel
  {
    var p := (d: DataCenter) => d.id != dc.id;
    FilterConcat(sel, [dc], p);
    forall i | 0 <= i < |sel| ensures p(sel[i]) { }
    FilterAll(sel, p);
    assert Filter([dc], p) == [];
  }

  /** The facilities offered in "Add another...": those not yet selected. */
  function AddOptions(dcs: seq<DataCenter>, sel: seq<DataCenter>): seq<DataCenter> {
    Filter(dcs, (dc: DataCenter) => !HasId(sel, dc.id))
  }

  lemma AddOptionsSpec(dcs: seq<DataCenter>, sel: seq<DataCenter>)
    ensures forall dc :: dc in AddOptions(dcs, sel) <==> dc in dcs && !HasId(sel, dc.id)
    ensures IsSubsequence(AddOptions(dcs, sel), dcs)
  {
    forall dc ensures dc in AddOptions(dcs, sel) <==> dc in dcs && !HasId(sel, dc.id) {
      FilterMembership(dcs, (dc: DataCenter) => !HasId(sel, dc.id), dc);
    }
    FilterIsSubsequence(dcs, (dc: DataCenter) => !HasId(sel, dc.id));
  }

  /** The picker is rendered only while fewer than three are selected. */
  predicate PickerShown(sel: seq<DataCenter>) {
    |sel| < MaxSelected
  }

  /** Picking an option in the menu: the first facility with that id, if
      any, is added. */
  function Pick(dcs: seq<DataCenter>, sel: seq<DataCenter>, id: string): seq<DataCenter> {
    if HasId(dcs, id) then WithAdded(sel, dcs[FirstWithId(dcs, id)]) else sel
  }

  function FirstWithId(dcs: seq<DataCenter>, id: string): (k: nat)
    requires HasId(dcs, id)
    ensures k < |dcs| && dcs[k].id == id
    ensures forall j :: 0 <= j < k ==> dcs[j].id != id
  {
    if dcs[0].id == id then 0
    else
      assert HasId(dcs[1..], id) by {
        var i :| 0 <= i < |dcs| && dcs[i].id == id;
        assert dcs[1..][i - 1].id == id;
      }
      1 + FirstWithId(dcs[1..], id)
  }

  /** Every option the picker offers, picked while it is shown, is added. */
  lemma PickOfferedAdds(dcs: seq<DataCenter>, sel: seq<DataCenter>, dc: DataCenter)
    requires UniqueIds(dcs) && PickerShown(sel) && dc in AddOptions(dcs, sel)
    ensures Pick(dcs, sel, dc.id) == sel + [dc]
  {
    AddOptionsSpec(dcs, sel);
    var i :| 0 <= i < |dcs| && dcs[i] == dc;
    assert HasId(dcs, dc.id);
    var k := FirstWithId(dcs, dc.id);
    assert k == i;
  }

  /** The grid shown while nothing is selected: the first six facilities. */
  function InitialChoices(dcs: seq<DataCenter>): (r: seq<DataCenter>)
    ensures |r| == if |dcs| < 6 then |dcs| else 6
    ensures r == dcs[..|r|]
  {
    if |dcs| <= 6 then dcs else dcs[..6]
  }

  /** The highlighting of one numeric cell. */
  datatype CellFlag = CellFlag(best: bool, worst: bool)

  /** `getComparisonValue` takes its first three arguments. */
  function Compared(values: seq<Number>): seq<Number> {
    if |values| <= MaxSelected then values else values[..MaxSelected]
  }

  /** `isBest` and `isWorst` of the cell at `i`: best when `max === value`,
      worst when `min === value && max !== min` (strict equality, so a NaN
      matches nothing). */
  function NumericFlag(values: seq<Number>, i: nat): CellFlag
    requires i < |values|
  {
    var c := Compared(values);
    var mx := MathMax(c);
    var mn := MathMin(c);
    CellFlag(StrictEquals(mx, values[i]), StrictEquals(mn, values[i]) && !StrictEquals(mx, mn))
  }

  function RowFlags(values: seq<Number>): (flags: seq<CellFlag>)
    ensures |flags| == |values|
  {
    seq(|values|, i requires 0 <= i < |values| => NumericFlag(values, i))
  }

  /** A value no smaller than any other in the row. */
  predicate IsRowMax(values: seq<Number>, i: nat)
    requires i < |values|
  {
    values[i].Finite? && forall j :: 0 <= j < |values| ==> values[j].Finite? && values[j].value <= values[i].value
  }

  /** A value no larger than any other in the row. */
  predicate IsRowMin(values: seq<Number>, i: nat)
    requires i < |values|
  {
    values[i].Finite? && forall j :: 0 <= j < |values| ==> values[j].Finite? && values[i].value <= values[j].value
  }

  /** A cell is marked best exactly when it holds the row's largest value;
      worst exactly when it holds the smallest and the row is not all
      equal. A row with a NaN anywhere marks nothing. */
  lemma RowFlagsSpec(values: seq<Number>, i: nat)
    requires |values| <= MaxSelected && i < |values|
    ensures RowFlags(values)[i].best <==> IsRowMax(values, i)
    ensures RowFlags(values)[i].worst <==> IsRowMin(values, i) && !(forall j :: 0 <= j < |values| ==> values[j] == values[i])
    ensures HasNaN(values) ==> RowFlags(values)[i] == CellFlag(false, false)
  {
    var mx := MathMax(values);
    var mn := MathMin(values);
    assert Compared(values) == values;
    if mx.Finite? {
      assert values[i].Finite?;
      if IsRowMax(values, i) {
        var k :| 0 <= k < |values| && values[k] == mx;
        assert values[i].value == mx.value;
      }
    }
    if mn.Finite? {
      var k :| 0 <= k < |values| && values[k] == mn;
      var k' :| 0 <= k' < |values| && values[k'] == mx;
      if IsRowMin(values, i) {
        assert values[i].value == mn.value;
        if !(forall j :: 0 <= j < |values| ==> values[j] == values[i]) {
          var j :| 0 <= j < |values| && values[j] != values[i];
          assert values[j].value > values[i].value;
        }
      }
      if StrictEquals(mx, mn) {
        forall j | 0 <= j < |values| ensures values[j] == values[i] { }
      }
    }
  }

  /** No cell is marked both best and worst. */
  lemma NeverBestAndWorst(values: seq<Number>, i: nat)
    requires |values| <= MaxSelected && i < |values|
    ensures !(RowFlags(values)[i].best && RowFlags(values)[i].worst)
  {
    RowFlagsSpec(values, i);
    if IsRowMax(values, i) && IsRowMin(values, i) {
      forall j | 0 <= j < |values| ensures values[j] == values[i] {
        assert values[j].value == values[i].value;
      }
    }
  }

  /** With one facility selected its numeric cells are all marked best. */
  lemma SingleIsBest(v: Number)
    requires v.Finite?
    ensures RowFlags([v]) == [CellFlag(true, false)]
  {
    RowFlagsSpec([v], 0);
  }

  /** The sixteen rows of the table. */
  datatype Row =
    | TierLevel | TotalSpace | PowerCapacity | PueRating | RenewableEnergy
    | CapacityUsed | AvailableRacks | Bandwidth | Carriers | ColocationPrice
    | SetupFee | CustomerRating | TotalReviews | Uptime | Temperature | NetworkLatency

  /** A cell's raw value: a string or a JavaScript number. */
  datatype Cell = Text(text: string) | Num(num: Number)

  predicate IsTextRow(row: Row) {
    row in {TierLevel, TotalSpace, PowerCapacity, Bandwidth}
  }

  /** The getter of each row. */
  function RowValue(row: Row, dc: DataCenter): (c: Cell)
    ensures c.Text? <==> IsTextRow(row)
  {
    match row
    case TierLevel => Text(dc.tier)
    case TotalSpace => Text(dc.specifications.totalSpace)
    case PowerCapacity => Text(dc.specifications.power)
    case PueRating => Num(Finite(dc.sustainability.pue))
    case RenewableEnergy => Num(Finite(dc.sustainability.renewableEnergy))
    case CapacityUsed => Num(Finite(dc.capacity.used))
    case AvailableRacks => Num(FromInt(dc.capacity.availableRacks))
    case Bandwidth => Text(dc.connectivity.bandwidth)
    case Carriers => Num(FromInt(|dc.connectivity.carriers|))
    case ColocationPrice => Num(ParseInt(dc.pricing.colocation))
    case SetupFee => Num(ParseInt(dc.pricing.setup))
    case CustomerRating => Num(Finite(dc.reviews.rating))
    case TotalReviews => Num(FromInt(dc.reviews.totalReviews))
    case Uptime => Num(Finite(dc.realTimeData.uptime))
    case Temperature => Num(Finite(dc.realTimeData.temperature))
    case NetworkLatency => Num(Finite(dc.realTimeData.networkLatency))
  }

  /** The numbers of a numeric row, one per selected facility. */
  function RowNumbers(row: Row, sel: seq<DataCenter>): (values: seq<Number>)
    requires !IsTextRow(row)
    ensures |values| == |sel|
    ensures forall i :: 0 <= i < |sel| ==> RowValue(row, sel[i]) == Num(values[i])
  {
    seq(|sel|, i requires 0 <= i < |sel| => RowValue(row, sel[i]).num)
  }

  /** The highlighting of a row, one flag per selected facility. */
  function RowHighlights(row: Row, sel: seq<DataCenter>): (flags: seq<CellFlag>)
    ensures |flags| == |sel|
    ensures IsTextRow(row) ==> forall i :: 0 <= i < |flags| ==> flags[i] == CellFlag(false, false)
  {
    if sel == [] || RowValue(row, sel[0]).Text? then seq(|sel|, _ => CellFlag(false, false))
    else RowFlags(RowNumbers(row, sel))
  }

  /** In a numeric row a facility is starred exactly when its value is the
      row's largest (the largest price, PUE and latency included), and
      marked exactly when it is the smallest of a row that is not all equal. */
  lemma RowHighlightsSpec(row: Row, sel: seq<DataCenter>, i: nat)
    requires ValidSelection(sel) && !IsTextRow(row) && i < |sel|
    ensures RowHighlights(row, sel)[i].best <==> IsRowMax(RowNumbers(row, sel), i)
    ensures var values := RowNumbers(row, sel);
            RowHighlights(row, sel)[i].worst <==>
              IsRowMin(values, i) && !(forall j :: 0 <= j < |values| ==> values[j] == values[i])
  {
    RowFlagsSpec(RowNumbers(row, sel), i);
  }

  /** The "Best for" label of the summary cards. */
  datatype BestFor = Efficiency | Reliability | Value | Performance

  /** First match wins: PUE below 1.3, then rating above 4.7, then a
      colocation price below 400 (an unparseable price compares false). */
  function BestForLabel(dc: DataCenter): BestFor {
    if dc.sustainability.pue < 1.3 then Efficiency
    else if dc.reviews.rating > 4.7 then Reliability
    else if Less(ParseInt(dc.pricing.colocation), Finite(400.0)) then Value
    else Performance
  }

  /** Each label states the test that chose it and that every earlier test
      failed. */
  lemma BestForSpec(dc: DataCenter)
    ensures BestForLabel(dc) == Efficiency <==> dc.sustainability.pue < 1.3
    ensures BestForLabel(dc) == Reliability <==> dc.sustainability.pue >= 1.3 && dc.reviews.rating > 4.7
    ensures BestForLabel(dc) == Value <==>
              dc.sustainability.pue >= 1.3 && dc.reviews.rating <= 4.7
              && ParseInt(dc.pricing.colocation).Finite? && ParseInt(dc.pricing.colocation).value < 400.0
    ensures ParseInt(dc.pricing.colocation).NaN? ==> BestForLabel(dc) != Value
  {
  }

  /** The "Total Score" before rounding to one decimal. */
  function TotalScore(dc: DataCenter): real {
    dc.reviews.rating / 5.0 * 40.0 + (dc.realTimeData.uptime - 99.0) * 20.0
    + (2.0 - dc.sustainability.pue) * 20.0 + (100.0 - dc.capacity.used) / 5.0
  }

  /** The score is out of 100 for any facility whose rating is at most 5,
      uptime at most 100%, PUE at least 1 and used capacity not negative. */
  lemma TotalScoreAtMost100(dc: DataCenter)
    requires dc.reviews.rating <= 5.0 && dc.realTimeData.uptime <= 100.0
    requires dc.sustainability.pue >= 1.0 && dc.capacity.used >= 0.0
    ensures TotalScore(dc) <= 100.0
  {
  }

  /** The open comparison dialog's state. */
  class Comparison {
    var selected: seq<DataCenter>

    ghost predicate Valid()
      reads this
    {
      ValidSelection(selected)
    }

    constructor ()
      ensures selected == [] && Valid()
    {
      selected := [];
    }

    method Add(dc: DataCenter)
      requires Valid()
      modifies this
      ensures selected == WithAdded(old(selected), dc) && Valid()
    {
      if |selected| < MaxSelected && !HasId(selected, dc.id) {
        selected := selected + [dc];
      }
      AddSpec(old(selected), dc);
    }

    method Remove(id: string)
      requires Valid()
      modifies this
      ensures selected == WithRemoved(old(selected), id) && Valid()
      ensures !HasId(selected, id)
    {
      RemoveSpec(selected, id);
      selected := WithRemoved(selected, id);
    }
  }
}
