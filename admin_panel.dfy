/** The admin panel's facility management: search, create, save, delete,
    the overview statistics and the edit dialog's open/closed state. */
module AdminPanel {
  import opened Wrappers
  import opened Seqs
  import opened JsNumber
  import opened JsString
  import opened DataCenterType

  /** The admin list matches on name and location only. */
  predicate AdminMatches(dc: DataCenter, term: string) {
    var t := ToLower(term);
    Includes(ToLower(dc.name), t) || Includes(ToLower(dc.location), t)
  }

  function AdminSearch(dcs: seq<DataCenter>, term: string): seq<DataCenter> {
    Filter(dcs, (dc: DataCenter) => AdminMatches(dc, term))
  }

  lemma AdminSearchSpec(dcs: seq<DataCenter>, term: string)
    ensures forall dc :: dc in AdminSearch(dcs, term) <==>
              dc in dcs && (Includes(ToLower(dc.name), ToLower(term)) || Includes(ToLower(dc.location), ToLower(term)))
    ensures IsSubsequence(AdminSearch(dcs, term), dcs)
  {
    forall dc ensures dc in AdminSearch(dcs, term) <==> dc in dcs && AdminMatches(dc, term) {
      FilterMembership(dcs, (dc: DataCenter) => AdminMatches(dc, term), dc);
    }
    FilterIsSubsequence(dcs, (dc: DataCenter) => AdminMatches(dc, term));
  }

  /** `dataCenters.map(dc => dc.id === saved.id ? saved : dc)` */
  function ReplaceById(dcs: seq<DataCenter>, saved: DataCenter): seq<DataCenter> {
    seq(|dcs|, i requires 0 <= i < |dcs| => if dcs[i].id == saved.id then saved else dcs[i])
  }

  /** Saving an edit keeps the length, the order and the id at every
      position; every record with the saved id becomes the saved record,
      every other record is untouched, and an unknown id changes nothing. */
  lemma ReplaceByIdSpec(dcs: seq<DataCenter>, saved: DataCenter)
    ensures var r := ReplaceById(dcs, saved);
            && |r| == |dcs|
            && (forall i :: 0 <= i < |dcs| ==> r[i].id == dcs[i].id)
            && (forall i :: 0 <= i < |dcs| && dcs[i].id != saved.id ==> r[i] == dcs[i])
            && (forall i :: 0 <= i < |dcs| && dcs[i].id == saved.id ==> r[i] == saved)
            && (UniqueIds(dcs) ==> UniqueIds(r))
            && (!HasId(dcs, saved.id) ==> r == dcs)
            && (HasId(dcs, saved.id) ==> saved in r)
  {
    var r := ReplaceById(dcs, saved);
    if HasId(dcs, saved.id) {
      var i :| 0 <= i < |dcs| && dcs[i].id == saved.id;
      assert r[i] == saved;
    }
  }

  /** Saving the same record twice is the same as saving it once. */
  lemma ReplaceByIdIdempotent(dcs: seq<DataCenter>, saved: DataCenter)
    ensures ReplaceById(ReplaceById(dcs, saved), saved) == ReplaceById(dcs, saved)
  {
  }

  /** `handleSaveDataCenter`: a created record is appended without looking
      at its id; an edited one replaces by id. */
  function SaveDataCenter(dcs: seq<DataCenter>, saved: DataCenter, isCreating: bool): seq<DataCenter> {
    if isCreating then dcs + [saved] else ReplaceById(dcs, saved)
  }

  /** Creating a record whose id is already present leaves two records with
      that id. */
  lemma CreateDoesNotCheckIds(dcs: seq<DataCenter>, saved: DataCenter)
    requires HasId(dcs, saved.id)
    ensures !UniqueIds(SaveDataCenter(dcs, saved, true))
  {
    var r := SaveDataCenter(dcs, saved, true);
    var i :| 0 <= i < |dcs| && dcs[i].id == saved.id;
    assert r[i].id == r[|dcs|].id;
  }

  /** `handleDeleteDataCenter`: only a confirmed delete changes the list. */
  function DeleteById(dcs: seq<DataCenter>, id: string, confirmed: bool): seq<DataCenter> {
    if confirmed then Filter(dcs, (dc: DataCenter) => dc.id != id) else dcs
  }

  /** A confirmed delete removes exactly the records with that id and keeps
      the others in order; an unconfirmed one changes nothing. */
  lemma DeleteByIdSpec(dcs: seq<DataCenter>, id: string, confirmed: bool)
    ensures !confirmed ==> DeleteById(dcs, id, confirmed) == dcs
    ensures confirmed ==> !HasId(DeleteById(dcs, id, confirmed), id)
    ensures confirmed ==> forall dc :: dc in DeleteById(dcs, id, confirmed) <==> dc in dcs && dc.id != id
    ensures IsSubsequence(DeleteById(dcs, id, confirmed), dcs)
    ensures UniqueIds(dcs) ==> UniqueIds(DeleteById(dcs, id, confirmed))
  {
    var p := (dc: DataCenter) => dc.id != id;
    if confirmed {
      forall dc ensures dc in Filter(dcs, p) <==> dc in dcs && dc.id != id {
        FilterMembership(dcs, p, dc);
      }
      FilterIsSubsequence(dcs, p);
      if UniqueIds(dcs) {
        FilterKeepsUniqueIds(dcs, p);
      }
    } else {
      FilterAll(dcs, (dc: DataCenter) => true);
      FilterIsSubsequence(dcs, (dc: DataCenter) => true);
    }
  }

  /** `stats.availableCapacity`: records whose status string is "Available". */
  function AvailableCount(dcs: seq<DataCenter>): nat {
    |Filter(dcs, (dc: DataCenter) => StatusName(dc.capacity.status) == "Available")|
  }

  function Statuses(dcs: seq<DataCenter>): seq<CapacityStatus> {
    Map(dcs, (dc: DataCenter) => dc.capacity.status)
  }

  /** The count is the number of records whose status is `Available`. */
  lemma {:induction false} AvailableCountSpec(dcs: seq<DataCenter>)
    ensures AvailableCount(dcs) == multiset(Statuses(dcs))[Available]
  {
    if dcs != [] {
      AvailableCountSpec(dcs[1..]);
      assert Statuses(dcs) == [dcs[0].capacity.status] + Statuses(dcs[1..]);
      StatusNameInjective(dcs[0].capacity.status, Available);
    }
  }

  /** The parsed power figures, in catalogue order. */
  function Powers(dcs: seq<DataCenter>): seq<Number> {
    seq(|dcs|, i requires 0 <= i < |dcs| => ParseInt(dcs[i].specifications.power))
  }

  /** `stats.totalPower`: `reduce((sum, dc) => sum + parseInt(power), 0)`. */
  function TotalPower(dcs: seq<DataCenter>): Number {
    Sum(Powers(dcs))
  }

  /** The total is NaN exactly when some power figure has no leading
      number; otherwise it adds up the leading numbers. */
  lemma TotalPowerSpec(dcs: seq<DataCenter>)
    ensures TotalPower(dcs).NaN? <==> exists i :: 0 <= i < |dcs| && ParseInt(dcs[i].specifications.power).NaN?
    ensures dcs != [] ==> TotalPower(dcs) == Add(TotalPower(dcs[..|dcs| - 1]), ParseInt(dcs[|dcs| - 1].specifications.power))
  {
    var xs := Powers(dcs);
    assert forall i :: 0 <= i < |dcs| ==> xs[i] == ParseInt(dcs[i].specifications.power);
    if dcs != [] {
      assert Powers(dcs[..|dcs| - 1]) == xs[..|xs| - 1];
    }
  }

  /** The record "Add Data Center" opens the dialog with; the id and the
      timestamp come from the clock. */
  function NewDataCenterTemplate(id: string, now: string): DataCenter {
    DataCenter(
      id, "New Data Center", "New Location", "New City", "New Country", "Tier 3",
      Specifications("100,000 sq ft", "20 MW", "N+1 Redundant", 5, 1000, "10 kW/rack"),
      Capacity(50.0, 500, Available, now),
      Connectivity(["Carrier 1"], "100 Gbps"),
      ["Colocation", "Cloud Hosting"],
      Sustainability(1.4, 50.0, false),
      Pricing("400", "250", "0.10", "2.50", "500"),
      Reviews(4.0, 0, 4.0, 4.0, 4.0),
      RealTimeData(22.0, 45.0, 15.0, 3.0, 99.9))
  }

  /** A figure written as a decimal numeral and a unit parses to the numeral. */
  lemma ParseFigure(s: string, n: nat, unit: string)
    requires s == Decimal(n) + unit && (unit == [] || DigitValue(unit[0]) < 0)
    ensures ParseInt(s) == FromInt(n)
  {
    ParseIntOfNumeral(n, unit);
  }

  lemma TemplateNumerals()
    ensures "20 MW" == Decimal(20) + " MW" && "400" == Decimal(400) + ""
  {
    assert Decimal(2) == ['2'] && Decimal(20) == Decimal(2) + ['0'];
    assert Decimal(4) == ['4'] && Decimal(40) == Decimal(4) + ['0'] && Decimal(400) == Decimal(40) + ['0'];
  }

  /** The template's power and colocation price parse to 20 and 400. */
  lemma TemplateParses(id: string, now: string)
    ensures ParseInt(NewDataCenterTemplate(id, now).specifications.power) == FromInt(20)
    ensures ParseInt(NewDataCenterTemplate(id, now).pricing.colocation) == FromInt(400)
  {
    var t := NewDataCenterTemplate(id, now);
    TemplateNumerals();
    ParseFigure(t.specifications.power, 20, " MW");
    ParseFigure(t.pricing.colocation, 400, "");
  }

  /** Appending a record adds its parsed power to the total. */
  lemma AppendPower(dcs: seq<DataCenter>, dc: DataCenter)
    ensures TotalPower(dcs + [dc]) == Add(TotalPower(dcs), ParseInt(dc.specifications.power))
  {
    var all := dcs + [dc];
    TotalPowerSpec(all);
    assert all[..|dcs|] == dcs;
  }

  /** Appending a record adds one to the count iff it is available. */
  lemma AppendAvailable(dcs: seq<DataCenter>, dc: DataCenter)
    ensures AvailableCount(dcs + [dc]) == AvailableCount(dcs) + (if dc.capacity.status == Available then 1 else 0)
  {
    var all := dcs + [dc];
    AvailableCountSpec(all);
    AvailableCountSpec(dcs);
    assert Statuses(all) == Statuses(dcs) + [dc.capacity.status];
  }

  /** Creating the template unchanged adds 20 MW to the total power and one
      to the available count. */
  lemma TemplateStats(dcs: seq<DataCenter>, id: string, now: string)
    ensures TotalPower(dcs + [NewDataCenterTemplate(id, now)]) == Add(TotalPower(dcs), FromInt(20))
    ensures AvailableCount(dcs + [NewDataCenterTemplate(id, now)]) == AvailableCount(dcs) + 1
  {
    var t := NewDataCenterTemplate(id, now);
    TemplateParses(id, now);
    AppendPower(dcs, t);
    AppendAvailable(dcs, t);
  }

  /** The edit dialog's state in the admin panel. */
  class AdminPanelState {
    var editing: Option<DataCenter>
    var isCreating: bool

    constructor ()
      ensures editing == None && !isCreating
    {
      editing := None;
      isCreating := false;
    }

    /** "Add Data Center" */
    method StartCreate(id: string, now: string)
      modifies this
      ensures editing == Some(NewDataCenterTemplate(id, now)) && isCreating
    {
      editing := Some(NewDataCenterTemplate(id, now));
      isCreating := true;
    }

    /** The edit button of a row; `isCreating` is left as it is. */
    method StartEdit(dc: DataCenter)
      modifies this
      ensures editing == Some(dc) && isCreating == old(isCreating)
    {
      editing := Some(dc);
    }

    /** The dialog's save: returns the list handed to `onUpdateDataCenters`
        and closes the dialog. */
    method Save(dcs: seq<DataCenter>, saved: DataCenter) returns (updated: seq<DataCenter>)
      modifies this
      ensures updated == SaveDataCenter(dcs, saved, old(isCreating))
      ensures old(isCreating) ==> |updated| == |dcs| + 1 && updated[|dcs|] == saved
      ensures !old(isCreating) ==> |updated| == |dcs|
      ensures editing == None && !isCreating
    {
      if isCreating {
        updated := dcs + [saved];
        isCreating := false;
      } else {
        updated := ReplaceById(dcs, saved);
      }
      editing := None;
    }

    /** The dialog's cancel. */
    method Cancel()
      modifies this
      ensures editing == None && !isCreating
    {
      editing := None;
      isCreating := false;
    }
  }
}
