/** The facility record. Display-only fields of the source type
    (coordinates, description, website, operator, security, contact,
    amenities, ...) are not part of the model. */
module DataCenterType {
  import opened Seqs

  /** `capacity.status` is one of three string literals. */
  datatype CapacityStatus = Available | Limited | Full

  /** The string the status is stored as. */
  function StatusName(s: CapacityStatus): (name: string)
    ensures name == "Available" || name == "Limited" || name == "Full"
  {
    match s
    case Available => "Available"
    case Limited => "Limited"
    case Full => "Full"
  }

  lemma StatusNameInjective(a: CapacityStatus, b: CapacityStatus)
    ensures StatusName(a) == StatusName(b) <==> a == b
  {
  }

  datatype Specifications = Specifications(
    totalSpace: string,
    power: string,         // a number with a unit, e.g. "25 MW"; read with parseInt
    cooling: string,
    floors: int,
    rackCount: int,
    powerDensity: string)

  datatype Capacity = Capacity(
    used: real,            // percentage; the type enforces no range
    availableRacks: int,
    status: CapacityStatus,
    lastUpdated: string)

  datatype Connectivity = Connectivity(carriers: seq<string>, bandwidth: string)

  datatype Sustainability = Sustainability(pue: real, renewableEnergy: real, carbonNeutral: bool)

  /** Every price is a string; numeric use goes through parseInt. */
  datatype Pricing = Pricing(
    colocation: string,
    dedicatedServer: string,
    cloudHosting: string,
    bandwidth: string,
    setup: string)

  datatype Reviews = Reviews(
    rating: real,
    totalReviews: int,
    reliability: real,
    support: real,
    value: real)

  datatype RealTimeData = RealTimeData(
    temperature: real,
    humidity: real,
    powerUsage: real,
    networkLatency: real,
    uptime: real)

  /** `tier` is an unconstrained string ("Tier 1" .. "Tier 4" in practice). */
  datatype DataCenter = DataCenter(
    id: string,
    name: string,
    location: string,
    city: string,
    country: string,
    tier: string,
    specifications: Specifications,
    capacity: Capacity,
    connectivity: Connectivity,
    services: seq<string>,
    sustainability: Sustainability,
    pricing: Pricing,
    reviews: Reviews,
    realTimeData: RealTimeData)

  /** No two records share an id. */
  predicate UniqueIds(dcs: seq<DataCenter>) {
    forall i, j :: 0 <= i < j < |dcs| ==> dcs[i].id != dcs[j].id
  }

  predicate HasId(dcs: seq<DataCenter>, id: string) {
    exists i :: 0 <= i < |dcs| && dcs[i].id == id
  }

  /** Removing facilities from a list with distinct ids keeps the ids distinct. */
  lemma {:induction false} FilterKeepsUniqueIds(dcs: seq<DataCenter>, p: DataCenter -> bool)
    requires UniqueIds(dcs)
    ensures UniqueIds(Filter(dcs, p))
  {
    if dcs != [] {
      FilterKeepsUniqueIds(dcs[1..], p);
      if p(dcs[0]) {
        var r := Filter(dcs, p);
        assert r == [dcs[0]] + Filter(dcs[1..], p);
        forall j | 1 <= j < |r| ensures r[0].id != r[j].id {
          assert r[j] in Filter(dcs[1..], p);
          assert r[j] in dcs[1..];
        }
      }
    }
  }
}
