/** The catalogue card of one facility: tier and status badges, the
    capacity bar's colour and the service chips. The detail page uses the
    same tier and status switches and the same capacity thresholds. */
module DataCenterCard {
  import opened Wrappers
  import opened DataCenterType

  /** The colour family of a badge or bar; the class strings are opaque. */
  datatype Palette = Yellow | Orange | Green | Blue | Red | Gray

  /** `getTierColor` */
  function TierColor(tier: string): Palette {
    if tier == "Tier 1" then Yellow
    else if tier == "Tier 2" then Orange
    else if tier == "Tier 3" then Green
    else if tier == "Tier 4" then Blue
    else Gray
  }

  const KnownTiers: seq<string> := ["Tier 1", "Tier 2", "Tier 3", "Tier 4"]

  /** The four tiers get four different colours; every other string,
      which the record type allows, falls back to gray. */
  lemma TierColorSpec(tier: string)
    ensures TierColor(tier) == Gray <==> tier !in KnownTiers
    ensures forall i, j :: 0 <= i < j < |KnownTiers| ==> TierColor(KnownTiers[i]) != TierColor(KnownTiers[j])
  {
  }

  /** `getStatusColor` on the status string. */
  function StatusColor(status: string): Palette {
    if status == "Available" then Green
    else if status == "Limited" then Yellow
    else if status == "Full" then Red
    else Gray
  }

  /** Each of the three statuses has its own colour and none falls to the
      default branch; only a string outside the three is gray. */
  lemma StatusColorSpec(s: CapacityStatus, t: CapacityStatus, other: string)
    ensures StatusColor(StatusName(s)) != Gray
    ensures s != t ==> StatusColor(StatusName(s)) != StatusColor(StatusName(t))
    ensures other != "Available" && other != "Limited" && other != "Full" ==> StatusColor(other) == Gray
  {
  }

  /** The capacity bar: red above 80%, yellow above 60%, green otherwise. */
  function CapacityBand(used: real): Palette {
    if used > 80.0 then Red else if used > 60.0 then Yellow else Green
  }

  lemma CapacityBandSpec(used: real)
    ensures CapacityBand(used) == Red <==> used > 80.0
    ensures CapacityBand(used) == Yellow <==> 60.0 < used <= 80.0
    ensures CapacityBand(used) == Green <==> used <= 60.0
  {
  }

  const ShownChips := 3

  /** `services.slice(0, 3)` */
  function ShownServices(services: seq<string>): seq<string> {
    if |services| <= ShownChips then services else services[..ShownChips]
  }

  /** The "+k more" badge, present only when some services are hidden. */
  function MoreBadge(services: seq<string>): Option<nat> {
    if |services| > ShownChips then Some(|services| - ShownChips) else None
  }

  /** The chips are the first min(3, n) services in order, the badge shows
      up iff more than three exist, and chips plus badge count all n. */
  lemma ChipsSpec(services: seq<string>)
    ensures var shown := ShownServices(services);
            && |shown| == (if |services| < ShownChips then |services| else ShownChips)
            && shown == services[..|shown|]
            && (MoreBadge(services).Some? <==> |services| > ShownChips)
            && |shown| + MoreBadge(services).GetOr(0) == |services|
  {
  }

  /** The carriers line: the number of carriers listed. */
  function CarrierCount(dc: DataCenter): (n: nat)
    ensures n == 0 <==> dc.connectivity.carriers == []
  {
    |dc.connectivity.carriers|
  }
}
