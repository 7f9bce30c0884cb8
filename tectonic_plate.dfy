/**
  Plate-to-region bookkeeping of a tectonic plate. A region's plate is an attribute of the
  region (Surface.plateOf); a plate owns the list of regions it has claimed, the list of its
  edge regions, and a flag telling whether its growth has finished.
 */
module Tectonics {
  import opened Wrappers
  import opened Surfaces

  /** The plate referenced by a region's plate attribute, if any. */
  function PlateOfRegion(plateOf: map<RegionId, PlateId>, region: RegionId): Option<PlateId> {
    if region in plateOf then Some(plateOf[region]) else None
  }

  /** Outcome of assigning a plate to a region: whether it succeeded, and the new attributes. */
  datatype Assignment = Assignment(ok: bool, plateOf: map<RegionId, PlateId>)

  /** A plate assignment succeeds when the region has no plate yet or when the override is forced. */
  function Assign(plateOf: map<RegionId, PlateId>, plate: PlateId, region: RegionId, forceOverride: bool): Assignment {
    if region !in plateOf || forceOverride then Assignment(true, plateOf[region := plate])
    else Assignment(false, plateOf)
  }

  lemma AssignUnownedRegion(plateOf: map<RegionId, PlateId>, plate: PlateId, region: RegionId, forceOverride: bool)
    requires PlateOfRegion(plateOf, region) == None
    ensures Assign(plateOf, plate, region, forceOverride).ok
    ensures PlateOfRegion(Assign(plateOf, plate, region, forceOverride).plateOf, region) == Some(plate)
  {
  }

  lemma AssignForced(plateOf: map<RegionId, PlateId>, plate: PlateId, region: RegionId)
    ensures Assign(plateOf, plate, region, true).ok
    ensures PlateOfRegion(Assign(plateOf, plate, region, true).plateOf, region) == Some(plate)
  {
  }

  lemma AssignRefused(plateOf: map<RegionId, PlateId>, plate: PlateId, region: RegionId)
    requires PlateOfRegion(plateOf, region).Some?
    ensures !Assign(plateOf, plate, region, false).ok
    ensures Assign(plateOf, plate, region, false).plateOf == plateOf
  {
  }

  /** Whatever the outcome, no other region's plate changes. */
  lemma AssignTouchesOnlyItsRegion(plateOf: map<RegionId, PlateId>, plate: PlateId, region: RegionId, forceOverride: bool, other: RegionId)
    requires other != region
    ensures PlateOfRegion(Assign(plateOf, plate, region, forceOverride).plateOf, other) == PlateOfRegion(plateOf, other)
  {
  }

  /** A request by a plate for a region, made without forcing. */
  datatype Claim = Claim(plate: PlateId, region: RegionId)

  /** The plate attributes after the claims are made one after the other without forcing. */
  function ClaimAll(plateOf: map<RegionId, PlateId>, claims: seq<Claim>): map<RegionId, PlateId>
    decreases |claims|
  {
    if claims == [] then plateOf
    else ClaimAll(Assign(plateOf, claims[0].plate, claims[0].region, false).plateOf, claims[1..])
  }

  /**
    The index of the first claim on the region, or |claims| when there is none: the same
    first-match search as the modifier list's lookup by name, over claims instead of entries.
   */
  function FirstClaim(claims: seq<Claim>, region: RegionId): (k: nat)
    ensures k <= |claims|
    ensures k < |claims| ==> claims[k].region == region
    ensures forall j :: 0 <= j < k ==> claims[j].region != region
    decreases |claims|
  {
    if claims == [] then 0
    else if claims[0].region == region then 0
    else 1 + FirstClaim(claims[1..], region)
  }

  /**
    Without forcing, a region keeps the plate it has, and a region without a plate goes to the
    first plate that claims it: no later claim can take it away.
   */
  lemma {:induction false} FirstClaimWins(plateOf: map<RegionId, PlateId>, claims: seq<Claim>, region: RegionId)
    ensures region in plateOf ==>
      region in ClaimAll(plateOf, claims) && ClaimAll(plateOf, claims)[region] == plateOf[region]
    ensures region !in plateOf ==>
      (region in ClaimAll(plateOf, claims) <==> FirstClaim(claims, region) < |claims|)
    ensures region !in plateOf && FirstClaim(claims, region) < |claims| ==>
      ClaimAll(plateOf, claims)[region] == claims[FirstClaim(claims, region)].plate
    decreases |claims|
  {
    if claims != [] {
      var next := Assign(plateOf, claims[0].plate, claims[0].region, false).plateOf;
      FirstClaimWins(next, claims[1..], region);
      if region !in plateOf && claims[0].region != region {
        assert FirstClaim(claims, region) == 1 + FirstClaim(claims[1..], region);
      }
    }
  }

  /** Outcome of a plate's addRegion: success, the plate attributes and the plate's member list. */
  datatype Membership = Membership(ok: bool, plateOf: map<RegionId, PlateId>, memberRegions: seq<RegionId>)

  /** addRegion: a non-forced assignment, and on success the region joins the member list. */
  function RegionAdded(plateOf: map<RegionId, PlateId>, memberRegions: seq<RegionId>, plate: PlateId, region: RegionId): Membership {
    var a := Assign(plateOf, plate, region, false);
    Membership(a.ok, a.plateOf, if a.ok then memberRegions + [region] else memberRegions)
  }

  lemma AddRegionOutcome(plateOf: map<RegionId, PlateId>, memberRegions: seq<RegionId>, plate: PlateId, region: RegionId)
    ensures var m := RegionAdded(plateOf, memberRegions, plate, region);
      && (m.ok <==> region !in plateOf)
      && (m.ok ==> m.plateOf == plateOf[region := plate] && m.memberRegions == memberRegions + [region])
      && (!m.ok ==> m.plateOf == plateOf && m.memberRegions == memberRegions)
  {
  }

  /** Every member of every plate carries that plate in its plate attribute. */
  ghost predicate MembersAgree(plateOf: map<RegionId, PlateId>, members: map<PlateId, seq<RegionId>>) {
    forall p, i :: p in members && 0 <= i < |members[p]| ==>
      members[p][i] in plateOf && plateOf[members[p][i]] == p
  }

  /** While the member lists agree with the attributes, no region is a member of two plates. */
  lemma MembersDisjoint(plateOf: map<RegionId, PlateId>, members: map<PlateId, seq<RegionId>>,
                        p: PlateId, q: PlateId, i: nat, j: nat)
    requires MembersAgree(plateOf, members)
    requires p in members && q in members && p != q
    requires i < |members[p]| && j < |members[q]|
    ensures members[p][i] != members[q][j]
  {
  }

  /** addRegion on one plate keeps the member lists of all plates in agreement with the attributes. */
  lemma AddRegionKeepsMembersAgreeing(plateOf: map<RegionId, PlateId>, members: map<PlateId, seq<RegionId>>,
                                      plate: PlateId, region: RegionId)
    requires MembersAgree(plateOf, members)
    requires plate in members
    ensures var m := RegionAdded(plateOf, members[plate], plate, region);
      MembersAgree(m.plateOf, members[plate := m.memberRegions])
  {
    var m := RegionAdded(plateOf, members[plate], plate, region);
    var members' := members[plate := m.memberRegions];
    forall p, i | p in members' && 0 <= i < |members'[p]|
      ensures members'[p][i] in m.plateOf && m.plateOf[members'[p][i]] == p
    {
      if p == plate && m.ok && i == |members[plate]| {
        assert members'[p][i] == region;
      } else {
        assert members'[p][i] == members[p][i];
      }
    }
  }

  /** getPlateOfRegion. */
  function GetPlateOfRegion(surface: Surface, region: RegionId): (r: Option<PlateId>)
    reads surface
    ensures r.Some? <==> region in surface.plateOf
    ensures r.Some? ==> r.value == surface.plateOf[region]
  {
    PlateOfRegion(surface.plateOf, region)
  }

  /** assignPlateToRegion: writes the region's plate attribute unless it is taken and not forced. */
  method AssignPlateToRegion(surface: Surface, plate: PlateId, region: RegionId, forceOverride: bool) returns (ok: bool)
    modifies surface`plateOf
    ensures Assignment(ok, surface.plateOf) == Assign(old(surface.plateOf), plate, region, forceOverride)
  {
    ok := region !in surface.plateOf || forceOverride;
    if ok {
      surface.plateOf := surface.plateOf[region := plate];
    }
  }

  /** removePlateFromRegion: clears the region's plate attribute unconditionally. */
  method RemovePlateFromRegion(surface: Surface, region: RegionId)
    modifies surface`plateOf
    ensures GetPlateOfRegion(surface, region) == None
    ensures forall r :: r != region ==> GetPlateOfRegion(surface, r) == old(GetPlateOfRegion(surface, r))
  {
    surface.plateOf := surface.plateOf - {region};
  }

  class TectonicPlate {
    const id: PlateId
    const surface: Surface
    var memberRegions: seq<RegionId>
    var edgeRegions: seq<RegionId>
    var expansionFinished: bool

    /** A new plate owns no region, has no edge and has not finished expanding. */
    constructor (id: PlateId, surface: Surface)
      ensures this.id == id && this.surface == surface
      ensures memberRegions == [] && edgeRegions == [] && !expansionFinished
    {
      this.id := id;
      this.surface := surface;
      memberRegions := [];
      edgeRegions := [];
      expansionFinished := false;
    }

    /** addRegion: claims the region for this plate unless it already carries a plate. */
    method AddRegion(region: RegionId) returns (ok: bool)
      modifies this`memberRegions, surface`plateOf
      ensures Membership(ok, surface.plateOf, memberRegions)
           == RegionAdded(old(surface.plateOf), old(memberRegions), id, region)
    {
      ok := AssignPlateToRegion(surface, id, region, false);
      if ok {
        memberRegions := memberRegions + [region];
      }
    }
  }
}
