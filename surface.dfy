/**
  The region graph and its attribute store, as far as the tectonic and elevation code uses them.
  Regions are numbered 0 .. |neighbours| - 1 in the surface's own iteration order; each keeps a
  fixed list of neighbour ids in which a missing neighbour is the invalid-region sentinel.
  A region's plate assignment and its Elevation attribute are attributes stored on the region;
  they are kept here as maps keyed by region id (a key that is present is an attribute whose
  `isValid` flag is set). Plates are referred to by id.
 */
module Surfaces {
  import opened Floats

  type RegionId = nat
  type PlateId = nat

  /** An entry of a region's neighbourhood: a region id, or the invalid-region sentinel. */
  datatype NeighbourId = Invalid | Id(id: RegionId)

  class Surface {
    /** neighbours[r] is the neighbourhood of region r, in iteration order. */
    const neighbours: seq<seq<NeighbourId>>
    /** The plate-assignment attribute of each region that has one. */
    var plateOf: map<RegionId, PlateId>
    /** The Elevation attribute of each region that has a valid one (its value may be NaN). */
    var elevation: map<RegionId, Float>
    /** The baseline elevation of each plate whose baseline has been drawn (absent: still NaN). */
    var plateBaseline: map<PlateId, real>

    /** A fresh surface: no region carries a plate or an elevation, no baseline is drawn. */
    constructor (neighbours: seq<seq<NeighbourId>>)
      ensures this.neighbours == neighbours
      ensures plateOf == map[] && elevation == map[] && plateBaseline == map[]
    {
      this.neighbours := neighbours;
      plateOf := map[];
      elevation := map[];
      plateBaseline := map[];
    }
  }
}
