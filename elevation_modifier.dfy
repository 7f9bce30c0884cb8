/**
  The elevation modifier as the object the pipeline runs: apply reads its configuration into
  fields, reseeds its noise generator, tries the plate-collision model and falls back to the
  baseline model. Each method is tied to the function of module ElevationModel that states
  what it computes.
 */
module Modifiers {
  import opened Floats
  import opened Surfaces
  import opened Tectonics
  import opened ElevationModel

  /** The options apply reads from the configuration. */
  datatype Config = Config(
    usePerlin: bool,
    useFilter: bool,
    usePlateCollisions: bool,
    collisionStrength: real,
    perlinFrequency: real,
    perlinOctaves: int,
    perlinStrength: real,
    elevationRandomRange: real)

  /** The attributes of the surface that the modifier writes. */
  function StoreOf(surface: Surface): Store
    reads surface
  {
    Store(surface.elevation, surface.plateBaseline)
  }

  class ElevationModifier {
    var usePerlin: bool
    var useFilter: bool
    var usePlateCollisions: bool
    var collisionStrength: real
    var perlinFrequency: real
    var perlinOctaves: int
    var perlinStrength: real
    var elevationRandomRange: real
    /** The seeded generator's noise at each region's position scaled by perlinFrequency. */
    var noise: RegionId -> real

    /** Every field is overwritten by apply before it is read. */
    constructor ()
      ensures !usePlateCollisions
    {
      usePerlin, useFilter, usePlateCollisions := false, false, false;
      collisionStrength, perlinFrequency, perlinOctaves, perlinStrength := 0.0, 0.0, 0, 0.0;
      elevationRandomRange := 0.0;
      noise := r => 0.0;
    }

    function Settings(): Config
      reads this
    {
      Config(usePerlin, useFilter, usePlateCollisions, collisionStrength,
             perlinFrequency, perlinOctaves, perlinStrength, elevationRandomRange)
    }

    /** What one apply call reads, given the value rand_f gives each plate's baseline. */
    function EnvOf(surface: Surface, draw: PlateId -> real): Env
      reads this, surface
    {
      Env(surface.neighbours, surface.plateOf, usePerlin, useFilter, usePlateCollisions,
          collisionStrength, perlinStrength, noise, draw)
    }

    /** elevationOf: the valid Elevation attribute, else the plate's (lazily drawn) baseline model. */
    method ElevationOf(surface: Surface, draw: PlateId -> real, region: RegionId) returns (e: Float)
      modifies surface`plateBaseline
      ensures Sample(e, StoreOf(surface)) == ElevationModel.ElevationOf(EnvOf(surface, draw), old(StoreOf(surface)), region)
    {
      if region in surface.elevation {
        return surface.elevation[region];
      }
      var plate := GetPlateOfRegion(surface, region);
      if plate.None? {
        return NaN;
      }
      var p := plate.value;
      if p !in surface.plateBaseline {
        surface.plateBaseline := surface.plateBaseline[p := draw(p)];
      }
      if usePerlin {
        assert ElevationModel.ElevationOf(EnvOf(surface, draw), old(StoreOf(surface)), region).value
            == Finite(surface.plateBaseline[p] + noise(region) * perlinStrength);
        return Finite(surface.plateBaseline[p] + noise(region) * perlinStrength);
      }
      return Finite(surface.plateBaseline[p]);
    }

    /**
      calculatePlateColisions (the source's own spelling, kept for the method; the function it is
      proved against is ElevationModel.CalculatePlateCollisions): the collision pass over the edge
      regions of every plate, then the pass over all regions that writes each (optionally
      smoothed) elevation back.
     */
    method CalculatePlateColisions(surface: Surface, plates: seq<PlateEdges>, draw: PlateId -> real, pressure: Pressure)
      returns (ok: bool)
      requires PlatesInSurface(EnvOf(surface, draw), plates)
      modifies surface`elevation, surface`plateBaseline
      ensures Outcome(ok, StoreOf(surface))
           == CalculatePlateCollisions(EnvOf(surface, draw), pressure, old(StoreOf(surface)), plates)
    {
      if !usePlateCollisions {
        return false;
      }
      ok := CollidePlates(surface, plates, draw, pressure);
      if !ok {
        return false;
      }
      ok := SmoothRegions(surface, draw);
    }

    /** The first pass: every edge region of every plate, in order, until a region fails. */
    method CollidePlates(surface: Surface, plates: seq<PlateEdges>, draw: PlateId -> real, pressure: Pressure)
      returns (ok: bool)
      requires PlatesInSurface(EnvOf(surface, draw), plates)
      modifies surface`elevation, surface`plateBaseline
      ensures Outcome(ok, StoreOf(surface)) == PlatesPass(EnvOf(surface, draw), pressure, old(StoreOf(surface)), plates)
    {
      ghost var env := EnvOf(surface, draw);
      ghost var s0 := StoreOf(surface);
      var i := 0;
      while i < |plates|
        invariant 0 <= i <= |plates|
        invariant EnvOf(surface, draw) == env
        invariant PlatesPass(env, pressure, s0, plates) == PlatesPass(env, pressure, StoreOf(surface), plates[i..])
      {
        var plate := plates[i].plate;
        var edges := plates[i].edges;
        assert plates[i..][1..] == plates[i + 1..];
        ghost var si := StoreOf(surface);
        var k := 0;
        while k < |edges|
          invariant 0 <= k <= |edges|
          invariant EnvOf(surface, draw) == env
          invariant EdgesPass(env, pressure, si, plate, edges) == EdgesPass(env, pressure, StoreOf(surface), plate, edges[k..])
        {
          assert edges[k..][1..] == edges[k + 1..];
          ok := CollideRegion(surface, plate, edges[k], draw, pressure);
          if !ok {
            return false;
          }
          k := k + 1;
        }
        i := i + 1;
      }
      return true;
    }

    /**
      One edge region: its elevationOf value plus pressure * collisionStrength for each valid
      neighbour on another plate, written back; false at once for a neighbour without a plate.
     */
    method CollideRegion(surface: Surface, plate: PlateId, region: RegionId, draw: PlateId -> real, pressure: Pressure)
      returns (ok: bool)
      requires region < |surface.neighbours|
      modifies surface`elevation, surface`plateBaseline
      ensures Outcome(ok, StoreOf(surface)) == EdgeStep(EnvOf(surface, draw), pressure, old(StoreOf(surface)), plate, region)
    {
      ghost var env := EnvOf(surface, draw);
      var totalElevation := ElevationOf(surface, draw, region);
      ghost var e0 := totalElevation;
      var nbrs := surface.neighbours[region];
      var j := 0;
      while j < |nbrs|
        invariant 0 <= j <= |nbrs|
        invariant EnvOf(surface, draw) == env
        invariant Collide(env, pressure, plate, region, nbrs, e0)
               == Collide(env, pressure, plate, region, nbrs[j..], totalElevation)
      {
        assert nbrs[j..][1..] == nbrs[j + 1..];
        match nbrs[j] {
          case Invalid =>
          case Id(n) =>
            var neighbourPlate := GetPlateOfRegion(surface, n);
            if neighbourPlate.None? {
              return false;
            }
            if neighbourPlate.value != plate {
              var p := pressure(plate, neighbourPlate.value, region, n);
              assert p * collisionStrength == Contribution(env, pressure, plate, region, n);
              totalElevation := Add(totalElevation, Finite(p * collisionStrength));
            }
        }
        j := j + 1;
      }
      surface.elevation := surface.elevation[region := totalElevation];
      return true;
    }

    /**
      The second pass: every region in order gets its elevationOf value, folded with each valid
      neighbour's when the filter is on, written back; the `== NAN` tests are kept as written.
     */
    method SmoothRegions(surface: Surface, draw: PlateId -> real) returns (ok: bool)
      modifies surface`elevation, surface`plateBaseline
      ensures Outcome(ok, StoreOf(surface)) == SmoothPass(EnvOf(surface, draw), old(StoreOf(surface)), 0)
    {
      ghost var env := EnvOf(surface, draw);
      ghost var s1 := StoreOf(surface);
      var r := 0;
      while r < |surface.neighbours|
        invariant 0 <= r <= |surface.neighbours|
        invariant EnvOf(surface, draw) == env
        invariant SmoothPass(env, s1, 0) == SmoothPass(env, StoreOf(surface), r)
      {
        var elevation := ElevationOf(surface, draw, r);
        if FloatEq(elevation, NaN) {
          return false;
        }
        if useFilter {
          ghost var sf := StoreOf(surface);
          ghost var e0 := elevation;
          var nbrs := surface.neighbours[r];
          var j := 0;
          while j < |nbrs|
            invariant 0 <= j <= |nbrs|
            invariant EnvOf(surface, draw) == env
            invariant FilterFold(env, sf, nbrs, e0) == FilterFold(env, StoreOf(surface), nbrs[j..], elevation)
          {
            assert nbrs[j..][1..] == nbrs[j + 1..];
            match nbrs[j] {
              case Invalid =>
              case Id(n) =>
                var increment := ElevationOf(surface, draw, n);
                if FloatEq(increment, NaN) {
                  return false;
                }
                elevation := Half(Add(elevation, increment));
            }
            j := j + 1;
          }
        }
        surface.elevation := surface.elevation[r := elevation];
        r := r + 1;
      }
      return true;
    }

    /**
      apply: reads the configuration, reseeds the noise, and when the collision model does not
      succeed, recomputes every region from the baseline model. It always reports success.
     */
    method Apply(surface: Surface, config: Config, seededNoise: RegionId -> real,
                 plates: seq<PlateEdges>, draw: PlateId -> real, pressure: Pressure)
      returns (ok: bool)
      requires PlatesInSurface(EnvOf(surface, draw), plates)
      modifies this, surface`elevation, surface`plateBaseline
      ensures ok
      ensures Settings() == config && noise == seededNoise
      ensures StoreOf(surface) == ElevationModel.Apply(EnvOf(surface, draw), pressure, old(StoreOf(surface)), plates)
    {
      usePerlin := config.usePerlin;
      useFilter := config.useFilter;
      usePlateCollisions := config.usePlateCollisions;
      collisionStrength := config.collisionStrength;
      perlinFrequency := config.perlinFrequency;
      perlinOctaves := config.perlinOctaves;
      perlinStrength := config.perlinStrength;
      elevationRandomRange := config.elevationRandomRange;
      noise := seededNoise;

      ghost var env := EnvOf(surface, draw);
      ghost var s0 := StoreOf(surface);
      var collided := CalculatePlateColisions(surface, plates, draw, pressure);
      ghost var collisions := CalculatePlateCollisions(env, pressure, s0, plates);
      assert collisions == Outcome(collided, StoreOf(surface));
      if !collided {
        var r := 0;
        while r < |surface.neighbours|
          invariant 0 <= r <= |surface.neighbours|
          invariant EnvOf(surface, draw) == env
          invariant Fallback(env, collisions.store, 0) == Fallback(env, StoreOf(surface), r)
          modifies surface`elevation, surface`plateBaseline
        {
          surface.elevation := surface.elevation - {r};
          var elevation := ElevationOf(surface, draw, r);
          if !elevation.NaN? {
            surface.elevation := surface.elevation[r := elevation];
          }
          r := r + 1;
        }
      }
      assert StoreOf(surface) == ElevationModel.Apply(env, pressure, s0, plates);
      return true;
    }
  }
}
