/**
  The elevation modifier as functions of the state it reads and writes. One call of apply sees
  a fixed environment (the region graph, the regions' plates, the configuration, the noise of
  the freshly seeded generator, and the value the random source gives each plate's baseline)
  and changes a store: the regions' Elevation attributes and the plates' baselines.
  Geometry is abstract: the pressure between two plates at two regions is a parameter.
 */
module ElevationModel {
  import opened Wrappers
  import opened Floats
  import opened Surfaces

  /** What one apply call reads and does not change. */
  datatype Env = Env(
    neighbours: seq<seq<NeighbourId>>,
    plateOf: map<RegionId, PlateId>,
    usePerlin: bool,
    useFilter: bool,
    usePlateCollisions: bool,
    collisionStrength: real,
    perlinStrength: real,
    /** the generator's octave noise at each region's position scaled by the frequency */
    noise: RegionId -> real,
    /** the value rand_f gives a plate's baseline when it is drawn */
    draw: PlateId -> real)

  /** computePressure(plate, neighbourPlate, region, neighbour). */
  type Pressure = (PlateId, PlateId, RegionId, RegionId) -> real

  /** The Elevation attributes of the regions and the baselines of the plates. */
  datatype Store = Store(elevation: map<RegionId, Float>, baseline: map<PlateId, real>)

  /** Success flag and the store afterwards. */
  datatype Outcome = Outcome(ok: bool, store: Store)

  /** The value elevationOf returns, and the store afterwards. */
  datatype Sample = Sample(value: Float, store: Store)

  /** A plate of the surface's plate list, with its edge regions. */
  datatype PlateEdges = PlateEdges(plate: PlateId, edges: seq<RegionId>)

  /** A plate's baseline: the drawn one, or the one that will be drawn. */
  function Baseline(env: Env, baseline: map<PlateId, real>, p: PlateId): real {
    if p in baseline then baseline[p] else env.draw(p)
  }

  /** The baseline model: the plate's baseline, plus the scaled noise when enabled; NaN without a plate. */
  function PlateElevation(env: Env, baseline: map<PlateId, real>, r: RegionId): Float {
    if r !in env.plateOf then NaN
    else
      var b := Baseline(env, baseline, env.plateOf[r]);
      Finite(if env.usePerlin then b + env.noise(r) * env.perlinStrength else b)
  }

  /** The value elevationOf gives a region in a store: a valid attribute first, else the baseline model. */
  function ValueOf(env: Env, s: Store, r: RegionId): Float {
    if r in s.elevation then s.elevation[r] else PlateElevation(env, s.baseline, r)
  }

  /** b' only adds drawn baselines to b, each with the value the random source gives it. */
  ghost predicate Drawn(env: Env, b: map<PlateId, real>, b': map<PlateId, real>) {
    && b.Keys <= b'.Keys
    && forall p :: Baseline(env, b', p) == Baseline(env, b, p)
  }

  /** elevationOf: memoised in the attribute; the plate's baseline is drawn only while unset. */
  function ElevationOf(env: Env, s: Store, r: RegionId): Sample {
    if r in s.elevation then Sample(s.elevation[r], s)
    else if r !in env.plateOf then Sample(NaN, s)
    else
      var p := env.plateOf[r];
      var baseline := if p in s.baseline then s.baseline else s.baseline[p := env.draw(p)];
      var e := if env.usePerlin then baseline[p] + env.noise(r) * env.perlinStrength else baseline[p];
      Sample(Finite(e), s.(baseline := baseline))
  }

  /** A valid stored Elevation is returned unchanged, and nothing is drawn. */
  lemma ElevationOfStored(env: Env, s: Store, r: RegionId)
    requires r in s.elevation
    ensures ElevationOf(env, s, r) == Sample(s.elevation[r], s)
  {
  }

  /**
    Otherwise the baseline model is returned; the region's plate gets its baseline drawn if it
    had none, and no other baseline and no attribute changes.
   */
  lemma ElevationOfComputed(env: Env, s: Store, r: RegionId)
    requires r !in s.elevation
    ensures ElevationOf(env, s, r).value == PlateElevation(env, s.baseline, r)
    ensures ElevationOf(env, s, r).value.NaN? <==> r !in env.plateOf
    ensures ElevationOf(env, s, r).store.elevation == s.elevation
    ensures r !in env.plateOf || env.plateOf[r] in s.baseline ==> ElevationOf(env, s, r).store == s
    ensures r in env.plateOf && env.plateOf[r] !in s.baseline ==>
      ElevationOf(env, s, r).store.baseline == s.baseline[env.plateOf[r] := env.draw(env.plateOf[r])]
  {
  }

  /**
    Asking again gives the same value and changes nothing. (That a drawn baseline is kept rather
    than redrawn is ElevationOfComputed's clause for a plate whose baseline is already set.)
   */
  lemma ElevationOfRepeatable(env: Env, s: Store, r: RegionId)
    ensures var first := ElevationOf(env, s, r);
      ElevationOf(env, first.store, r) == Sample(first.value, first.store)
  {
  }

  /** What elevationOf returns and leaves behind, in terms of the store it reads. */
  lemma ElevationOfReads(env: Env, s: Store, r: RegionId)
    ensures ElevationOf(env, s, r).value == ValueOf(env, s, r)
    ensures ElevationOf(env, s, r).store.elevation == s.elevation
    ensures Drawn(env, s.baseline, ElevationOf(env, s, r).store.baseline)
  {
  }

  /** Draws do not change the baseline model's value of any region. */
  lemma DrawnKeepsValues(env: Env, s: Store, b': map<PlateId, real>, r: RegionId)
    requires Drawn(env, s.baseline, b')
    ensures ValueOf(env, s.(baseline := b'), r) == ValueOf(env, s, r)
    ensures PlateElevation(env, b', r) == PlateElevation(env, s.baseline, r)
  {
    if r in env.plateOf {
      assert Baseline(env, b', env.plateOf[r]) == Baseline(env, s.baseline, env.plateOf[r]);
    }
  }

  // ---------------------------------------------------------------------------------------
  // First pass: collision pressure on every edge region of every plate

  /** What a neighbour on another plate adds: pressure * collisionStrength. */
  function Contribution(env: Env, pressure: Pressure, plate: PlateId, region: RegionId, n: RegionId): real
    requires n in env.plateOf
  {
    pressure(plate, env.plateOf[n], region, n) * env.collisionStrength
  }

  /**
    The neighbour loop of the first pass, from the running total on: a neighbour on another
    plate adds pressure * collisionStrength, the sentinel and same-plate neighbours add nothing,
    a neighbour without a plate aborts (None).
   */
  function Collide(env: Env, pressure: Pressure, plate: PlateId, region: RegionId,
                   nbrs: seq<NeighbourId>, total: Float): Option<Float>
    decreases |nbrs|
  {
    if nbrs == [] then Some(total)
    else match nbrs[0]
      case Invalid => Collide(env, pressure, plate, region, nbrs[1..], total)
      case Id(n) =>
        if n !in env.plateOf then None
        else if env.plateOf[n] != plate then
          Collide(env, pressure, plate, region, nbrs[1..], Add(total, Finite(Contribution(env, pressure, plate, region, n))))
        else Collide(env, pressure, plate, region, nbrs[1..], total)
  }

  /** Every valid neighbour in the list carries a plate. */
  ghost predicate AllPlated(env: Env, nbrs: seq<NeighbourId>) {
    forall j :: 0 <= j < |nbrs| && nbrs[j].Id? ==> nbrs[j].id in env.plateOf
  }

  /** The sum of pressure * collisionStrength over the valid neighbours on a plate other than `plate`. */
  function ForeignPressure(env: Env, pressure: Pressure, plate: PlateId, region: RegionId,
                           nbrs: seq<NeighbourId>): real
    decreases |nbrs|
  {
    if nbrs == [] then 0.0
    else
      var rest := ForeignPressure(env, pressure, plate, region, nbrs[1..]);
      match nbrs[0]
      case Invalid => rest
      case Id(n) =>
        if n in env.plateOf && env.plateOf[n] != plate
        then Contribution(env, pressure, plate, region, n) + rest
        else rest
  }

  /**
    The neighbour loop completes exactly when every valid neighbour has a plate, and then its
    total is the start value plus the pressure summed over the foreign-plate neighbours.
   */
  lemma {:induction false} CollideSumsForeignPressure(env: Env, pressure: Pressure, plate: PlateId,
                                                      region: RegionId, nbrs: seq<NeighbourId>, total: Float)
    ensures Collide(env, pressure, plate, region, nbrs, total).Some? <==> AllPlated(env, nbrs)
    ensures AllPlated(env, nbrs) ==>
      Collide(env, pressure, plate, region, nbrs, total)
        == Some(Add(total, Finite(ForeignPressure(env, pressure, plate, region, nbrs))))
    decreases |nbrs|
  {
    if nbrs != [] {
      assert AllPlated(env, nbrs) <==> (nbrs[0].Id? ==> nbrs[0].id in env.plateOf) && AllPlated(env, nbrs[1..]) by {
        assert forall j :: 1 <= j < |nbrs| ==> nbrs[j] == nbrs[1..][j - 1];
      }
      match nbrs[0]
      case Invalid =>
        CollideSumsForeignPressure(env, pressure, plate, region, nbrs[1..], total);
      case Id(n) =>
        if n in env.plateOf && env.plateOf[n] != plate {
          var contribution := Contribution(env, pressure, plate, region, n);
          CollideSumsForeignPressure(env, pressure, plate, region, nbrs[1..], Add(total, Finite(contribution)));
          var rest := ForeignPressure(env, pressure, plate, region, nbrs[1..]);
          assert ForeignPressure(env, pressure, plate, region, nbrs) == contribution + rest;
          assert Add(Add(total, Finite(contribution)), Finite(rest)) == Add(total, Finite(contribution + rest));
        } else {
          CollideSumsForeignPressure(env, pressure, plate, region, nbrs[1..], total);
        }
    }
  }

  /** One edge region: start from elevationOf(region), add the collisions, write the total. */
  function EdgeStep(env: Env, pressure: Pressure, s: Store, plate: PlateId, region: RegionId): Outcome
    requires region < |env.neighbours|
  {
    var e := ElevationOf(env, s, region);
    match Collide(env, pressure, plate, region, env.neighbours[region], e.value)
    case None => Outcome(false, e.store)
    case Some(total) => Outcome(true, e.store.(elevation := e.store.elevation[region := total]))
  }

  /** The region is a region of the surface and each of its valid neighbours has a plate. */
  ghost predicate NeighboursPlated(env: Env, region: RegionId) {
    region < |env.neighbours| && AllPlated(env, env.neighbours[region])
  }

  /**
    An edge region's written elevation is its elevationOf value plus the foreign pressure; if a
    valid neighbour has no plate, nothing is written for it and the pass stops.
   */
  lemma EdgeStepWrites(env: Env, pressure: Pressure, s: Store, plate: PlateId, region: RegionId)
    requires region < |env.neighbours|
    ensures var o := EdgeStep(env, pressure, s, plate, region);
      && (o.ok <==> NeighboursPlated(env, region))
      && (o.ok ==> o.store.elevation == s.elevation[region :=
            Add(ValueOf(env, s, region), Finite(ForeignPressure(env, pressure, plate, region, env.neighbours[region])))])
      && (!o.ok ==> o.store.elevation == s.elevation)
      && Drawn(env, s.baseline, o.store.baseline)
  {
    var e := ElevationOf(env, s, region);
    ElevationOfReads(env, s, region);
    CollideSumsForeignPressure(env, pressure, plate, region, env.neighbours[region], e.value);
  }

  /**
    The collision pass does not clear old Elevation attributes: an edge region that still has
    one (from an earlier apply, say) starts from that value instead of its plate's baseline.
   */
  lemma CollisionsStartFromStoredElevation(env: Env, pressure: Pressure, s: Store, plate: PlateId, region: RegionId)
    requires region < |env.neighbours| && region in s.elevation
    requires NeighboursPlated(env, region)
    ensures var o := EdgeStep(env, pressure, s, plate, region);
      o.ok && o.store.elevation[region]
        == Add(s.elevation[region], Finite(ForeignPressure(env, pressure, plate, region, env.neighbours[region])))
  {
    EdgeStepWrites(env, pressure, s, plate, region);
  }

  /** The edge regions all belong to the surface. */
  ghost predicate EdgesInSurface(env: Env, edges: seq<RegionId>) {
    forall k :: 0 <= k < |edges| ==> edges[k] < |env.neighbours|
  }

  ghost predicate PlatesInSurface(env: Env, plates: seq<PlateEdges>) {
    forall i :: 0 <= i < |plates| ==> EdgesInSurface(env, plates[i].edges)
  }

  /** The edge loop of one plate, from the current store on; stops at the first abort. */
  function EdgesPass(env: Env, pressure: Pressure, s: Store, plate: PlateId, edges: seq<RegionId>): Outcome
    requires EdgesInSurface(env, edges)
    decreases |edges|
  {
    if edges == [] then Outcome(true, s)
    else
      var o := EdgeStep(env, pressure, s, plate, edges[0]);
      if !o.ok then o else EdgesPass(env, pressure, o.store, plate, edges[1..])
  }

  /** The plate loop of the first pass, from the current store on; stops at the first abort. */
  function PlatesPass(env: Env, pressure: Pressure, s: Store, plates: seq<PlateEdges>): Outcome
    requires PlatesInSurface(env, plates)
    decreases |plates|
  {
    if plates == [] then Outcome(true, s)
    else
      var o := EdgesPass(env, pressure, s, plates[0].plate, plates[0].edges);
      if !o.ok then o else PlatesPass(env, pressure, o.store, plates[1..])
  }

  ghost predicate EdgesPlated(env: Env, edges: seq<RegionId>) {
    forall k :: 0 <= k < |edges| ==> NeighboursPlated(env, edges[k])
  }

  ghost predicate PlatesPlated(env: Env, plates: seq<PlateEdges>) {
    forall i :: 0 <= i < |plates| ==> EdgesPlated(env, plates[i].edges)
  }

  lemma {:induction false} EdgesPassSucceedsIffPlated(env: Env, pressure: Pressure, s: Store, plate: PlateId, edges: seq<RegionId>)
    requires EdgesInSurface(env, edges)
    ensures EdgesPass(env, pressure, s, plate, edges).ok <==> EdgesPlated(env, edges)
    ensures Drawn(env, s.baseline, EdgesPass(env, pressure, s, plate, edges).store.baseline)
    decreases |edges|
  {
    if edges != [] {
      var o := EdgeStep(env, pressure, s, plate, edges[0]);
      EdgeStepWrites(env, pressure, s, plate, edges[0]);
      assert EdgesPlated(env, edges) <==> NeighboursPlated(env, edges[0]) && EdgesPlated(env, edges[1..]) by {
        assert forall k :: 1 <= k < |edges| ==> edges[k] == edges[1..][k - 1];
      }
      if o.ok {
        EdgesPassSucceedsIffPlated(env, pressure, o.store, plate, edges[1..]);
      }
    }
  }

  /**
    The first pass completes exactly when every valid neighbour of every edge region has a
    plate; whether or not it completes, it only adds drawn baselines.
   */
  lemma {:induction false} PlatesPassSucceedsIffPlated(env: Env, pressure: Pressure, s: Store, plates: seq<PlateEdges>)
    requires PlatesInSurface(env, plates)
    ensures PlatesPass(env, pressure, s, plates).ok <==> PlatesPlated(env, plates)
    ensures Drawn(env, s.baseline, PlatesPass(env, pressure, s, plates).store.baseline)
    decreases |plates|
  {
    if plates != [] {
      var o := EdgesPass(env, pressure, s, plates[0].plate, plates[0].edges);
      EdgesPassSucceedsIffPlated(env, pressure, s, plates[0].plate, plates[0].edges);
      assert PlatesPlated(env, plates) <==> EdgesPlated(env, plates[0].edges) && PlatesPlated(env, plates[1..]) by {
        assert forall i :: 1 <= i < |plates| ==> plates[i] == plates[1..][i - 1];
      }
      if o.ok {
        PlatesPassSucceedsIffPlated(env, pressure, o.store, plates[1..]);
      }
    }
  }

  // ---------------------------------------------------------------------------------------
  // Second pass: every region, optionally smoothed with its neighbours

  /** The neighbour loop of the filter, and the elevation so far. */
  datatype Filtered = Filtered(ok: bool, value: Float, store: Store)

  /**
    The filter's neighbour loop from the running elevation on: each valid neighbour's
    elevationOf is folded in with (e + n) * 0.5, in neighbour order. The `== NAN` test is
    kept as written.
   */
  function FilterFold(env: Env, s: Store, nbrs: seq<NeighbourId>, e: Float): Filtered
    decreases |nbrs|
  {
    if nbrs == [] then Filtered(true, e, s)
    else match nbrs[0]
      case Invalid => FilterFold(env, s, nbrs[1..], e)
      case Id(n) =>
        var increment := ElevationOf(env, s, n);
        if FloatEq(increment.value, NaN) then Filtered(false, e, increment.store)
        else FilterFold(env, increment.store, nbrs[1..], Half(Add(e, increment.value)))
  }

  /** The second pass over regions i, i+1, ... of the surface, each written back as it is done. */
  function SmoothPass(env: Env, s: Store, i: nat): Outcome
    decreases |env.neighbours| - i
  {
    if i >= |env.neighbours| then Outcome(true, s)
    else
      var e := ElevationOf(env, s, i);
      if FloatEq(e.value, NaN) then Outcome(false, e.store)
      else
        var f := if env.useFilter then FilterFold(env, e.store, env.neighbours[i], e.value)
                 else Filtered(true, e.value, e.store);
        if !f.ok then Outcome(false, f.store)
        else SmoothPass(env, f.store.(elevation := f.store.elevation[i := f.value]), i + 1)
  }

  /** The values the filter reads for the valid neighbours, in neighbour order. */
  function NeighbourValues(env: Env, s: Store, nbrs: seq<NeighbourId>): seq<Float>
    decreases |nbrs|
  {
    if nbrs == [] then []
    else match nbrs[0]
      case Invalid => NeighbourValues(env, s, nbrs[1..])
      case Id(n) => [ValueOf(env, s, n)] + NeighbourValues(env, s, nbrs[1..])
  }

  /** e := (e + x) * 0.5 for each x in turn. */
  function Smoothed(e: Float, xs: seq<Float>): Float
    decreases |xs|
  {
    if xs == [] then e else Smoothed(Half(Add(e, xs[0])), xs[1..])
  }

  /**
    The filter of one region never fails (`== NAN` is never true); it reads every neighbour
    from the store as it was when the region's turn came, and only draws baselines.
   */
  lemma {:induction false} FilterFoldSmoothsNeighbours(env: Env, s: Store, nbrs: seq<NeighbourId>, e: Float)
    ensures var f := FilterFold(env, s, nbrs, e);
      && f.ok
      && f.value == Smoothed(e, NeighbourValues(env, s, nbrs))
      && f.store.elevation == s.elevation
      && Drawn(env, s.baseline, f.store.baseline)
    decreases |nbrs|
  {
    if nbrs != [] {
      match nbrs[0]
      case Invalid =>
        FilterFoldSmoothsNeighbours(env, s, nbrs[1..], e);
      case Id(n) =>
        var increment := ElevationOf(env, s, n);
        ElevationOfReads(env, s, n);
        NanNeverEqual(increment.value);
        var e' := Half(Add(e, increment.value));
        FilterFoldSmoothsNeighbours(env, increment.store, nbrs[1..], e');
        NeighbourValuesAfterDraws(env, s, increment.store.baseline, nbrs[1..]);
    }
  }

  lemma {:induction false} NeighbourValuesAfterDraws(env: Env, s: Store, b': map<PlateId, real>, nbrs: seq<NeighbourId>)
    requires Drawn(env, s.baseline, b')
    ensures NeighbourValues(env, s.(baseline := b'), nbrs) == NeighbourValues(env, s, nbrs)
    decreases |nbrs|
  {
    if nbrs != [] {
      NeighbourValuesAfterDraws(env, s, b', nbrs[1..]);
      if nbrs[0].Id? {
        DrawnKeepsValues(env, s, b', nbrs[0].id);
      }
    }
  }

  /** The smoothed value lies between the least and the greatest of the values folded together. */
  lemma {:induction false} SmoothedBounded(e: Float, xs: seq<Float>, lo: real, hi: real)
    requires e.Finite? && lo <= e.value <= hi
    requires forall k :: 0 <= k < |xs| ==> xs[k].Finite? && lo <= xs[k].value <= hi
    ensures Smoothed(e, xs).Finite? && lo <= Smoothed(e, xs).value <= hi
    decreases |xs|
  {
    if xs != [] {
      SmoothedBounded(Half(Add(e, xs[0])), xs[1..], lo, hi);
    }
  }

  /** Folding a value with neighbours that all equal it leaves it unchanged. */
  lemma SmoothedConstant(c: real, xs: seq<Float>)
    requires forall k :: 0 <= k < |xs| ==> xs[k] == Finite(c)
    ensures Smoothed(Finite(c), xs) == Finite(c)
  {
    SmoothedBounded(Finite(c), xs, c, c);
  }

  /** A NaN anywhere among the folded values makes the result NaN. */
  lemma {:induction false} SmoothedNaN(e: Float, xs: seq<Float>)
    requires e.NaN? || exists k :: 0 <= k < |xs| && xs[k].NaN?
    ensures Smoothed(e, xs).NaN?
    decreases |xs|
  {
    if xs != [] {
      if Add(e, xs[0]).Finite? {
        var k :| 0 <= k < |xs| && xs[k].NaN?;
        assert xs[1..][k - 1] == xs[k];
      }
      SmoothedNaN(Half(Add(e, xs[0])), xs[1..]);
    }
  }

  /** The second pass always completes: its `== NAN` tests can never be true. */
  lemma {:induction false} SmoothPassCompletes(env: Env, s: Store, i: nat)
    ensures SmoothPass(env, s, i).ok
    decreases |env.neighbours| - i
  {
    if i < |env.neighbours| {
      var e := ElevationOf(env, s, i);
      NanNeverEqual(e.value);
      if env.useFilter {
        FilterFoldSmoothsNeighbours(env, e.store, env.neighbours[i], e.value);
      }
      var f := if env.useFilter then FilterFold(env, e.store, env.neighbours[i], e.value)
               else Filtered(true, e.value, e.store);
      SmoothPassCompletes(env, f.store.(elevation := f.store.elevation[i := f.value]), i + 1);
    }
  }

  /**
    One step of the second pass: region i gets its elevationOf value, smoothed with its valid
    neighbours' current values when the filter is on, and the pass goes on with region i + 1;
    meanwhile baselines are only drawn.
   */
  lemma SmoothPassStep(env: Env, s: Store, i: nat)
    requires i < |env.neighbours|
    ensures exists b' ::
      && Drawn(env, s.baseline, b')
      && SmoothPass(env, s, i) == SmoothPass(env, Store(s.elevation[i :=
           if env.useFilter then Smoothed(ValueOf(env, s, i), NeighbourValues(env, s, env.neighbours[i]))
           else ValueOf(env, s, i)], b'), i + 1)
  {
    var e := ElevationOf(env, s, i);
    ElevationOfReads(env, s, i);
    NanNeverEqual(e.value);
    if env.useFilter {
      FilterFoldSmoothsNeighbours(env, e.store, env.neighbours[i], e.value);
      NeighbourValuesAfterDraws(env, s, e.store.baseline, env.neighbours[i]);
      var f := FilterFold(env, e.store, env.neighbours[i], e.value);
      assert Drawn(env, s.baseline, f.store.baseline);
    } else {
      assert Drawn(env, s.baseline, e.store.baseline);
    }
  }

  /** The second pass as a whole only draws baselines: one drawn before it keeps its value. */
  lemma {:induction false} SmoothPassOnlyDraws(env: Env, s: Store, i: nat)
    ensures Drawn(env, s.baseline, SmoothPass(env, s, i).store.baseline)
    decreases |env.neighbours| - i
  {
    if i < |env.neighbours| {
      SmoothPassStep(env, s, i);
      var b' :| Drawn(env, s.baseline, b') &&
        SmoothPass(env, s, i) == SmoothPass(env, Store(s.elevation[i :=
          if env.useFilter then Smoothed(ValueOf(env, s, i), NeighbourValues(env, s, env.neighbours[i]))
          else ValueOf(env, s, i)], b'), i + 1);
      var next := Store(s.elevation[i :=
          if env.useFilter then Smoothed(ValueOf(env, s, i), NeighbourValues(env, s, env.neighbours[i]))
          else ValueOf(env, s, i)], b');
      SmoothPassOnlyDraws(env, next, i + 1);
    }
  }

  /** The second pass only writes the regions it reaches: earlier ones keep their attribute. */
  lemma {:induction false} SmoothPassKeepsEarlierRegions(env: Env, s: Store, i: nat, r: RegionId)
    requires r < i
    ensures var t := SmoothPass(env, s, i).store;
      (r in t.elevation <==> r in s.elevation) && (r in s.elevation ==> t.elevation[r] == s.elevation[r])
    decreases |env.neighbours| - i
  {
    if i < |env.neighbours| {
      var e := ElevationOf(env, s, i);
      ElevationOfReads(env, s, i);
      NanNeverEqual(e.value);
      if env.useFilter {
        FilterFoldSmoothsNeighbours(env, e.store, env.neighbours[i], e.value);
      }
      var f := if env.useFilter then FilterFold(env, e.store, env.neighbours[i], e.value)
               else Filtered(true, e.value, e.store);
      SmoothPassKeepsEarlierRegions(env, f.store.(elevation := f.store.elevation[i := f.value]), i + 1, r);
    }
  }

  /**
    Because the `== NAN` tests never fire, a region with neither an Elevation nor a plate is
    not a reason to fail: the second pass writes NaN as its Elevation attribute.
   */
  lemma {:induction false} SmoothPassWritesNaNForPlatelessRegion(env: Env, s: Store, i: nat, r: RegionId)
    requires i <= r < |env.neighbours|
    requires r !in s.elevation && r !in env.plateOf
    ensures SmoothPass(env, s, i).ok
    ensures r in SmoothPass(env, s, i).store.elevation && SmoothPass(env, s, i).store.elevation[r] == NaN
    decreases |env.neighbours| - i
  {
    SmoothPassCompletes(env, s, i);
    var e := ElevationOf(env, s, i);
    ElevationOfReads(env, s, i);
    NanNeverEqual(e.value);
    if env.useFilter {
      FilterFoldSmoothsNeighbours(env, e.store, env.neighbours[i], e.value);
    }
    var f := if env.useFilter then FilterFold(env, e.store, env.neighbours[i], e.value)
             else Filtered(true, e.value, e.store);
    var s' := f.store.(elevation := f.store.elevation[i := f.value]);
    if i == r {
      if env.useFilter {
        SmoothedNaN(e.value, NeighbourValues(env, e.store, env.neighbours[i]));
      }
      SmoothPassKeepsEarlierRegions(env, s', i + 1, r);
    } else {
      SmoothPassWritesNaNForPlatelessRegion(env, s', i + 1, r);
    }
  }

  /** The second pass from region i on leaves an Elevation on every region it reaches. */
  lemma {:induction false} SmoothPassWritesAll(env: Env, s: Store, i: nat, r: RegionId)
    requires i <= r < |env.neighbours|
    ensures r in SmoothPass(env, s, i).store.elevation
    decreases |env.neighbours| - i
  {
    var e := ElevationOf(env, s, i);
    ElevationOfReads(env, s, i);
    NanNeverEqual(e.value);
    if env.useFilter {
      FilterFoldSmoothsNeighbours(env, e.store, env.neighbours[i], e.value);
    }
    var f := if env.useFilter then FilterFold(env, e.store, env.neighbours[i], e.value)
             else Filtered(true, e.value, e.store);
    var s' := f.store.(elevation := f.store.elevation[i := f.value]);
    if i == r {
      SmoothPassKeepsEarlierRegions(env, s', i + 1, r);
    } else {
      SmoothPassWritesAll(env, s', i + 1, r);
    }
  }

  /**
    Regions are written in order, so a later region reads its neighbours' already smoothed
    values: two neighbouring regions stored at 0 and 4 end at 2 and 3, not both at 2.
   */
  lemma SmoothPassReadsSmoothedNeighbours(env: Env)
    requires env.neighbours == [[Id(1)], [Id(0)]] && env.useFilter
    ensures SmoothPass(env, Store(map[0 := Finite(0.0), 1 := Finite(4.0)], map[]), 0).store.elevation
         == map[0 := Finite(2.0), 1 := Finite(3.0)]
  {
    var s0 := Store(map[0 := Finite(0.0), 1 := Finite(4.0)], map[]);
    var s1 := Store(map[0 := Finite(2.0), 1 := Finite(4.0)], map[]);
    var s2 := Store(map[0 := Finite(2.0), 1 := Finite(3.0)], map[]);
    assert FilterFold(env, s0, [Id(1)], Finite(0.0)) == Filtered(true, Finite(2.0), s0) by {
      assert [Id(1)][1..] == [];
    }
    assert ElevationOf(env, s0, 0) == Sample(Finite(0.0), s0);
    assert s0.elevation[0 := Finite(2.0)] == s1.elevation;
    assert SmoothPass(env, s0, 0) == SmoothPass(env, s1, 1);
    assert ElevationOf(env, s1, 1) == Sample(Finite(4.0), s1);
    assert s1.elevation[1 := Finite(3.0)] == s2.elevation;
    assert FilterFold(env, s1, [Id(0)], Finite(4.0)) == Filtered(true, Finite(3.0), s1) by {
      assert [Id(0)][1..] == [];
    }
    assert SmoothPass(env, s1, 1) == SmoothPass(env, s2, 2);
  }

  // ---------------------------------------------------------------------------------------
  // calculatePlateColisions, the fallback path and apply

  /** calculatePlateColisions: disabled, or the first pass and then the second pass. */
  function CalculatePlateCollisions(env: Env, pressure: Pressure, s: Store, plates: seq<PlateEdges>): Outcome
    requires PlatesInSurface(env, plates)
  {
    if !env.usePlateCollisions then Outcome(false, s)
    else
      var o := PlatesPass(env, pressure, s, plates);
      if !o.ok then o else SmoothPass(env, o.store, 0)
  }

  /** With collisions disabled, nothing is written and false is returned. */
  lemma CollisionsDisabled(env: Env, pressure: Pressure, s: Store, plates: seq<PlateEdges>)
    requires PlatesInSurface(env, plates) && !env.usePlateCollisions
    ensures CalculatePlateCollisions(env, pressure, s, plates) == Outcome(false, s)
  {
  }

  /**
    calculatePlateColisions succeeds exactly when collisions are enabled and every valid
    neighbour of every edge region has a plate; when it fails it has only drawn baselines
    (it may have written Elevation on earlier edge regions).
   */
  lemma CollisionsSucceedIffPlated(env: Env, pressure: Pressure, s: Store, plates: seq<PlateEdges>)
    requires PlatesInSurface(env, plates)
    ensures CalculatePlateCollisions(env, pressure, s, plates).ok
        <==> env.usePlateCollisions && PlatesPlated(env, plates)
    ensures !CalculatePlateCollisions(env, pressure, s, plates).ok ==>
      Drawn(env, s.baseline, CalculatePlateCollisions(env, pressure, s, plates).store.baseline)
  {
    if env.usePlateCollisions {
      var o := PlatesPass(env, pressure, s, plates);
      PlatesPassSucceedsIffPlated(env, pressure, s, plates);
      if o.ok {
        SmoothPassCompletes(env, o.store, 0);
      }
    }
  }

  /** The fallback loop over regions i, i+1, ...: unset, recompute, write unless NaN. */
  function Fallback(env: Env, s: Store, i: nat): Store
    decreases |env.neighbours| - i
  {
    if i >= |env.neighbours| then s
    else
      var e := ElevationOf(env, s.(elevation := s.elevation - {i}), i);
      var s' := if e.value.NaN? then e.store else e.store.(elevation := e.store.elevation[i := e.value]);
      Fallback(env, s', i + 1)
  }

  /**
    After the fallback loop from region i on, each of those regions has an Elevation exactly
    when it has a plate, and its value is the baseline model; no other region changes.
   */
  lemma {:induction false} FallbackUsesBaselineModel(env: Env, s: Store, i: nat)
    ensures var t := Fallback(env, s, i);
      && Drawn(env, s.baseline, t.baseline)
      && (forall r :: r < i || r >= |env.neighbours| ==>
            (r in t.elevation <==> r in s.elevation) && (r in s.elevation ==> t.elevation[r] == s.elevation[r]))
      && (forall r :: i <= r < |env.neighbours| ==>
            (r in t.elevation <==> r in env.plateOf) && (r in t.elevation ==> t.elevation[r] == PlateElevation(env, s.baseline, r)))
    decreases |env.neighbours| - i
  {
    if i < |env.neighbours| {
      var unset := s.(elevation := s.elevation - {i});
      var e := ElevationOf(env, unset, i);
      ElevationOfReads(env, unset, i);
      var s' := if e.value.NaN? then e.store else e.store.(elevation := e.store.elevation[i := e.value]);
      FallbackUsesBaselineModel(env, s', i + 1);
      var t := Fallback(env, s, i);
      forall r | i <= r < |env.neighbours|
        ensures PlateElevation(env, t.baseline, r) == PlateElevation(env, s.baseline, r)
      {
        DrawnKeepsValues(env, s, t.baseline, r);
      }
      DrawnKeepsValues(env, s, e.store.baseline, i);
    }
  }

  /** apply: collisions when they succeed, otherwise the fallback path over all regions. */
  function Apply(env: Env, pressure: Pressure, s: Store, plates: seq<PlateEdges>): Store
    requires PlatesInSurface(env, plates)
  {
    var o := CalculatePlateCollisions(env, pressure, s, plates);
    if o.ok then o.store else Fallback(env, o.store, 0)
  }

  /**
    A whole apply only draws baselines: a plate's baseline, once drawn, keeps its value through
    the collision run and the fallback alike.
   */
  lemma ApplyOnlyDraws(env: Env, pressure: Pressure, s: Store, plates: seq<PlateEdges>)
    requires PlatesInSurface(env, plates)
    ensures Drawn(env, s.baseline, Apply(env, pressure, s, plates).baseline)
  {
    var o := CalculatePlateCollisions(env, pressure, s, plates);
    CollisionsSucceedIffPlated(env, pressure, s, plates);
    if o.ok {
      PlatesPassSucceedsIffPlated(env, pressure, s, plates);
      SmoothPassOnlyDraws(env, PlatesPass(env, pressure, s, plates).store, 0);
    } else {
      FallbackUsesBaselineModel(env, o.store, 0);
    }
  }

  /**
    When collisions are enabled and every valid neighbour of every edge region has a plate,
    apply keeps what the collision run wrote: the first pass, then the second pass over all
    regions, which leaves an Elevation on every region of the surface.
   */
  lemma ApplyKeepsCollisionModel(env: Env, pressure: Pressure, s: Store, plates: seq<PlateEdges>)
    requires PlatesInSurface(env, plates)
    requires env.usePlateCollisions && PlatesPlated(env, plates)
    ensures Apply(env, pressure, s, plates) == SmoothPass(env, PlatesPass(env, pressure, s, plates).store, 0).store
    ensures forall r :: 0 <= r < |env.neighbours| ==> r in Apply(env, pressure, s, plates).elevation
  {
    CollisionsSucceedIffPlated(env, pressure, s, plates);
    PlatesPassSucceedsIffPlated(env, pressure, s, plates);
    var o := PlatesPass(env, pressure, s, plates);
    forall r | 0 <= r < |env.neighbours|
      ensures r in SmoothPass(env, o.store, 0).store.elevation
    {
      SmoothPassWritesAll(env, o.store, 0, r);
    }
  }

  /**
    When collisions are disabled or some edge region has a neighbour without a plate, apply
    ends with an Elevation on exactly the regions that have a plate, each equal to the plate's
    baseline (drawn once, reused if already drawn), plus the scaled noise when enabled.
   */
  lemma ApplyFallsBackToBaselineModel(env: Env, pressure: Pressure, s: Store, plates: seq<PlateEdges>)
    requires PlatesInSurface(env, plates)
    requires !env.usePlateCollisions || !PlatesPlated(env, plates)
    ensures var t := Apply(env, pressure, s, plates);
      forall r :: 0 <= r < |env.neighbours| ==>
        && (r in t.elevation <==> r in env.plateOf)
        && (r in t.elevation ==> t.elevation[r] == PlateElevation(env, s.baseline, r))
  {
    var o := CalculatePlateCollisions(env, pressure, s, plates);
    CollisionsSucceedIffPlated(env, pressure, s, plates);
    FallbackUsesBaselineModel(env, o.store, 0);
    forall r | 0 <= r < |env.neighbours|
      ensures PlateElevation(env, o.store.baseline, r) == PlateElevation(env, s.baseline, r)
    {
      DrawnKeepsValues(env, s, o.store.baseline, r);
    }
  }
}
