/** The biome generator: the zones, elements and resources of a fresh
    ecosystem, drawn within fixed ranges, and the two per-tick maps that
    regrow resources and grow trees. Every `Math.random()` the generator
    calls is a parameter (a field of one of the draw records below, in the
    order the source draws them); `Date.now()` and the ISO timestamps are
    the parameter `now`. */
module Biomes {
  import opened Common
  import opened Types
  import Resources

  /** The default canvas of `new BiomeGenerator()`. */
  const DefaultWidth: real := 1200.0
  const DefaultHeight: real := 800.0

  /** The number of scattered elements `generateBiomeElements` adds. */
  const RandomElementCount: nat := 20

  // ---- Lookup tables ----

  /** The i-th entry of the zone-type list of `generateBiomeZones`, which
      holds forest, meadow, rocky and wetland, and not desert. */
  function ZoneTypeAt(i: int): BiomeType
    requires 0 <= i < 4
  {
    if i == 0 then Forest else if i == 1 then Meadow else if i == 2 then Rocky else Wetland
  }

  /** The `baseValues` table of `getBiomeFertility`. */
  function BaseFertility(b: BiomeType): real {
    match b
    case Forest => 80.0
    case Meadow => 90.0
    case Wetland => 70.0
    case Rocky => 30.0
    case Desert => 20.0
  }

  /** `getBiomeFertility(type)` for the draw r: the base, give or take 10. */
  function Fertility(b: BiomeType, r: real): (f: real)
    requires Unit(r)
    ensures BaseFertility(b) - 10.0 <= f < BaseFertility(b) + 10.0
  {
    BaseFertility(b) + r * 20.0 - 10.0
  }

  /** The k-th element type in the order the probability records list them. */
  function ElementKindAt(k: int): ElementType
    requires 0 <= k < 5
  {
    if k == 0 then Tree else if k == 1 then Rock else if k == 2 then Flower
    else if k == 3 then Grass else ElementType.Water
  }

  /** The `probabilities` table of `getElementTypeForBiome`: the weight of
      the k-th element type in a biome of type b. */
  function Probability(b: BiomeType, k: int): real
    requires 0 <= k < 5
  {
    match b
    case Forest => if k == 0 then 0.6 else if k == 1 then 0.2 else if k == 2 then 0.1 else if k == 3 then 0.1 else 0.0
    case Meadow => if k == 0 then 0.1 else if k == 1 then 0.1 else if k == 2 then 0.4 else if k == 3 then 0.4 else 0.0
    case Rocky => if k == 0 then 0.1 else if k == 1 then 0.7 else if k == 2 then 0.1 else if k == 3 then 0.1 else 0.0
    case Wetland => if k == 0 then 0.2 else if k == 1 then 0.1 else if k == 2 then 0.2 else if k == 3 then 0.3 else 0.2
    case Desert => if k == 0 then 0.05 else if k == 1 then 0.5 else if k == 2 then 0.1 else if k == 3 then 0.05 else 0.3
  }

  /** The running total of the first k probabilities. */
  function CumulativeProbability(b: BiomeType, k: int): real
    requires 0 <= k <= 5
  {
    if k == 0 then 0.0 else CumulativeProbability(b, k - 1) + Probability(b, k - 1)
  }

  /** The first position, from k on, whose running total reaches rand; -1 if none. */
  function KindFrom(b: BiomeType, rand: real, k: int): (j: int)
    requires 0 <= k <= 5
    ensures j == -1 || k <= j < 5
    ensures j >= 0 ==> rand <= CumulativeProbability(b, j + 1)
    ensures j >= 0 ==> forall i :: k < i <= j ==> rand > CumulativeProbability(b, i)
    ensures j == -1 ==> forall i :: k < i <= 5 ==> rand > CumulativeProbability(b, i)
    decreases 5 - k
  {
    if k == 5 then -1
    else if rand <= CumulativeProbability(b, k + 1) then k
    else KindFrom(b, rand, k + 1)
  }

  /** The element type `getElementTypeForBiome` settles on for the draw
      rand: the first whose running total reaches it, grass if none does. */
  function ElementKindFor(b: BiomeType, rand: real): ElementType {
    var j := KindFrom(b, rand, 0);
    if j == -1 then Grass else ElementKindAt(j)
  }

  /** Every probability record adds up to one, so a draw below one always
      stops the scan and the grass fallback is never reached. */
  lemma ElementKindNeverFallsBack(b: BiomeType, rand: real)
    requires Unit(rand)
    ensures KindFrom(b, rand, 0) != -1
  {
    assert CumulativeProbability(b, 5) == 1.0;
  }

  /** Forests, meadows and rocky zones never produce water: its weight there
      is zero and the running total reaches one before it. */
  lemma NoWaterInDryBiomes(b: BiomeType, rand: real)
    requires Unit(rand) && (b == Forest || b == Meadow || b == Rocky)
    ensures ElementKindFor(b, rand) != ElementType.Water
  {
    assert CumulativeProbability(b, 4) == 1.0;
  }

  /** The draw 0.65 in a forest passes the tree's 0.6 and lands on rock. */
  lemma ForestDrawExample()
    ensures ElementKindFor(Forest, 0.65) == Rock
  {
    assert KindFrom(Forest, 0.65, 0) == 1;
  }

  /** The `preferences` table of `getResourceTypeForBiome`. */
  function Preferences(b: BiomeType): seq<ResourceType> {
    match b
    case Forest => [Food, ResourceType.Water]
    case Meadow => [Food, Energy]
    case Rocky => [Mineral, Energy]
    case Wetland => [ResourceType.Water, Food]
    case Desert => [Mineral, Energy]
  }

  /** `getResourceTypeForBiome(type)` for the draw r: the first preference
      for draws below one half, the second otherwise. */
  function ResourceKindFor(b: BiomeType, r: real): (t: ResourceType)
    requires Unit(r)
    ensures t in Preferences(b)
    ensures t == Preferences(b)[0] <==> r < 0.5
  {
    Preferences(b)[Pick(r, |Preferences(b)|)]
  }

  // ---- Draws ----

  /** The draws for one zone: its type, centre, radius, density, fertility. */
  datatype ZoneDraw = ZoneDraw(kind: real, x: real, y: real, radius: real, density: real, fertility: real)

  predicate ZoneDrawOk(d: ZoneDraw) {
    Unit(d.kind) && Unit(d.x) && Unit(d.y) && Unit(d.radius) && Unit(d.density) && Unit(d.fertility)
  }

  /** The draws for one element of a zone. The random angle is given by its
      cosine and sine; `distance` is the draw scaled by 0.8 of the radius. */
  datatype ElementDraw = ElementDraw(angleCos: real, angleSin: real, distance: real, kind: real,
                                     size: real, health: real, variant: real)

  predicate ElementDrawOk(d: ElementDraw) {
    d.angleCos * d.angleCos + d.angleSin * d.angleSin == 1.0
    && Unit(d.distance) && Unit(d.kind) && Unit(d.size) && Unit(d.health) && Unit(d.variant)
  }

  /** The draws for one scattered element. */
  datatype ScatterDraw = ScatterDraw(kind: real, x: real, y: real, size: real, health: real, variant: real)

  predicate ScatterDrawOk(d: ScatterDraw) {
    Unit(d.kind) && Unit(d.x) && Unit(d.y) && Unit(d.size) && Unit(d.health) && Unit(d.variant)
  }

  /** The draws for one resource of a zone. */
  datatype ResourceDraw = ResourceDraw(kind: real, angleCos: real, angleSin: real, distance: real,
                                       maxAmount: real, fill: real, rate: real)

  predicate ResourceDrawOk(d: ResourceDraw) {
    d.angleCos * d.angleCos + d.angleSin * d.angleSin == 1.0
    && Unit(d.kind) && Unit(d.distance) && Unit(d.maxAmount) && Unit(d.fill) && Unit(d.rate)
  }

  /** The draws for the resources of one zone: how many, then each one. */
  datatype ZoneResourceDraws = ZoneResourceDraws(count: real, resources: seq<ResourceDraw>)

  // ---- Zones ----

  /** `4 + Math.floor(Math.random() * 3)` */
  function ZoneCount(r: real): (n: int)
    requires Unit(r)
    ensures 4 <= n <= 6
  {
    4 + Pick(r, 3)
  }

  function ZoneId(now: nat, i: nat): string {
    "biome_" + NatToString(now) + "_" + NatToString(i)
  }

  /** The i-th zone of `generateBiomeZones` on a width x height canvas. */
  function NewZone(width: real, height: real, now: nat, i: nat, d: ZoneDraw): (z: BiomeZone)
    requires ZoneDrawOk(d)
    ensures z.id == ZoneId(now, i)
    ensures z.kind != Desert
    ensures 80.0 <= z.radius < 200.0
    ensures 0.3 <= z.density < 0.8
    ensures BaseFertility(z.kind) - 10.0 <= z.fertility < BaseFertility(z.kind) + 10.0
    ensures width > 200.0 ==> 100.0 <= z.center.x < width - 100.0
    ensures height > 200.0 ==> 100.0 <= z.center.y < height - 100.0
    ensures z.elements == [] && z.influences == []
  {
    var kind := ZoneTypeAt(Pick(d.kind, 4));
    BiomeZone(ZoneId(now, i), kind,
              Position(100.0 + Scale(d.x, width - 200.0), 100.0 + Scale(d.y, height - 200.0)),
              80.0 + d.radius * 120.0, 0.3 + d.density * 0.5, Fertility(kind, d.fertility), [], [])
  }

  // ---- Elements ----

  /** `Math.floor(zone.density * 15)`, as the number of loop rounds it allows. */
  function ElementCount(z: BiomeZone): nat {
    var n := (z.density * 15.0).Floor;
    if n < 0 then 0 else n
  }

  /** A generated zone, whose density lies in [0.3, 0.8), holds 4 to 11 elements. */
  lemma ElementCountRange(z: BiomeZone)
    requires 0.3 <= z.density < 0.8
    ensures 4 <= ElementCount(z) <= 11
  {
    var n := (z.density * 15.0).Floor;
    assert 4.5 <= z.density * 15.0 < 12.0;
    assert n as real <= z.density * 15.0 < n as real + 1.0;
  }

  function ElementId(now: nat, i: nat, zoneId: string): string {
    "element_" + NatToString(now) + "_" + NatToString(i) + "_" + zoneId
  }

  /** `Math.max(lo, Math.min(hi, v))` as the generator writes the bound check. */
  function Bound(v: real, lo: real, hi: real): (r: real)
    ensures lo <= hi ==> lo <= r <= hi
    ensures lo <= v <= hi ==> r == v
  {
    Max(lo, Min(hi, v))
  }

  /** Where an element of the zone lands: within 0.8 of the radius along the
      drawn angle, then moved inside a 20-unit margin of the canvas. */
  function ElementPosition(width: real, height: real, zone: BiomeZone, d: ElementDraw): (p: Position)
    ensures width >= 40.0 ==> 20.0 <= p.x <= width - 20.0
    ensures height >= 40.0 ==> 20.0 <= p.y <= height - 20.0
  {
    var distance := d.distance * zone.radius * 0.8;
    Position(Bound(zone.center.x + d.angleCos * distance, 20.0, width - 20.0),
             Bound(zone.center.y + d.angleSin * distance, 20.0, height - 20.0))
  }

  /** The i-th element `generateElementsForZone` makes for the zone. */
  function NewZoneElement(width: real, height: real, zone: BiomeZone, i: nat, d: ElementDraw, now: nat): (e: BiomeElement)
    requires ElementDrawOk(d)
    ensures e.id == ElementId(now, i, zone.id)
    ensures e.kind == ElementKindFor(zone.kind, d.kind)
    ensures width >= 40.0 ==> 20.0 <= e.position.x <= width - 20.0
    ensures height >= 40.0 ==> 20.0 <= e.position.y <= height - 20.0
    ensures 0.5 <= e.size < 2.0 && 60.0 <= e.health < 100.0 && 0 <= e.variant < 3
    ensures e.createdAt == now && e.lastModified == now && e.modifiedBy == None
  {
    BiomeElement(ElementId(now, i, zone.id), ElementKindFor(zone.kind, d.kind),
                 ElementPosition(width, height, zone, d),
                 0.5 + d.size * 1.5, 60.0 + d.health * 40.0, Pick(d.variant, 3), now, now, None)
  }

  /** Enough well-formed draws for every element of the zone. */
  predicate ElementDrawsFor(zone: BiomeZone, draws: seq<ElementDraw>) {
    ElementCount(zone) <= |draws| && forall k :: 0 <= k < |draws| ==> ElementDrawOk(draws[k])
  }

  /** The elements `generateElementsForZone` returns for the zone. */
  function ZoneElements(width: real, height: real, zone: BiomeZone, draws: seq<ElementDraw>, now: nat): (r: seq<BiomeElement>)
    requires ElementDrawsFor(zone, draws)
    ensures |r| == ElementCount(zone)
    ensures forall i :: 0 <= i < |r| ==> r[i] == NewZoneElement(width, height, zone, i, draws[i], now)
  {
    seq(ElementCount(zone), i requires 0 <= i < ElementCount(zone) => NewZoneElement(width, height, zone, i, draws[i], now))
  }

  /** Enough well-formed draws for the elements of every zone in the list. */
  predicate ZoneDrawsFor(zones: seq<BiomeZone>, draws: seq<seq<ElementDraw>>) {
    |zones| <= |draws| && forall i :: 0 <= i < |zones| ==> ElementDrawsFor(zones[i], draws[i])
  }

  /** The number of elements the zones get together. */
  function TotalElementCount(zones: seq<BiomeZone>): nat {
    if zones == [] then 0 else TotalElementCount(zones[..|zones| - 1]) + ElementCount(zones[|zones| - 1])
  }

  /** Recording element ids in the zones leaves their element counts alone. */
  lemma {:induction false} SameDensitySameCount(a: seq<BiomeZone>, b: seq<BiomeZone>)
    requires |a| == |b| && forall i :: 0 <= i < |a| ==> a[i].density == b[i].density
    ensures TotalElementCount(a) == TotalElementCount(b)
  {
    if a != [] {
      SameDensitySameCount(a[..|a| - 1], b[..|b| - 1]);
    }
  }

  /** The zone elements, zone after zone, as `generateBiomeElements` collects them. */
  function AllZoneElements(width: real, height: real, zones: seq<BiomeZone>, draws: seq<seq<ElementDraw>>, now: nat): (r: seq<BiomeElement>)
    requires ZoneDrawsFor(zones, draws)
    ensures |r| == TotalElementCount(zones)
    ensures forall e :: e in r ==> 0.5 <= e.size < 2.0 && 60.0 <= e.health < 100.0 && 0 <= e.variant < 3
    ensures forall e :: e in r ==> e.createdAt == now && e.lastModified == now
    decreases |zones|
  {
    if zones == [] then []
    else
      var n := |zones| - 1;
      assert ZoneDrawsFor(zones[..n], draws) by {
        assert forall i :: 0 <= i < n ==> zones[..n][i] == zones[i];
      }
      AllZoneElements(width, height, zones[..n], draws, now) + ZoneElements(width, height, zones[n], draws[n], now)
  }

  /** An element of a zone does not depend on the ids the zone has recorded. */
  lemma NewZoneElementIgnoresIds(width: real, height: real, zone: BiomeZone, ids: seq<string>, i: nat, d: ElementDraw, now: nat)
    requires ElementDrawOk(d)
    ensures NewZoneElement(width, height, zone.(elements := ids), i, d, now) == NewZoneElement(width, height, zone, i, d, now)
  {
    var zone' := zone.(elements := ids);
    assert zone'.center == zone.center && zone'.radius == zone.radius;
    assert ElementPosition(width, height, zone', d) == ElementPosition(width, height, zone, d);
  }

  /** A zone's elements do not depend on the ids it has recorded. */
  lemma ZoneElementsIgnoreIds(width: real, height: real, zone: BiomeZone, ids: seq<string>, draws: seq<ElementDraw>, now: nat)
    requires ElementDrawsFor(zone, draws)
    ensures ElementDrawsFor(zone.(elements := ids), draws)
    ensures ZoneElements(width, height, zone.(elements := ids), draws, now) == ZoneElements(width, height, zone, draws, now)
  {
    var a := ZoneElements(width, height, zone.(elements := ids), draws, now);
    var b := ZoneElements(width, height, zone, draws, now);
    forall i | 0 <= i < |a| ensures a[i] == b[i] {
      NewZoneElementIgnoresIds(width, height, zone, ids, i, draws[i], now);
    }
  }

  /** Recording element ids in the zones leaves the elements they generate alone. */
  lemma {:induction false} AllZoneElementsIgnoreIds(width: real, height: real, a: seq<BiomeZone>, b: seq<BiomeZone>,
                                                    draws: seq<seq<ElementDraw>>, now: nat)
    requires ZoneDrawsFor(a, draws)
    requires |a| == |b| && forall i :: 0 <= i < |a| ==> b[i] == a[i].(elements := b[i].elements)
    ensures ZoneDrawsFor(b, draws)
    ensures AllZoneElements(width, height, b, draws, now) == AllZoneElements(width, height, a, draws, now)
    decreases |a|
  {
    forall i | 0 <= i < |a| ensures ElementDrawsFor(b[i], draws[i]) {
      ZoneElementsIgnoreIds(width, height, a[i], b[i].elements, draws[i], now);
    }
    if a != [] {
      var n := |a| - 1;
      assert ZoneDrawsFor(a[..n], draws) by {
        assert forall i :: 0 <= i < n ==> a[..n][i] == a[i];
      }
      AllZoneElementsIgnoreIds(width, height, a[..n], b[..n], draws, now);
      ZoneElementsIgnoreIds(width, height, a[n], b[n].elements, draws[n], now);
    }
  }

  function ScatterId(now: nat, i: nat): string {
    "random_element_" + NatToString(now) + "_" + NatToString(i)
  }

  /** The i-th element of `generateRandomElements`: one of tree, rock,
      flower and grass, anywhere inside the 20-unit margin. */
  function NewScatterElement(width: real, height: real, i: nat, d: ScatterDraw, now: nat): (e: BiomeElement)
    requires ScatterDrawOk(d)
    ensures e.id == ScatterId(now, i)
    ensures e.kind != ElementType.Water && e.kind == ElementKindAt(Pick(d.kind, 4))
    ensures width > 40.0 ==> 20.0 <= e.position.x < width - 20.0
    ensures height > 40.0 ==> 20.0 <= e.position.y < height - 20.0
    ensures 0.3 <= e.size < 1.3 && 40.0 <= e.health < 100.0 && 0 <= e.variant < 3
    ensures e.createdAt == now && e.lastModified == now && e.modifiedBy == None
  {
    BiomeElement(ScatterId(now, i), ElementKindAt(Pick(d.kind, 4)),
                 Position(20.0 + Scale(d.x, width - 40.0), 20.0 + Scale(d.y, height - 40.0)),
                 0.3 + d.size * 1.0, 40.0 + d.health * 60.0, Pick(d.variant, 3), now, now, None)
  }

  predicate ScatterDrawsFor(count: nat, draws: seq<ScatterDraw>) {
    count <= |draws| && forall k :: 0 <= k < |draws| ==> ScatterDrawOk(draws[k])
  }

  /** The list `generateRandomElements(count)` returns. */
  function ScatterElements(width: real, height: real, count: nat, draws: seq<ScatterDraw>, now: nat): (r: seq<BiomeElement>)
    requires ScatterDrawsFor(count, draws)
    ensures |r| == count
    ensures forall i :: 0 <= i < count ==> r[i] == NewScatterElement(width, height, i, draws[i], now)
  {
    seq(count, i requires 0 <= i < count => NewScatterElement(width, height, i, draws[i], now))
  }

  // ---- Resources ----

  /** `1 + Math.floor(Math.random() * 2)` */
  function ResourceCount(r: real): (n: int)
    requires Unit(r)
    ensures 1 <= n <= 2
  {
    1 + Pick(r, 2)
  }

  function ZoneResourceId(now: nat, i: nat, zoneId: string): string {
    "resource_" + NatToString(now) + "_" + NatToString(i) + "_" + zoneId
  }

  /** `maxAmount * (0.7 + Math.random() * 0.3)`: between 70% and all of the maximum. */
  function InitialFill(maxAmount: real, r: real): (a: real)
    requires Unit(r) && maxAmount > 0.0
    ensures 0.7 * maxAmount <= a < maxAmount
  {
    var f := 0.7 + r * 0.3;
    MulNonNeg(maxAmount, f - 0.7);
    ScaleBelow(f, maxAmount);
    maxAmount * f
  }

  /** Where a resource of the zone lands: within 0.6 of the radius along the
      drawn angle (no bound check, unlike the elements). */
  function ResourcePosition(zone: BiomeZone, d: ResourceDraw): Position {
    var distance := d.distance * zone.radius * 0.6;
    Position(zone.center.x + d.angleCos * distance, zone.center.y + d.angleSin * distance)
  }

  /** A zone resource lies within 0.6 of the zone's radius from its centre. */
  lemma ResourceWithinReach(zone: BiomeZone, d: ResourceDraw)
    requires ResourceDrawOk(d)
    ensures zone.radius > 0.0 ==>
      DistSq(ResourcePosition(zone, d), zone.center) < (zone.radius * 0.6) * (zone.radius * 0.6)
  {
    if zone.radius > 0.0 {
      var reach := zone.radius * 0.6;
      var distance := d.distance * zone.radius * 0.6;
      assert distance == d.distance * reach;
      ScaleBelow(d.distance, reach);
      assert 0.0 <= d.distance * reach;
      assert d.distance * reach < reach;
      SquareBounds(distance, 0.0, reach);
      var dx, dy := d.angleCos * distance, d.angleSin * distance;
      assert DistSq(ResourcePosition(zone, d), zone.center) == dx * dx + dy * dy;
      assert dx * dx + dy * dy == (d.angleCos * d.angleCos + d.angleSin * d.angleSin) * (distance * distance);
    }
  }

  /** The i-th resource `generateResources` places in the zone. */
  function NewZoneResource(zone: BiomeZone, i: nat, d: ResourceDraw, now: nat): (r: Resource)
    requires ResourceDrawOk(d)
    ensures r.id == ZoneResourceId(now, i, zone.id)
    ensures r.kind in Preferences(zone.kind)
    ensures 50.0 <= r.maxAmount < 150.0
    ensures 0.7 * r.maxAmount <= r.amount < r.maxAmount
    ensures 0.1 <= r.regenerationRate < 0.3
    ensures Bounded(r) && r.lastHarvested == None && r.harvestedBy == []
    ensures zone.radius > 0.0 ==> DistSq(r.position, zone.center) < (zone.radius * 0.6) * (zone.radius * 0.6)
  {
    ResourceWithinReach(zone, d);
    var maxAmount := 50.0 + d.maxAmount * 100.0;
    Resource(ZoneResourceId(now, i, zone.id), ResourceKindFor(zone.kind, d.kind),
             ResourcePosition(zone, d), InitialFill(maxAmount, d.fill), maxAmount, 0.1 + d.rate * 0.2, None, [])
  }

  /** Enough well-formed draws for the resources of the zone. */
  predicate ResourceDrawsFor(d: ZoneResourceDraws) {
    Unit(d.count) && ResourceCount(d.count) <= |d.resources|
    && forall k :: 0 <= k < |d.resources| ==> ResourceDrawOk(d.resources[k])
  }

  /** The resources `generateResources` places in one zone. */
  function ZoneResources(zone: BiomeZone, d: ZoneResourceDraws, now: nat): (r: seq<Resource>)
    requires ResourceDrawsFor(d)
    ensures |r| == ResourceCount(d.count)
    ensures forall i :: 0 <= i < |r| ==> r[i] == NewZoneResource(zone, i, d.resources[i], now)
  {
    seq(ResourceCount(d.count), i requires 0 <= i < ResourceCount(d.count) => NewZoneResource(zone, i, d.resources[i], now))
  }

  predicate AllResourceDrawsFor(zones: seq<BiomeZone>, draws: seq<ZoneResourceDraws>) {
    |zones| <= |draws| && forall i :: 0 <= i < |zones| ==> ResourceDrawsFor(draws[i])
  }

  /** The list `generateResources(zones)` returns: the resources of each
      zone in turn, one or two per zone. */
  function AllZoneResources(zones: seq<BiomeZone>, draws: seq<ZoneResourceDraws>, now: nat): (r: seq<Resource>)
    requires AllResourceDrawsFor(zones, draws)
    ensures |zones| <= |r| <= 2 * |zones|
    decreases |zones|
  {
    if zones == [] then []
    else
      var n := |zones| - 1;
      AllZoneResources(zones[..n], draws, now) + ZoneResources(zones[n], draws[n], now)
  }

  /** Every generated resource is within its bounds and of a type some zone
      prefers. */
  lemma {:induction false} AllZoneResourcesContents(zones: seq<BiomeZone>, draws: seq<ZoneResourceDraws>, now: nat)
    requires AllResourceDrawsFor(zones, draws)
    ensures forall x :: x in AllZoneResources(zones, draws, now) ==>
      Bounded(x) && 50.0 <= x.maxAmount < 150.0 && 0.7 * x.maxAmount <= x.amount
    ensures forall x :: x in AllZoneResources(zones, draws, now) ==>
      exists z :: z in zones && x.kind in Preferences(z.kind)
    decreases |zones|
  {
    if zones != [] {
      var n := |zones| - 1;
      assert AllResourceDrawsFor(zones[..n], draws);
      AllZoneResourcesContents(zones[..n], draws, now);
      var before := AllZoneResources(zones[..n], draws, now);
      var last := ZoneResources(zones[n], draws[n], now);
      assert AllZoneResources(zones, draws, now) == before + last;
      forall x | x in before ensures exists z :: z in zones && x.kind in Preferences(z.kind) {
        var z :| z in zones[..n] && x.kind in Preferences(z.kind);
        assert z in zones;
      }
      assert forall x :: x in last ==> x.kind in Preferences(zones[n].kind);
    }
  }

  lemma ZoneResourcesStep(zone: BiomeZone, d: ZoneResourceDraws, now: nat, i: int, before: seq<Resource>, acc: seq<Resource>)
    requires ResourceDrawsFor(d) && 0 <= i < ResourceCount(d.count)
    requires acc == before + ZoneResources(zone, d, now)[..i]
    ensures acc + [NewZoneResource(zone, i, d.resources[i], now)] == before + ZoneResources(zone, d, now)[..i + 1]
  {
    var r := ZoneResources(zone, d, now);
    assert r[..i + 1] == r[..i] + [r[i]];
  }

  lemma AllZoneResourcesStep(zones: seq<BiomeZone>, draws: seq<ZoneResourceDraws>, now: nat, z: int)
    requires AllResourceDrawsFor(zones, draws) && 0 <= z < |zones|
    ensures AllResourceDrawsFor(zones[..z], draws) && AllResourceDrawsFor(zones[..z + 1], draws)
    ensures AllZoneResources(zones[..z + 1], draws, now)
         == AllZoneResources(zones[..z], draws, now) + ZoneResources(zones[z], draws[z], now)
  {
    assert zones[..z + 1][..z] == zones[..z];
  }

  // ---- Per-tick maps ----

  /** One resource after the generator's `regenerateResources`: the plain
      rate is added, with no idle bonus, up to the maximum. */
  function Regrown(r: Resource): (r': Resource)
    ensures r' == r.(amount := r'.amount)
    ensures r.amount >= r.maxAmount ==> r' == r
    ensures r.amount < r.maxAmount && r.amount + r.regenerationRate <= r.maxAmount ==>
      r'.amount == r.amount + r.regenerationRate
    ensures r.amount < r.maxAmount && r.amount + r.regenerationRate >= r.maxAmount ==>
      r'.amount == r.maxAmount
    ensures Bounded(r) && r.regenerationRate >= 0.0 ==> Bounded(r') && r.amount <= r'.amount
  {
    if r.amount < r.maxAmount then r.(amount := Min(r.maxAmount, r.amount + r.regenerationRate)) else r
  }

  /** `regenerateResources(resources)`: the same list, in order, each regrown. */
  function RegenerateResources(s: seq<Resource>): (out: seq<Resource>)
    ensures |out| == |s|
    ensures forall i :: 0 <= i < |s| ==> out[i] == Regrown(s[i])
    ensures forall i :: 0 <= i < |s| ==> out[i].id == s[i].id && out[i].maxAmount == s[i].maxAmount
    ensures (forall i :: 0 <= i < |s| ==> Bounded(s[i]) && s[i].regenerationRate >= 0.0) ==>
      forall i :: 0 <= i < |s| ==> Bounded(out[i])
  {
    seq(|s|, i requires 0 <= i < |s| => Regrown(s[i]))
  }

  /** The generator's regeneration differs from the resource manager's: a
      resource never harvested regrows by its plain rate here and by one and
      a half times that rate there. */
  lemma RegenerationRulesDiffer(now: int)
    ensures var r := Resource("r", Food, Position(0.0, 0.0), 0.0, 100.0, 1.0, None, []);
      Regrown(r).amount == 1.0 && Resources.Regenerated(r, now).amount == 1.5
  {
    var r := Resource("r", Food, Position(0.0, 0.0), 0.0, 100.0, 1.0, None, []);
    assert Resources.RegenerationMultiplier(r, now) == 1.5;
  }

  /** `Math.sqrt(dx*dx + dy*dy) <= zone.radius`: the element lies in the zone. */
  predicate InZone(e: BiomeElement, z: BiomeZone) {
    WithinDistance(e.position, z.center, z.radius)
  }

  /** The first zone containing the element (`zones.find`), or -1. */
  function ContainingZone(e: BiomeElement, zones: seq<BiomeZone>): (j: int)
    ensures -1 <= j < |zones|
    ensures 0 <= j ==> InZone(e, zones[j]) && forall i :: 0 <= i < j ==> !InZone(e, zones[i])
    ensures j == -1 <==> forall i :: 0 <= i < |zones| ==> !InZone(e, zones[i])
  {
    FirstIndex((z: BiomeZone) => InZone(e, z), zones)
  }

  /** Whether `growBiomeElements` touches the element: a tree below full
      health inside some zone. */
  predicate Grows(e: BiomeElement, zones: seq<BiomeZone>) {
    e.kind == Tree && e.health < 100.0 && ContainingZone(e, zones) != -1
  }

  /** One element after `growBiomeElements`: a growing tree gains half its
      first zone's fertility per cent, up to 100, and is stamped `now`. */
  function Grown(e: BiomeElement, zones: seq<BiomeZone>, now: int): (e': BiomeElement)
    ensures !Grows(e, zones) ==> e' == e
    ensures Grows(e, zones) ==> e' == e.(health := e'.health, lastModified := now)
    ensures Grows(e, zones) ==>
      var f := zones[ContainingZone(e, zones)].fertility;
      (e.health + f / 100.0 * 0.5 <= 100.0 ==> e'.health == e.health + f / 100.0 * 0.5)
      && (e.health + f / 100.0 * 0.5 >= 100.0 ==> e'.health == 100.0)
    ensures Grows(e, zones) ==> e'.health <= 100.0
    ensures Grows(e, zones) && zones[ContainingZone(e, zones)].fertility >= 0.0 ==> e.health <= e'.health
  {
    if Grows(e, zones) then
      var growthRate := zones[ContainingZone(e, zones)].fertility / 100.0 * 0.5;
      e.(health := Min(100.0, e.health + growthRate), lastModified := now)
    else e
  }

  /** `growBiomeElements(elements, zones)`: the same list, in order, each grown. */
  function GrowBiomeElements(elements: seq<BiomeElement>, zones: seq<BiomeZone>, now: int): (out: seq<BiomeElement>)
    ensures |out| == |elements|
    ensures forall i :: 0 <= i < |elements| ==> out[i] == Grown(elements[i], zones, now)
    ensures forall i :: 0 <= i < |elements| && !Grows(elements[i], zones) ==> out[i] == elements[i]
    ensures forall i :: 0 <= i < |elements| ==>
      out[i].id == elements[i].id && out[i].kind == elements[i].kind && out[i].position == elements[i].position
  {
    seq(|elements|, i requires 0 <= i < |elements| => Grown(elements[i], zones, now))
  }

  /** A tree that has reached full health stops growing: the growth pass
      leaves its own output unchanged wherever health reached 100. */
  lemma FullTreesStayPut(elements: seq<BiomeElement>, zones: seq<BiomeZone>, now: int, i: int)
    requires 0 <= i < |elements|
    requires GrowBiomeElements(elements, zones, now)[i].health >= 100.0
    ensures GrowBiomeElements(GrowBiomeElements(elements, zones, now), zones, now)[i]
         == GrowBiomeElements(elements, zones, now)[i]
  {
    var once := GrowBiomeElements(elements, zones, now);
    assert !Grows(once[i], zones);
  }

  // ---- The generator ----

  class BiomeGenerator {
    const width: real
    const height: real

    /** `new BiomeGenerator(width, height)`; the source defaults to 1200 x 800. */
    constructor (width: real, height: real)
      ensures this.width == width && this.height == height
    {
      this.width := width;
      this.height := height;
    }

    /** `generateBiomeZones`, for the count draw and the per-zone draws. */
    method GenerateBiomeZones(countDraw: real, draws: seq<ZoneDraw>, now: nat) returns (zones: seq<BiomeZone>)
      requires Unit(countDraw) && ZoneCount(countDraw) <= |draws|
      requires forall k :: 0 <= k < |draws| ==> ZoneDrawOk(draws[k])
      ensures |zones| == ZoneCount(countDraw)
      ensures forall i :: 0 <= i < |zones| ==> zones[i] == NewZone(width, height, now, i, draws[i])
    {
      zones := [];
      var numZones := ZoneCount(countDraw);
      for i := 0 to numZones
        invariant |zones| == i
        invariant forall k :: 0 <= k < i ==> zones[k] == NewZone(width, height, now, k, draws[k])
      {
        var d := draws[i];
        var biomeType := ZoneTypeAt(Pick(d.kind, 4));
        var center := Position(100.0 + Scale(d.x, width - 200.0), 100.0 + Scale(d.y, height - 200.0));
        var zone := BiomeZone(ZoneId(now, i), biomeType, center, 80.0 + d.radius * 120.0,
                              0.3 + d.density * 0.5, Fertility(biomeType, d.fertility), [], []);
        zones := zones + [zone];
      }
    }

    /** `getElementTypeForBiome(type)` for the draw rand: the cumulative scan. */
    method ElementTypeForBiome(b: BiomeType, rand: real) returns (kind: ElementType)
      ensures kind == ElementKindFor(b, rand)
    {
      var cumulative := 0.0;
      for k := 0 to 5
        invariant cumulative == CumulativeProbability(b, k)
        invariant KindFrom(b, rand, 0) == KindFrom(b, rand, k)
      {
        cumulative := cumulative + Probability(b, k);
        if rand <= cumulative {
          return ElementKindAt(k);
        }
      }
      return Grass;
    }

    /** `generateElementsForZone(zone)`. */
    method GenerateElementsForZone(zone: BiomeZone, draws: seq<ElementDraw>, now: nat) returns (elements: seq<BiomeElement>)
      requires ElementDrawsFor(zone, draws)
      ensures elements == ZoneElements(width, height, zone, draws, now)
    {
      elements := [];
      var numElements := ElementCount(zone);
      for i := 0 to numElements
        invariant |elements| == i
        invariant forall k :: 0 <= k < i ==> elements[k] == NewZoneElement(width, height, zone, k, draws[k], now)
      {
        var d := draws[i];
        var position := ElementPosition(width, height, zone, d);
        var elementType := ElementTypeForBiome(zone.kind, d.kind);
        var element := BiomeElement(ElementId(now, i, zone.id), elementType, position,
                                    0.5 + d.size * 1.5, 60.0 + d.health * 40.0, Pick(d.variant, 3), now, now, None);
        elements := elements + [element];
      }
    }

    /** `generateRandomElements(count)`. */
    method GenerateRandomElements(count: nat, draws: seq<ScatterDraw>, now: nat) returns (elements: seq<BiomeElement>)
      requires ScatterDrawsFor(count, draws)
      ensures elements == ScatterElements(width, height, count, draws, now)
    {
      elements := [];
      for i := 0 to count
        invariant |elements| == i
        invariant forall k :: 0 <= k < i ==> elements[k] == NewScatterElement(width, height, k, draws[k], now)
      {
        var d := draws[i];
        var element := BiomeElement(ScatterId(now, i), ElementKindAt(Pick(d.kind, 4)),
                                    Position(20.0 + Scale(d.x, width - 40.0), 20.0 + Scale(d.y, height - 40.0)),
                                    0.3 + d.size * 1.0, 40.0 + d.health * 60.0, Pick(d.variant, 3), now, now, None);
        elements := elements + [element];
      }
    }

    /** `generateBiomeElements(zones)`: the elements of each zone in turn, then
        the scattered ones; each zone records the ids of its own elements. */
    method GenerateBiomeElements(zones: seq<BiomeZone>, draws: seq<seq<ElementDraw>>,
                                 scatter: seq<ScatterDraw>, now: nat)
      returns (elements: seq<BiomeElement>, updated: seq<BiomeZone>)
      requires ZoneDrawsFor(zones, draws) && ScatterDrawsFor(RandomElementCount, scatter)
      ensures |updated| == |zones|
      ensures forall i :: 0 <= i < |zones| ==>
        updated[i] == zones[i].(elements := KeysOf(ElementIdOf, ZoneElements(width, height, zones[i], draws[i], now)))
      ensures elements == AllZoneElements(width, height, zones, draws, now)
                          + ScatterElements(width, height, RandomElementCount, scatter, now)
      ensures |elements| == TotalElementCount(zones) + RandomElementCount
    {
      elements := [];
      updated := zones;
      for i := 0 to |zones|
        invariant |updated| == |zones|
        invariant ZoneDrawsFor(zones[..i], draws)
        invariant elements == AllZoneElements(width, height, zones[..i], draws, now)
        invariant forall k :: 0 <= k < i ==>
          updated[k] == zones[k].(elements := KeysOf(ElementIdOf, ZoneElements(width, height, zones[k], draws[k], now)))
        invariant forall k :: i <= k < |zones| ==> updated[k] == zones[k]
      {
        var zone := updated[i];
        var elementsInZone := GenerateElementsForZone(zone, draws[i], now);
        assert zones[..i + 1][..i] == zones[..i];
        elements := elements + elementsInZone;
        updated := updated[i := zone.(elements := KeysOf(ElementIdOf, elementsInZone))];
      }
      assert zones[..|zones|] == zones;
      var randomElements := GenerateRandomElements(RandomElementCount, scatter, now);
      elements := elements + randomElements;
    }

    /** `generateResources(zones)`. */
    method GenerateResources(zones: seq<BiomeZone>, draws: seq<ZoneResourceDraws>, now: nat) returns (resources: seq<Resource>)
      requires AllResourceDrawsFor(zones, draws)
      ensures resources == AllZoneResources(zones, draws, now)
    {
      resources := [];
      for z := 0 to |zones|
        invariant AllResourceDrawsFor(zones[..z], draws)
        invariant resources == AllZoneResources(zones[..z], draws, now)
      {
        var zone := zones[z];
        var d := draws[z];
        var before := resources;
        var numResources := ResourceCount(d.count);
        for i := 0 to numResources
          invariant resources == before + ZoneResources(zone, d, now)[..i]
        {
          var resource := NewZoneResource(zone, i, d.resources[i], now);
          ZoneResourcesStep(zone, d, now, i, before, resources);
          resources := resources + [resource];
        }
        AllZoneResourcesStep(zones, draws, now, z);
      }
      assert zones[..|zones|] == zones;
    }

    /** `generateInitialEcosystem()`: zones, then their elements, then their
        resources, for draws enough for the largest ecosystem (six zones of
        at most eleven elements and two resources each). */
    method GenerateInitialEcosystem(countDraw: real, zoneDraws: seq<ZoneDraw>, elementDraws: seq<seq<ElementDraw>>,
                                    scatter: seq<ScatterDraw>, resourceDraws: seq<ZoneResourceDraws>, now: nat)
      returns (zones: seq<BiomeZone>, elements: seq<BiomeElement>, resources: seq<Resource>)
      requires Unit(countDraw) && |zoneDraws| >= 6 && forall k :: 0 <= k < |zoneDraws| ==> ZoneDrawOk(zoneDraws[k])
      requires |elementDraws| >= 6 && forall k :: 0 <= k < 6 ==> |elementDraws[k]| >= 11
      requires forall k, m :: 0 <= k < |elementDraws| && 0 <= m < |elementDraws[k]| ==> ElementDrawOk(elementDraws[k][m])
      requires ScatterDrawsFor(RandomElementCount, scatter)
      requires |resourceDraws| >= 6 && forall k :: 0 <= k < 6 ==> Unit(resourceDraws[k].count) && |resourceDraws[k].resources| >= 2
      requires forall k, m :: 0 <= k < |resourceDraws| && 0 <= m < |resourceDraws[k].resources| ==>
        ResourceDrawOk(resourceDraws[k].resources[m])
      ensures |zones| == ZoneCount(countDraw) && 4 <= |zones| <= 6
      ensures forall i :: 0 <= i < |zones| ==> zones[i] == NewZone(width, height, now, i, zoneDraws[i]).(elements := zones[i].elements)
      ensures forall i :: 0 <= i < |zones| ==> zones[i].kind != Desert && 80.0 <= zones[i].radius < 200.0
      ensures ZoneDrawsFor(zones, elementDraws)
      ensures forall i :: 0 <= i < |zones| ==>
        zones[i].elements == KeysOf(ElementIdOf, ZoneElements(width, height, zones[i], elementDraws[i], now))
      ensures elements == AllZoneElements(width, height, zones, elementDraws, now)
                          + ScatterElements(width, height, RandomElementCount, scatter, now)
      ensures |elements| == TotalElementCount(zones) + RandomElementCount
      ensures AllResourceDrawsFor(zones, resourceDraws) && resources == AllZoneResources(zones, resourceDraws, now)
      ensures |zones| <= |resources| <= 2 * |zones|
      ensures forall r :: r in resources ==> Bounded(r) && 50.0 <= r.maxAmount < 150.0 && 0.7 * r.maxAmount <= r.amount
      ensures forall r :: r in resources ==> exists z :: z in zones && r.kind in Preferences(z.kind)
    {
      var generated := GenerateBiomeZones(countDraw, zoneDraws, now);
      forall i | 0 <= i < |generated| ensures ElementDrawsFor(generated[i], elementDraws[i]) {
        ElementCountRange(generated[i]);
      }
      elements, zones := GenerateBiomeElements(generated, elementDraws, scatter, now);
      SameDensitySameCount(generated, zones);
      AllZoneElementsIgnoreIds(width, height, generated, zones, elementDraws, now);
      forall i | 0 <= i < |zones|
        ensures zones[i] == NewZone(width, height, now, i, zoneDraws[i]).(elements := zones[i].elements)
        ensures zones[i].elements == KeysOf(ElementIdOf, ZoneElements(width, height, zones[i], elementDraws[i], now))
      {
        ZoneElementsIgnoreIds(width, height, generated[i], zones[i].elements, elementDraws[i], now);
      }
      assert AllResourceDrawsFor(zones, resourceDraws);
      resources := GenerateResources(zones, resourceDraws, now);
      AllZoneResourcesContents(zones, resourceDraws, now);
    }
  }
}
