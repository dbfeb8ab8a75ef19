/** The records the simulation works on (entities, resources, biome zones and
    elements, environmental traces) and the planar geometry shared by every
    component. Numbers are reals; timestamps are milliseconds since the epoch
    (the source stores them as ISO strings and converts them with `Date`). */
module Types {
  import opened Common

  datatype Position = Position(x: real, y: real)

  /** The square of the Euclidean distance between p and q. */
  function DistSq(p: Position, q: Position): (d: real)
    ensures d >= 0.0
  {
    (p.x - q.x) * (p.x - q.x) + (p.y - q.y) * (p.y - q.y)
  }

  /** `Math.sqrt(dx*dx + dy*dy) <= r`, stated without the square root. */
  predicate WithinDistance(p: Position, q: Position, r: real) {
    0.0 <= r && DistSq(p, q) <= r * r
  }

  /** `Math.sqrt(dx*dx + dy*dy) < r`, stated without the square root. */
  predicate CloserThan(p: Position, q: Position, r: real) {
    0.0 < r && DistSq(p, q) < r * r
  }

  /** d is the Euclidean distance between p and q. */
  predicate IsDistance(d: real, p: Position, q: Position) {
    d >= 0.0 && d * d == DistSq(p, q)
  }

  // ---- Entities ----

  datatype Status = Exploring | Building | Socializing | Resting

  datatype Shape = Circle | Triangle | Hexagon | Diamond | Star

  datatype Personality = Personality(traits: seq<string>, energy: real)

  datatype Appearance = Appearance(color: string, size: real, shape: Shape, features: seq<string>)

  datatype Entity = Entity(
    id: string,
    name: string,
    donorEmail: string,
    species: string,
    personality: Personality,
    appearance: Appearance,
    position: Position,
    status: Status,
    relationships: seq<string>,
    createdAt: int,
    lastActive: int)

  function EntityId(e: Entity): string { e.id }

  /** `entity.personality.traits.includes(t)` */
  predicate HasTrait(e: Entity, t: string) {
    t in e.personality.traits
  }

  // ---- Resources ----

  datatype ResourceType = Mineral | Food | Water | Energy

  datatype Resource = Resource(
    id: string,
    kind: ResourceType,
    position: Position,
    amount: real,
    maxAmount: real,
    regenerationRate: real,
    lastHarvested: Option<int>,
    harvestedBy: seq<string>)

  /** The resource invariant: 0 <= amount <= maxAmount. */
  predicate Bounded(r: Resource) {
    0.0 <= r.amount <= r.maxAmount
  }

  // ---- Biomes ----

  datatype BiomeType = Forest | Meadow | Rocky | Wetland | Desert

  datatype ElementType = Tree | Rock | Flower | Grass | Water

  datatype BiomeElement = BiomeElement(
    id: string,
    kind: ElementType,
    position: Position,
    size: real,
    health: real,
    variant: int,
    createdAt: int,
    lastModified: int,
    modifiedBy: Option<string>)

  function ElementIdOf(e: BiomeElement): string { e.id }

  datatype BiomeZone = BiomeZone(
    id: string,
    kind: BiomeType,
    center: Position,
    radius: real,
    density: real,
    fertility: real,
    elements: seq<string>,
    influences: seq<string>)

  // ---- Environmental traces ----

  datatype TraceType = Footprint | Path | Nest | Burrow | Territory | Scent

  datatype Trace = Trace(
    id: string,
    kind: TraceType,
    position: Position,
    radius: real,
    intensity: real,
    entityId: string,
    createdAt: int,
    expiresAt: int)
}
