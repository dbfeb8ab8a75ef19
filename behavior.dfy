/** The behaviour engine: personality-weighted choice of an entity's next
    activity, the movement that activity produces on the 1200x800 canvas,
    the relationships it forms, and the per-entity update schedule. */
module Behavior {
  import opened Common
  import opened Types

  /** How far `updateEntityBehavior` looks for neighbours. */
  const NeighbourReach: real := 150.0

  // ---- Behaviour weights ----

  /** The `weights` record of `calculateBehaviorWeights`, one weight per status. */
  datatype Weights = Weights(exploring: int, building: int, socializing: int, resting: int)

  const BaseWeights: Weights := Weights(25, 15, 10, 10)

  /** The i-th status in the order `Object.entries(weights)` visits them:
      exploring, building, socializing, resting. */
  function StatusAt(i: int): Status
    requires 0 <= i < 4
  {
    if i == 0 then Exploring else if i == 1 then Building else if i == 2 then Socializing else Resting
  }

  function Weight(w: Weights, s: Status): int {
    match s
    case Exploring => w.exploring
    case Building => w.building
    case Socializing => w.socializing
    case Resting => w.resting
  }

  predicate NonNegative(w: Weights) {
    w.exploring >= 0 && w.building >= 0 && w.socializing >= 0 && w.resting >= 0
  }

  /** The `switch (trait)` of the trait loop: the adjustment one trait makes. */
  function TraitDelta(w: Weights, name: string): Weights {
    if name == "curious" then w.(exploring := w.exploring + 20)
    else if name == "social" then w.(socializing := w.socializing + 25)
    else if name == "creative" then w.(building := w.building + 20)
    else if name == "energetic" then
      w.(exploring := w.exploring + 15, socializing := w.socializing + 10, resting := w.resting - 5)
    else if name == "calm" then w.(resting := w.resting + 15, building := w.building + 10)
    else if name == "mysterious" then w.(exploring := w.exploring + 10, resting := w.resting + 10)
    else if name == "protective" then w.(building := w.building + 15, socializing := w.socializing + 5)
    else if name == "playful" then w.(socializing := w.socializing + 15, exploring := w.exploring + 10)
    else w
  }

  /** The weights after the trait loop, before the neighbour adjustment. */
  function TraitWeights(traits: seq<string>): Weights {
    if traits == [] then BaseWeights
    else TraitDelta(TraitWeights(traits[..|traits| - 1]), traits[|traits| - 1])
  }

  /** 1 if the trait is `name`, else 0. */
  function Is(t: string, name: string): int { if t == name then 1 else 0 }

  /** How many times `name` occurs in the trait list, counted in the order
      the trait loop visits it. */
  function Count(traits: seq<string>, name: string): nat {
    if traits == [] then 0 else Count(traits[..|traits| - 1], name) + Is(traits[|traits| - 1], name)
  }

  /** The count does not depend on the order of the list: it is the
      multiplicity of `name` in the list's multiset. */
  lemma {:induction false} CountIsMultiplicity(traits: seq<string>, name: string)
    ensures Count(traits, name) == multiset(traits)[name]
  {
    if traits != [] {
      var s := traits[..|traits| - 1];
      var t := traits[|traits| - 1];
      assert traits == s + [t];
      CountIsMultiplicity(s, name);
      assert multiset(traits) == multiset(s) + multiset{t};
    }
  }

  /** The weights w plus the adjustments of the eight known traits, each
      counted the given number of times. */
  function CountedWeights(w: Weights, curious: int, social: int, creative: int, energetic: int,
                          calm: int, mysterious: int, protective: int, playful: int): Weights {
    Weights(
      w.exploring + 20 * curious + 15 * energetic + 10 * mysterious + 10 * playful,
      w.building + 20 * creative + 10 * calm + 15 * protective,
      w.socializing + 25 * social + 10 * energetic + 5 * protective + 15 * playful,
      w.resting - 5 * energetic + 15 * calm + 10 * mysterious)
  }

  /** One trait's adjustment, as the closed form with that trait counted once. */
  lemma TraitDeltaCounted(w: Weights, t: string)
    ensures TraitDelta(w, t) == CountedWeights(w, Is(t, "curious"), Is(t, "social"), Is(t, "creative"),
      Is(t, "energetic"), Is(t, "calm"), Is(t, "mysterious"), Is(t, "protective"), Is(t, "playful"))
  {
  }

  /** The trait weights in closed form: each known trait adds its
      adjustment once per occurrence. */
  lemma {:induction false} TraitWeightsByCount(traits: seq<string>)
    ensures TraitWeights(traits) == CountedWeights(BaseWeights,
      Count(traits, "curious"), Count(traits, "social"), Count(traits, "creative"),
      Count(traits, "energetic"), Count(traits, "calm"), Count(traits, "mysterious"),
      Count(traits, "protective"), Count(traits, "playful"))
  {
    if traits == [] {
      assert CountedWeights(BaseWeights, 0, 0, 0, 0, 0, 0, 0, 0) == BaseWeights;
      assert TraitWeights(traits) == CountedWeights(BaseWeights,
        Count(traits, "curious"), Count(traits, "social"), Count(traits, "creative"),
        Count(traits, "energetic"), Count(traits, "calm"), Count(traits, "mysterious"),
        Count(traits, "protective"), Count(traits, "playful"));
    } else {
      var s := traits[..|traits| - 1];
      var t := traits[|traits| - 1];
      TraitWeightsByCount(s);
      var a, b, c, d := Count(s, "curious"), Count(s, "social"), Count(s, "creative"), Count(s, "energetic");
      var e, f, g, h := Count(s, "calm"), Count(s, "mysterious"), Count(s, "protective"), Count(s, "playful");
      CountedStep(TraitWeights(s), a, b, c, d, e, f, g, h, t);
      assert TraitWeights(traits) == TraitDelta(TraitWeights(s), t);
      assert Count(traits, "curious") == a + Is(t, "curious");
      assert Count(traits, "social") == b + Is(t, "social");
      assert Count(traits, "creative") == c + Is(t, "creative");
      assert Count(traits, "energetic") == d + Is(t, "energetic");
      assert Count(traits, "calm") == e + Is(t, "calm");
      assert Count(traits, "mysterious") == f + Is(t, "mysterious");
      assert Count(traits, "protective") == g + Is(t, "protective");
      assert Count(traits, "playful") == h + Is(t, "playful");
      assert TraitWeights(traits) == CountedWeights(BaseWeights,
        Count(traits, "curious"), Count(traits, "social"), Count(traits, "creative"),
        Count(traits, "energetic"), Count(traits, "calm"), Count(traits, "mysterious"),
        Count(traits, "protective"), Count(traits, "playful"));
    }
  }

  /** The order of the traits does not matter: two lists holding the same
      traits, as many times each, give the same weights. */
  lemma TraitOrderIrrelevant(p: seq<string>, q: seq<string>)
    requires multiset(p) == multiset(q)
    ensures TraitWeights(p) == TraitWeights(q)
  {
    TraitWeightsByCount(p);
    TraitWeightsByCount(q);
    SameCount(p, q, "curious");
    SameCount(p, q, "social");
    SameCount(p, q, "creative");
    SameCount(p, q, "energetic");
    SameCount(p, q, "calm");
    SameCount(p, q, "mysterious");
    SameCount(p, q, "protective");
    SameCount(p, q, "playful");
  }

  lemma SameCount(p: seq<string>, q: seq<string>, name: string)
    requires multiset(p) == multiset(q)
    ensures Count(p, name) == Count(q, name)
  {
    CountIsMultiplicity(p, name);
    CountIsMultiplicity(q, name);
  }

  /** One more trait on top of weights already in closed form. */
  lemma CountedStep(w: Weights, a: int, b: int, c: int, d: int, e: int, f: int, g: int, h: int, t: string)
    requires w == CountedWeights(BaseWeights, a, b, c, d, e, f, g, h)
    ensures TraitDelta(w, t) == CountedWeights(BaseWeights, a + Is(t, "curious"), b + Is(t, "social"),
      c + Is(t, "creative"), d + Is(t, "energetic"), e + Is(t, "calm"), f + Is(t, "mysterious"),
      g + Is(t, "protective"), h + Is(t, "playful"))
  {
    TraitDeltaCounted(w, t);
  }

  /** `calculateBehaviorWeights(traits, nearbyCount)`. */
  function BehaviorWeights(traits: seq<string>, nearbyCount: nat): (w: Weights)
    ensures NonNegative(w)
    ensures w.exploring == Max0(TraitWeights(traits).exploring)
    ensures w.building == Max0(TraitWeights(traits).building)
    ensures w.resting == Max0(TraitWeights(traits).resting)
    ensures nearbyCount > 0 ==> w.socializing == Max0(TraitWeights(traits).socializing + 5 * nearbyCount)
    ensures nearbyCount == 0 ==> w.socializing == Max0(TraitWeights(traits).socializing - 15)
  {
    var t := TraitWeights(traits);
    var social := if nearbyCount > 0 then t.socializing + nearbyCount * 5 else Max0(t.socializing - 15);
    Weights(Max0(t.exploring), Max0(t.building), Max0(social), Max0(t.resting))
  }

  function Max0(n: int): (m: int)
    ensures m >= 0 && m >= n && (n >= 0 ==> m == n)
  {
    if n >= 0 then n else 0
  }

  /** A social entity with two neighbours weighs socializing at 10 + 25 + 2 * 5. */
  lemma SocialWithTwoNeighbours()
    ensures BehaviorWeights(["social"], 2) == Weights(25, 15, 45, 10)
  {
    assert ["social"][..0] == [];
  }

  // ---- Weighted choice ----

  /** The running total of the first k weights in visiting order. */
  function Cumulative(w: Weights, k: int): int
    requires 0 <= k <= 4
  {
    if k == 0 then 0 else Cumulative(w, k - 1) + Weight(w, StatusAt(k - 1))
  }

  /** `Object.values(weights).reduce(...)`. */
  function Total(w: Weights): int { Cumulative(w, 4) }

  lemma {:induction false} CumulativeMonotone(w: Weights, j: int, k: int)
    requires NonNegative(w) && 0 <= j <= k <= 4
    ensures 0 <= Cumulative(w, j) <= Cumulative(w, k)
    decreases k
  {
    if k > j {
      CumulativeMonotone(w, j, k - 1);
    } else if j > 0 {
      CumulativeMonotone(w, 0, j - 1);
    }
  }

  /** The first position, from k on, whose running total reaches v; -1 if none. */
  function SelectFrom(w: Weights, v: real, k: int): (j: int)
    requires 0 <= k <= 4
    ensures j == -1 || k <= j < 4
    ensures j >= 0 ==> v <= Cumulative(w, j + 1) as real
    ensures j >= 0 ==> forall i :: k < i <= j ==> v > Cumulative(w, i) as real
    ensures j == -1 ==> forall i :: k < i <= 4 ==> v > Cumulative(w, i) as real
    decreases 4 - k
  {
    if k == 4 then -1
    else if v <= Cumulative(w, k + 1) as real then k
    else SelectFrom(w, v, k + 1)
  }

  /** The status the scan settles on for the value v, `exploring` if none. */
  function Selected(w: Weights, v: real): Status {
    var j := SelectFrom(w, v, 0);
    if j == -1 then Exploring else StatusAt(j)
  }

  /** `random * totalWeight`: the point of the scale a draw lands on. */
  function Scaled(random: real, total: int): real {
    random * total as real
  }

  /** `random * totalWeight` for a draw never exceeds the total, so the scan
      always stops at some status and the fallback is never reached. */
  lemma DrawAlwaysSelects(w: Weights, random: real)
    requires NonNegative(w) && Unit(random)
    ensures SelectFrom(w, Scaled(random, Total(w)), 0) != -1
  {
    CumulativeMonotone(w, 0, 4);
    var t := Total(w) as real;
    MulNonNeg(1.0 - random, t);
  }

  /** A positive value lands on a status whose weight is positive. */
  lemma {:induction false} SelectedHasWeight(w: Weights, v: real)
    requires NonNegative(w) && 0.0 < v && SelectFrom(w, v, 0) != -1
    ensures Weight(w, Selected(w, v)) > 0
  {
    var j := SelectFrom(w, v, 0);
    if j > 0 {
      assert v > Cumulative(w, j) as real;
    }
  }

  /** A larger value never selects an earlier status in the visiting order. */
  lemma {:induction false} SelectionMonotone(w: Weights, v1: real, v2: real)
    requires NonNegative(w) && v1 <= v2 && SelectFrom(w, v2, 0) != -1
    ensures 0 <= SelectFrom(w, v1, 0) <= SelectFrom(w, v2, 0)
  {
    var j2 := SelectFrom(w, v2, 0);
    assert v1 <= Cumulative(w, j2 + 1) as real;
  }

  /** The outcome of `determineBehavior`. */
  datatype Decision = Decision(status: Status, newRelationships: Option<seq<string>>)

  /** Socializing near others befriends the first one or two of them. */
  function NewRelationships(status: Status, nearby: seq<Entity>): (r: Option<seq<string>>)
    ensures r.Some? <==> status == Socializing && |nearby| > 0
    ensures r.Some? ==> |r.value| == if |nearby| >= 2 then 2 else 1
    ensures r.Some? ==> forall i :: 0 <= i < |r.value| ==> r.value[i] == nearby[i].id
  {
    if status == Socializing && |nearby| > 0 then
      Some(KeysOf(EntityId, nearby[..if |nearby| >= 2 then 2 else |nearby|]))
    else None
  }

  /** `determineBehavior(entity, nearby)` for the draw `random`. */
  function Decide(entity: Entity, nearby: seq<Entity>, random: real): Decision {
    var w := BehaviorWeights(entity.personality.traits, |nearby|);
    var status := Selected(w, Scaled(random, Total(w)));
    Decision(status, NewRelationships(status, nearby))
  }

  // ---- Neighbours ----

  /** `findNearbyEntities(entity, all, radius)`. */
  function NearbyEntities(entity: Entity, all: seq<Entity>, radius: real): (r: seq<Entity>)
    ensures |r| <= |all|
    ensures forall x :: x in r <==>
      x in all && x.id != entity.id && WithinDistance(x.position, entity.position, radius)
  {
    var others := Filter((x: Entity) => x.id != entity.id, all);
    FilterIn((x: Entity) => x.id != entity.id, all);
    FilterIn((x: Entity) => WithinDistance(x.position, entity.position, radius), others);
    Filter((x: Entity) => WithinDistance(x.position, entity.position, radius), others)
  }

  // ---- Movement ----

  /** The canvas area entities are kept in. */
  predicate InCanvas(p: Position) {
    50.0 <= p.x <= 1150.0 && 50.0 <= p.y <= 750.0
  }

  function KeepInCanvas(p: Position): (q: Position)
    ensures InCanvas(q)
    ensures InCanvas(p) ==> q == p
  {
    Position(Clamp(p.x, 50.0, 1150.0), Clamp(p.y, 50.0, 750.0))
  }

  /** Pixels per update: at most 2, for the most energetic entity. */
  function Speed(energy: real): real { energy / 100.0 * 2.0 }

  function Abs(x: real): real { if x >= 0.0 then x else -x }

  /** The `Math.random()` draws of `calculateMovement`: the direction of an
      exploring step (its cosine and sine) and the two drifts of a rest. */
  datatype MoveDraws = MoveDraws(cosAngle: real, sinAngle: real, driftX: real, driftY: real)

  /** The search distances of `findBuildingSpot`: 100, 150 and 200. */
  function SpotDistance(di: int): real
    requires 0 <= di < 3
  {
    if di == 0 then 100.0 else if di == 1 then 150.0 else 200.0
  }

  /** cos and sin of the angles 0, pi/2, pi and 3pi/2, exactly. */
  function CardinalCos(ai: int): real
    requires 0 <= ai < 4
  {
    if ai == 0 then 1.0 else if ai == 2 then -1.0 else 0.0
  }

  function CardinalSin(ai: int): real
    requires 0 <= ai < 4
  {
    if ai == 1 then 1.0 else if ai == 3 then -1.0 else 0.0
  }

  /** The spot tried at distance di in direction ai. */
  function SpotCandidate(p: Position, di: int, ai: int): Position
    requires 0 <= di < 3 && 0 <= ai < 4
  {
    Position(p.x + CardinalCos(ai) * SpotDistance(di), p.y + CardinalSin(ai) * SpotDistance(di))
  }

  /** The candidate as the search loop computes it. */
  lemma CandidateAt(p: Position, di: int, ai: int, distance: real)
    requires 0 <= di < 3 && 0 <= ai < 4 && distance == SpotDistance(di)
    ensures SpotCandidate(p, di, ai) == Position(p.x + CardinalCos(ai) * distance, p.y + CardinalSin(ai) * distance)
  {
    if di == 0 {
      assert distance == 100.0;
    } else if di == 1 {
      assert distance == 150.0;
    } else {
      assert distance == 200.0;
    }
  }

  /** Which candidate the search settles on. */
  datatype Probe = Probe(di: int, ai: int)

  /** (d, a) is tried before (d', a'): distances outer, directions inner. */
  predicate TriedBefore(d: int, a: int, d': int, a': int) {
    d < d' || (d == d' && a < a')
  }

  /** The first candidate inside the canvas, from distance di and direction ai on. */
  function FirstSpotFrom(p: Position, di: int, ai: int): (r: Option<Probe>)
    requires 0 <= di <= 3 && 0 <= ai <= 4
    ensures r.Some? ==>
      && 0 <= r.value.di < 3 && 0 <= r.value.ai < 4
      && InCanvas(SpotCandidate(p, r.value.di, r.value.ai))
      && !TriedBefore(r.value.di, r.value.ai, di, ai)
    ensures forall d, a ::
      (0 <= d < 3 && 0 <= a < 4 && !TriedBefore(d, a, di, ai)
       && (r.Some? ==> TriedBefore(d, a, r.value.di, r.value.ai))) ==> !InCanvas(SpotCandidate(p, d, a))
    decreases 3 - di, 4 - ai
  {
    if di == 3 then None
    else if ai == 4 then FirstSpotFrom(p, di + 1, 0)
    else if InCanvas(SpotCandidate(p, di, ai)) then Some(Probe(di, ai))
    else FirstSpotFrom(p, di, ai + 1)
  }

  /** `findBuildingSpot(p)`: the first candidate inside the canvas, if any. */
  function BuildingSpot(p: Position): (r: Option<Position>)
    ensures r.None? <==> forall d, a :: 0 <= d < 3 && 0 <= a < 4 ==> !InCanvas(SpotCandidate(p, d, a))
    ensures r.Some? ==> InCanvas(r.value)
  {
    match FirstSpotFrom(p, 0, 0)
    case None => None
    case Some(probe) => Some(SpotCandidate(p, probe.di, probe.ai))
  }

  /** From anywhere on the canvas a spot is found 100 pixels away. */
  lemma BuildingSpotOnCanvas(p: Position)
    requires InCanvas(p)
    ensures FirstSpotFrom(p, 0, 0).Some? && FirstSpotFrom(p, 0, 0).value.di == 0
    ensures IsDistance(100.0, BuildingSpot(p).value, p)
  {
    if p.x <= 1050.0 {
      assert InCanvas(SpotCandidate(p, 0, 0));
    } else {
      assert InCanvas(SpotCandidate(p, 0, 2));
    }
    var probe := FirstSpotFrom(p, 0, 0).value;
    SpotOffset(p, probe.di, probe.ai);
  }

  /** Every candidate lies along an axis at its search distance, so |dx| + |dy|
      is its Euclidean distance and the offset over it is the unit step
      (cos, sin) of its direction. */
  lemma SpotOffset(p: Position, di: int, ai: int)
    requires 0 <= di < 3 && 0 <= ai < 4
    ensures var q := SpotCandidate(p, di, ai);
      var dx, dy := q.x - p.x, q.y - p.y;
      var d := Abs(dx) + Abs(dy);
      && d == SpotDistance(di) && IsDistance(d, q, p)
      && dx / d == CardinalCos(ai) && dy / d == CardinalSin(ai)
  {
    if di == 0 {
      AxisOffset(p, ai, 100.0);
    } else if di == 1 {
      AxisOffset(p, ai, 150.0);
    } else {
      AxisOffset(p, ai, 200.0);
    }
  }

  lemma AxisOffset(p: Position, ai: int, D: real)
    requires 0 <= ai < 4 && (D == 100.0 || D == 150.0 || D == 200.0)
    ensures var q := Position(p.x + CardinalCos(ai) * D, p.y + CardinalSin(ai) * D);
      var dx, dy := q.x - p.x, q.y - p.y;
      var d := Abs(dx) + Abs(dy);
      && d == D && IsDistance(d, q, p)
      && dx / d == CardinalCos(ai) && dy / d == CardinalSin(ai)
  {
    var q := Position(p.x + CardinalCos(ai) * D, p.y + CardinalSin(ai) * D);
    assert D / D == 1.0 && (-D) / D == -1.0 by {
      if D == 100.0 {} else if D == 150.0 {} else {}
    }
    if ai == 0 || ai == 2 {
      assert q.y - p.y == 0.0;
      assert DistSq(q, p) == D * D;
    } else {
      assert q.x - p.x == 0.0;
      assert DistSq(q, p) == D * D;
    }
  }

  /** The caller's `distance` is the distance to the first neighbour, when there is one. */
  predicate NeighbourDistance(nearby: seq<Entity>, position: Position, distance: real) {
    |nearby| > 0 ==> IsDistance(distance, nearby[0].position, position)
  }

  /** An exploring step: `speed * 20` in the drawn direction. */
  function ExploreTarget(p: Position, speed: real, draws: MoveDraws): (t: Position)
    ensures draws.cosAngle * draws.cosAngle + draws.sinAngle * draws.sinAngle == 1.0 ==>
      DistSq(t, p) == (speed * 20.0) * (speed * 20.0)
  {
    var t := Position(p.x + draws.cosAngle * speed * 20.0, p.y + draws.sinAngle * speed * 20.0);
    assert DistSq(t, p) == (draws.cosAngle * draws.cosAngle + draws.sinAngle * draws.sinAngle)
      * ((speed * 20.0) * (speed * 20.0));
    t
  }

  /** A socializing step: `speed * 10` towards the first neighbour, unless it
      is within 50 already. */
  function SocialTarget(p: Position, speed: real, nearby: seq<Entity>, distance: real): (t: Position)
    ensures !(|nearby| > 0 && distance > 50.0) ==> t == p
  {
    if |nearby| > 0 && distance > 50.0 then
      var dx := nearby[0].position.x - p.x;
      var dy := nearby[0].position.y - p.y;
      Position(p.x + dx / distance * speed * 10.0, p.y + dy / distance * speed * 10.0)
    else p
  }

  /** One axis step of length k in cardinal direction ai. */
  function AxisStep(p: Position, ai: int, k: real): Position
    requires 0 <= ai < 4
  {
    Position(p.x + CardinalCos(ai) * k, p.y + CardinalSin(ai) * k)
  }

  /** A building step: `speed * 15` along the axis towards the building spot. */
  function BuildTarget(p: Position, speed: real): (t: Position)
    ensures FirstSpotFrom(p, 0, 0).None? ==> t == p
    ensures FirstSpotFrom(p, 0, 0).Some? ==> t == AxisStep(p, FirstSpotFrom(p, 0, 0).value.ai, speed * 15.0)
  {
    match FirstSpotFrom(p, 0, 0)
    case None => p
    case Some(probe) =>
      BuildStep(p, probe.di, probe.ai, speed);
      StepTowards(p, SpotCandidate(p, probe.di, probe.ai), speed)
  }

  /** The source's step towards a spot: `speed * 15` along the unit vector to
      it, taken only when the spot is more than 30 away. */
  function StepTowards(p: Position, spot: Position, speed: real): Position {
    var dx := spot.x - p.x;
    var dy := spot.y - p.y;
    var d := Abs(dx) + Abs(dy);
    if d > 30.0 then Position(p.x + dx / d * speed * 15.0, p.y + dy / d * speed * 15.0) else p
  }

  lemma BuildStep(p: Position, di: int, ai: int, speed: real)
    requires 0 <= di < 3 && 0 <= ai < 4
    ensures StepTowards(p, SpotCandidate(p, di, ai), speed) == AxisStep(p, ai, speed * 15.0)
  {
    SpotOffset(p, di, ai);
    var q := SpotCandidate(p, di, ai);
    var dx, dy := q.x - p.x, q.y - p.y;
    var d := Abs(dx) + Abs(dy);
    if ai == 0 {
      assert dx / d == 1.0 && dy / d == 0.0;
    } else if ai == 1 {
      assert dx / d == 0.0 && dy / d == 1.0;
    } else if ai == 2 {
      assert dx / d == -1.0 && dy / d == 0.0;
    } else {
      assert dx / d == 0.0 && dy / d == -1.0;
    }
  }

  /** A resting drift: at most `speed * 2.5` along each axis. */
  function RestTarget(p: Position, speed: real, draws: MoveDraws): (t: Position)
    ensures Unit(draws.driftX) ==> Abs(t.x - p.x) <= Abs(speed) * 2.5
    ensures Unit(draws.driftY) ==> Abs(t.y - p.y) <= Abs(speed) * 2.5
  {
    var t := Position(p.x + (draws.driftX - 0.5) * speed * 5.0, p.y + (draws.driftY - 0.5) * speed * 5.0);
    assert Unit(draws.driftX) ==> Abs(t.x - p.x) <= Abs(speed) * 2.5 by {
      if Unit(draws.driftX) { DriftBound(draws.driftX, speed); }
    }
    assert Unit(draws.driftY) ==> Abs(t.y - p.y) <= Abs(speed) * 2.5 by {
      if Unit(draws.driftY) { DriftBound(draws.driftY, speed); }
    }
    t
  }

  lemma DriftBound(r: real, speed: real)
    requires Unit(r)
    ensures Abs((r - 0.5) * speed * 5.0) <= Abs(speed) * 2.5
  {
    var a := r - 0.5;
    var s := Abs(speed);
    MulNonNeg(0.5 - a, s);
    MulNonNeg(a + 0.5, s);
    assert Abs(a * speed) == Abs(a) * s;
  }

  /** Where `calculateMovement` heads before the canvas clamp. */
  function Target(status: Status, position: Position, energy: real, nearby: seq<Entity>,
                  distance: real, draws: MoveDraws): Position
  {
    match status
    case Exploring => ExploreTarget(position, Speed(energy), draws)
    case Socializing => SocialTarget(position, Speed(energy), nearby, distance)
    case Building => BuildTarget(position, Speed(energy))
    case Resting => RestTarget(position, Speed(energy), draws)
  }

  /** `calculateMovement`: the step for the entity's status, kept on the canvas. */
  function Movement(status: Status, position: Position, energy: real, nearby: seq<Entity>,
                    distance: real, draws: MoveDraws): (p: Position)
    ensures InCanvas(p)
    ensures var t := Target(status, position, energy, nearby, distance, draws);
      InCanvas(t) ==> p == t
    ensures p.x == Clamp(Target(status, position, energy, nearby, distance, draws).x, 50.0, 1150.0)
    ensures p.y == Clamp(Target(status, position, energy, nearby, distance, draws).y, 50.0, 750.0)
  {
    KeepInCanvas(Target(status, position, energy, nearby, distance, draws))
  }

  // ---- One behaviour update ----

  /** `updateEntityBehavior` adds the new relationships only when removing
      duplicates from old and new together changes the count. */
  predicate RelationshipsGrow(entity: Entity, decision: Decision) {
    decision.newRelationships.Some? && |decision.newRelationships.value| > 0 &&
    |Dedup(entity.relationships + decision.newRelationships.value)| != |entity.relationships|
  }

  /** `updateEntityBehavior(entity, all)` for the given draws, neighbour
      distance and clock reading: the changed entity, or None. */
  function UpdatedEntity(entity: Entity, all: seq<Entity>, random: real, draws: MoveDraws,
                         distance: real, now: int): (r: Option<Entity>)
    requires NeighbourDistance(NearbyEntities(entity, all, NeighbourReach), entity.position, distance)
    ensures var nearby := NearbyEntities(entity, all, NeighbourReach);
      var decision := Decide(entity, nearby, random);
      var moved := Movement(decision.status, entity.position, entity.personality.energy,
                            nearby, distance, draws);
      && (r.None? <==> decision.status == entity.status && moved == entity.position
                       && !RelationshipsGrow(entity, decision))
      && (r.Some? ==> r.value.status == decision.status && r.value.position == moved
                      && InCanvas(r.value.position) && r.value.lastActive == now)
      && (r.Some? ==> r.value.(status := entity.status, position := entity.position,
                               relationships := entity.relationships, lastActive := entity.lastActive) == entity)
      && (r.Some? && !RelationshipsGrow(entity, decision) ==> r.value.relationships == entity.relationships)
      && (r.Some? && RelationshipsGrow(entity, decision) ==>
            NoDup(r.value.relationships) &&
            forall x :: x in r.value.relationships <==>
              x in entity.relationships || x in decision.newRelationships.value)
  {
    var nearby := NearbyEntities(entity, all, NeighbourReach);
    var decision := Decide(entity, nearby, random);
    var moved := Movement(decision.status, entity.position, entity.personality.energy,
                          nearby, distance, draws);
    var grow := RelationshipsGrow(entity, decision);
    if decision.status == entity.status && moved == entity.position && !grow then None
    else
      var relationships :=
        if grow then Dedup(entity.relationships + decision.newRelationships.value) else entity.relationships;
      Some(entity.(status := decision.status, position := moved, relationships := relationships, lastActive := now))
  }

  /** For a list of relationships without repetitions, the count test is
      exactly "some new id is not yet a relationship". */
  lemma RelationshipsGrowIff(entity: Entity, decision: Decision)
    requires NoDup(entity.relationships)
    requires decision.newRelationships.Some? && |decision.newRelationships.value| > 0
    ensures RelationshipsGrow(entity, decision) <==>
      exists x :: x in decision.newRelationships.value && x !in entity.relationships
  {
    var old_ := entity.relationships;
    var all := old_ + decision.newRelationships.value;
    var a := set x | x in old_;
    var b := set x | x in all;
    DedupSize(all);
    DedupSize(old_);
    DedupOfNoDup(old_);
    assert a <= b;
    if x :| x in decision.newRelationships.value && x !in old_ {
      assert x in b - a;
      assert b == a + (b - a);
      assert |b| == |a| + |b - a|;
    } else {
      assert b == a;
    }
  }

  /** With a repeated old relationship the count test misses a new one:
      [a, a] plus [b] deduplicates to two ids, as many as before. */
  lemma RepeatedRelationshipHidesNewOne()
    ensures |Dedup(["a", "a"] + ["b"])| == |["a", "a"]|
    ensures "b" !in ["a", "a"]
  {
    var s := ["a", "a"] + ["b"];
    assert s[..2] == ["a", "a"];
    assert s[..2][..1] == ["a"];
    assert ["a"][..0] == [];
  }

  // ---- Update schedule ----

  /** The update period, in ms, of an entity with this energy: more energetic
      entities update more often. */
  function BehaviorInterval(energy: real): (ms: real)
    ensures 0.0 <= energy <= 100.0 ==> 3000.0 <= ms <= 6000.0
    ensures ms == 6000.0 - 30.0 * energy
  {
    3000.0 + 3000.0 * ((100.0 - energy) / 100.0)
  }

  /** The schedule after `startEntityBehavior` for each entity of s in turn. */
  function Scheduled(m: map<string, real>, s: seq<Entity>): (r: map<string, real>)
    ensures r.Keys == m.Keys + set e | e in s :: e.id
  {
    if s == [] then m
    else
      var e := s[|s| - 1];
      var s' := s[..|s| - 1];
      var r := Scheduled(m, s');
      assert s == s' + [e];
      r[e.id := BehaviorInterval(e.personality.energy)]
  }

  /** An id that no entity of s has keeps its old period. */
  lemma {:induction false} ScheduledUntouched(m: map<string, real>, s: seq<Entity>, k: string)
    requires k in m && forall i :: 0 <= i < |s| ==> s[i].id != k
    ensures Scheduled(m, s)[k] == m[k]
  {
    if s != [] {
      ScheduledUntouched(m, s[..|s| - 1], k);
    }
  }

  /** An id is scheduled with the period of the last entity in s that has it. */
  lemma {:induction false} ScheduledLast(m: map<string, real>, s: seq<Entity>, i: int)
    requires 0 <= i < |s| && forall j :: i < j < |s| ==> s[j].id != s[i].id
    ensures Scheduled(m, s)[s[i].id] == BehaviorInterval(s[i].personality.energy)
  {
    if i < |s| - 1 {
      var s' := s[..|s| - 1];
      ScheduledLast(m, s', i);
    }
  }

  class BehaviorEngine {
    /** The source's `entityUpdateIntervals` Map: for each scheduled entity id,
        the period of its update timer (the timer handle itself is not modelled). */
    var intervals: map<string, real>

    constructor ()
      ensures intervals == map[]
    {
      intervals := map[];
    }

    /** `startEntityBehavior`: (re)schedules the entity at its energy's period. */
    method StartEntityBehavior(entity: Entity)
      modifies this
      ensures intervals == old(intervals)[entity.id := BehaviorInterval(entity.personality.energy)]
    {
      var baseInterval := 3000.0;
      var energyMultiplier := (100.0 - entity.personality.energy) / 100.0;
      var interval := baseInterval + baseInterval * energyMultiplier;
      intervals := intervals[entity.id := interval];
    }

    /** `startBehaviorSystem`: schedules every entity of the list. */
    method StartBehaviorSystem(entities: seq<Entity>)
      modifies this
      ensures intervals == Scheduled(old(intervals), entities)
      ensures intervals.Keys == old(intervals).Keys + set e | e in entities :: e.id
    {
      for i := 0 to |entities|
        invariant intervals == Scheduled(old(intervals), entities[..i])
      {
        assert entities[..i + 1][..i] == entities[..i];
        StartEntityBehavior(entities[i]);
      }
      assert entities[..|entities|] == entities;
    }

    /** `stopBehaviorSystem`: cancels every timer. */
    method StopBehaviorSystem()
      modifies this
      ensures intervals == map[]
    {
      intervals := map[];
    }

    /** `updateEntityBehaviorSystem`: restarts one entity's timer. */
    method UpdateEntityBehaviorSystem(entity: Entity)
      modifies this
      ensures intervals == old(intervals)[entity.id := BehaviorInterval(entity.personality.energy)]
    {
      StartEntityBehavior(entity);
    }

    /** `removeEntityFromSystem`: cancels one entity's timer, if it has one. */
    method RemoveEntityFromSystem(entityId: string)
      modifies this
      ensures intervals == old(intervals) - {entityId}
      ensures entityId !in old(intervals) ==> intervals == old(intervals)
    {
      if entityId in intervals {
        intervals := intervals - {entityId};
      }
    }

    /** `calculateBehaviorWeights`: the trait loop over a local record. */
    method CalculateBehaviorWeights(traits: seq<string>, nearbyCount: nat) returns (weights: Weights)
      ensures weights == BehaviorWeights(traits, nearbyCount)
      ensures NonNegative(weights)
    {
      weights := BaseWeights;
      for i := 0 to |traits|
        invariant weights == TraitWeights(traits[..i])
      {
        assert traits[..i + 1][..i] == traits[..i];
        var name := traits[i];
        if name == "curious" {
          weights := weights.(exploring := weights.exploring + 20);
        } else if name == "social" {
          weights := weights.(socializing := weights.socializing + 25);
        } else if name == "creative" {
          weights := weights.(building := weights.building + 20);
        } else if name == "energetic" {
          weights := weights.(exploring := weights.exploring + 15);
          weights := weights.(socializing := weights.socializing + 10);
          weights := weights.(resting := weights.resting - 5);
        } else if name == "calm" {
          weights := weights.(resting := weights.resting + 15);
          weights := weights.(building := weights.building + 10);
        } else if name == "mysterious" {
          weights := weights.(exploring := weights.exploring + 10);
          weights := weights.(resting := weights.resting + 10);
        } else if name == "protective" {
          weights := weights.(building := weights.building + 15);
          weights := weights.(socializing := weights.socializing + 5);
        } else if name == "playful" {
          weights := weights.(socializing := weights.socializing + 15);
          weights := weights.(exploring := weights.exploring + 10);
        }
      }
      assert traits[..|traits|] == traits;
      if nearbyCount > 0 {
        weights := weights.(socializing := weights.socializing + nearbyCount * 5);
      } else {
        weights := weights.(socializing := Max0(weights.socializing - 15));
      }
      weights := Weights(Max0(weights.exploring), Max0(weights.building),
                         Max0(weights.socializing), Max0(weights.resting));
    }

    /** `determineBehavior`: the cumulative-weight scan for the draw `random`. */
    method DetermineBehavior(entity: Entity, nearby: seq<Entity>, random: real) returns (decision: Decision)
      ensures decision == Decide(entity, nearby, random)
    {
      var weights := CalculateBehaviorWeights(entity.personality.traits, |nearby|);
      var cumulativeWeight := 0;
      var totalWeight := Total(weights);
      var randomValue := Scaled(random, totalWeight);
      for i := 0 to 4
        invariant cumulativeWeight == Cumulative(weights, i)
        invariant SelectFrom(weights, randomValue, 0) == SelectFrom(weights, randomValue, i)
      {
        var behavior := StatusAt(i);
        cumulativeWeight := cumulativeWeight + Weight(weights, behavior);
        if randomValue <= cumulativeWeight as real {
          return Decision(behavior, NewRelationships(behavior, nearby));
        }
      }
      return Decision(Exploring, None);
    }

    /** `findBuildingSpot`: distances in the outer loop, directions in the inner. */
    method FindBuildingSpot(position: Position) returns (spot: Option<Position>)
      ensures spot == BuildingSpot(position)
    {
      for di := 0 to 3
        invariant FirstSpotFrom(position, 0, 0) == FirstSpotFrom(position, di, 0)
      {
        var distance := SpotDistance(di);
        for ai := 0 to 4
          invariant FirstSpotFrom(position, 0, 0) == FirstSpotFrom(position, di, ai)
        {
          var spotX := position.x + CardinalCos(ai) * distance;
          var spotY := position.y + CardinalSin(ai) * distance;
          CandidateAt(position, di, ai, distance);
          if spotX >= 50.0 && spotX <= 1150.0 && spotY >= 50.0 && spotY <= 750.0 {
            return Some(Position(spotX, spotY));
          }
        }
      }
      return None;
    }

    /** `updateEntityBehavior`: decides, moves and befriends; None when nothing changed. */
    method UpdateEntityBehavior(entity: Entity, allEntities: seq<Entity>, random: real, draws: MoveDraws,
                                distance: real, now: int) returns (r: Option<Entity>)
      requires NeighbourDistance(NearbyEntities(entity, allEntities, NeighbourReach), entity.position, distance)
      ensures r == UpdatedEntity(entity, allEntities, random, draws, distance, now)
    {
      var nearbyEntities := NearbyEntities(entity, allEntities, NeighbourReach);
      var newBehavior := DetermineBehavior(entity, nearbyEntities, random);
      var updatedEntity := entity;
      var hasChanged := false;
      if newBehavior.status != entity.status {
        updatedEntity := updatedEntity.(status := newBehavior.status);
        hasChanged := true;
      }
      var newPosition := Movement(updatedEntity.status, updatedEntity.position,
                                  updatedEntity.personality.energy, nearbyEntities, distance, draws);
      if newPosition.x != entity.position.x || newPosition.y != entity.position.y {
        updatedEntity := updatedEntity.(position := newPosition);
        hasChanged := true;
      }
      if newBehavior.newRelationships.Some? && |newBehavior.newRelationships.value| > 0 {
        var uniqueRelationships := Dedup(entity.relationships + newBehavior.newRelationships.value);
        if |uniqueRelationships| != |entity.relationships| {
          updatedEntity := updatedEntity.(relationships := uniqueRelationships);
          hasChanged := true;
        }
      }
      if hasChanged {
        updatedEntity := updatedEntity.(lastActive := now);
        return Some(updatedEntity);
      }
      return None;
    }
  }
}
