/** The environmental trace system (src/lib/environmental-traces.ts): marks
    that entities leave on the map (footprints, paths, nests, burrows,
    territories, scents), each with a per-type radius, intensity, lifespan
    and fade rate, a capacity of 500 that evicts the oldest traces, in-place
    reinforcement of paths and territories, and a decay pass.

    The source's `traces` Map is modelled by its entry list in insertion
    order, keyed by trace id. */
module Traces {
  import opened Common
  import opened Types

  /** `maxTraces` */
  const MaxTraces: nat := 500

  function TraceId(t: Trace): string { t.id }

  predicate UniqueIds(s: seq<Trace>) {
    UniqueKeys(TraceId, s)
  }

  /** `Map.set(t.id, t)` on the entry list. */
  function Put(s: seq<Trace>, t: Trace): (s': seq<Trace>)
    requires UniqueIds(s)
    ensures UniqueIds(s')
    ensures IndexOfKey(TraceId, s, t.id) == -1 ==> s' == s + [t]
    ensures IndexOfKey(TraceId, s, t.id) != -1 ==> s' == s[IndexOfKey(TraceId, s, t.id) := t]
    ensures |s| <= |s'| <= |s| + 1
    ensures t in s' && forall x :: x in s' ==> x == t || x in s
    ensures forall x :: x in s' && x.id == t.id ==> x == t
  {
    MapSet(TraceId, s, t)
  }

  // ---- Per-type constants ----

  function TraceRadius(kind: TraceType): real {
    match kind
    case Footprint => 8.0
    case Path => 12.0
    case Nest => 25.0
    case Burrow => 20.0
    case Territory => 40.0
    case Scent => 30.0
  }

  function BaseIntensity(kind: TraceType): real {
    match kind
    case Footprint => 30.0
    case Path => 50.0
    case Nest => 80.0
    case Burrow => 85.0
    case Territory => 60.0
    case Scent => 40.0
  }

  function LifespanMinutes(kind: TraceType): nat {
    match kind
    case Footprint => 30
    case Path => 120
    case Nest => 1440
    case Burrow => 2880
    case Territory => 720
    case Scent => 60
  }

  /** Intensity lost per minute of age. */
  function FadeRate(kind: TraceType): real {
    match kind
    case Footprint => 1.0
    case Path => 0.3
    case Nest => 0.1
    case Burrow => 0.1
    case Territory => 0.5
    case Scent => 0.8
  }

  /** The personality multiplier is additive: 1, +0.3 if energetic, -0.2 if calm. */
  function IntensityMultiplier(traits: seq<string>): (m: real)
    ensures 0.8 <= m <= 1.3
    ensures "energetic" in traits && "calm" in traits ==> m == 1.1
  {
    1.0 + (if "energetic" in traits then 0.3 else 0.0) - (if "calm" in traits then 0.2 else 0.0)
  }

  /** `getInitialIntensity` */
  function InitialIntensity(kind: TraceType, traits: seq<string>): (i: real)
    ensures 24.0 <= i <= 100.0
    ensures i <= BaseIntensity(kind) * 1.3
    ensures "energetic" !in traits && "calm" !in traits ==> i == BaseIntensity(kind)
  {
    Min(100.0, BaseIntensity(kind) * IntensityMultiplier(traits))
  }

  /** The trace `createTrace` builds at clock reading `now` (milliseconds). */
  function NewTrace(kind: TraceType, position: Position, entity: Entity, now: nat): (t: Trace)
    ensures t.id == "trace_" + NatToString(now) + "_" + entity.id
    ensures t.kind == kind && t.position == position && t.entityId == entity.id
    ensures t.radius == TraceRadius(kind)
    ensures t.intensity == InitialIntensity(kind, entity.personality.traits)
    ensures t.createdAt == now && t.expiresAt == now + LifespanMinutes(kind) * 60000
    ensures t.createdAt < t.expiresAt
  {
    Trace(
      "trace_" + NatToString(now) + "_" + entity.id,
      kind, position, TraceRadius(kind),
      InitialIntensity(kind, entity.personality.traits),
      entity.id, now, now + LifespanMinutes(kind) * 60000)
  }

  // ---- Capacity ----

  /** The leftmost trace with the smallest creation time: the first entry a
      stable sort by `createdAt` puts in front. */
  function OldestIndex(s: seq<Trace>): (j: int)
    requires |s| > 0
    ensures 0 <= j < |s|
    ensures forall k :: 0 <= k < |s| ==> s[j].createdAt <= s[k].createdAt
    ensures forall k :: 0 <= k < j ==> s[j].createdAt < s[k].createdAt
  {
    if |s| == 1 then 0
    else
      var j := OldestIndex(s[..|s| - 1]);
      if s[|s| - 1].createdAt < s[j].createdAt then |s| - 1 else j
  }

  /** `cleanupExpiredTraces`: above the capacity, the oldest entries are
      deleted until 500 remain. */
  function Evicted(s: seq<Trace>): (r: seq<Trace>)
    ensures |r| == if |s| <= MaxTraces then |s| else MaxTraces
    ensures forall x :: x in r ==> x in s
    ensures |s| <= MaxTraces ==> r == s
    decreases |s|
  {
    if |s| <= MaxTraces then s
    else
      var s' := RemoveAt(s, OldestIndex(s));
      var r := Evicted(s');
      assert forall x :: x in s' ==> x in s;
      r
  }

  /** Eviction removes only traces no younger than every trace it keeps. */
  lemma {:induction false} EvictedOldestFirst(s: seq<Trace>)
    ensures forall x, y :: x in s && x !in Evicted(s) && y in Evicted(s) ==> x.createdAt <= y.createdAt
    decreases |s|
  {
    if |s| > MaxTraces {
      var j := OldestIndex(s);
      var s' := RemoveAt(s, j);
      EvictedOldestFirst(s');
      RemoveAtMembers(s, j);
      assert Evicted(s) == Evicted(s');
      forall x, y | x in s && x !in Evicted(s) && y in Evicted(s)
        ensures x.createdAt <= y.createdAt
      {
        if x == s[j] {
          assert y in s;
        } else {
          assert x in s';
        }
      }
    }
  }

  /** Eviction keeps the trace ids unique. */
  lemma {:induction false} EvictedUnique(s: seq<Trace>)
    requires UniqueIds(s)
    ensures UniqueIds(Evicted(s))
    decreases |s|
  {
    if |s| > MaxTraces {
      RemoveAtUnique(TraceId, s, OldestIndex(s));
      EvictedUnique(RemoveAt(s, OldestIndex(s)));
    }
  }

  /** The entries after `createTrace` has stored t and evicted. */
  function AfterCreate(s: seq<Trace>, t: Trace): (r: seq<Trace>)
    requires UniqueIds(s)
    ensures UniqueIds(r) && |r| <= MaxTraces
    ensures forall x :: x in r ==> x == t || x in s
  {
    EvictedUnique(Put(s, t));
    Evicted(Put(s, t))
  }

  /** With a clock that does not run backwards, the trace just created is
      never the one evicted. */
  lemma NewestSurvives(s: seq<Trace>, t: Trace)
    requires UniqueIds(s) && |s| <= MaxTraces
    requires forall k :: 0 <= k < |s| ==> s[k].createdAt <= t.createdAt
    ensures t in AfterCreate(s, t)
  {
    var p := Put(s, t);
    if |p| > MaxTraces {
      assert p == s + [t];
      var j := OldestIndex(p);
      assert p[0].createdAt <= t.createdAt;
      assert j < |s|;
      var p' := RemoveAt(p, j);
      assert p'[|p'| - 1] == t;
      assert Evicted(p) == Evicted(p');
    }
  }

  // ---- Decay ----

  function AgeMinutes(t: Trace, now: int): real {
    (now - t.createdAt) as real / 60000.0
  }

  /** The intensity a trace of this age has lost: age in minutes x fade rate. */
  function Fade(t: Trace, now: int): (f: real)
    ensures t.createdAt <= now ==> 0.0 <= f
  {
    AgeMinutes(t, now) * FadeRate(t.kind)
  }

  /** One trace after the decay pass of `updateTraces`: gone once expired or
      faded to 5 or less, otherwise with its intensity reduced by age x fade rate. */
  function Decayed(t: Trace, now: int): (r: Option<Trace>)
    ensures r.None? <==> t.expiresAt <= now || t.intensity - Fade(t, now) <= 5.0
    ensures r.Some? ==>
      && r.value == t.(intensity := r.value.intensity)
      && r.value.intensity == t.intensity - Fade(t, now)
      && r.value.intensity > 5.0 && now < r.value.expiresAt
    ensures r.Some? && t.createdAt <= now ==> r.value.intensity <= t.intensity
  {
    if t.expiresAt <= now then None
    else
      var newIntensity := Max(0.0, t.intensity - Fade(t, now));
      if newIntensity <= 5.0 then None else Some(t.(intensity := newIntensity))
  }

  /** The entries the decay pass keeps, updated, in Map order; `updateTraces`
      returns the same list. */
  function DecayAll(s: seq<Trace>, now: int): (r: seq<Trace>)
    ensures |r| <= |s|
  {
    if s == [] then []
    else
      var r' := DecayAll(s[..|s| - 1], now);
      match Decayed(s[|s| - 1], now)
      case None => r'
      case Some(t') => r' + [t']
  }

  /** The decay pass keeps exactly the traces that survive it, each decayed,
      all above intensity 5 and unexpired. */
  lemma {:induction false} DecayAllContents(s: seq<Trace>, now: int)
    ensures var r := DecayAll(s, now);
      && (forall k :: 0 <= k < |r| ==> r[k].intensity > 5.0 && now < r[k].expiresAt)
      && (forall k :: 0 <= k < |r| ==> exists j :: 0 <= j < |s| && Decayed(s[j], now) == Some(r[k]))
      && (forall j :: 0 <= j < |s| && Decayed(s[j], now).Some? ==> Decayed(s[j], now).value in r)
  {
    if s != [] {
      var s' := s[..|s| - 1];
      DecayAllContents(s', now);
      assert forall j :: 0 <= j < |s'| ==> s'[j] == s[j];
      assert forall j :: 0 <= j < |s| ==> j == |s'| || s[j] == s'[j];
    }
  }

  /** One step of the decay scan, in the terms the scan computes. */
  lemma DecayAllStep(s: seq<Trace>, i: int, now: int, acc: seq<Trace>)
    requires 0 <= i < |s| && acc == DecayAll(s[..i], now)
    ensures s[i].expiresAt <= now ==> DecayAll(s[..i + 1], now) == acc
    ensures now < s[i].expiresAt && Max(0.0, s[i].intensity - Fade(s[i], now)) <= 5.0 ==>
      DecayAll(s[..i + 1], now) == acc
    ensures now < s[i].expiresAt && Max(0.0, s[i].intensity - Fade(s[i], now)) > 5.0 ==>
      DecayAll(s[..i + 1], now) == acc + [s[i].(intensity := Max(0.0, s[i].intensity - Fade(s[i], now)))]
  {
    assert s[..i + 1][..i] == s[..i];
  }

  /** The decay pass keeps the trace ids unique. */
  lemma {:induction false} DecayAllUnique(s: seq<Trace>, now: int)
    requires UniqueIds(s)
    ensures UniqueIds(DecayAll(s, now))
  {
    if s != [] {
      var s' := s[..|s| - 1];
      var t := s[|s| - 1];
      assert UniqueIds(s');
      DecayAllUnique(s', now);
      DecayAllContents(s', now);
      var r' := DecayAll(s', now);
      match Decayed(t, now)
      case None =>
      case Some(t') =>
        var r := r' + [t'];
        forall a, b | 0 <= a < b < |r| ensures r[a].id != r[b].id {
          if b == |r'| {
            var j :| 0 <= j < |s'| && Decayed(s'[j], now) == Some(r'[a]);
            assert r[a].id == s[j].id;
          } else {
            assert r[a] == r'[a] && r[b] == r'[b];
          }
        }
        assert UniqueKeys(TraceId, r);
    }
  }

  /** A footprint 25 minutes old has faded from 30 to 5 and is dropped,
      although it expires only at 30 minutes. */
  lemma FootprintFadesBeforeExpiry(position: Position, entity: Entity, now: nat)
    requires "energetic" !in entity.personality.traits && "calm" !in entity.personality.traits
    ensures Decayed(NewTrace(Footprint, position, entity, now), now + 25 * 60000).None?
    ensures Decayed(NewTrace(Footprint, position, entity, now), now + 24 * 60000).Some?
  {
    var t := NewTrace(Footprint, position, entity, now);
    assert AgeMinutes(t, now + 25 * 60000) == 25.0;
    assert AgeMinutes(t, now + 24 * 60000) == 24.0;
  }

  // ---- Reinforcement ----

  /** A path of this entity closer than 20 to the position. */
  predicate NearOwnPath(t: Trace, entity: Entity, position: Position) {
    t.kind == Path && t.entityId == entity.id && CloserThan(t.position, position, 20.0)
  }

  /** A territory of this entity closer than 50 to the position. */
  predicate NearOwnTerritory(t: Trace, entity: Entity, position: Position) {
    t.kind == Territory && t.entityId == entity.id && CloserThan(t.position, position, 50.0)
  }

  function NearPathIndex(s: seq<Trace>, entity: Entity, position: Position): (j: int)
    ensures -1 <= j < |s|
    ensures 0 <= j ==> NearOwnPath(s[j], entity, position)
    ensures 0 <= j ==> forall k :: 0 <= k < j ==> !NearOwnPath(s[k], entity, position)
    ensures j == -1 <==> forall k :: 0 <= k < |s| ==> !NearOwnPath(s[k], entity, position)
  {
    FirstIndex((t: Trace) => NearOwnPath(t, entity, position), s)
  }

  function NearTerritoryIndex(s: seq<Trace>, entity: Entity, position: Position): (j: int)
    ensures -1 <= j < |s|
    ensures 0 <= j ==> NearOwnTerritory(s[j], entity, position)
    ensures 0 <= j ==> forall k :: 0 <= k < j ==> !NearOwnTerritory(s[k], entity, position)
    ensures j == -1 <==> forall k :: 0 <= k < |s| ==> !NearOwnTerritory(s[k], entity, position)
  {
    FirstIndex((t: Trace) => NearOwnTerritory(t, entity, position), s)
  }

  /** The entries after `strengthenPath`: the first nearby path of the entity
      gains 5 intensity up to 100, or else a new path trace is created. */
  function Strengthened(s: seq<Trace>, entity: Entity, position: Position, now: nat): (r: seq<Trace>)
    requires UniqueIds(s) && |s| <= MaxTraces
    ensures UniqueIds(r) && |r| <= MaxTraces
    ensures var j := NearPathIndex(s, entity, position);
      && (j >= 0 ==> |r| == |s| && r == s[j := r[j]] && r[j] == s[j].(intensity := r[j].intensity))
      && (j >= 0 ==> r[j].intensity == Min(100.0, s[j].intensity + 5.0))
      && (j == -1 ==> r == AfterCreate(s, NewTrace(Path, position, entity, now)))
  {
    var j := NearPathIndex(s, entity, position);
    if j >= 0 then
      var r := s[j := s[j].(intensity := Min(100.0, s[j].intensity + 5.0))];
      assert forall k :: 0 <= k < |r| ==> r[k].id == s[k].id;
      r
    else AfterCreate(s, NewTrace(Path, position, entity, now))
  }

  /** The entries after `createTerritoryTrace`: the first nearby territory of
      the entity is reinforced, or else a new territory trace is created. */
  function Claimed(s: seq<Trace>, entity: Entity, position: Position, duration: real, now: nat): (r: seq<Trace>)
    requires UniqueIds(s) && |s| <= MaxTraces
    ensures UniqueIds(r) && |r| <= MaxTraces
    ensures var j := NearTerritoryIndex(s, entity, position);
      && (j >= 0 ==> |r| == |s| && r == s[j := r[j]])
      && (j >= 0 ==> r[j] == s[j].(intensity := r[j].intensity, radius := r[j].radius))
      && (j >= 0 ==> r[j].intensity == Min(100.0, s[j].intensity + duration * 0.1) && r[j].radius == Min(80.0, s[j].radius + 2.0))
      && (j == -1 ==> r == AfterCreate(s, NewTrace(Territory, position, entity, now)))
  {
    var j := NearTerritoryIndex(s, entity, position);
    if j >= 0 then
      var t := s[j];
      var r := s[j := t.(intensity := Min(100.0, t.intensity + duration * 0.1), radius := Min(80.0, t.radius + 2.0))];
      assert forall k :: 0 <= k < |r| ==> r[k].id == s[k].id;
      r
    else AfterCreate(s, NewTrace(Territory, position, entity, now))
  }

  /** Reinforcing a path adds no trace, and creating one adds at most one. */
  lemma StrengthenedSize(s: seq<Trace>, entity: Entity, position: Position, now: nat)
    requires UniqueIds(s) && |s| <= MaxTraces
    ensures NearPathIndex(s, entity, position) >= 0 ==> |Strengthened(s, entity, position, now)| == |s|
    ensures |s| <= |Strengthened(s, entity, position, now)| <= |s| + 1
  {
    var t := NewTrace(Path, position, entity, now);
    assert |Put(s, t)| <= |s| + 1;
  }

  /** The footprint and the path of one move share the id
      `trace_<now>_<entity id>` when taken at the same millisecond, so a newly
      created path replaces the footprint of the same move. */
  lemma SameInstantPathReplacesFootprint(s: seq<Trace>, entity: Entity, from: Position, to: Position, now: nat)
    requires UniqueIds(s) && |s| <= MaxTraces
    requires NearPathIndex(AfterCreate(s, NewTrace(Footprint, from, entity, now)), entity, to) == -1
    ensures var r := Strengthened(AfterCreate(s, NewTrace(Footprint, from, entity, now)), entity, to, now);
      forall x :: x in r && x.id == NewTrace(Footprint, from, entity, now).id ==> x.kind == Path
  {
    var p := NewTrace(Path, to, entity, now);
    var s1 := AfterCreate(s, NewTrace(Footprint, from, entity, now));
    var r := Strengthened(s1, entity, to, now);
    assert r == Evicted(Put(s1, p));
    forall x | x in r && x.id == p.id ensures x.kind == Path {
      assert x in Put(s1, p);
    }
  }

  // ---- Interaction with biome elements ----

  datatype InteractionType = Plant | HarvestElement | WaterElement | RestAt

  /** `Partial<BiomeElement>`: the fields an interaction changes. */
  datatype ElementChanges = ElementChanges(health: Option<real>, lastModified: Option<int>, modifiedBy: Option<string>)

  /** The kind of trace an interaction leaves, if any. */
  function InteractionTrace(interaction: InteractionType, entity: Entity, element: BiomeElement): (k: Option<TraceType>)
    ensures interaction == Plant ==> (k.Some? <==> HasTrait(entity, "nurturing"))
    ensures interaction == HarvestElement ==> k == Some(Footprint)
    ensures interaction == WaterElement ==> (k.Some? <==> element.kind == Tree || element.kind == Flower)
    ensures interaction == RestAt ==> k == Some(Scent)
    ensures k.Some? ==> k.value == Footprint || k.value == Scent
  {
    match interaction
    case Plant => if HasTrait(entity, "nurturing") then Some(Footprint) else None
    case HarvestElement => Some(Footprint)
    case WaterElement => if element.kind == Tree || element.kind == Flower then Some(Footprint) else None
    case RestAt => Some(Scent)
  }

  /** The element changes of an interaction. */
  function InteractionChanges(interaction: InteractionType, entity: Entity, element: BiomeElement, now: int): (c: ElementChanges)
    ensures interaction == HarvestElement ==> c == ElementChanges(Some(Max(0.0, element.health - 20.0)), Some(now), Some(entity.id))
    ensures interaction == WaterElement && (element.kind == Tree || element.kind == Flower) ==>
      c == ElementChanges(Some(Min(100.0, element.health + 15.0)), Some(now), Some(entity.id))
    ensures c.health.None? ==> c == ElementChanges(None, None, None)
    ensures c.health.Some? <==> interaction == HarvestElement || (interaction == WaterElement && (element.kind == Tree || element.kind == Flower))
    ensures c.health.Some? && 0.0 <= element.health <= 100.0 ==> 0.0 <= c.health.value <= 100.0
    ensures interaction == HarvestElement ==> c.health.value <= Max(0.0, element.health)
    ensures interaction == WaterElement && c.health.Some? && element.health <= 100.0 ==> element.health <= c.health.value
  {
    match interaction
    case HarvestElement => ElementChanges(Some(Max(0.0, element.health - 20.0)), Some(now), Some(entity.id))
    case WaterElement =>
      if element.kind == Tree || element.kind == Flower then
        ElementChanges(Some(Min(100.0, element.health + 15.0)), Some(now), Some(entity.id))
      else ElementChanges(None, None, None)
    case _ => ElementChanges(None, None, None)
  }

  /** `createNewPlant`: a small flower 15 to 35 units from the element.
      `cosA` and `sinA` stand for the cosine and sine of the random angle. */
  function NewPlant(near: Position, entity: Entity, now: nat, offsetDraw: real, cosA: real, sinA: real,
                    sizeDraw: real, healthDraw: real, variantDraw: real): (e: BiomeElement)
    ensures e.id == "planted_" + NatToString(now) + "_" + entity.id
    ensures e.kind == Flower && e.createdAt == now && e.lastModified == now && e.modifiedBy == Some(entity.id)
    ensures Unit(sizeDraw) ==> 0.3 <= e.size < 0.7
    ensures Unit(healthDraw) ==> 80.0 <= e.health < 100.0
    ensures Unit(variantDraw) ==> 0 <= e.variant < 3
    ensures Unit(offsetDraw) && cosA * cosA + sinA * sinA == 1.0 ==>
      15.0 * 15.0 <= DistSq(near, e.position) < 35.0 * 35.0
  {
    var offset := 15.0 + offsetDraw * 20.0;
    var position := Position(near.x + cosA * offset, near.y + sinA * offset);
    assert Unit(offsetDraw) && cosA * cosA + sinA * sinA == 1.0 ==>
      15.0 * 15.0 <= DistSq(near, position) < 35.0 * 35.0 by {
      if Unit(offsetDraw) && cosA * cosA + sinA * sinA == 1.0 {
        var dx, dy := cosA * offset, sinA * offset;
        assert DistSq(near, position) == dx * dx + dy * dy;
        assert dx * dx + dy * dy == (cosA * cosA + sinA * sinA) * (offset * offset);
        SquareBounds(offset, 15.0, 35.0);
      }
    }
    assert Unit(variantDraw) ==> 0 <= (variantDraw * 3.0).Floor < 3 by {
      if Unit(variantDraw) {
        assert Pick(variantDraw, 3) == (variantDraw * 3.0).Floor;
      }
    }
    BiomeElement(
      "planted_" + NatToString(now) + "_" + entity.id,
      Flower, position,
      0.3 + sizeDraw * 0.4,
      80.0 + healthDraw * 20.0,
      (variantDraw * 3.0).Floor,
      now, now, Some(entity.id))
  }

  class EnvironmentalTraceSystem {
    /** The entries of the source's `traces` Map, in insertion order. */
    var traces: seq<Trace>

    ghost predicate Valid()
      reads this
    {
      UniqueIds(traces) && |traces| <= MaxTraces
    }

    constructor ()
      ensures Valid() && traces == []
    {
      traces := [];
    }

    /** `cleanupExpiredTraces`: while over capacity, deletes the oldest entry. */
    method CleanupExpiredTraces()
      requires UniqueIds(traces)
      modifies this
      ensures traces == Evicted(old(traces))
      ensures UniqueIds(traces) && |traces| <= MaxTraces
    {
      var entries := traces;
      while |entries| > MaxTraces
        invariant Evicted(entries) == Evicted(old(traces))
        invariant UniqueIds(entries)
        decreases |entries|
      {
        var oldest := OldestIndex(entries);
        RemoveAtUnique(TraceId, entries, oldest);
        entries := RemoveAt(entries, oldest);
      }
      traces := entries;
    }

    /** `createTrace`: stores a new trace under its id, then enforces the capacity. */
    method CreateTrace(kind: TraceType, position: Position, entity: Entity, now: nat) returns (trace: Trace)
      requires Valid()
      modifies this
      ensures Valid()
      ensures trace == NewTrace(kind, position, entity, now)
      ensures traces == AfterCreate(old(traces), trace)
    {
      var multiplier := 1.0;
      if "energetic" in entity.personality.traits { multiplier := multiplier + 0.3; }
      if "calm" in entity.personality.traits { multiplier := multiplier - 0.2; }
      trace := Trace(
        "trace_" + NatToString(now) + "_" + entity.id,
        kind, position, TraceRadius(kind),
        Min(100.0, BaseIntensity(kind) * multiplier),
        entity.id, now, now + LifespanMinutes(kind) * 60000);
      traces := Put(traces, trace);
      CleanupExpiredTraces();
    }

    /** `strengthenPath` */
    method StrengthenPath(entity: Entity, position: Position, now: nat)
      requires Valid()
      modifies this
      ensures Valid()
      ensures traces == Strengthened(old(traces), entity, position, now)
    {
      var j := NearPathIndex(traces, entity, position);
      if j >= 0 {
        var path := traces[j];
        traces := traces[j := path.(intensity := Min(100.0, path.intensity + 5.0))];
      } else {
        var _ := CreateTrace(Path, position, entity, now);
      }
    }

    /** `createMovementTrace`: a footprint where the entity was (clock reading
        `nowFootprint`), then the path where it went is strengthened or
        created (clock reading `nowPath`). */
    method CreateMovementTrace(entity: Entity, fromPosition: Position, toPosition: Position,
                               nowFootprint: nat, nowPath: nat)
      requires Valid()
      modifies this
      ensures Valid()
      ensures traces == Strengthened(
        AfterCreate(old(traces), NewTrace(Footprint, fromPosition, entity, nowFootprint)),
        entity, toPosition, nowPath)
    {
      var _ := CreateTrace(Footprint, fromPosition, entity, nowFootprint);
      StrengthenPath(entity, toPosition, nowPath);
    }

    /** `createTerritoryTrace` */
    method CreateTerritoryTrace(entity: Entity, position: Position, duration: real, now: nat)
      requires Valid()
      modifies this
      ensures Valid()
      ensures traces == Claimed(old(traces), entity, position, duration, now)
    {
      var j := NearTerritoryIndex(traces, entity, position);
      if j >= 0 {
        var existing := traces[j];
        traces := traces[j := existing.(
          intensity := Min(100.0, existing.intensity + duration * 0.1),
          radius := Min(80.0, existing.radius + 2.0))];
      } else {
        var _ := CreateTrace(Territory, position, entity, now);
      }
    }

    /** `createNestTrace`: a burrow for an underground entity, a nest otherwise. */
    method CreateNestTrace(entity: Entity, position: Position, now: nat) returns (trace: Trace)
      requires Valid()
      modifies this
      ensures Valid()
      ensures trace.kind == if HasTrait(entity, "underground") then Burrow else Nest
      ensures trace == NewTrace(trace.kind, position, entity, now)
      ensures traces == AfterCreate(old(traces), trace)
    {
      var nestType := if "underground" in entity.personality.traits then Burrow else Nest;
      trace := CreateTrace(nestType, position, entity, now);
    }

    /** `createScentTrace`; the emotion only enters the property bag. */
    method CreateScentTrace(entity: Entity, position: Position, emotion: string, now: nat) returns (trace: Trace)
      requires Valid()
      modifies this
      ensures Valid()
      ensures trace == NewTrace(Scent, position, entity, now)
      ensures traces == AfterCreate(old(traces), trace)
    {
      trace := CreateTrace(Scent, position, entity, now);
    }

    /** `processEnvironmentalInteraction`; the draws feed `createNewPlant`. */
    method ProcessEnvironmentalInteraction(entity: Entity, element: BiomeElement, interaction: InteractionType,
                                           now: nat, offsetDraw: real, cosA: real, sinA: real,
                                           sizeDraw: real, healthDraw: real, variantDraw: real)
      returns (created: seq<Trace>, elementChanges: ElementChanges, newElements: seq<BiomeElement>)
      requires Valid()
      modifies this
      ensures Valid()
      ensures var k := InteractionTrace(interaction, entity, element);
        && created == (if k.Some? then [NewTrace(k.value, element.position, entity, now)] else [])
        && traces == (if k.Some? then AfterCreate(old(traces), created[0]) else old(traces))
      ensures elementChanges == InteractionChanges(interaction, entity, element, now)
      ensures newElements == if interaction == Plant && HasTrait(entity, "nurturing") then
        [NewPlant(element.position, entity, now, offsetDraw, cosA, sinA, sizeDraw, healthDraw, variantDraw)]
        else []
    {
      created := [];
      newElements := [];
      ghost var k := InteractionTrace(interaction, entity, element);
      elementChanges := InteractionChanges(interaction, entity, element, now);
      match interaction {
        case Plant =>
          if "nurturing" in entity.personality.traits {
            assert k == Some(Footprint);
            var t := CreateTrace(Footprint, element.position, entity, now);
            created := [t];
            var plant := NewPlant(element.position, entity, now, offsetDraw, cosA, sinA, sizeDraw, healthDraw, variantDraw);
            newElements := [plant];
          }
        case HarvestElement =>
          var t := CreateTrace(Footprint, element.position, entity, now);
          created := [t];
        case WaterElement =>
          if element.kind == Tree || element.kind == Flower {
            var t := CreateTrace(Footprint, element.position, entity, now);
            created := [t];
          }
        case RestAt =>
          var t := CreateTrace(Scent, element.position, entity, now);
          created := [t];
      }
    }

    /** `updateTraces`: drops expired and faded traces, stores the faded
        intensity of the rest and returns them. */
    method UpdateTraces(now: int) returns (updatedTraces: seq<Trace>)
      requires Valid()
      modifies this
      ensures Valid()
      ensures traces == DecayAll(old(traces), now)
      ensures updatedTraces == traces
    {
      var snapshot := traces;
      var i := 0;
      updatedTraces := [];
      while i < |snapshot|
        invariant 0 <= i <= |snapshot|
        invariant updatedTraces == DecayAll(snapshot[..i], now)
      {
        DecayAllStep(snapshot, i, now, updatedTraces);
        var trace := snapshot[i];
        if trace.expiresAt <= now {
          // the entry is deleted
        } else {
          var newIntensity := Max(0.0, trace.intensity - Fade(trace, now));
          if newIntensity > 5.0 {
            updatedTraces := updatedTraces + [trace.(intensity := newIntensity)];
          }
        }
        i := i + 1;
      }
      assert snapshot[..i] == snapshot;
      DecayAllUnique(snapshot, now);
      traces := updatedTraces;
    }

    /** `getAllTraces`: a snapshot of the entries in Map order. */
    function GetAllTraces(): (r: seq<Trace>)
      requires Valid()
      reads this
      ensures UniqueIds(r) && |r| <= MaxTraces
      ensures forall t :: t in r <==> t in traces
    {
      traces
    }

    /** `getTracesInArea`: exactly the traces within `radius` of `center`. */
    function GetTracesInArea(center: Position, radius: real): (r: seq<Trace>)
      reads this
      ensures forall t :: t in r <==> t in traces && WithinDistance(t.position, center, radius)
    {
      var inArea := (t: Trace) => WithinDistance(t.position, center, radius);
      FilterIn(inArea, traces);
      Filter(inArea, traces)
    }

    /** `getTracesFromEntity`: exactly the traces left by that entity. */
    function GetTracesFromEntity(entityId: string): (r: seq<Trace>)
      reads this
      ensures forall t :: t in r <==> t in traces && t.entityId == entityId
    {
      var fromEntity := (t: Trace) => t.entityId == entityId;
      FilterIn(fromEntity, traces);
      Filter(fromEntity, traces)
    }
  }
}
