/** The resource manager (src/lib/resource-manager.ts): the store of
    harvestable resources, harvest and contribution gated by distance and by
    the entity's traits, timed regeneration, creation, spatial queries,
    scarcity and clean-up of long-depleted resources.

    The source keeps a `Map` from resource id to resource. It is modelled by
    the Map's entry list in insertion order (`resources`), whose ids are
    pairwise distinct: `Map.set` on a present id replaces that entry in place,
    on a new id appends it, and `delete` removes the entry. */
module Resources {
  import opened Common
  import opened Types

  /** An entity may harvest a resource no farther than this. */
  const HarvestReach: real := 30.0

  /** The amount `harvestResource` asks for when the caller gives none. */
  const DefaultDesiredAmount: real := 10.0
  /** An entity may contribute to a resource no farther than this. */
  const ContributeReach: real := 25.0

  datatype Contribution = Restore | Purify | Fertilize | Protect

  datatype Effects = Effects(energyGain: Option<real>, healthGain: Option<real>, moodChange: Option<string>)

  /** `resourceUpdated` is None where the source returns the empty object `{}`. */
  datatype InteractionResult = InteractionResult(
    success: bool,
    amountObtained: real,
    resourceUpdated: Option<Resource>,
    entityEffects: Option<Effects>)

  datatype Scarcity = Scarcity(mineral: real, food: real, water: real, energy: real)

  function Failed(r: Option<Resource>): InteractionResult {
    InteractionResult(false, 0.0, r, None)
  }

  function ResourceId(r: Resource): string { r.id }

  /** The entry list of a Map keyed by resource id. */
  predicate UniqueIds(s: seq<Resource>) {
    UniqueKeys(ResourceId, s)
  }

  /** Position of the entry with this id (`Map.get`), or -1. */
  function IndexOfId(s: seq<Resource>, id: string): (j: int)
    ensures -1 <= j < |s|
    ensures 0 <= j ==> s[j].id == id
    ensures j == -1 <==> forall i :: 0 <= i < |s| ==> s[i].id != id
  {
    IndexOfKey(ResourceId, s, id)
  }

  /** `Map.set(r.id, r)` on the entry list. */
  function Put(s: seq<Resource>, r: Resource): (s': seq<Resource>)
    requires UniqueIds(s)
    ensures UniqueIds(s')
    ensures IndexOfId(s, r.id) == -1 ==> s' == s + [r]
    ensures IndexOfId(s, r.id) != -1 ==> s' == s[IndexOfId(s, r.id) := r]
    ensures |s| <= |s'| && forall k :: 0 <= k < |s| ==> s'[k].id == s[k].id
    ensures r in s' && forall x :: x in s' ==> x == r || x in s
  {
    MapSet(ResourceId, s, r)
  }

  /** The entry list the constructor builds from the initial resources. */
  function Load(initial: seq<Resource>): (s: seq<Resource>)
    ensures UniqueIds(s)
  {
    if initial == [] then [] else Put(Load(initial[..|initial| - 1]), initial[|initial| - 1])
  }

  /** The constructor keeps an entry for the id of every initial resource,
      and every entry it keeps is an initial resource. */
  lemma {:induction false} LoadContents(initial: seq<Resource>)
    ensures forall i :: 0 <= i < |initial| ==> initial[i].id in KeysOf(ResourceId, Load(initial))
    ensures forall x :: x in Load(initial) ==> x in initial
  {
    if initial != [] {
      var pre := initial[..|initial| - 1];
      var r := initial[|initial| - 1];
      LoadContents(pre);
      var s' := Load(pre);
      var s := Load(initial);
      assert s == Put(s', r);
      forall x | x in s ensures x in initial {
        if x != r {
          assert x in s';
          assert x in pre;
        }
      }
      forall i | 0 <= i < |initial| ensures initial[i].id in KeysOf(ResourceId, s) {
        if i == |initial| - 1 {
          var k :| 0 <= k < |s| && s[k] == r;
          assert KeysOf(ResourceId, s)[k] == r.id;
        } else {
          assert initial[i] == pre[i];
          var k :| 0 <= k < |s'| && KeysOf(ResourceId, s')[k] == pre[i].id;
          assert KeysOf(ResourceId, s)[k] == s'[k].id;
        }
      }
    }
  }

  lemma LoadStep(initial: seq<Resource>, i: int)
    requires 0 <= i < |initial|
    ensures Load(initial[..i + 1]) == Put(Load(initial[..i]), initial[i])
  {
    assert initial[..i + 1][..i] == initial[..i];
  }

  // ---- Harvest ----

  /** The personality and resource-type factors of `calculateMaxHarvest`. */
  function HarvestFactor(traits: seq<string>, kind: ResourceType): real {
    (if "efficient" in traits then 1.3 else 1.0)
    * (if "gentle" in traits then 0.8 else 1.0)
    * (if "greedy" in traits then 1.5 else 1.0)
    * (if kind == Mineral && "strong" in traits then 1.4 else 1.0)
    * (if kind == Food && "forager" in traits then 1.6 else 1.0)
  }

  /** The most an entity may harvest at once: floor(15 x the factors). */
  function MaxHarvest(traits: seq<string>, kind: ResourceType): (n: int)
    ensures 12 <= n <= 46
    ensures (forall t :: t in traits ==> t !in {"efficient", "gentle", "greedy", "strong", "forager"}) ==> n == 15
  {
    var f := HarvestFactor(traits, kind);
    assert 0.8 <= f <= 3.12 by {
      var a := if "efficient" in traits then 1.3 else 1.0;
      var b := if "gentle" in traits then 0.8 else 1.0;
      var c := if "greedy" in traits then 1.5 else 1.0;
      var d := if kind == Mineral && "strong" in traits then 1.4 else 1.0;
      var e := if kind == Food && "forager" in traits then 1.6 else 1.0;
      assert d == 1.0 || e == 1.0;
      assert f == a * b * c * d * e;
      assert 0.8 <= a * b <= 1.3;
      assert 0.8 <= a * b * c <= 1.95;
      assert 1.0 <= d * e <= 1.6;
    }
    (15.0 * f).Floor
  }

  /** `calculateMaxHarvest`, updating the base amount factor by factor. */
  method CalculateMaxHarvest(entity: Entity, resource: Resource) returns (n: int)
    ensures n == MaxHarvest(entity.personality.traits, resource.kind)
    ensures 12 <= n <= 46
  {
    var traits := entity.personality.traits;
    var baseAmount := 15.0;
    if "efficient" in traits { baseAmount := baseAmount * 1.3; } else { baseAmount := baseAmount * 1.0; }
    if "gentle" in traits { baseAmount := baseAmount * 0.8; } else { baseAmount := baseAmount * 1.0; }
    if "greedy" in traits { baseAmount := baseAmount * 1.5; } else { baseAmount := baseAmount * 1.0; }
    if resource.kind == Mineral && "strong" in traits {
      baseAmount := baseAmount * 1.4;
    } else {
      baseAmount := baseAmount * 1.0;
    }
    if resource.kind == Food && "forager" in traits {
      baseAmount := baseAmount * 1.6;
    } else {
      baseAmount := baseAmount * 1.0;
    }
    assert baseAmount == 15.0 * HarvestFactor(traits, resource.kind);
    n := baseAmount.Floor;
  }

  /** `calculateEntityEffects`: what consuming `amount` of a resource does to the entity. */
  function EntityEffects(kind: ResourceType, amount: real): (fx: Effects)
    ensures fx.moodChange.Some?
    ensures fx.energyGain.Some? <==> kind != Mineral
    ensures fx.healthGain.Some? <==> kind == Food || kind == ResourceType.Water
    ensures amount >= 0.0 && fx.energyGain.Some? ==> 0.0 <= fx.energyGain.value <= amount
    ensures amount >= 0.0 && fx.healthGain.Some? ==> 0.0 <= fx.healthGain.value <= amount
  {
    match kind
    case Food => Effects(Some(amount * 0.5), Some(amount * 0.3), Some("satisfied"))
    case Water => Effects(Some(amount * 0.3), Some(amount * 0.4), Some("refreshed"))
    case Energy => Effects(Some(amount * 0.8), None, Some("energized"))
    case Mineral => Effects(None, None, Some("accomplished"))
  }

  /** The outcome of `harvestResource` on a resource that exists. */
  function HarvestFrom(r: Resource, e: Entity, desired: real, now: int): (res: InteractionResult)
    ensures res.resourceUpdated.Some? && res.resourceUpdated.value.id == r.id
    ensures res.success <==> WithinDistance(e.position, r.position, HarvestReach) && r.amount > 0.0
    ensures !res.success ==> res == Failed(Some(r))
    ensures res.success ==>
      var taken := res.amountObtained;
      var r' := res.resourceUpdated.value;
      && taken == Min(desired, Min(MaxHarvest(e.personality.traits, r.kind) as real, r.amount))
      && taken <= r.amount
      && r' == r.(amount := r.amount - taken, lastHarvested := Some(now), harvestedBy := r.harvestedBy + [e.id])
      && res.entityEffects == Some(EntityEffects(r.kind, taken))
    ensures res.success && desired >= 0.0 ==>
      0.0 <= res.amountObtained && 0.0 <= res.resourceUpdated.value.amount <= r.amount
    ensures Bounded(r) && desired >= 0.0 ==> Bounded(res.resourceUpdated.value)
  {
    if !WithinDistance(e.position, r.position, HarvestReach) || r.amount <= 0.0 then
      Failed(Some(r))
    else
      var taken := Min(desired, Min(MaxHarvest(e.personality.traits, r.kind) as real, r.amount));
      var r' := r.(amount := r.amount - taken, lastHarvested := Some(now), harvestedBy := r.harvestedBy + [e.id]);
      InteractionResult(true, taken, Some(r'), Some(EntityEffects(r.kind, taken)))
  }

  /** The worked example: food at 60 of 120, an entity with no harvest traits
      10 units away, asking for the default 10: it gets 10, the food drops to 50, and the
      entity gains 5 energy and 3 health. */
  lemma HarvestFoodExample(e: Entity, now: int)
    requires e.personality.traits == []
    requires e.position == Position(10.0, 0.0)
    ensures var r := Resource("food_1", Food, Position(0.0, 0.0), 60.0, 120.0, 0.3, None, []);
      var res := HarvestFrom(r, e, DefaultDesiredAmount, now);
      && res.success && res.amountObtained == 10.0
      && res.resourceUpdated.value.amount == 50.0
      && res.entityEffects == Some(Effects(Some(5.0), Some(3.0), Some("satisfied")))
  {
    assert MaxHarvest([], Food) == 15;
  }

  // ---- Contribution ----

  /** `canEntityContribute`: the traits that qualify each kind of contribution. */
  predicate CanContribute(traits: seq<string>, c: Contribution) {
    match c
    case Restore => "nurturing" in traits || "caretaker" in traits
    case Purify => "pure" in traits || "clean" in traits
    case Fertilize => "growth" in traits || "fertile" in traits
    case Protect => "guardian" in traits || "protective" in traits
  }

  /** The magnitude of a contribution: 10, x1.5 if dedicated, x0.7 if lazy. */
  function ContributionAmount(traits: seq<string>): (c: real)
    ensures 7.0 <= c <= 15.0
  {
    10.0 * (if "dedicated" in traits then 1.5 else 1.0) * (if "lazy" in traits then 0.7 else 1.0)
  }

  /** `calculateContribution`, updating the base contribution factor by factor. */
  method CalculateContribution(entity: Entity) returns (c: real)
    ensures c == ContributionAmount(entity.personality.traits)
    ensures 7.0 <= c <= 15.0
  {
    var traits := entity.personality.traits;
    c := 10.0;
    if "dedicated" in traits { c := c * 1.5; } else { c := c * 1.0; }
    if "lazy" in traits { c := c * 0.7; } else { c := c * 1.0; }
  }

  /** `applyContribution`: each kind of contribution has its own capped effect. */
  function ApplyContribution(r: Resource, amount: real, c: Contribution): (r': Resource)
    ensures r'.id == r.id && r'.kind == r.kind && r'.position == r.position
    ensures r'.lastHarvested == r.lastHarvested && r'.harvestedBy == r.harvestedBy
    ensures c == Restore ==> r' == r.(amount := r'.amount) && r'.amount <= r'.maxAmount
    ensures c == Restore && amount >= 0.0 && r.amount <= r.maxAmount ==> r.amount <= r'.amount
    ensures c == Purify ==> r' == r.(regenerationRate := r'.regenerationRate) && r'.regenerationRate <= 1.0
    ensures c == Purify && amount >= 0.0 && r.regenerationRate <= 1.0 ==> r.regenerationRate <= r'.regenerationRate
    ensures c == Fertilize ==> r' == r.(maxAmount := r'.maxAmount) && r'.maxAmount <= 1.5 * r.maxAmount
    ensures c == Fertilize && amount >= 0.0 && r.maxAmount >= 0.0 ==> r.maxAmount <= r'.maxAmount
    ensures c == Protect ==> r' == r
    ensures Bounded(r) && amount >= 0.0 ==> Bounded(r')
  {
    match c
    case Restore => r.(amount := Min(r.maxAmount, r.amount + amount))
    case Purify => r.(regenerationRate := Min(1.0, r.regenerationRate + amount * 0.01))
    case Fertilize => r.(maxAmount := Min(r.maxAmount * 1.5, r.maxAmount + amount))
    case Protect => r
  }

  /** The outcome of `contributeToResource` on a resource that exists. */
  function ContributeTo(r: Resource, e: Entity, c: Contribution): (res: InteractionResult)
    ensures res.resourceUpdated.Some? && res.resourceUpdated.value.id == r.id
    ensures res.success <==>
      WithinDistance(e.position, r.position, ContributeReach) && CanContribute(e.personality.traits, c)
    ensures !res.success ==> res == Failed(Some(r))
    ensures res.success ==>
      && res.amountObtained == 0.0
      && res.resourceUpdated == Some(ApplyContribution(r, ContributionAmount(e.personality.traits), c))
      && res.entityEffects == Some(Effects(Some(-5.0), None, Some("satisfied")))
    ensures Bounded(r) ==> Bounded(res.resourceUpdated.value)
  {
    if !WithinDistance(e.position, r.position, ContributeReach) then Failed(Some(r))
    else if !CanContribute(e.personality.traits, c) then Failed(Some(r))
    else
      var r' := ApplyContribution(r, ContributionAmount(e.personality.traits), c);
      InteractionResult(true, 0.0, Some(r'), Some(Effects(Some(-5.0), None, Some("satisfied"))))
  }

  // ---- Regeneration ----

  /** Minutes since the last harvest; 60 for a resource never harvested. */
  function MinutesIdle(r: Resource, now: int): real {
    match r.lastHarvested
    case None => 60.0
    case Some(t) => (now - t) as real / 60000.0
  }

  /** Regeneration runs 1.5 times faster after more than 30 idle minutes. */
  function RegenerationMultiplier(r: Resource, now: int): (m: real)
    ensures m == 1.0 || m == 1.5
    ensures r.lastHarvested.None? ==> m == 1.5
  {
    if MinutesIdle(r, now) > 30.0 then 1.5 else 1.0
  }

  /** One resource after a regeneration pass of the manager. */
  function Regenerated(r: Resource, now: int): (r': Resource)
    ensures r' == r.(amount := r'.amount)
    ensures r.amount >= r.maxAmount ==> r' == r
    ensures r.amount < r.maxAmount ==>
      r'.amount == Min(r.maxAmount, r.amount + r.regenerationRate * RegenerationMultiplier(r, now))
    ensures r.amount < r.maxAmount ==> r'.amount <= r.maxAmount
    ensures Bounded(r) && r.regenerationRate >= 0.0 ==> Bounded(r') && r.amount <= r'.amount
  {
    if r.amount < r.maxAmount then
      r.(amount := Min(r.maxAmount, r.amount + r.regenerationRate * RegenerationMultiplier(r, now)))
    else r
  }

  predicate BelowMax(r: Resource) { r.amount < r.maxAmount }

  /** The list `regenerateResources` returns: the regenerated resources that
      were below their maximum, in Map order. */
  function RegeneratedList(s: seq<Resource>, now: int): (out: seq<Resource>)
    ensures |out| <= |s|
  {
    if s == [] then []
    else
      var r := s[|s| - 1];
      RegeneratedList(s[..|s| - 1], now) + (if BelowMax(r) then [Regenerated(r, now)] else [])
  }

  /** The returned list holds exactly the regrown resources. */
  lemma {:induction false} RegeneratedListContents(s: seq<Resource>, now: int)
    ensures forall x :: x in RegeneratedList(s, now) ==>
      exists k :: 0 <= k < |s| && BelowMax(s[k]) && x == Regenerated(s[k], now)
    ensures forall k :: 0 <= k < |s| && BelowMax(s[k]) ==> Regenerated(s[k], now) in RegeneratedList(s, now)
  {
    if s != [] {
      var s' := s[..|s| - 1];
      RegeneratedListContents(s', now);
      assert forall k :: 0 <= k < |s'| ==> s'[k] == s[k];
      assert forall k :: 0 <= k < |s| ==> k == |s'| || s[k] == s'[k];
    }
  }

  /** One more resource examined by the regeneration scan. */
  lemma RegeneratedListStep(s: seq<Resource>, i: int, now: int)
    requires 0 <= i < |s|
    ensures RegeneratedList(s[..i + 1], now) ==
      RegeneratedList(s[..i], now) + (if BelowMax(s[i]) then [Regenerated(s[i], now)] else [])
  {
    assert s[..i + 1][..i] == s[..i];
  }

  // ---- Creation ----

  function InitialAmountBase(kind: ResourceType): real {
    match kind
    case Mineral => 80.0
    case Food => 60.0
    case Water => 100.0
    case Energy => 40.0
  }

  function MaxAmountFor(kind: ResourceType): real {
    match kind
    case Mineral => 150.0
    case Food => 120.0
    case Water => 200.0
    case Energy => 100.0
  }

  function RegenerationRateFor(kind: ResourceType): real {
    match kind
    case Mineral => 0.05
    case Food => 0.3
    case Water => 0.4
    case Energy => 0.1
  }

  /** The resource `createResource` builds; `suffix` stands for the random
      base-36 part of the id and `draw` for the amount's random variation. */
  function NewResource(kind: ResourceType, position: Position, createdBy: Option<Entity>,
                       draw: real, now: nat, suffix: string): (r: Resource)
    ensures r.id == "resource_" + NatToString(now) + "_" + suffix
    ensures r.kind == kind && r.position == position && r.lastHarvested.None?
    ensures r.maxAmount == MaxAmountFor(kind) && r.regenerationRate == RegenerationRateFor(kind)
    ensures r.harvestedBy == if createdBy.Some? then [createdBy.value.id] else []
    ensures Unit(draw) ==> Bounded(r) && InitialAmountBase(kind) - 10.0 <= r.amount < InitialAmountBase(kind) + 10.0
  {
    Resource(
      "resource_" + NatToString(now) + "_" + suffix,
      kind, position,
      InitialAmountBase(kind) + draw * 20.0 - 10.0,
      MaxAmountFor(kind),
      RegenerationRateFor(kind),
      None,
      if createdBy.Some? then [createdBy.value.id] else [])
  }

  // ---- Clean-up ----

  /** At amount 0 for more than an hour since the last harvest. */
  predicate Stale(r: Resource, now: int) {
    r.amount == 0.0 && r.lastHarvested.Some? && (now - r.lastHarvested.value) as real / 3600000.0 > 1.0
  }

  function StaleAt(now: int): Resource -> bool { r => Stale(r, now) }

  function FreshAt(now: int): Resource -> bool { r => !Stale(r, now) }

  /** One step of the clean-up scan: snapshot[i] joins the kept or the removed list. */
  lemma CleanupStep(now: int, snapshot: seq<Resource>, i: int, kept: seq<Resource>, removed: seq<Resource>)
    requires 0 <= i < |snapshot|
    requires kept == Filter(FreshAt(now), snapshot[..i])
    requires removed == Filter(StaleAt(now), snapshot[..i])
    ensures Stale(snapshot[i], now) ==>
      && kept == Filter(FreshAt(now), snapshot[..i + 1])
      && removed + [snapshot[i]] == Filter(StaleAt(now), snapshot[..i + 1])
      && KeysOf(ResourceId, removed + [snapshot[i]]) == KeysOf(ResourceId, removed) + [snapshot[i].id]
    ensures !Stale(snapshot[i], now) ==>
      && kept + [snapshot[i]] == Filter(FreshAt(now), snapshot[..i + 1])
      && removed == Filter(StaleAt(now), snapshot[..i + 1])
  {
    FilterSnoc(FreshAt(now), snapshot, i);
    FilterSnoc(StaleAt(now), snapshot, i);
    KeysOfSnoc(ResourceId, removed, snapshot[i]);
  }

  // ---- Scarcity ----

  function ScarcityLevel(r: Resource): real
    requires r.maxAmount != 0.0
  {
    1.0 - r.amount / r.maxAmount
  }

  /** The greatest scarcity level among the resources of one type, or 0. */
  function ScarcityOf(s: seq<Resource>, kind: ResourceType): (m: real)
    requires forall k :: 0 <= k < |s| ==> s[k].maxAmount != 0.0
    ensures m >= 0.0
    ensures forall k :: 0 <= k < |s| && s[k].kind == kind ==> ScarcityLevel(s[k]) <= m
    ensures m == 0.0 || exists k :: 0 <= k < |s| && s[k].kind == kind && ScarcityLevel(s[k]) == m
  {
    if s == [] then 0.0
    else
      var s' := s[..|s| - 1];
      var r := s[|s| - 1];
      var m' := ScarcityOf(s', kind);
      assert forall k :: 0 <= k < |s'| ==> s'[k] == s[k];
      if r.kind == kind then Max(m', ScarcityLevel(r)) else m'
  }

  lemma ScarcityStep(s: seq<Resource>, i: int, kind: ResourceType)
    requires 0 <= i < |s|
    requires forall k :: 0 <= k < |s| ==> s[k].maxAmount != 0.0
    ensures ScarcityOf(s[..i + 1], kind) ==
      if s[i].kind == kind then Max(ScarcityOf(s[..i], kind), ScarcityLevel(s[i]))
      else ScarcityOf(s[..i], kind)
  {
    assert s[..i + 1][..i] == s[..i];
  }

  /** Every entry within its capacity, regrowing at a non-negative rate. */
  predicate EntriesBounded(s: seq<Resource>) {
    forall k :: 0 <= k < |s| ==> Bounded(s[k]) && s[k].regenerationRate >= 0.0
  }

  /** Storing a bounded resource keeps every entry bounded. */
  lemma PutKeepsBounds(s: seq<Resource>, r: Resource)
    requires UniqueIds(s)
    ensures EntriesBounded(s) && Bounded(r) && r.regenerationRate >= 0.0 ==> EntriesBounded(Put(s, r))
  {
    var s' := Put(s, r);
    forall k | 0 <= k < |s'| && s'[k] != r ensures s'[k] == s[k] {
    }
  }

  class ResourceManager {
    /** The entries of the source's `resources` Map, in insertion order. */
    var resources: seq<Resource>

    ghost predicate Valid()
      reads this
    {
      UniqueIds(resources)
    }

    /** The resource invariant: every entry holds between nothing and its
        capacity, and regrows at a non-negative rate. */
    ghost predicate AllBounded()
      reads this
    {
      EntriesBounded(resources)
    }

    constructor (initialResources: seq<Resource>)
      ensures Valid()
      ensures resources == Load(initialResources)
    {
      var entries: seq<Resource> := [];
      var i := 0;
      while i < |initialResources|
        invariant 0 <= i <= |initialResources|
        invariant entries == Load(initialResources[..i])
      {
        LoadStep(initialResources, i);
        entries := Put(entries, initialResources[i]);
        i := i + 1;
      }
      assert initialResources[..i] == initialResources;
      resources := entries;
    }

    /** `harvestResource`: fails without change on an unknown id, a distance
        over 30 or an exhausted resource; otherwise takes the smallest of the
        desired amount, the entity's limit and what is left from that one
        resource. */
    method HarvestResource(entity: Entity, resourceId: string, desiredAmount: real, now: nat)
      returns (result: InteractionResult)
      requires Valid()
      modifies this
      ensures Valid()
      ensures var j := IndexOfId(old(resources), resourceId);
        if j == -1 then result == Failed(None) && resources == old(resources)
        else
          && result == HarvestFrom(old(resources)[j], entity, desiredAmount, now)
          && resources == if result.success then old(resources)[j := result.resourceUpdated.value] else old(resources)
      ensures old(AllBounded()) && desiredAmount >= 0.0 ==> AllBounded()
    {
      var j := IndexOfId(resources, resourceId);
      if j == -1 {
        return Failed(None);
      }
      var resource := resources[j];
      if !WithinDistance(entity.position, resource.position, HarvestReach) {
        return Failed(Some(resource));
      }
      if resource.amount <= 0.0 {
        return Failed(Some(resource));
      }
      var maxHarvestable := CalculateMaxHarvest(entity, resource);
      var actualAmount := Min(desiredAmount, Min(maxHarvestable as real, resource.amount));
      var updated := resource.(
        amount := resource.amount - actualAmount,
        lastHarvested := Some(now),
        harvestedBy := resource.harvestedBy + [entity.id]);
      resources := resources[j := updated];
      var effects := EntityEffects(resource.kind, actualAmount);
      result := InteractionResult(true, actualAmount, Some(updated), Some(effects));
    }

    /** `contributeToResource`: fails without change on an unknown id, a
        distance over 25 or a missing qualifying trait; otherwise applies the
        contribution to that one resource. */
    method ContributeToResource(entity: Entity, resourceId: string, contributionType: Contribution)
      returns (result: InteractionResult)
      requires Valid()
      modifies this
      ensures Valid()
      ensures var j := IndexOfId(old(resources), resourceId);
        if j == -1 then result == Failed(None) && resources == old(resources)
        else
          && result == ContributeTo(old(resources)[j], entity, contributionType)
          && resources == if result.success then old(resources)[j := result.resourceUpdated.value] else old(resources)
      ensures old(AllBounded()) ==> AllBounded()
    {
      var j := IndexOfId(resources, resourceId);
      if j == -1 {
        return Failed(None);
      }
      var resource := resources[j];
      if !WithinDistance(entity.position, resource.position, ContributeReach) {
        return Failed(Some(resource));
      }
      if !CanContribute(entity.personality.traits, contributionType) {
        return Failed(Some(resource));
      }
      var contribution := CalculateContribution(entity);
      var updated := ApplyContribution(resource, contribution, contributionType);
      resources := resources[j := updated];
      result := InteractionResult(true, 0.0, Some(updated), Some(Effects(Some(-5.0), None, Some("satisfied"))));
    }

    /** `regenerateResources`: every resource below its maximum regrows, and
        those are returned in Map order. */
    method RegenerateResources(now: int) returns (updated: seq<Resource>)
      requires Valid()
      modifies this
      ensures Valid()
      ensures |resources| == |old(resources)|
      ensures forall k :: 0 <= k < |resources| ==> resources[k] == Regenerated(old(resources)[k], now)
      ensures updated == RegeneratedList(old(resources), now)
      ensures old(AllBounded()) ==> AllBounded()
    {
      var entries := resources;
      var i := 0;
      updated := [];
      while i < |entries|
        invariant 0 <= i <= |entries| == |old(resources)|
        invariant forall k :: 0 <= k < i ==> entries[k] == Regenerated(old(resources)[k], now)
        invariant forall k :: i <= k < |entries| ==> entries[k] == old(resources)[k]
        invariant updated == RegeneratedList(old(resources)[..i], now)
      {
        RegeneratedListStep(old(resources), i, now);
        var resource := entries[i];
        if resource.amount < resource.maxAmount {
          var timeSinceLastHarvest := MinutesIdle(resource, now);
          var regenerationMultiplier := if timeSinceLastHarvest > 30.0 then 1.5 else 1.0;
          var regenerationAmount := resource.regenerationRate * regenerationMultiplier;
          var newAmount := Min(resource.maxAmount, resource.amount + regenerationAmount);
          var updatedResource := resource.(amount := newAmount);
          entries := entries[i := updatedResource];
          updated := updated + [updatedResource];
        }
        i := i + 1;
      }
      assert old(resources)[..i] == old(resources);
      assert forall k :: 0 <= k < |entries| ==> entries[k].id == old(resources)[k].id;
      resources := entries;
    }

    /** `createResource`: builds a resource and stores it under its id. */
    method CreateResource(kind: ResourceType, position: Position, createdBy: Option<Entity>,
                          draw: real, now: nat, suffix: string) returns (resource: Resource)
      requires Valid()
      modifies this
      ensures Valid()
      ensures resource == NewResource(kind, position, createdBy, draw, now, suffix)
      ensures resources == Put(old(resources), resource)
      ensures old(AllBounded()) && Unit(draw) ==> AllBounded()
    {
      resource := Resource(
        "resource_" + NatToString(now) + "_" + suffix,
        kind, position,
        InitialAmountBase(kind) + draw * 20.0 - 10.0,
        MaxAmountFor(kind),
        RegenerationRateFor(kind),
        None,
        []);
      if createdBy.Some? {
        resource := resource.(harvestedBy := [createdBy.value.id]);
      }
      assert resource == NewResource(kind, position, createdBy, draw, now, suffix);
      PutKeepsBounds(resources, resource);
      resources := Put(resources, resource);
    }

    /** `findResourcesNear`: the non-exhausted resources within `radius` of
        `position`, of the given type when one is given, in Map order. */
    function FindResourcesNear(position: Position, radius: real, kind: Option<ResourceType>): (out: seq<Resource>)
      reads this
      ensures forall r :: r in out <==>
        && r in resources
        && WithinDistance(position, r.position, radius)
        && (kind.None? || r.kind == kind.value)
        && r.amount > 0.0
    {
      var wanted := (r: Resource) =>
        WithinDistance(position, r.position, radius) && (kind.None? || r.kind == kind.value) && r.amount > 0.0;
      FilterIn(wanted, resources);
      Filter(wanted, resources)
    }

    /** `getAllResources`: a snapshot of the entries in Map order, one per id. */
    function GetAllResources(): (r: seq<Resource>)
      reads this
      requires Valid()
      ensures UniqueIds(r)
    {
      resources
    }

    /** `getResourceScarcity`: per type, the greatest `1 - amount/maxAmount`
        among its resources, or 0 when there is none. */
    method GetResourceScarcity() returns (scarcity: Scarcity)
      requires forall k :: 0 <= k < |resources| ==> resources[k].maxAmount != 0.0
      ensures scarcity == Scarcity(
        ScarcityOf(resources, Mineral), ScarcityOf(resources, Food),
        ScarcityOf(resources, ResourceType.Water), ScarcityOf(resources, Energy))
    {
      scarcity := Scarcity(0.0, 0.0, 0.0, 0.0);
      var i := 0;
      while i < |resources|
        invariant 0 <= i <= |resources|
        invariant scarcity == Scarcity(
          ScarcityOf(resources[..i], Mineral), ScarcityOf(resources[..i], Food),
          ScarcityOf(resources[..i], ResourceType.Water), ScarcityOf(resources[..i], Energy))
      {
        ScarcityStep(resources, i, Mineral);
        ScarcityStep(resources, i, Food);
        ScarcityStep(resources, i, ResourceType.Water);
        ScarcityStep(resources, i, Energy);
        var resource := resources[i];
        var level := ScarcityLevel(resource);
        match resource.kind {
          case Mineral => scarcity := scarcity.(mineral := Max(scarcity.mineral, level));
          case Food => scarcity := scarcity.(food := Max(scarcity.food, level));
          case Water => scarcity := scarcity.(water := Max(scarcity.water, level));
          case Energy => scarcity := scarcity.(energy := Max(scarcity.energy, level));
        }
        i := i + 1;
      }
      assert resources[..i] == resources;
    }

    /** `cleanupDepletedResources`: deletes every resource at amount 0 for
        over an hour since its last harvest and returns their ids. */
    method CleanupDepletedResources(now: int) returns (removedIds: seq<string>)
      requires Valid()
      modifies this
      ensures Valid()
      ensures resources == Filter(FreshAt(now), old(resources))
      ensures removedIds == KeysOf(ResourceId, Filter(StaleAt(now), old(resources)))
    {
      var snapshot := resources;
      var i := 0;
      var kept: seq<Resource> := [];
      ghost var removed: seq<Resource> := [];
      removedIds := [];
      while i < |snapshot|
        invariant 0 <= i <= |snapshot|
        invariant kept == Filter(FreshAt(now), snapshot[..i])
        invariant removed == Filter(StaleAt(now), snapshot[..i])
        invariant removedIds == KeysOf(ResourceId, removed)
      {
        var resource := snapshot[i];
        CleanupStep(now, snapshot, i, kept, removed);
        if Stale(resource, now) {
          removed := removed + [resource];
          removedIds := removedIds + [resource.id];
        } else {
          kept := kept + [resource];
        }
        i := i + 1;
      }
      assert snapshot[..i] == snapshot;
      FilterUnique(ResourceId, FreshAt(now), snapshot);
      resources := kept;
    }
  }
}
