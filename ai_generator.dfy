/** The local half of the entity generator: the schema check applied to
    a creature description parsed from a language model's reply, the
    fallback creature made when generation fails, and the random spawn
    position. The model call itself and `JSON.parse` are not modelled: the
    parsed reply is a `Value`, and every `Math.random()` is a parameter. */
module Generator {
  import opened Common
  import opened Types

  // ---- Parsed replies ----

  /** A JavaScript value as `JSON.parse` can produce it (plus `undefined`,
      which property access yields for a missing key). */
  datatype Value =
    | Undefined
    | Null
    | Bool(b: bool)
    | Number(n: real)
    | Text(s: string)
    | List(items: seq<Value>)
    | Record(fields: map<string, Value>)

  /** `v.key` (and `v?.key`): the field of a record, `undefined` otherwise. */
  function Get(v: Value, key: string): (r: Value)
    ensures !v.Record? ==> r == Undefined
    ensures v.Record? && key !in v.fields ==> r == Undefined
  {
    if v.Record? && key in v.fields then v.fields[key] else Undefined
  }

  /** JavaScript truthiness (numbers are reals here, so there is no NaN). */
  predicate Truthy(v: Value) {
    match v
    case Undefined => false
    case Null => false
    case Bool(b) => b
    case Number(n) => n != 0.0
    case Text(s) => s != ""
    case List(_) => true
    case Record(_) => true
  }

  // ---- The schema ----

  const ValidShapes: seq<string> := ["circle", "triangle", "hexagon", "diamond", "star"]

  const ValidFeatures: seq<string> := [
    "glowing_eyes", "crystal_spikes", "energy_aura",
    "particle_trail", "geometric_pattern", "flowing_tendrils", "rotating_symbols"]

  predicate IsHexDigit(c: char) {
    '0' <= c <= '9' || 'a' <= c <= 'f' || 'A' <= c <= 'F'
  }

  /** `/^#[0-9A-Fa-f]{6}$/`: a hash sign and exactly six hex digits. */
  predicate IsHexColor(s: string) {
    |s| == 7 && s[0] == '#' && forall i :: 1 <= i < 7 ==> IsHexDigit(s[i])
  }

  /** `validShapes.includes(v)` / `validFeatures.includes(v)`: only a string
      equal to a listed name is included. */
  predicate Listed(v: Value, names: seq<string>) {
    v.Text? && v.s in names
  }

  /** Why `validateGeneratedEntity` throws. `Fault` stands for the
      `TypeError` raised by reading a field of `null` or calling `match`
      on a truthy colour that is not a string. */
  datatype Rejection =
    | Fault
    | InvalidName
    | InvalidSpecies
    | InvalidTraits
    | InvalidEnergy
    | InvalidColor
    | InvalidSize
    | InvalidShape
    | InvalidFeatures
    | InvalidFeature(feature: Value)

  /** The conditions, one per check, in the order the validator tries them. */
  predicate Readable(v: Value) { v != Undefined && v != Null }

  predicate NameOk(v: Value) { Get(v, "name").Text? && Get(v, "name").s != "" }

  predicate SpeciesOk(v: Value) { Get(v, "species").Text? && Get(v, "species").s != "" }

  predicate TraitsOk(v: Value) { Get(Get(v, "personality"), "traits").List? }

  predicate EnergyOk(v: Value) {
    var e := Get(Get(v, "personality"), "energy");
    e.Number? && 0.0 <= e.n <= 100.0
  }

  /** The colour is either falsy or a string, so `match` can be called. */
  predicate ColorReadable(v: Value) {
    var c := Get(Get(v, "appearance"), "color");
    !Truthy(c) || c.Text?
  }

  predicate ColorOk(v: Value) {
    var c := Get(Get(v, "appearance"), "color");
    c.Text? && IsHexColor(c.s)
  }

  predicate SizeOk(v: Value) {
    var s := Get(Get(v, "appearance"), "size");
    s.Number? && 0.5 <= s.n <= 2.0
  }

  predicate ShapeOk(v: Value) { Listed(Get(Get(v, "appearance"), "shape"), ValidShapes) }

  predicate FeaturesOk(v: Value) { Get(Get(v, "appearance"), "features").List? }

  /** The index of the first feature outside the seven names, or -1. */
  function FirstBadFeature(features: seq<Value>): (j: int)
    ensures -1 <= j < |features|
    ensures 0 <= j ==> !Listed(features[j], ValidFeatures) && forall i :: 0 <= i < j ==> Listed(features[i], ValidFeatures)
    ensures j == -1 <==> forall i :: 0 <= i < |features| ==> Listed(features[i], ValidFeatures)
  {
    FirstIndex((f: Value) => !Listed(f, ValidFeatures), features)
  }

  /** The checks up to and including the energy range all pass. */
  predicate PassesThroughEnergy(v: Value) {
    Readable(v) && NameOk(v) && SpeciesOk(v) && TraitsOk(v) && EnergyOk(v)
  }

  /** A description the validator accepts, stated as one conjunction. Trait
      names are not checked against any vocabulary. */
  predicate Acceptable(v: Value) {
    Readable(v) && NameOk(v) && SpeciesOk(v) && TraitsOk(v) && EnergyOk(v) && ColorOk(v)
    && SizeOk(v) && ShapeOk(v) && FeaturesOk(v)
    && forall f :: f in Get(Get(v, "appearance"), "features").items ==> Listed(f, ValidFeatures)
  }

  /** `validateGeneratedEntity(entity)`: None when it returns normally, else
      the first check that throws. */
  function Validate(v: Value): (r: Option<Rejection>)
    ensures r.None? <==> Acceptable(v)
    ensures r == Some(Fault) <==> !Readable(v) || (NameOk(v) && SpeciesOk(v) && TraitsOk(v) && EnergyOk(v) && !ColorReadable(v))
    ensures r == Some(InvalidName) <==> Readable(v) && !NameOk(v)
    ensures r == Some(InvalidSpecies) <==> Readable(v) && NameOk(v) && !SpeciesOk(v)
    ensures r == Some(InvalidTraits) <==> Readable(v) && NameOk(v) && SpeciesOk(v) && !TraitsOk(v)
    ensures r == Some(InvalidEnergy) <==> Readable(v) && NameOk(v) && SpeciesOk(v) && TraitsOk(v) && !EnergyOk(v)
    ensures r == Some(InvalidColor) <==> PassesThroughEnergy(v) && ColorReadable(v) && !ColorOk(v)
    ensures r == Some(InvalidSize) <==> PassesThroughEnergy(v) && ColorOk(v) && !SizeOk(v)
    ensures r == Some(InvalidShape) <==> PassesThroughEnergy(v) && ColorOk(v) && SizeOk(v) && !ShapeOk(v)
    ensures r == Some(InvalidFeatures) <==>
      PassesThroughEnergy(v) && ColorOk(v) && SizeOk(v) && ShapeOk(v) && !FeaturesOk(v)
    ensures (r.Some? && r.value.InvalidFeature?) <==>
      PassesThroughEnergy(v) && ColorOk(v) && SizeOk(v) && ShapeOk(v) && FeaturesOk(v)
      && FirstBadFeature(Get(Get(v, "appearance"), "features").items) != -1
    ensures r.Some? && r.value.InvalidFeature? ==>
      var features := Get(Get(v, "appearance"), "features").items;
      r.value.feature == features[FirstBadFeature(features)] && !Listed(r.value.feature, ValidFeatures)
  {
    if !Readable(v) then Some(Fault)
    else if !Truthy(Get(v, "name")) || !Get(v, "name").Text? then Some(InvalidName)
    else if !Truthy(Get(v, "species")) || !Get(v, "species").Text? then Some(InvalidSpecies)
    else if !Truthy(Get(Get(v, "personality"), "traits")) || !Get(Get(v, "personality"), "traits").List? then Some(InvalidTraits)
    else if !EnergyOk(v) then Some(InvalidEnergy)
    else
      var color := Get(Get(v, "appearance"), "color");
      if !Truthy(color) then Some(InvalidColor)
      else if !color.Text? then Some(Fault)
      else if !IsHexColor(color.s) then Some(InvalidColor)
      else if !SizeOk(v) then Some(InvalidSize)
      else if !ShapeOk(v) then Some(InvalidShape)
      else if !FeaturesOk(v) then Some(InvalidFeatures)
      else
        var features := Get(Get(v, "appearance"), "features").items;
        var j := FirstBadFeature(features);
        if j == -1 then None else Some(InvalidFeature(features[j]))
  }

  // ---- The fallback creature ----

  const FallbackColors: seq<string> := ["#FF5733", "#33FF57", "#3357FF", "#FF33F7", "#F7FF33", "#33F7FF"]

  /** The `shapes` list of the fallback, as the `Shape` it names. */
  function ShapeAt(i: int): Shape
    requires 0 <= i < 5
  {
    if i == 0 then Circle else if i == 1 then Triangle else if i == 2 then Hexagon
    else if i == 3 then Diamond else Star
  }

  function ShapeName(s: Shape): (name: string)
    ensures name in ValidShapes
  {
    match s
    case Circle => "circle"
    case Triangle => "triangle"
    case Hexagon => "hexagon"
    case Diamond => "diamond"
    case Star => "star"
  }

  const FallbackTraits: seq<string> := ["curious", "social", "creative", "energetic"]

  const FallbackFeatures: seq<string> := ["glowing_eyes", "energy_aura"]

  /** `generateRandomPosition()` for the draws rx and ry. */
  function RandomPosition(rx: real, ry: real): (p: Position)
    requires Unit(rx) && Unit(ry)
    ensures 100.0 <= p.x < 1100.0 && 100.0 <= p.y < 700.0
  {
    Position(rx * 1000.0 + 100.0, ry * 600.0 + 100.0)
  }

  /** The draws of `generateFallbackEntity`, in the order they are made. */
  datatype FallbackDraws = FallbackDraws(name: real, traitDraw: real, energy: real, color: real,
                                         size: real, shape: real, feature: real, x: real, y: real)

  predicate FallbackDrawsOk(d: FallbackDraws) {
    Unit(d.name) && Unit(d.traitDraw) && Unit(d.energy) && Unit(d.color) && Unit(d.size)
    && Unit(d.shape) && Unit(d.feature) && Unit(d.x) && Unit(d.y)
  }

  /** `generateFallbackEntity(donorEmail)`, with the fresh id and the clock given. */
  function FallbackEntity(id: string, donorEmail: string, d: FallbackDraws, now: int): (e: Entity)
    requires FallbackDrawsOk(d)
    ensures e.id == id && e.donorEmail == donorEmail && e.species == "Digital Being"
    ensures e.status == Exploring && e.relationships == []
    ensures |e.personality.traits| == 1 && e.personality.traits[0] in FallbackTraits
    ensures |e.appearance.features| == 1 && e.appearance.features[0] in FallbackFeatures
    ensures e.personality.energy == e.personality.energy.Floor as real && 0.0 <= e.personality.energy <= 100.0
    ensures 0.5 <= e.appearance.size < 2.0
    ensures e.appearance.color in FallbackColors
    ensures 100.0 <= e.position.x < 1100.0 && 100.0 <= e.position.y < 700.0
    ensures e.createdAt == now && e.lastActive == now
  {
    Entity(id, "Creature-" + NatToString(Pick(d.name, 1000)), donorEmail, "Digital Being",
           Personality([FallbackTraits[Pick(d.traitDraw, 4)]], Pick(d.energy, 101) as real),
           Appearance(FallbackColors[Pick(d.color, 6)], 0.5 + d.size * 1.5, ShapeAt(Pick(d.shape, 5)),
                      [FallbackFeatures[Pick(d.feature, 2)]]),
           RandomPosition(d.x, d.y), Exploring, [], now, now)
  }

  function Texts(s: seq<string>): (r: seq<Value>)
    ensures |r| == |s| && forall i :: 0 <= i < |s| ==> r[i] == Text(s[i])
  {
    seq(|s|, i requires 0 <= i < |s| => Text(s[i]))
  }

  /** The `personality` object of a description. */
  function PersonalityValue(p: Personality): Value {
    Record(map["traits" := List(Texts(p.traits)), "energy" := Number(p.energy)])
  }

  /** The `appearance` object of a description. */
  function AppearanceValue(a: Appearance): Value {
    Record(map["color" := Text(a.color), "size" := Number(a.size),
               "shape" := Text(ShapeName(a.shape)), "features" := List(Texts(a.features))])
  }

  /** The description part of an entity, as the JSON the validator reads. */
  function Described(e: Entity): Value {
    Record(map["name" := Text(e.name), "species" := Text(e.species),
               "personality" := PersonalityValue(e.personality),
               "appearance" := AppearanceValue(e.appearance)])
  }

  lemma ReadDescribed(e: Entity)
    ensures Get(Described(e), "name") == Text(e.name)
    ensures Get(Described(e), "species") == Text(e.species)
    ensures Get(Described(e), "personality") == PersonalityValue(e.personality)
    ensures Get(Described(e), "appearance") == AppearanceValue(e.appearance)
  {
  }

  lemma ReadPersonality(p: Personality)
    ensures Get(PersonalityValue(p), "traits") == List(Texts(p.traits))
    ensures Get(PersonalityValue(p), "energy") == Number(p.energy)
  {
  }

  lemma ReadAppearance(a: Appearance)
    ensures Get(AppearanceValue(a), "color") == Text(a.color)
    ensures Get(AppearanceValue(a), "size") == Number(a.size)
    ensures Get(AppearanceValue(a), "shape") == Text(ShapeName(a.shape))
    ensures Get(AppearanceValue(a), "features") == List(Texts(a.features))
  {
  }

  /** What the schema demands of an entity's own fields. */
  predicate InSchema(e: Entity) {
    e.name != "" && e.species != ""
    && 0.0 <= e.personality.energy <= 100.0
    && IsHexColor(e.appearance.color)
    && 0.5 <= e.appearance.size <= 2.0
    && forall f :: f in e.appearance.features ==> f in ValidFeatures
  }

  /** The description of an entity passes the validator exactly when the
      entity's fields lie in the schema; its traits play no part. */
  lemma DescribedAccepted(e: Entity)
    ensures Validate(Described(e)) == None <==> InSchema(e)
  {
    AcceptableDescribed(e);
  }

  lemma AcceptableDescribed(e: Entity)
    ensures Acceptable(Described(e)) <==> InSchema(e)
  {
    ReadDescribed(e);
    ReadPersonality(e.personality);
    ReadAppearance(e.appearance);
    var features := Texts(e.appearance.features);
    assert (forall f :: f in features ==> Listed(f, ValidFeatures))
       <==> (forall f :: f in e.appearance.features ==> f in ValidFeatures) by {
      assert forall f :: f in features ==> f.Text? && f.s in e.appearance.features;
      assert forall f :: f in e.appearance.features ==> Text(f) in features;
    }
  }

  /** A creature with an unknown trait is accepted: the trait list is not
      checked against any vocabulary. */
  lemma UncheckedTraitsAccepted(e: Entity)
    requires InSchema(e) && e.personality.traits == ["grumpy"]
    ensures Validate(Described(e)) == None
  {
    DescribedAccepted(e);
  }

  /** Every fallback colour is a valid hex colour. */
  lemma FallbackColorsAreHex(i: int)
    requires 0 <= i < |FallbackColors|
    ensures IsHexColor(FallbackColors[i])
  {
    var c := FallbackColors[i];
    forall k | 1 <= k < 7
      ensures IsHexDigit(c[k])
    {
    }
  }

  /** The fallback creature passes the validator. */
  lemma FallbackPassesValidation(id: string, donorEmail: string, d: FallbackDraws, now: int)
    requires FallbackDrawsOk(d)
    ensures Validate(Described(FallbackEntity(id, donorEmail, d, now))) == None
  {
    var e := FallbackEntity(id, donorEmail, d, now);
    FallbackColorsAreHex(Pick(d.color, 6));
    assert e.appearance.features[0] in ValidFeatures;
    assert e.appearance.features == [e.appearance.features[0]];
    assert e.name != "";
    DescribedAccepted(e);
  }
}
