/** The decorative random attributes `_random_attrs` attaches to every
    annotation (annotations.py lines 27-48). The random draws and the clock
    reading are not performed here: they arrive as a `Draws` record. */
module Decorations {
  import opened Text
  import opened Attributes

  const Prefix := "x-random-"
  const UuidKey := "x-random-uuid"
  const EmojiKey := "x-random-emoji"
  const PowerKey := "x-random-power"
  const TsKey := "x-random-ts"
  const SeedKey := "x-random-seed"
  const EggKey := "x-random-easter-egg"

  const EggMessage := "may_the_force_be_with_you"

  /** The keys present whenever randomization is on. */
  const BaseKeys: set<string> := {UuidKey, EmojiKey, PowerKey, TsKey, SeedKey}

  const MinPower := 1
  const MaxPower := 9000
  const SeedBound := 0x1_0000_0000

  /** The nine markers `random.choice` picks from. */
  const Emojis: seq<string> := [
    "\U{2728}", "\U{1F525}", "\U{1F308}", "\U{1F6F0}\U{FE0F}", "\U{1F984}",
    "\U{1F4AB}", "\U{1F916}", "\U{1F340}", "\U{2615}"
  ]

  /** One call's worth of draws: `uuid4()` as text, the index `random.choice`
      picked, `randint(1, 9000)`, `time.time()`, `getrandbits(32)`, and
      whether `random.random() < 0.05` held. */
  datatype Draws = Draws(uuid: string, emoji: nat, power: int, ts: real, seed: int, egg: bool) {

    /** The ranges Python's `random` module promises for these draws. */
    predicate Valid() {
      && emoji < |Emojis|
      && MinPower <= power <= MaxPower
      && 0 <= seed < SeedBound
    }
  }

  /** `_random_attrs()`: nothing when randomization is off, otherwise the five
      base keys plus the easter egg when its draw succeeded. */
  function RandomAttrs(randomize: bool, d: Draws): (r: Attrs)
    requires d.Valid()
    ensures !randomize ==> r == map[]
    ensures randomize ==> r.Keys == BaseKeys + (if d.egg then {EggKey} else {})
    ensures forall k :: k in r ==> StartsWith(k, Prefix)
    ensures PowerKey in r ==> r[PowerKey].Int? && MinPower <= r[PowerKey].i <= MaxPower
    ensures SeedKey in r ==> r[SeedKey].Int? && 0 <= r[SeedKey].i < SeedBound
    ensures EmojiKey in r ==> r[EmojiKey].Str? && r[EmojiKey].s in Emojis
    ensures EggKey in r ==> r[EggKey] == Str(EggMessage)
  {
    if !randomize then map[]
    else
      var base := map[
        UuidKey := Str(d.uuid),
        EmojiKey := Str(Emojis[d.emoji]),
        PowerKey := Int(d.power),
        TsKey := Float(d.ts),
        SeedKey := Int(d.seed)
      ];
      if d.egg then base[EggKey := Str(EggMessage)] else base
  }

  /** Only the egg draw decides the key set; the other draws only fill in values. */
  lemma KeysIgnoreValueDraws(randomize: bool, d: Draws, e: Draws)
    requires d.Valid() && e.Valid()
    ensures RandomAttrs(randomize, d).Keys == RandomAttrs(randomize, e).Keys <==> !randomize || d.egg == e.egg
  {
    if randomize && d.egg != e.egg {
      assert EggKey !in BaseKeys;
    }
  }
}
