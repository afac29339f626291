/** The card catalog (Model/CardInfo.swift): the kinds of card, their
    pattern-matching accessors and the fixed table of registered cards. */
module Cards {

  import opened Options
  import opened AudioTracks

  /** The effects a card can exert on the mixed signal. */
  datatype CardEffectType = Reverb | Slow | Accelerate | PitchDown | PitchUp

  /** What a card does: put an instrument stem on a track, apply an effect,
      or nothing at all. */
  datatype CardType =
    | Instrument(file: string, channel: AudioTrack)
    | Effect(effect: CardEffectType)
    | Empty
  {
    /** `audioFile`: the asset name of an instrument card, nil otherwise. */
    function AudioFile(): (r: Option<string>)
      ensures r.Some? <==> Instrument?
      ensures forall f: string, t: AudioTrack :: this == Instrument(f, t) ==> r == Some(f)
    {
      if Instrument? then Some(file) else None
    }

    /** `track`: the track an instrument card plays on, nil otherwise. */
    function Track(): (r: Option<AudioTrack>)
      ensures r.Some? <==> Instrument?
      ensures forall t: AudioTrack :: r == Some(t) <==> exists f: string :: this == Instrument(f, t)
    {
      if Instrument? then Some(channel) else None
    }

    /** `effectType`: the effect of an effect card, nil otherwise. Comparing it
        with `e` is the same as comparing the card type with `.effect(e)`, the
        form the audio service's setter guards use. */
    function EffectType(): (r: Option<CardEffectType>)
      ensures r.Some? <==> Effect?
      ensures forall e: CardEffectType :: r == Some(e) <==> this == Effect(e)
    {
      if Effect? then Some(effect) else None
    }
  }

  /** A registered card: identifier reported by the board, behaviour, display
      name and icon. */
  datatype Card = Card(id: int, kind: CardType, name: string, iconName: string)

  /** Entry `id` of `Card.registeredCards`, in the order the table lists
      them. */
  function CatalogCard(id: int): (c: Card)
    requires 0 <= id < 10
    ensures c.id == id
  {
    if id == 0 then Card(0, Empty, "Vazio", "questionmark")
    else if id == 1 then Card(1, Effect(Reverb), "Reverb", "infinity")
    else if id == 2 then Card(2, Effect(Slow), "Desacerelar", "tortoise.fill")
    else if id == 3 then Card(3, Instrument("01_Groove", Groove), "Bateria e Baixo", "bolt.fill")
    else if id == 4 then Card(4, Instrument("01_Melody", Melody), "Melodia", "star.fill")
    else if id == 5 then Card(5, Instrument("01_Harmony", Harmony), "Harmonia", "fireworks")
    else if id == 6 then Card(6, Effect(Accelerate), "Acelerar", "forward.fill")
    else if id == 7 then Card(7, Instrument("", Personal), "Gravação", "microphone.fill")
    else if id == 8 then Card(8, Effect(PitchUp), "Pitch up", "balloon.fill")
    else Card(9, Effect(PitchDown), "Pitch down", "water.waves.and.arrow.trianglehead.down")
  }

  /** `Card.registeredCards`: the ten entries in table order. The entry at
      index i has id i, so ids are unique. */
  function RegisteredCards(): (r: seq<Card>)
    ensures |r| == 10
    ensures forall i :: 0 <= i < |r| ==> r[i] == CatalogCard(i) && r[i].id == i
  {
    seq(10, i requires 0 <= i < 10 => CatalogCard(i))
  }

  /** The empty card is id 0 and no other. */
  lemma EmptyCardIsIdZero(id: int)
    requires 0 <= id < 10
    ensures CatalogCard(id).kind == Empty <==> id == 0
  {
  }

  /** The kind of each catalog entry, by id. */
  lemma CatalogKinds()
    ensures CatalogCard(0).kind == Empty
    ensures CatalogCard(1).kind == Effect(Reverb) && CatalogCard(2).kind == Effect(Slow)
    ensures CatalogCard(3).kind == Instrument("01_Groove", Groove)
    ensures CatalogCard(4).kind == Instrument("01_Melody", Melody)
    ensures CatalogCard(5).kind == Instrument("01_Harmony", Harmony)
    ensures CatalogCard(6).kind == Effect(Accelerate)
    ensures CatalogCard(7).kind == Instrument("", Personal)
    ensures CatalogCard(8).kind == Effect(PitchUp) && CatalogCard(9).kind == Effect(PitchDown)
  {
  }

  /** The personal-recording card names no asset. */
  lemma PersonalCardHasNoAsset()
    ensures RegisteredCards()[7].kind == Instrument("", Personal)
  {
  }

  /** The id of the one instrument card of each track. */
  function TrackCardId(t: AudioTrack): nat
  {
    match t
    case Groove => 3
    case Melody => 4
    case Harmony => 5
    case Personal => 7
  }

  /** The id of the one effect card of each effect. */
  function EffectCardId(e: CardEffectType): nat
  {
    match e
    case Reverb => 1
    case Slow => 2
    case Accelerate => 6
    case PitchUp => 8
    case PitchDown => 9
  }

  /** Every track has exactly one instrument card in the catalog. */
  lemma TrackCardsUnique(t: AudioTrack)
    ensures forall i :: 0 <= i < |RegisteredCards()| ==>
      (RegisteredCards()[i].kind.Track() == Some(t) <==> i == TrackCardId(t))
  {
  }

  /** Every effect has exactly one effect card in the catalog. */
  lemma EffectCardsUnique(e: CardEffectType)
    ensures forall i :: 0 <= i < |RegisteredCards()| ==>
      (RegisteredCards()[i].kind.EffectType() == Some(e) <==> i == EffectCardId(e))
  {
  }

  /** Track and audio file are present exactly for instruments, the effect
      exactly for effects; no card has both a track and an effect, and the
      empty card has neither. */
  lemma AccessorsExclusive(k: CardType)
    ensures k.Track().Some? == k.AudioFile().Some?
    ensures !(k.Track().Some? && k.EffectType().Some?)
    ensures k == Empty ==> k.Track().None? && k.EffectType().None? && k.AudioFile().None?
  {
  }

  /** `first { $0.id == id }`: a card of `cards` carrying `id`, none exactly
      when no card carries it. */
  function FindById(cards: seq<Card>, id: int): (r: Option<Card>)
    ensures r.Some? ==> r.value in cards && r.value.id == id
    ensures r.None? <==> forall k :: 0 <= k < |cards| ==> cards[k].id != id
  {
    if cards == [] then None
    else if cards[0].id == id then Some(cards[0])
    else FindById(cards[1..], id)
  }

  /** The card found is the first one carrying `id`: it sits at an index
      before which no card carries that id. */
  lemma {:induction false} FindByIdFirst(cards: seq<Card>, id: int)
    ensures FindById(cards, id).Some? ==>
      exists k :: 0 <= k < |cards| && cards[k] == FindById(cards, id).value &&
                  forall j :: 0 <= j < k ==> cards[j].id != id
    decreases |cards|
  {
    if cards != [] && cards[0].id != id && FindById(cards, id).Some? {
      FindByIdFirst(cards[1..], id);
      var k :| 0 <= k < |cards[1..]| && cards[1..][k] == FindById(cards, id).value &&
               forall j :: 0 <= j < k ==> cards[1..][j].id != id;
      assert cards[k + 1] == FindById(cards, id).value;
      assert forall j :: 0 <= j < k + 1 ==> cards[j].id != id by {
        forall j | 0 <= j < k + 1 ensures cards[j].id != id {
          if j > 0 { assert cards[j] == cards[1..][j - 1]; }
        }
      }
    }
  }

  lemma {:induction false} FindByIdIndexed(cards: seq<Card>, base: int, id: int)
    requires forall i :: 0 <= i < |cards| ==> cards[i].id == base + i
    ensures FindById(cards, id) ==
      if base <= id < base + |cards| then Some(cards[id - base]) else None
    decreases |cards|
  {
    if cards != [] && cards[0].id != id {
      FindByIdIndexed(cards[1..], base + 1, id);
    }
  }

  /** Each registered card sits at the index of its own id. */
  lemma CatalogCardsAtTheirIds()
    ensures forall c :: c in RegisteredCards() ==> 0 <= c.id < 10 && RegisteredCards()[c.id] == c
  {
  }

  /** Looking a card up by id in the catalog is indexing the catalog. */
  lemma {:induction false} CatalogLookupIsIndex(id: int)
    ensures FindById(RegisteredCards(), id) ==
      if 0 <= id < 10 then Some(RegisteredCards()[id]) else None
  {
    FindByIdIndexed(RegisteredCards(), 0, id);
  }

}
