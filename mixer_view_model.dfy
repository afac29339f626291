/** The mixer's view model (ViewModels/MixerViewModel.swift): it turns the
    six slot ids reported by the board into the list of active cards, keeps
    the per-slot status, guards the personal recording behind a file import,
    forwards the control values to the audio service and hands it the set of
    active cards. */
module Mixer {

  import opened Options
  import opened AudioTracks
  import opened Cards
  import opened AudioGraph
  import Audio
  import Bluetooth
  import EffectsDefaults

  type Default = EffectsDefaults.EffectsDefaultValue

  // ---------------------------------------------------------------------
  // From slot ids to cards (the filter and compactMap of updateActiveCards)

  /** `slots.filter { $0 > -1 }`: the non-negative ids, in order. */
  function ValidIds(slots: seq<int>): (r: seq<int>)
    ensures |r| <= |slots|
    ensures forall k :: 0 <= k < |r| ==> r[k] >= 0
    ensures forall k :: 0 <= k < |r| ==> r[k] in slots
    ensures (forall k :: 0 <= k < |slots| ==> slots[k] >= 0) ==> r == slots
  {
    if slots == [] then []
    else
      var rest := ValidIds(slots[1..]);
      assert forall k :: 0 <= k < |rest| ==> rest[k] in slots[1..];
      if slots[0] > -1 then [slots[0]] + rest else rest
  }

  /** `compactMap { id in availableCards.first { $0.id == id } }`: each id
      replaced by the first card of `available` carrying it, ids without one
      dropped. */
  function LookUpCards(available: seq<Card>, ids: seq<int>): (r: seq<Card>)
    ensures |r| <= |ids|
  {
    if ids == [] then []
    else
      match FindById(available, ids[0])
      case Some(card) => [card] + LookUpCards(available, ids[1..])
      case None => LookUpCards(available, ids[1..])
  }

  /** The new list of active cards computed from the slots; the view model's
      `availableCards` is the registered catalog. */
  function ResolveCards(slots: seq<int>): (r: seq<Card>)
    ensures |r| <= |slots|
  {
    LookUpCards(RegisteredCards(), ValidIds(slots))
  }

  /** Every card looked up is a card of `available`. */
  lemma {:induction false} LookUpCardsFromAvailable(available: seq<Card>, ids: seq<int>)
    ensures forall k :: 0 <= k < |LookUpCards(available, ids)| ==> LookUpCards(available, ids)[k] in available
    decreases |ids|
  {
    if ids != [] {
      LookUpCardsFromAvailable(available, ids[1..]);
    }
  }

  /** When every id is found, the lookup keeps one card per id, in order:
      the card for the k-th id is the first card carrying it. */
  lemma {:induction false} LookUpCardsAllFound(available: seq<Card>, ids: seq<int>)
    requires forall k :: 0 <= k < |ids| ==> FindById(available, ids[k]).Some?
    ensures |LookUpCards(available, ids)| == |ids|
    ensures forall k :: 0 <= k < |ids| ==> LookUpCards(available, ids)[k] == FindById(available, ids[k]).value
    decreases |ids|
  {
    if ids != [] {
      assert FindById(available, ids[0]).Some?;
      LookUpCardsAllFound(available, ids[1..]);
      forall k | 1 <= k < |ids| ensures LookUpCards(available, ids)[k] == FindById(available, ids[k]).value {
        assert ids[1..][k - 1] == ids[k];
      }
    }
  }

  /** Every active card is a registered card, found at its id: negative ids
      and ids outside the catalog leave nothing behind. */
  lemma ResolvedAreCatalogCards(slots: seq<int>)
    ensures forall k :: 0 <= k < |ResolveCards(slots)| ==>
      0 <= ResolveCards(slots)[k].id < 10 && ResolveCards(slots)[k] == RegisteredCards()[ResolveCards(slots)[k].id]
  {
    LookUpCardsFromAvailable(RegisteredCards(), ValidIds(slots));
    CatalogCardsAtTheirIds();
  }

  lemma {:induction false} ValidIdsAppend(a: seq<int>, b: seq<int>)
    ensures ValidIds(a + b) == ValidIds(a) + ValidIds(b)
    decreases |a|
  {
    if a == [] {
      assert a + b == b;
    } else {
      assert (a + b)[1..] == a[1..] + b;
      ValidIdsAppend(a[1..], b);
    }
  }

  lemma {:induction false} LookUpCardsAppend(available: seq<Card>, a: seq<int>, b: seq<int>)
    ensures LookUpCards(available, a + b) == LookUpCards(available, a) + LookUpCards(available, b)
    decreases |a|
  {
    if a == [] {
      assert a + b == b;
    } else {
      assert (a + b)[1..] == a[1..] + b;
      LookUpCardsAppend(available, a[1..], b);
    }
  }

  /** Resolving is done slot by slot and keeps the slots' order: the cards of
      two runs of slots are the cards of the first followed by those of the
      second. */
  lemma ResolveCardsAppend(a: seq<int>, b: seq<int>)
    ensures ResolveCards(a + b) == ResolveCards(a) + ResolveCards(b)
  {
    ValidIdsAppend(a, b);
    LookUpCardsAppend(RegisteredCards(), ValidIds(a), ValidIds(b));
  }

  /** One slot resolves to the catalog card with its id, or to nothing when
      the id is negative or has no catalog entry. */
  lemma ResolveOneSlot(id: int)
    ensures ResolveCards([id]) == if 0 <= id < 10 then [RegisteredCards()[id]] else []
  {
    CatalogLookupIsIndex(id);
    assert [id][1..] == [];
    if id > -1 {
      assert ValidIds([id]) == [id];
      assert LookUpCards(RegisteredCards(), [id]) == (if 0 <= id < 10 then [RegisteredCards()[id]] else []) + LookUpCards(RegisteredCards(), []);
    }
  }

  /** When every slot holds a catalog id, the active cards run parallel to
      the slots: same length, and index k holds the catalog card of slot k+1. */
  lemma ResolveCatalogSlots(slots: seq<int>)
    requires forall k :: 0 <= k < |slots| ==> 0 <= slots[k] < 10
    ensures |ResolveCards(slots)| == |slots|
    ensures forall k :: 0 <= k < |slots| ==>
      ResolveCards(slots)[k] == CatalogCard(slots[k]) && ResolveCards(slots)[k].id == slots[k]
  {
    assert ValidIds(slots) == slots;
    forall k | 0 <= k < |slots| ensures FindById(RegisteredCards(), slots[k]) == Some(CatalogCard(slots[k])) {
      CatalogLookupIsIndex(slots[k]);
    }
    LookUpCardsAllFound(RegisteredCards(), slots);
  }

  /** The set handed to the audio service (`Set(newCardSet)`). */
  function CardSet(cards: seq<Card>): (r: set<Card>)
    ensures forall c :: c in r <==> c in cards
  {
    set c | c in cards
  }

  /** `contains { $0.type.track == .personal }`. */
  predicate HasPersonalCard(cards: seq<Card>)
  {
    exists k :: 0 <= k < |cards| && cards[k].kind.Track() == Some(Personal)
  }

  /** The personal gate and the audio service look at the same thing: a
      personal card is in the list exactly when the service's set has a card
      targeting the personal track. */
  lemma PersonalGateAgrees(cards: seq<Card>)
    ensures HasPersonalCard(cards) <==> Audio.Targets(CardSet(cards), Personal)
  {
    if Audio.Targets(CardSet(cards), Personal) {
      var c :| c in CardSet(cards) && c.kind.Track() == Some(Personal);
      var k :| 0 <= k < |cards| && cards[k] == c;
    }
  }

  /** An effect is listed among the cards exactly when the audio service's
      set has it active. */
  lemma EffectQueryAgrees(cards: seq<Card>, e: CardEffectType)
    ensures (exists k :: 0 <= k < |cards| && cards[k].kind.EffectType() == Some(e))
            <==> EffectActive(CardSet(cards), e)
  {
    if EffectActive(CardSet(cards), e) {
      var c :| c in CardSet(cards) && c.kind.EffectType() == Some(e);
      var k :| 0 <= k < |cards| && cards[k] == c;
    }
  }

  // ---------------------------------------------------------------------
  // Slot status, icons and presets

  /** The slot numbers that `activeSlots` starts with and keeps. */
  function SlotNumbers(): (r: set<int>)
    ensures forall s :: s in r <==> 1 <= s <= 6
  {
    {1, 2, 3, 4, 5, 6}
  }

  /** `activeSlots` agrees with `activeCards`: each slot is on exactly when
      the card at its position is not the empty card. */
  predicate SlotsShow(activeSlots: map<int, bool>, activeCards: seq<Card>)
  {
    forall s :: s in activeSlots ==> 1 <= s <= |activeCards| && activeSlots[s] == (activeCards[s - 1].kind != Empty)
  }

  /** For six catalog ids, slot s is shown as on exactly when its id is not
      0, the empty card. */
  lemma SlotOnIffNonEmptyId(slots: seq<int>, s: int)
    requires |slots| == 6 && forall k :: 0 <= k < 6 ==> 0 <= slots[k] < 10
    requires 1 <= s <= 6
    ensures |ResolveCards(slots)| == 6
    ensures (ResolveCards(slots)[s - 1].kind != Empty) <==> slots[s - 1] != 0
  {
    ResolveCatalogSlots(slots);
    EmptyCardIsIdZero(slots[s - 1]);
  }

  /** `getIcon(forSlot:)` over a list of cards. The guard admits every slot
      number up to the catalog size (10), so slots beyond the list would
      trap; that is the precondition. */
  function IconFor(cards: seq<Card>, slotNum: int): (r: string)
    requires 1 <= slotNum <= |RegisteredCards()| ==> slotNum <= |cards|
  {
    if 1 <= slotNum <= |RegisteredCards()| then cards[slotNum - 1].iconName else "minus"
  }

  /** For slots of catalog ids, the icon of slot s is the icon of the card
      with that slot's id; any number outside 1...10 shows "minus". */
  lemma IconOfSlot(slots: seq<int>, s: int)
    requires forall k :: 0 <= k < |slots| ==> 0 <= slots[k] < 10
    requires 1 <= s <= 10 ==> s <= |slots|
    ensures |ResolveCards(slots)| == |slots|
    ensures IconFor(ResolveCards(slots), s) ==
      if 1 <= s <= 10 then RegisteredCards()[slots[s - 1]].iconName else "minus"
  {
    ResolveCatalogSlots(slots);
  }

  /** `defaultReverbPresets`: display name to factory preset. */
  function DefaultReverbPresets(): map<string, ReverbPreset>
  {
    map[
      "Quarto Pequeno" := SmallRoom,
      "Quarto Grande" := LargeRoom,
      "Catedral" := Cathedral,
      "Corredor Grande" := LargeHall
    ]
  }

  /** `defaultReverbPresets[name] ?? .cathedral`. */
  function PresetFor(name: string): (r: ReverbPreset)
    ensures name in DefaultReverbPresets() ==> r == DefaultReverbPresets()[name]
    ensures name !in DefaultReverbPresets() ==> r == Cathedral
  {
    if name in DefaultReverbPresets() then DefaultReverbPresets()[name] else Cathedral
  }

  /** Every preset is offered under exactly one name, and a name outside the
      list falls back to the cathedral. */
  lemma PresetNamesCoverPresets(p: ReverbPreset, name: string)
    ensures exists n :: n in DefaultReverbPresets() && DefaultReverbPresets()[n] == p
    ensures name !in DefaultReverbPresets() ==> PresetFor(name) == Cathedral
    ensures forall n, m :: (n in DefaultReverbPresets() && m in DefaultReverbPresets() &&
                            DefaultReverbPresets()[n] == DefaultReverbPresets()[m]) ==> n == m
  {
    match p
    case SmallRoom => assert DefaultReverbPresets()["Quarto Pequeno"] == p;
    case LargeRoom => assert DefaultReverbPresets()["Quarto Grande"] == p;
    case Cathedral => assert DefaultReverbPresets()["Catedral"] == p;
    case LargeHall => assert DefaultReverbPresets()["Corredor Grande"] == p;
  }

  // ---------------------------------------------------------------------
  // From the board's payload to the cards

  /** A payload of six digits becomes six active cards, the k-th being the
      catalog card of the k-th digit, so the slot-status update can index
      all six slots. */
  lemma SixDigitPayloadResolves(payload: string)
    requires |payload| == 6 && forall k :: 0 <= k < 6 ==> Bluetooth.IsDigit(payload[k])
    ensures |ResolveCards(Bluetooth.GetSlotsCard(Some(payload)))| == 6
    ensures forall k :: 0 <= k < 6 ==>
      ResolveCards(Bluetooth.GetSlotsCard(Some(payload)))[k].id == payload[k] as int - '0' as int
  {
    Bluetooth.SixDigitPayload(payload);
    ResolveCatalogSlots(Bluetooth.GetSlotsCard(Some(payload)));
  }

  /** Before any payload arrives the six slots resolve to six empty cards. */
  lemma NoPayloadResolvesEmpty()
    ensures |ResolveCards(Bluetooth.GetSlotsCard(None))| == 6
    ensures forall k :: 0 <= k < 6 ==>
      ResolveCards(Bluetooth.GetSlotsCard(None))[k].id == 0 &&
      ResolveCards(Bluetooth.GetSlotsCard(None))[k].kind == Empty
  {
    var slots := Bluetooth.GetSlotsCard(None);
    assert |slots| == 6 && forall k :: 0 <= k < 6 ==> slots[k] == 0;
    ResolveCatalogSlots(slots);
    assert RegisteredCards()[0].id == 0 && RegisteredCards()[0].kind == Empty;
  }

  /** A payload with fewer than six digits (one with none at all decodes to
      the empty list) yields fewer than six cards, which the slot-status
      update of the view model cannot index. */
  lemma ShortPayloadCannotBeShown(payload: string)
    requires |Bluetooth.GetSlotsCard(Some(payload))| < 6
    ensures |ResolveCards(Bluetooth.GetSlotsCard(Some(payload)))| < 6
  {
  }

  /** The simulated slots of the mockup board always resolve to six cards. */
  lemma MockupSlotsResolve(b: Bluetooth.BluetoothService, session: Bluetooth.Session)
    requires b.Valid() && b.mockup
    ensures |ResolveCards(b.SlotCards(session))| == 6
  {
    ResolveCatalogSlots(b.SlotCards(session));
  }

  // ---------------------------------------------------------------------
  // Whole-pipeline scenarios

  /** An effect whose card kind is absent from the set is not active. */
  lemma {:induction false} EffectAbsent(cards: set<Card>, kinds: set<CardType>, e: CardEffectType)
    requires forall c :: c in cards ==> c.kind in kinds
    requires Effect(e) !in kinds
    ensures !EffectActive(cards, e)
  {
    forall c | c in cards ensures c.kind.EffectType() != Some(e) {
      assert c.kind in kinds;
    }
  }

  /** A track that no kind in the set plays on is not targeted. */
  lemma {:induction false} TrackAbsent(cards: set<Card>, kinds: set<CardType>, t: AudioTrack)
    requires forall c :: c in cards ==> c.kind in kinds
    requires forall k :: k in kinds ==> k.Track() != Some(t)
    ensures !Audio.Targets(cards, t)
  {
    forall c | c in cards ensures c.kind.Track() != Some(t) {
      assert c.kind in kinds;
    }
  }

  /** The cards of slots [3, 0, 0, 0, 0, 0]: the groove card, then empty
      cards. */
  lemma GrooveOnlyCards(slots: seq<int>)
    requires |slots| == 6 && slots[0] == 3 && forall k :: 1 <= k < 6 ==> slots[k] == 0
    ensures |ResolveCards(slots)| == 6
    ensures ResolveCards(slots)[0].kind == Instrument("01_Groove", Groove)
    ensures forall k :: 1 <= k < 6 ==> ResolveCards(slots)[k].kind == Empty
  {
    ResolveCatalogSlots(slots);
    assert ResolveCards(slots)[0] == CatalogCard(3);
    CatalogKinds();
    forall k | 1 <= k < 6 ensures ResolveCards(slots)[k].kind == Empty {
      assert ResolveCards(slots)[k] == CatalogCard(0);
    }
  }

  /** Handed a groove card and empty cards, the service targets the
      groove track only and activates no effect. */
  lemma GrooveCardsOnlyGroove(r: seq<Card>, up: real, down: real, slow: real, fast: real, mix: real)
    requires |r| == 6 && r[0].kind == Instrument("01_Groove", Groove)
    requires forall k :: 1 <= k < 6 ==> r[k].kind == Empty
    ensures var cards := CardSet(r);
      && Audio.Targets(cards, Groove) && !Audio.Targets(cards, Melody)
      && !Audio.Targets(cards, Harmony) && !Audio.Targets(cards, Personal)
      && TargetPitch(cards, up, down) == 0.0 && TargetRate(cards, slow, fast) == 1.0
      && TargetMix(cards, mix) == 0.0
  {
    var cards := CardSet(r);
    var kinds := {Empty, Instrument("01_Groove", Groove)};
    forall c | c in cards ensures c.kind in kinds {
      var k :| 0 <= k < 6 && r[k] == c;
    }
    assert r[0] in cards;
    TrackAbsent(cards, kinds, Melody);
    TrackAbsent(cards, kinds, Harmony);
    TrackAbsent(cards, kinds, Personal);
    forall e: CardEffectType ensures !EffectActive(cards, e) {
      EffectAbsent(cards, kinds, e);
    }
  }

  /** Slots [3, 0, 0, 0, 0, 0]: only the groove track is targeted, no effect
      is active, so the rate stays 1 and the pitch 0. */
  lemma GrooveOnlyScenario(slots: seq<int>, up: real, down: real, slow: real, fast: real, mix: real)
    requires |slots| == 6 && slots[0] == 3 && forall k :: 1 <= k < 6 ==> slots[k] == 0
    ensures var cards := CardSet(ResolveCards(slots));
      && Audio.Targets(cards, Groove) && !Audio.Targets(cards, Melody)
      && !Audio.Targets(cards, Harmony) && !Audio.Targets(cards, Personal)
      && TargetPitch(cards, up, down) == 0.0 && TargetRate(cards, slow, fast) == 1.0
      && TargetMix(cards, mix) == 0.0
  {
    GrooveOnlyCards(slots);
    GrooveCardsOnlyGroove(ResolveCards(slots), up, down, slow, fast, mix);
  }

  /** The cards of slots [8, 9, 0, 0, 0, 0]: pitch up, pitch down, then
      empty cards. */
  lemma PitchCancelCards(slots: seq<int>)
    requires |slots| == 6 && slots[0] == 8 && slots[1] == 9 && forall k :: 2 <= k < 6 ==> slots[k] == 0
    ensures |ResolveCards(slots)| == 6
    ensures ResolveCards(slots)[0].kind == Effect(PitchUp) && ResolveCards(slots)[1].kind == Effect(PitchDown)
    ensures forall k :: 2 <= k < 6 ==> ResolveCards(slots)[k].kind == Empty
  {
    ResolveCatalogSlots(slots);
    assert ResolveCards(slots)[0] == CatalogCard(8) && ResolveCards(slots)[1] == CatalogCard(9);
    CatalogKinds();
    forall k | 2 <= k < 6 ensures ResolveCards(slots)[k].kind == Empty {
      assert ResolveCards(slots)[k] == CatalogCard(0);
    }
  }

  /** Handed both pitch cards and empty cards, the service leaves the pitch
      at 0 (the two cancel) and the rate at 1, and targets no track. */
  lemma PitchCardsCancel(r: seq<Card>, up: real, down: real, slow: real, fast: real)
    requires |r| == 6 && r[0].kind == Effect(PitchUp) && r[1].kind == Effect(PitchDown)
    requires forall k :: 2 <= k < 6 ==> r[k].kind == Empty
    ensures var cards := CardSet(r);
      && TargetPitch(cards, up, down) == 0.0 && TargetRate(cards, slow, fast) == 1.0
      && forall t: AudioTrack :: !Audio.Targets(cards, t)
  {
    var cards := CardSet(r);
    var kinds := {Empty, Effect(PitchUp), Effect(PitchDown)};
    forall c | c in cards ensures c.kind in kinds {
      var k :| 0 <= k < 6 && r[k] == c;
    }
    assert r[0] in cards && r[1] in cards;
    assert EffectActive(cards, PitchUp) && EffectActive(cards, PitchDown);
    EffectAbsent(cards, kinds, Slow);
    EffectAbsent(cards, kinds, Accelerate);
    forall t: AudioTrack ensures !Audio.Targets(cards, t) {
      TrackAbsent(cards, kinds, t);
    }
  }

  /** Slots [8, 9, 0, 0, 0, 0]: pitch up and pitch down cancel, so the pitch
      is 0, and no track is targeted. */
  lemma PitchCancelScenario(slots: seq<int>, up: real, down: real, slow: real, fast: real)
    requires |slots| == 6 && slots[0] == 8 && slots[1] == 9 && forall k :: 2 <= k < 6 ==> slots[k] == 0
    ensures var cards := CardSet(ResolveCards(slots));
      && TargetPitch(cards, up, down) == 0.0 && TargetRate(cards, slow, fast) == 1.0
      && forall t: AudioTrack :: !Audio.Targets(cards, t)
  {
    PitchCancelCards(slots);
    PitchCardsCancel(ResolveCards(slots), up, down, slow, fast);
  }

  // ---------------------------------------------------------------------
  // The view model

  class MixerViewModel {
    const audioService: Audio.AudioService

    var activeSlots: map<int, bool>
    var selectedReverb: ReverbPreset
    var reverbIntensity: real
    var volumeValue: real
    var pitchUpValue: real
    var pitchDownValue: real
    var slowIntensity: real
    var accelerateIntensity: real
    var selectedViewReverb: string
    var personalAudioURL: Option<Url>
    var activeCards: seq<Card>
    var isShowingFileImporter: bool

    /** The service is valid; the slots are numbered 1 to 6 and, once cards
        have been assigned, show them (before that the list is empty and
        every slot off). The view model's imported file and the service's
        need not agree: the service outlives the view model, so a new view
        model starts without a file while the service may still hold one. */
    ghost predicate Valid()
      reads this, audioService
    {
      && audioService.Valid()
      && activeSlots.Keys == SlotNumbers()
      && (if activeCards == [] then forall s :: s in activeSlots ==> !activeSlots[s]
          else SlotsShow(activeSlots, activeCards))
    }

    /** `init(audioService:)`. Property observers do not run during
        initialisation, so nothing is forwarded to the service: whatever file
        the service already holds stays there, while the view model starts
        without one. */
    constructor (audioService: Audio.AudioService)
      requires audioService.Valid()
      ensures Valid() && this.audioService == audioService
      ensures audioService.personalAudioURL == old(audioService.personalAudioURL)
      ensures activeCards == [] && !isShowingFileImporter && personalAudioURL == None
      ensures activeSlots == map s | s in SlotNumbers() :: false
      ensures selectedReverb == Cathedral && selectedViewReverb == "Catedral"
      ensures reverbIntensity == Default.ReverbWetDry.RawValue() && volumeValue == Default.Volume.RawValue()
      ensures pitchUpValue == Default.PitchUp.RawValue() && pitchDownValue == Default.PitchDown.RawValue()
      ensures slowIntensity == Default.Slow.RawValue() && accelerateIntensity == Default.Accelerate.RawValue()
    {
      this.audioService := audioService;
      activeSlots := map s | s in SlotNumbers() :: false;
      reverbIntensity := Default.ReverbWetDry.RawValue();
      volumeValue := Default.Volume.RawValue();
      pitchUpValue := Default.PitchUp.RawValue();
      pitchDownValue := Default.PitchDown.RawValue();
      slowIntensity := Default.Slow.RawValue();
      accelerateIntensity := Default.Accelerate.RawValue();
      selectedReverb := Cathedral;
      selectedViewReverb := "Catedral";
      personalAudioURL := None;
      activeCards := [];
      isShowingFileImporter := false;
    }

    /** `updateSlotStatus()`: every slot of the dictionary, in whatever order
        the dictionary yields them, is set to whether the card at its
        position is non-empty. Indexing traps unless every slot number is a
        position of `activeCards`. */
    method UpdateSlotStatus()
      requires forall s :: s in activeSlots ==> 1 <= s <= |activeCards|
      modifies this`activeSlots
      ensures activeSlots.Keys == old(activeSlots.Keys)
      ensures SlotsShow(activeSlots, activeCards)
    {
      var pending := activeSlots.Keys;
      while pending != {}
        invariant pending <= activeSlots.Keys && activeSlots.Keys == old(activeSlots.Keys)
        invariant forall s :: s in activeSlots && s !in pending ==>
          1 <= s <= |activeCards| && activeSlots[s] == (activeCards[s - 1].kind != Empty)
        decreases pending
      {
        var slotNum :| slotNum in pending;
        if activeCards[slotNum - 1].kind != Empty {
          activeSlots := activeSlots[slotNum := true];
        } else {
          activeSlots := activeSlots[slotNum := false];
        }
        pending := pending - {slotNum};
      }
    }

    /** Assigning `activeCards`, which runs its observer `updateSlotStatus`. */
    method SetActiveCards(cards: seq<Card>)
      requires Valid() && |cards| >= 6
      modifies this`activeCards, this`activeSlots
      ensures Valid() && activeCards == cards
      ensures forall s :: 1 <= s <= 6 ==> s in activeSlots && activeSlots[s] == (cards[s - 1].kind != Empty)
    {
      activeCards := cards;
      UpdateSlotStatus();
    }

    /** Assigning `personalAudioURL`, whose observer forwards it to the
        service. */
    method SetPersonalAudioURL(url: Option<Url>)
      requires Valid()
      modifies this`personalAudioURL, audioService`personalAudioURL
      ensures Valid() && personalAudioURL == url && audioService.personalAudioURL == url
    {
      personalAudioURL := url;
      audioService.personalAudioURL := url;
    }

    /** The personal-recording gate of `updateActiveCards`: with a personal
        card present, an imported file is handed to the service, and without
        one the importer is asked for; with no personal card the imported
        file is forgotten, on both sides, and the importer dismissed. While
        the importer is asked for, the service keeps whatever file it held. */
    method GatePersonalRecording(cards: seq<Card>)
      requires Valid()
      modifies this`personalAudioURL, this`isShowingFileImporter, audioService`personalAudioURL
      ensures Valid()
      ensures HasPersonalCard(cards) && old(personalAudioURL).None? ==>
        && isShowingFileImporter && personalAudioURL == None
        && audioService.personalAudioURL == old(audioService.personalAudioURL)
      ensures HasPersonalCard(cards) && old(personalAudioURL).Some? ==>
        && personalAudioURL == old(personalAudioURL) && audioService.personalAudioURL == personalAudioURL
        && isShowingFileImporter == old(isShowingFileImporter)
      ensures !HasPersonalCard(cards) ==>
        personalAudioURL == None && audioService.personalAudioURL == None && !isShowingFileImporter
    {
      var personalCardWasAdded := exists k :: 0 <= k < |cards| && cards[k].kind.Track() == Some(Personal);
      if personalCardWasAdded {
        if personalAudioURL.Some? {
          audioService.personalAudioURL := personalAudioURL;
        } else {
          isShowingFileImporter := true;
        }
      } else {
        SetPersonalAudioURL(None);
        audioService.personalAudioURL := None;
        isShowingFileImporter := false;
      }
    }

    /** The part of `updateActiveCards(from:)` before the service is handed
        the cards: the slots become the active cards (slot status updated)
        and the personal recording is gated. Of the service, only its file
        may change. */
    method AssignActiveCards(slots: seq<int>)
      requires Valid() && |ResolveCards(slots)| >= 6
      modifies this`activeCards, this`activeSlots, this`personalAudioURL, this`isShowingFileImporter,
               audioService`personalAudioURL
      ensures Valid()
      ensures activeCards == ResolveCards(slots)
      ensures forall s :: 1 <= s <= 6 ==> activeSlots[s] == (activeCards[s - 1].kind != Empty)
      ensures HasPersonalCard(activeCards) && old(personalAudioURL).None? ==>
        && isShowingFileImporter && personalAudioURL == None
        && audioService.personalAudioURL == old(audioService.personalAudioURL)
      ensures HasPersonalCard(activeCards) && old(personalAudioURL).Some? ==>
        && personalAudioURL == old(personalAudioURL) && audioService.personalAudioURL == personalAudioURL
        && isShowingFileImporter == old(isShowingFileImporter)
      ensures !HasPersonalCard(activeCards) ==>
        personalAudioURL == None && audioService.personalAudioURL == None && !isShowingFileImporter
    {
      var newCardSet := ResolveCards(slots);
      SetActiveCards(newCardSet);
      GatePersonalRecording(newCardSet);
    }

    /** `updateActiveCards(from:)`: the slots become the active cards (slot
        status updated), the personal recording is gated, and the service is
        handed the set of active cards, whose tracks and effects it then
        reconciles. Six resolved cards are needed, or the slot-status update
        traps. */
    method UpdateActiveCards(slots: seq<int>)
      requires Valid() && |ResolveCards(slots)| >= 6
      modifies this`activeCards, this`activeSlots, this`personalAudioURL, this`isShowingFileImporter,
               audioService`personalAudioURL, audioService`cardsPlayed, audioService`nodes,
               audioService`ops, audioService`audioBufferCache, audioService`loads
      ensures Valid()
      ensures activeCards == ResolveCards(slots)
      ensures forall s :: 1 <= s <= 6 ==> activeSlots[s] == (activeCards[s - 1].kind != Empty)
      ensures HasPersonalCard(activeCards) && old(personalAudioURL).None? ==>
        && isShowingFileImporter && personalAudioURL == None
        && audioService.personalAudioURL == old(audioService.personalAudioURL)
      ensures HasPersonalCard(activeCards) && old(personalAudioURL).Some? ==>
        && personalAudioURL == old(personalAudioURL) && audioService.personalAudioURL == personalAudioURL
        && isShowingFileImporter == old(isShowingFileImporter)
      ensures !HasPersonalCard(activeCards) ==>
        personalAudioURL == None && audioService.personalAudioURL == None && !isShowingFileImporter
      ensures audioService.PlaybackUpdated(old(audioService.Snapshot()), CardSet(activeCards))
    {
      AssignActiveCards(slots);
      audioService.UpdatePlayback(CardSet(activeCards));
    }

    /** `getIcon(forSlot:)`. */
    function GetIcon(slotNum: int): (r: string)
      requires 1 <= slotNum <= |RegisteredCards()| ==> slotNum <= |activeCards|
      reads this
      ensures !(1 <= slotNum <= 10) ==> r == "minus"
      ensures 1 <= slotNum <= 10 ==> r == activeCards[slotNum - 1].iconName
    {
      IconFor(activeCards, slotNum)
    }

    /** `getSlotBool`: off for any number outside 1...6 (7 to 10 pass the
        range guard but have no entry); otherwise the slot's status, which is
        whether its card is non-empty. */
    function GetSlotBool(slotNum: int): (r: bool)
      requires Valid()
      reads this, audioService
      ensures !(1 <= slotNum <= 6) ==> !r
      ensures 1 <= slotNum <= 6 && activeCards != [] ==> r == (activeCards[slotNum - 1].kind != Empty)
      ensures activeCards == [] ==> !r
    {
      if 1 <= slotNum <= |RegisteredCards()| && slotNum in activeSlots then activeSlots[slotNum] else false
    }

    /** `isEffectActive`: the effect is on exactly when the audio service,
        handed these cards, sees it active. */
    function IsEffectActive(effect: CardEffectType): (r: bool)
      reads this
      ensures r <==> EffectActive(CardSet(activeCards), effect)
    {
      EffectQueryAgrees(activeCards, effect);
      exists k :: 0 <= k < |activeCards| && activeCards[k].kind.EffectType() == Some(effect)
    }

    // ------------------------------------------------------------------
    // The observed control values, each forwarded to the service

    /** Assigning `selectedViewReverb`: before the store, the name selects
        its preset (the cathedral when unknown), which is forwarded and
        loaded into the reverb. */
    method SetSelectedViewReverb(name: string)
      requires Valid()
      modifies this`selectedViewReverb, this`selectedReverb,
               audioService`reverbPresetCustom, audioService`nodes, audioService`ops
      ensures Valid() && selectedViewReverb == name && selectedReverb == PresetFor(name)
      ensures audioService.reverbPresetCustom == PresetFor(name)
      ensures audioService.nodes == old(audioService.nodes).(preset := Some(PresetFor(name)))
      ensures audioService.ops == old(audioService.ops) + [LoadPreset(PresetFor(name))]
    {
      selectedReverb := PresetFor(name);
      audioService.SetReverbPresetCustom(selectedReverb);
      selectedViewReverb := name;
    }

    method SetReverbIntensity(v: real)
      requires Valid()
      modifies this`reverbIntensity, audioService`reverbWetDryCustom, audioService`nodes, audioService`ops
      ensures Valid() && reverbIntensity == v && audioService.reverbWetDryCustom == v
      ensures audioService.nodes == old(audioService.nodes).(wetDryMix := v)
      ensures audioService.ops == old(audioService.ops) + [SetWetDryMix(v)]
    {
      reverbIntensity := v;
      audioService.SetReverbWetDryCustom(v);
    }

    method SetVolumeValue(v: real)
      requires Valid()
      modifies this`volumeValue, audioService`customVolume, audioService`nodes, audioService`ops
      ensures Valid() && volumeValue == v && audioService.customVolume == v
      ensures audioService.nodes == old(audioService.nodes).(volume := v)
      ensures audioService.ops == old(audioService.ops) + [SetVolume(v)]
    {
      volumeValue := v;
      audioService.SetCustomVolume(v);
    }

    method SetPitchUpValue(v: real)
      requires Valid()
      modifies this`pitchUpValue, audioService`pitchUpCustom, audioService`nodes, audioService`ops
      ensures Valid() && pitchUpValue == v && audioService.pitchUpCustom == v
      ensures v >= 0.0 && !audioService.IsPitchUpAndDownActive() ==>
        audioService.nodes == old(audioService.nodes).(pitch := v) && audioService.ops == old(audioService.ops) + [SetPitch(v)]
      ensures !(v >= 0.0 && !audioService.IsPitchUpAndDownActive()) ==>
        audioService.nodes == old(audioService.nodes) && audioService.ops == old(audioService.ops)
    {
      pitchUpValue := v;
      audioService.SetPitchUpCustom(v);
    }

    method SetPitchDownValue(v: real)
      requires Valid()
      modifies this`pitchDownValue, audioService`pitchDownCustom, audioService`nodes, audioService`ops
      ensures Valid() && pitchDownValue == v && audioService.pitchDownCustom == v
      ensures v <= 0.0 && !audioService.IsPitchUpAndDownActive() ==>
        audioService.nodes == old(audioService.nodes).(pitch := v) && audioService.ops == old(audioService.ops) + [SetPitch(v)]
      ensures !(v <= 0.0 && !audioService.IsPitchUpAndDownActive()) ==>
        audioService.nodes == old(audioService.nodes) && audioService.ops == old(audioService.ops)
    {
      pitchDownValue := v;
      audioService.SetPitchDownCustom(v);
    }

    method SetSlowIntensity(v: real)
      requires Valid()
      modifies this`slowIntensity, audioService`slowRateCustom, audioService`nodes, audioService`ops
      ensures Valid() && slowIntensity == v && audioService.slowRateCustom == v
      ensures v <= 1.0 && !audioService.IsSlowAndAcceleratedActive() ==>
        audioService.nodes == old(audioService.nodes).(rate := v) && audioService.ops == old(audioService.ops) + [SetRate(v)]
      ensures !(v <= 1.0 && !audioService.IsSlowAndAcceleratedActive()) ==>
        audioService.nodes == old(audioService.nodes) && audioService.ops == old(audioService.ops)
    {
      slowIntensity := v;
      audioService.SetSlowRateCustom(v);
    }

    method SetAccelerateIntensity(v: real)
      requires Valid()
      modifies this`accelerateIntensity, audioService`accelerateRateCustom, audioService`nodes, audioService`ops
      ensures Valid() && accelerateIntensity == v && audioService.accelerateRateCustom == v
      ensures v >= 1.0 && !audioService.IsSlowAndAcceleratedActive() ==>
        audioService.nodes == old(audioService.nodes).(rate := v) && audioService.ops == old(audioService.ops) + [SetRate(v)]
      ensures !(v >= 1.0 && !audioService.IsSlowAndAcceleratedActive()) ==>
        audioService.nodes == old(audioService.nodes) && audioService.ops == old(audioService.ops)
    {
      accelerateIntensity := v;
      audioService.SetAccelerateRateCustom(v);
    }
  }

}
