/** The audio service of Services/AudioService.swift: one player per track,
    a shared time-pitch unit, a reverb and a mixer, driven by the set of
    active cards and by the custom effect values. Every write to a node goes
    through `Issue`, which also records it in the ghost log `ops`. */
module Audio {

  import opened Options
  import opened AudioTracks
  import opened Cards
  import EffectsDefaults
  import opened AudioGraph

  type Default = EffectsDefaults.EffectsDefaultValue

  /** Some active card is an instrument for track `t`
      (`first { $0.type.track == t } != nil`). */
  predicate Targets(cards: set<Card>, t: AudioTrack)
  {
    exists c :: c in cards && c.kind.Track() == Some(t)
  }

  /** What track reconciliation promises for one track, given whether its
      player was playing before (`was`) and is playing after (`now`):
      a track no card targets is stopped; a targeted track that was playing
      keeps playing; a targeted idle personal track starts exactly when an
      imported file is set and can be played; a targeted idle bundled track
      starts only from a card whose asset loads, and does start when every
      card for it names a loadable asset. */
  ghost predicate TrackReconciled(cards: set<Card>, t: AudioTrack, was: bool, now: bool,
                                  url: Option<Url>, convertible: set<Url>, loadable: set<string>)
  {
    && (!Targets(cards, t) ==> !now)
    && (Targets(cards, t) && was ==> now)
    && (Targets(cards, t) && !was && t == Personal ==>
          (now <==> url.Some? && url.value in convertible))
    && (Targets(cards, t) && !was && t != Personal ==>
          && (now ==> exists c :: c in cards && c.kind.Instrument? && c.kind.channel == t && c.kind.file in loadable)
          && ((forall c :: c in cards && c.kind.Track() == Some(t) ==> c.kind.file in loadable) ==> now))
  }

  /** The part of the service that `updatePlayback(for:)` may change: the
      recorded card set, the nodes, the log of node writes, the buffer cache
      and the load count. */
  datatype Playback = Playback(cardsPlayed: set<Card>, nodes: Nodes, ops: seq<NodeOp>,
                               cache: map<string, PcmBuffer>, loads: nat)

  /** The player writes that reconciling tracks with `cards` may issue,
      given which players were playing before (`was`): a loop starts only on
      an idle bundled track some card targets, the recording starts only on
      an idle, targeted personal track, and a player is stopped only when it
      was playing and no card targets it. A targeted track that was playing
      gets no write at all, so it is never restarted. */
  ghost predicate TrackWrite(cards: set<Card>, was: map<AudioTrack, bool>, op: NodeOp)
  {
    match op
    case StartLoop(t, _) => t != Personal && Targets(cards, t) && t in was && !was[t]
    case StartPersonal(_) => Targets(cards, Personal) && Personal in was && !was[Personal]
    case Stop(t) => !Targets(cards, t) && t in was && was[t]
    case _ => false
  }

  /** A write allowed by what one track was doing is allowed by any state
      in which that track was doing the same. */
  lemma TrackWriteWiden(cards: set<Card>, t: AudioTrack, was: map<AudioTrack, bool>, op: NodeOp)
    requires t in was && TrackWrite(cards, map[t := was[t]], op)
    ensures TrackWrite(cards, was, op)
  {
  }

  /** The headline promise of track reconciliation: a track some card
      targets and that was already playing is neither stopped nor started
      again by any write `TrackWrite` allows. */
  lemma PlayingTargetedTrackUntouched(cards: set<Card>, was: map<AudioTrack, bool>, op: NodeOp, t: AudioTrack)
    requires Targets(cards, t) && t in was && was[t]
    requires TrackWrite(cards, was, op)
    ensures op != Stop(t)
    ensures op.StartLoop? ==> op.track != t
    ensures op.StartPersonal? ==> t != Personal
  {
  }

  class AudioService {
    const mockup: bool
    /** Bundled assets that exist, allocate and read into a buffer. */
    const loadable: set<string>
    /** Imported files that open and convert to the graph's format. */
    const convertible: set<Url>

    var cardsPlayed: set<Card>
    var nodes: Nodes
    ghost var ops: seq<NodeOp>
    var audioBufferCache: map<string, PcmBuffer>
    var loads: nat

    var personalAudioURL: Option<Url>
    var reverbPresetCustom: ReverbPreset
    var reverbWetDryCustom: real
    var accelerateRateCustom: real
    var slowRateCustom: real
    var pitchUpCustom: real
    var pitchDownCustom: real
    var customVolume: real

    /** Every track has a player; the cache holds only loadable assets,
        each under its own name. */
    ghost predicate Valid()
      reads this
    {
      && (forall t: AudioTrack :: t in nodes.playing)
      && audioBufferCache.Keys <= loadable
      && (forall k :: k in audioBufferCache ==> audioBufferCache[k].asset == k)
    }

    /** Every track targeted by `cards` is playing and no other; pitch and
        rate already hold their targets. */
    ghost predicate SettledOn(cards: set<Card>)
      reads this`nodes, this`pitchUpCustom, this`pitchDownCustom, this`slowRateCustom, this`accelerateRateCustom
    {
      Settled(nodes, cards)
    }

    /** `SettledOn` for the nodes `n` instead of the service's own. */
    ghost predicate Settled(n: Nodes, cards: set<Card>)
      reads this`pitchUpCustom, this`pitchDownCustom, this`slowRateCustom, this`accelerateRateCustom
    {
      && (forall t: AudioTrack :: t in n.playing && n.playing[t] == Targets(cards, t))
      && n.pitch == TargetPitch(cards, pitchUpCustom, pitchDownCustom)
      && n.rate == TargetRate(cards, slowRateCustom, accelerateRateCustom)
    }

    /** The current `Playback` part of the service. */
    ghost function Snapshot(): Playback
      reads this`cardsPlayed, this`nodes, this`ops, this`audioBufferCache, this`loads
    {
      Playback(cardsPlayed, nodes, ops, audioBufferCache, loads)
    }

    /** What `updatePlayback(for: cards)` promises, from the playback state
        `before` to the current one. In mockup mode nothing changes.
        Otherwise the set is recorded; every track is reconciled with it,
        by player writes that `TrackWrite` allows (so no playing, targeted
        track is restarted); the effect writes come last, are exactly `EffectWrites` from the old
        pitch and rate, and leave mix, pitch and rate on their targets with
        volume and preset untouched; once every targeted track plays the
        service is settled; and a service that was already settled on the
        set gets the mix write and nothing else. In every case the cache
        only grows and no entry is replaced. */
    ghost predicate PlaybackUpdated(before: Playback, cards: set<Card>)
      reads this
    {
      && (mockup ==> Snapshot() == before)
      && (!mockup ==> cardsPlayed == cards)
      && (!mockup ==> forall t: AudioTrack ::
            && t in before.nodes.playing && t in nodes.playing
            && TrackReconciled(cards, t, before.nodes.playing[t], nodes.playing[t],
                               personalAudioURL, convertible, loadable))
      && (!mockup ==>
            && nodes.wetDryMix == TargetMix(cards, reverbWetDryCustom)
            && nodes.pitch == TargetPitch(cards, pitchUpCustom, pitchDownCustom)
            && nodes.rate == TargetRate(cards, slowRateCustom, accelerateRateCustom)
            && nodes.volume == before.nodes.volume && nodes.preset == before.nodes.preset)
      && (!mockup ==>
            var w := EffectWrites(before.nodes.pitch, before.nodes.rate,
                                  TargetMix(cards, reverbWetDryCustom),
                                  TargetPitch(cards, pitchUpCustom, pitchDownCustom),
                                  TargetRate(cards, slowRateCustom, accelerateRateCustom));
            && |before.ops| + |w| <= |ops|
            && ops[..|before.ops|] == before.ops && ops[|ops| - |w|..] == w
            && forall k :: |before.ops| <= k < |ops| - |w| ==> TrackWrite(cards, before.nodes.playing, ops[k]))
      && (!mockup && (forall t: AudioTrack :: t in nodes.playing && (Targets(cards, t) ==> nodes.playing[t])) ==>
            SettledOn(cards))
      && (!mockup && Settled(before.nodes, cards) ==>
            && nodes == before.nodes.(wetDryMix := TargetMix(cards, reverbWetDryCustom))
            && ops == before.ops + [SetWetDryMix(TargetMix(cards, reverbWetDryCustom))]
            && audioBufferCache == before.cache)
      && before.cache.Keys <= audioBufferCache.Keys
      && (forall k :: k in before.cache ==> audioBufferCache[k] == before.cache[k])
    }

    /** `init(mockup:)`: one stopped player for every track, the custom
        values at their defaults, and the format probe of the engine setup,
        which loads the groove asset into the cache. Node wiring and engine
        start are not modelled. */
    constructor (mockup: bool, loadable: set<string>, convertible: set<Url>)
      ensures Valid()
      ensures this.mockup == mockup && this.loadable == loadable && this.convertible == convertible
      ensures cardsPlayed == {} && personalAudioURL == None && ops == []
      ensures forall t: AudioTrack :: t in nodes.playing && !nodes.playing[t]
      ensures nodes.pitch == 0.0 && nodes.rate == 1.0 && nodes.volume == 1.0 && nodes.preset == None
      ensures reverbPresetCustom == Cathedral
      ensures reverbWetDryCustom == Default.ReverbWetDry.RawValue() && customVolume == Default.Volume.RawValue()
      ensures accelerateRateCustom == Default.Accelerate.RawValue() && slowRateCustom == Default.Slow.RawValue()
      ensures pitchUpCustom == Default.PitchUp.RawValue() && pitchDownCustom == Default.PitchDown.RawValue()
      ensures audioBufferCache ==
        if "01_Groove" in loadable then map["01_Groove" := PcmBuffer("01_Groove", 0)] else map[]
    {
      this.mockup := mockup;
      this.loadable := loadable;
      this.convertible := convertible;
      cardsPlayed := {};
      personalAudioURL := None;
      reverbPresetCustom := Cathedral;
      reverbWetDryCustom := Default.ReverbWetDry.RawValue();
      accelerateRateCustom := Default.Accelerate.RawValue();
      slowRateCustom := Default.Slow.RawValue();
      pitchUpCustom := Default.PitchUp.RawValue();
      pitchDownCustom := Default.PitchDown.RawValue();
      customVolume := Default.Volume.RawValue();

      var setupTracks: map<AudioTrack, bool> := map[];
      var all := AllCases();
      var i := 0;
      while i < |all|
        invariant 0 <= i <= |all|
        invariant forall t :: t in setupTracks <==> t in all[..i]
        invariant forall t :: t in setupTracks ==> !setupTracks[t]
      {
        setupTracks := setupTracks[all[i] := false];
        i := i + 1;
      }
      assert all[..i] == all;
      nodes := Nodes(setupTracks, 0.0, 1.0, 0.0, 1.0, None);
      ops := [];
      audioBufferCache := map[];
      loads := 0;
      new;
      var probe := GetCachedBuffer("01_Groove");
    }

    /** One call into a node: the nodes change as that call does and the
        call is appended to the log. */
    method Issue(op: NodeOp)
      requires Valid()
      modifies this`nodes, this`ops
      ensures Valid()
      ensures nodes == Apply(old(nodes), op) && ops == old(ops) + [op]
    {
      nodes := Apply(nodes, op);
      ops := ops + [op];
      assert ops[..|ops| - 1] == old(ops);
    }

    /** `getCachedBuffer(for:)`, specified by `FetchBuffer`. */
    method GetCachedBuffer(audioName: string) returns (buffer: Option<PcmBuffer>)
      requires Valid()
      modifies this`audioBufferCache, this`loads
      ensures Valid()
      ensures Fetched(buffer, audioBufferCache, loads) ==
              FetchBuffer(old(audioBufferCache), loadable, old(loads), audioName)
    {
      if audioName in audioBufferCache {
        return Some(audioBufferCache[audioName]);
      }
      if audioName !in loadable {
        // the asset is missing from the bundle, or allocating or reading its buffer failed
        return None;
      }
      var b := PcmBuffer(audioName, loads);
      audioBufferCache := audioBufferCache[audioName := b];
      loads := loads + 1;
      return Some(b);
    }

    /** `playPersonalAudio(from:)`: when the file opens and converts, the
        converted recording is scheduled in a loop and the personal player
        starts; any failure leaves everything as it was. */
    method PlayPersonalAudio(url: Url)
      requires Valid()
      modifies this`nodes, this`ops
      ensures Valid()
      ensures url in convertible ==>
        nodes == Apply(old(nodes), StartPersonal(url)) && ops == old(ops) + [StartPersonal(url)]
      ensures url !in convertible ==> nodes == old(nodes) && ops == old(ops)
    {
      if url in convertible {
        Issue(StartPersonal(url));
      }
    }

    /** `handleInstrumentToggle(audioFile:track:shouldPlay:)`. Stopping stops
        the player. Starting the personal track needs an imported file;
        starting another track needs its buffer from the cache. */
    method HandleInstrumentToggle(audioFile: Option<string>, track: AudioTrack, shouldPlay: bool)
      requires Valid()
      modifies this`nodes, this`ops, this`audioBufferCache, this`loads
      ensures Valid()
      ensures !shouldPlay ==>
        && nodes == Apply(old(nodes), Stop(track)) && ops == old(ops) + [Stop(track)]
        && audioBufferCache == old(audioBufferCache) && loads == old(loads)
      ensures shouldPlay && track == Personal ==>
        && audioBufferCache == old(audioBufferCache) && loads == old(loads)
        && if personalAudioURL.Some? && personalAudioURL.value in convertible then
             && nodes == Apply(old(nodes), StartPersonal(personalAudioURL.value))
             && ops == old(ops) + [StartPersonal(personalAudioURL.value)]
           else nodes == old(nodes) && ops == old(ops)
      ensures shouldPlay && track != Personal && audioFile.None? ==>
        && nodes == old(nodes) && ops == old(ops)
        && audioBufferCache == old(audioBufferCache) && loads == old(loads)
      ensures shouldPlay && track != Personal && audioFile.Some? ==>
        var f := FetchBuffer(old(audioBufferCache), loadable, old(loads), audioFile.value);
        && audioBufferCache == f.cache && loads == f.loads
        && if f.buffer.Some? then
             && nodes == Apply(old(nodes), StartLoop(track, f.buffer.value))
             && ops == old(ops) + [StartLoop(track, f.buffer.value)]
           else nodes == old(nodes) && ops == old(ops)
    {
      if shouldPlay {
        if track == Personal {
          if personalAudioURL.None? {
            return;
          }
          PlayPersonalAudio(personalAudioURL.value);
          return;
        }
        if audioFile.None? {
          return;
        }
        var buffer := GetCachedBuffer(audioFile.value);
        if buffer.None? {
          return;
        }
        Issue(StartLoop(track, buffer.value));
      } else {
        Issue(Stop(track));
      }
    }

    /** One pass of the `updateTracks` loop, for track `t`. */
    method ReconcileTrack(t: AudioTrack, cards: set<Card>)
      requires Valid()
      modifies this`nodes, this`ops, this`audioBufferCache, this`loads
      ensures Valid()
      ensures nodes == old(nodes).(playing := nodes.playing)
      ensures forall u: AudioTrack :: u != t ==> nodes.playing[u] == old(nodes.playing[u])
      ensures TrackReconciled(cards, t, old(nodes.playing[t]), nodes.playing[t],
                              personalAudioURL, convertible, loadable)
      ensures Targets(cards, t) == old(nodes.playing[t]) ==>
        nodes == old(nodes) && ops == old(ops) && audioBufferCache == old(audioBufferCache) && loads == old(loads)
      ensures |old(ops)| <= |ops| <= |old(ops)| + 1 && ops[..|old(ops)|] == old(ops)
      ensures forall k :: |old(ops)| <= k < |ops| ==> TrackWrite(cards, map[t := old(nodes.playing[t])], ops[k])
      ensures old(audioBufferCache).Keys <= audioBufferCache.Keys
      ensures forall k :: k in old(audioBufferCache) ==> audioBufferCache[k] == old(audioBufferCache)[k]
    {
      var isPlaying := nodes.playing[t];
      if Targets(cards, t) {
        if !isPlaying {
          var card :| card in cards && card.kind.Track() == Some(t);
          if card.kind.Instrument? {
            HandleInstrumentToggle(Some(card.kind.file), card.kind.channel, true);
            if t != Personal {
              ghost var file := card.kind.file;
              assert nodes.playing[t] <==> file in loadable;
              assert nodes.playing[t] ==> card.kind.Instrument? && card.kind.channel == t && file in loadable;
            }
          }
        }
        assert TrackReconciled(cards, t, old(nodes.playing[t]), nodes.playing[t],
                               personalAudioURL, convertible, loadable);
      } else {
        if isPlaying {
          HandleInstrumentToggle(None, t, false);
        }
      }
    }

    /** `updateTracks(for:)`: every track, in `allCases` order, is
        reconciled with the card set. When every track already matches the
        set, nothing is started or stopped. */
    method UpdateTracks(cards: set<Card>)
      requires Valid()
      modifies this`nodes, this`ops, this`audioBufferCache, this`loads
      ensures Valid()
      ensures nodes == old(nodes).(playing := nodes.playing)
      ensures forall t: AudioTrack :: TrackReconciled(cards, t, old(nodes.playing[t]), nodes.playing[t],
                                                       personalAudioURL, convertible, loadable)
      ensures (forall t: AudioTrack :: Targets(cards, t) == old(nodes.playing[t])) ==>
                nodes == old(nodes) && ops == old(ops)
                && audioBufferCache == old(audioBufferCache) && loads == old(loads)
      ensures |old(ops)| <= |ops| && ops[..|old(ops)|] == old(ops)
      ensures forall k :: |old(ops)| <= k < |ops| ==> TrackWrite(cards, old(nodes.playing), ops[k])
      ensures old(audioBufferCache).Keys <= audioBufferCache.Keys
      ensures forall k :: k in old(audioBufferCache) ==> audioBufferCache[k] == old(audioBufferCache)[k]
    {
      var all := AllCases();
      var i := 0;
      while i < |all|
        invariant 0 <= i <= |all|
        invariant Valid()
        invariant nodes == old(nodes).(playing := nodes.playing)
        invariant forall j :: 0 <= j < i ==>
          TrackReconciled(cards, all[j], old(nodes.playing[all[j]]), nodes.playing[all[j]],
                          personalAudioURL, convertible, loadable)
        invariant forall j :: i <= j < |all| ==> nodes.playing[all[j]] == old(nodes.playing[all[j]])
        invariant (forall t: AudioTrack :: Targets(cards, t) == old(nodes.playing[t])) ==>
                    nodes == old(nodes) && ops == old(ops)
                    && audioBufferCache == old(audioBufferCache) && loads == old(loads)
        invariant |old(ops)| <= |ops| && ops[..|old(ops)|] == old(ops)
        invariant forall k :: |old(ops)| <= k < |ops| ==> TrackWrite(cards, old(nodes.playing), ops[k])
        invariant old(audioBufferCache).Keys <= audioBufferCache.Keys
        invariant forall k :: k in old(audioBufferCache) ==> audioBufferCache[k] == old(audioBufferCache)[k]
      {
        ghost var opsBefore := ops;
        assert nodes.playing[all[i]] == old(nodes.playing[all[i]]);
        ReconcileTrack(all[i], cards);
        forall k | |opsBefore| <= k < |ops| ensures TrackWrite(cards, old(nodes.playing), ops[k]) {
          TrackWriteWiden(cards, all[i], old(nodes.playing), ops[k]);
        }
        assert forall k :: |old(ops)| <= k < |opsBefore| ==> ops[k] == opsBefore[k];
        i := i + 1;
      }
      forall t: AudioTrack
        ensures TrackReconciled(cards, t, old(nodes.playing[t]), nodes.playing[t],
                                personalAudioURL, convertible, loadable)
      {
        assert t in all;
        var j :| 0 <= j < |all| && all[j] == t;
      }
    }

    /** `updateEffects(for:)`: the mix, then the pitch, then the rate, as
        `EffectWrites` lists them; the unit ends on the three targets and
        nothing else in the graph changes (which is also what running those
        writes gives, by `EffectWritesReachTargets`). */
    method UpdateEffects(cards: set<Card>)
      requires Valid()
      modifies this`nodes, this`ops
      ensures Valid()
      ensures ops == old(ops) + EffectWrites(old(nodes.pitch), old(nodes.rate),
                                             TargetMix(cards, reverbWetDryCustom),
                                             TargetPitch(cards, pitchUpCustom, pitchDownCustom),
                                             TargetRate(cards, slowRateCustom, accelerateRateCustom))
      ensures nodes == old(nodes).(wetDryMix := TargetMix(cards, reverbWetDryCustom),
                                   pitch := TargetPitch(cards, pitchUpCustom, pitchDownCustom),
                                   rate := TargetRate(cards, slowRateCustom, accelerateRateCustom))
      ensures old(nodes.pitch) == TargetPitch(cards, pitchUpCustom, pitchDownCustom) &&
              old(nodes.rate) == TargetRate(cards, slowRateCustom, accelerateRateCustom) ==>
        ops == old(ops) + [SetWetDryMix(TargetMix(cards, reverbWetDryCustom))]
    {
      var mix := TargetMix(cards, reverbWetDryCustom);
      var targetPitch := TargetPitch(cards, pitchUpCustom, pitchDownCustom);
      var targetRate := TargetRate(cards, slowRateCustom, accelerateRateCustom);
      Issue(SetWetDryMix(mix));
      ghost var afterMix := ops;
      WritePitch(targetPitch);
      ghost var afterPitch := ops;
      WriteRate(targetPitch, targetRate);
      assert afterMix == old(ops) + [SetWetDryMix(mix)];
      assert ops == old(ops) + ([SetWetDryMix(mix)] + PitchWrites(old(nodes.pitch), targetPitch)
                                + RateWrites(old(nodes.rate), targetPitch, targetRate));
    }

    /** The pitch step of `updateEffects`. */
    method WritePitch(targetPitch: real)
      requires Valid()
      modifies this`nodes, this`ops
      ensures Valid()
      ensures ops == old(ops) + PitchWrites(old(nodes.pitch), targetPitch)
      ensures nodes == old(nodes).(pitch := targetPitch)
    {
      if nodes.pitch != targetPitch {
        Issue(SetPitch(targetPitch));
      }
    }

    /** The rate step of `updateEffects`; after a reset the pitch is written
        again, so it ends where it was. */
    method WriteRate(targetPitch: real, targetRate: real)
      requires Valid() && nodes.pitch == targetPitch
      modifies this`nodes, this`ops
      ensures Valid()
      ensures ops == old(ops) + RateWrites(old(nodes.rate), targetPitch, targetRate)
      ensures nodes == old(nodes).(rate := targetRate)
    {
      if nodes.rate != targetRate {
        if targetRate == 1.0 {
          Issue(ResetTimePitch);
          Issue(SetPitch(targetPitch));
        }
        Issue(SetRate(targetRate));
      }
    }

    /** `updatePlayback(for:)`. In mockup mode nothing changes. Otherwise the
        set is recorded and the graph brought in line with it by
        `ReconcileAll`; `PlaybackUpdated` states the outcome. */
    method UpdatePlayback(activeCards: set<Card>)
      requires Valid()
      modifies this`cardsPlayed, this`nodes, this`ops, this`audioBufferCache, this`loads
      ensures Valid()
      ensures PlaybackUpdated(old(Snapshot()), activeCards)
    {
      if mockup {
        return;
      }
      ghost var wasSettled := SettledOn(activeCards);
      cardsPlayed := activeCards;
      assert nodes == old(nodes) && ops == old(ops) && SettledOn(activeCards) == wasSettled;
      ReconcileAll(activeCards);
      assert forall t: AudioTrack :: t in old(nodes.playing) && t in nodes.playing;
      assert Settled(old(nodes), activeCards) == wasSettled;
    }

    /** The two steps of `updatePlayback` after the set is recorded: tracks
        are reconciled and then the effects, whose writes come last. If every
        targeted track ended up playing, the service is settled on the set;
        and from a settled state the same set issues nothing but the mix
        write. */
    method ReconcileAll(cards: set<Card>)
      requires Valid()
      modifies this`nodes, this`ops, this`audioBufferCache, this`loads
      ensures Valid()
      ensures forall t: AudioTrack ::
        TrackReconciled(cards, t, old(nodes.playing[t]), nodes.playing[t],
                        personalAudioURL, convertible, loadable)
      ensures && nodes.wetDryMix == TargetMix(cards, reverbWetDryCustom)
              && nodes.pitch == TargetPitch(cards, pitchUpCustom, pitchDownCustom)
              && nodes.rate == TargetRate(cards, slowRateCustom, accelerateRateCustom)
              && nodes.volume == old(nodes.volume) && nodes.preset == old(nodes.preset)
      ensures var w := EffectWrites(old(nodes.pitch), old(nodes.rate),
                                    TargetMix(cards, reverbWetDryCustom),
                                    TargetPitch(cards, pitchUpCustom, pitchDownCustom),
                                    TargetRate(cards, slowRateCustom, accelerateRateCustom));
        && |old(ops)| + |w| <= |ops|
        && ops[..|old(ops)|] == old(ops) && ops[|ops| - |w|..] == w
        && forall k :: |old(ops)| <= k < |ops| - |w| ==> TrackWrite(cards, old(nodes.playing), ops[k])
      ensures (forall t: AudioTrack :: Targets(cards, t) ==> nodes.playing[t]) ==> SettledOn(cards)
      ensures old(SettledOn(cards)) ==>
        && nodes == old(nodes).(wetDryMix := TargetMix(cards, reverbWetDryCustom))
        && ops == old(ops) + [SetWetDryMix(TargetMix(cards, reverbWetDryCustom))]
        && audioBufferCache == old(audioBufferCache)
      ensures old(audioBufferCache).Keys <= audioBufferCache.Keys
      ensures forall k :: k in old(audioBufferCache) ==> audioBufferCache[k] == old(audioBufferCache)[k]
    {
      ghost var settled := SettledOn(cards);
      UpdateTracks(cards);
      if settled {
        assert forall t: AudioTrack :: Targets(cards, t) == old(nodes.playing[t]);
        assert nodes == old(nodes) && ops == old(ops);
      }
      ghost var afterTracks := ops;
      ghost var playing := nodes.playing;
      ghost var w := EffectWrites(nodes.pitch, nodes.rate,
                                  TargetMix(cards, reverbWetDryCustom),
                                  TargetPitch(cards, pitchUpCustom, pitchDownCustom),
                                  TargetRate(cards, slowRateCustom, accelerateRateCustom));
      UpdateEffects(cards);
      assert nodes.playing == playing;
      assert ops[|ops| - |w|..] == w;
      assert ops[..|old(ops)|] == afterTracks[..|old(ops)|];
      assert forall k :: |old(ops)| <= k < |ops| - |w| ==> ops[k] == afterTracks[k];
    }

    /** Both slow and accelerate cards are in `cardsPlayed`; the guard's
        `type == .effect(...)` test agrees with the `effectType` test of
        `updateEffects`. */
    function IsSlowAndAcceleratedActive(): (r: bool)
      reads this
      ensures r <==> EffectActive(cardsPlayed, Slow) && EffectActive(cardsPlayed, Accelerate)
    {
      var isSlowActive := exists c :: c in cardsPlayed && c.kind == Effect(Slow);
      var isFastActive := exists c :: c in cardsPlayed && c.kind == Effect(Accelerate);
      isSlowActive && isFastActive
    }

    /** Both pitch-up and pitch-down cards are in `cardsPlayed`. */
    function IsPitchUpAndDownActive(): (r: bool)
      reads this
      ensures r <==> EffectActive(cardsPlayed, PitchUp) && EffectActive(cardsPlayed, PitchDown)
    {
      var isPitchDownActive := exists c :: c in cardsPlayed && c.kind == Effect(PitchDown);
      var isPitchUpActive := exists c :: c in cardsPlayed && c.kind == Effect(PitchUp);
      isPitchDownActive && isPitchUpActive
    }

    // ------------------------------------------------------------------
    // The change* methods behind the didSet observers

    /** `changeReverb`: loads the chosen factory preset. */
    method ChangeReverb()
      requires Valid()
      modifies this`nodes, this`ops
      ensures Valid()
      ensures nodes == old(nodes).(preset := Some(reverbPresetCustom))
      ensures ops == old(ops) + [LoadPreset(reverbPresetCustom)]
    {
      Issue(LoadPreset(reverbPresetCustom));
    }

    /** `changeVolume`: writes the mixer volume unconditionally. */
    method ChangeVolume()
      requires Valid()
      modifies this`nodes, this`ops
      ensures Valid()
      ensures nodes == old(nodes).(volume := customVolume)
      ensures ops == old(ops) + [SetVolume(customVolume)]
    {
      Issue(SetVolume(customVolume));
    }

    /** `changeReverbMix`: writes the wet/dry mix unconditionally, whether or
        not a reverb card is active. */
    method ChangeReverbMix()
      requires Valid()
      modifies this`nodes, this`ops
      ensures Valid()
      ensures nodes == old(nodes).(wetDryMix := reverbWetDryCustom)
      ensures ops == old(ops) + [SetWetDryMix(reverbWetDryCustom)]
    {
      Issue(SetWetDryMix(reverbWetDryCustom));
    }

    /** `changePitchUp`: writes the pitch only for a non-negative value and
        only while the two pitch cards are not both active. */
    method ChangePitchUp()
      requires Valid()
      modifies this`nodes, this`ops
      ensures Valid()
      ensures pitchUpCustom >= 0.0 && !IsPitchUpAndDownActive() ==>
        nodes == old(nodes).(pitch := pitchUpCustom) && ops == old(ops) + [SetPitch(pitchUpCustom)]
      ensures !(pitchUpCustom >= 0.0 && !IsPitchUpAndDownActive()) ==>
        nodes == old(nodes) && ops == old(ops)
    {
      if pitchUpCustom >= 0.0 && !IsPitchUpAndDownActive() {
        Issue(SetPitch(pitchUpCustom));
      }
    }

    /** `changePitchDown`: writes the pitch only for a non-positive value and
        only while the two pitch cards are not both active. */
    method ChangePitchDown()
      requires Valid()
      modifies this`nodes, this`ops
      ensures Valid()
      ensures pitchDownCustom <= 0.0 && !IsPitchUpAndDownActive() ==>
        nodes == old(nodes).(pitch := pitchDownCustom) && ops == old(ops) + [SetPitch(pitchDownCustom)]
      ensures !(pitchDownCustom <= 0.0 && !IsPitchUpAndDownActive()) ==>
        nodes == old(nodes) && ops == old(ops)
    {
      if pitchDownCustom <= 0.0 && !IsPitchUpAndDownActive() {
        Issue(SetPitch(pitchDownCustom));
      }
    }

    /** `changeSlowRate`: writes the rate only for a value of at most 1 and
        only while slow and accelerate are not both active. */
    method ChangeSlowRate()
      requires Valid()
      modifies this`nodes, this`ops
      ensures Valid()
      ensures slowRateCustom <= 1.0 && !IsSlowAndAcceleratedActive() ==>
        nodes == old(nodes).(rate := slowRateCustom) && ops == old(ops) + [SetRate(slowRateCustom)]
      ensures !(slowRateCustom <= 1.0 && !IsSlowAndAcceleratedActive()) ==>
        nodes == old(nodes) && ops == old(ops)
    {
      if slowRateCustom <= 1.0 && !IsSlowAndAcceleratedActive() {
        Issue(SetRate(slowRateCustom));
      }
    }

    /** `changeAccelerateRate`: writes the rate only for a value of at least 1
        and only while slow and accelerate are not both active. */
    method ChangeAccelerateRate()
      requires Valid()
      modifies this`nodes, this`ops
      ensures Valid()
      ensures accelerateRateCustom >= 1.0 && !IsSlowAndAcceleratedActive() ==>
        nodes == old(nodes).(rate := accelerateRateCustom) && ops == old(ops) + [SetRate(accelerateRateCustom)]
      ensures !(accelerateRateCustom >= 1.0 && !IsSlowAndAcceleratedActive()) ==>
        nodes == old(nodes) && ops == old(ops)
    {
      if accelerateRateCustom >= 1.0 && !IsSlowAndAcceleratedActive() {
        Issue(SetRate(accelerateRateCustom));
      }
    }

    // ------------------------------------------------------------------
    // The observed properties: assignment, then the didSet observer

    method SetReverbPresetCustom(p: ReverbPreset)
      requires Valid()
      modifies this`reverbPresetCustom, this`nodes, this`ops
      ensures Valid() && reverbPresetCustom == p
      ensures nodes == old(nodes).(preset := Some(p)) && ops == old(ops) + [LoadPreset(p)]
    {
      reverbPresetCustom := p;
      ChangeReverb();
    }

    method SetReverbWetDryCustom(v: real)
      requires Valid()
      modifies this`reverbWetDryCustom, this`nodes, this`ops
      ensures Valid() && reverbWetDryCustom == v
      ensures nodes == old(nodes).(wetDryMix := v) && ops == old(ops) + [SetWetDryMix(v)]
    {
      reverbWetDryCustom := v;
      ChangeReverbMix();
    }

    method SetCustomVolume(v: real)
      requires Valid()
      modifies this`customVolume, this`nodes, this`ops
      ensures Valid() && customVolume == v
      ensures nodes == old(nodes).(volume := v) && ops == old(ops) + [SetVolume(v)]
    {
      customVolume := v;
      ChangeVolume();
    }

    method SetPitchUpCustom(v: real)
      requires Valid()
      modifies this`pitchUpCustom, this`nodes, this`ops
      ensures Valid() && pitchUpCustom == v
      ensures v >= 0.0 && !IsPitchUpAndDownActive() ==>
        nodes == old(nodes).(pitch := v) && ops == old(ops) + [SetPitch(v)]
      ensures !(v >= 0.0 && !IsPitchUpAndDownActive()) ==> nodes == old(nodes) && ops == old(ops)
    {
      pitchUpCustom := v;
      ChangePitchUp();
    }

    method SetPitchDownCustom(v: real)
      requires Valid()
      modifies this`pitchDownCustom, this`nodes, this`ops
      ensures Valid() && pitchDownCustom == v
      ensures v <= 0.0 && !IsPitchUpAndDownActive() ==>
        nodes == old(nodes).(pitch := v) && ops == old(ops) + [SetPitch(v)]
      ensures !(v <= 0.0 && !IsPitchUpAndDownActive()) ==> nodes == old(nodes) && ops == old(ops)
    {
      pitchDownCustom := v;
      ChangePitchDown();
    }

    method SetSlowRateCustom(v: real)
      requires Valid()
      modifies this`slowRateCustom, this`nodes, this`ops
      ensures Valid() && slowRateCustom == v
      ensures v <= 1.0 && !IsSlowAndAcceleratedActive() ==>
        nodes == old(nodes).(rate := v) && ops == old(ops) + [SetRate(v)]
      ensures !(v <= 1.0 && !IsSlowAndAcceleratedActive()) ==> nodes == old(nodes) && ops == old(ops)
    {
      slowRateCustom := v;
      ChangeSlowRate();
    }

    method SetAccelerateRateCustom(v: real)
      requires Valid()
      modifies this`accelerateRateCustom, this`nodes, this`ops
      ensures Valid() && accelerateRateCustom == v
      ensures v >= 1.0 && !IsSlowAndAcceleratedActive() ==>
        nodes == old(nodes).(rate := v) && ops == old(ops) + [SetRate(v)]
      ensures !(v >= 1.0 && !IsSlowAndAcceleratedActive()) ==> nodes == old(nodes) && ops == old(ops)
    {
      accelerateRateCustom := v;
      ChangeAccelerateRate();
    }
  }

}
