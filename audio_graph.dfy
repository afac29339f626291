/** The audio graph of Services/AudioService.swift seen as a state record,
    the writes the service issues to it, and the pure rules that decide
    those writes: effect targets under mutual exclusion, the order of the
    time-pitch writes, and the buffer cache. */
module AudioGraph {

  import opened Options
  import opened AudioTracks
  import opened Cards

  /** The reverb factory presets the mixer offers. */
  datatype ReverbPreset = SmallRoom | LargeRoom | Cathedral | LargeHall

  /** A file reference handed over by the file importer. */
  type Url = string

  /** A decoded PCM buffer: the asset it was read from and the number of the
      load that produced it, so that two loads are two distinct buffers. */
  datatype PcmBuffer = PcmBuffer(asset: string, serial: nat)

  /** The observable state of the nodes: whether each player is playing, the
      time-pitch unit's pitch (cents) and rate, the reverb's wet/dry mix and
      loaded preset (none before the first load), and the mixer's volume. */
  datatype Nodes = Nodes(
    playing: map<AudioTrack, bool>,
    pitch: real,
    rate: real,
    wetDryMix: real,
    volume: real,
    preset: Option<ReverbPreset>)

  /** One call into a node. */
  datatype NodeOp =
    | StartLoop(track: AudioTrack, buffer: PcmBuffer)  // scheduleBuffer(.loops) and play()
    | StartPersonal(url: Url)                          // converted recording scheduled and played
    | Stop(track: AudioTrack)                          // stop()
    | SetPitch(pitch: real)
    | SetRate(rate: real)
    | ResetTimePitch                                   // timePitchEffect.reset()
    | SetWetDryMix(mix: real)
    | SetVolume(volume: real)
    | LoadPreset(preset: ReverbPreset)

  /** What one call does to the nodes. Resetting the time-pitch unit returns
      it to its defaults, pitch 0 and rate 1. */
  function Apply(n: Nodes, op: NodeOp): Nodes
  {
    match op
    case StartLoop(t, _) => n.(playing := n.playing[t := true])
    case StartPersonal(_) => n.(playing := n.playing[Personal := true])
    case Stop(t) => n.(playing := n.playing[t := false])
    case SetPitch(p) => n.(pitch := p)
    case SetRate(r) => n.(rate := r)
    case ResetTimePitch => n.(pitch := 0.0, rate := 1.0)
    case SetWetDryMix(m) => n.(wetDryMix := m)
    case SetVolume(v) => n.(volume := v)
    case LoadPreset(p) => n.(preset := Some(p))
  }

  /** The nodes after a sequence of calls, in order. */
  function Run(n: Nodes, w: seq<NodeOp>): Nodes
    decreases |w|
  {
    if w == [] then n else Apply(Run(n, w[..|w| - 1]), w[|w| - 1])
  }

  /** Running two sequences of calls is running the first, then the second. */
  lemma {:induction false} RunAppend(n: Nodes, a: seq<NodeOp>, b: seq<NodeOp>)
    ensures Run(n, a + b) == Run(Run(n, a), b)
    decreases |b|
  {
    if b == [] {
      assert a + b == a;
    } else {
      assert (a + b)[..|a + b| - 1] == a + b[..|b| - 1];
      RunAppend(n, a, b[..|b| - 1]);
    }
  }

  /** Running a single call is applying it. */
  lemma RunOne(n: Nodes, op: NodeOp)
    ensures Run(n, [op]) == Apply(n, op)
  {
  }

  // ---------------------------------------------------------------------
  // Effect reconciliation (updateEffects)

  /** `contains { $0.type.effectType == e }`. */
  predicate EffectActive(cards: set<Card>, e: CardEffectType)
  {
    exists c :: c in cards && c.kind.EffectType() == Some(e)
  }

  /** The reverb mix: the custom mix when a reverb card is active, else 0. */
  function TargetMix(cards: set<Card>, custom: real): (m: real)
    ensures EffectActive(cards, Reverb) ==> m == custom
    ensures !EffectActive(cards, Reverb) ==> m == 0.0
  {
    if EffectActive(cards, Reverb) then custom else 0.0
  }

  /** The pitch: the pitch-up value when only pitch-up is active, the
      pitch-down value when only pitch-down is active, and 0 when neither or
      both are (the two cancel). */
  function TargetPitch(cards: set<Card>, up: real, down: real): (p: real)
    ensures EffectActive(cards, PitchUp) && !EffectActive(cards, PitchDown) ==> p == up
    ensures EffectActive(cards, PitchDown) && !EffectActive(cards, PitchUp) ==> p == down
    ensures EffectActive(cards, PitchUp) == EffectActive(cards, PitchDown) ==> p == 0.0
  {
    var isUp := EffectActive(cards, PitchUp);
    var isDown := EffectActive(cards, PitchDown);
    if isUp && !isDown then up else if isDown && !isUp then down else 0.0
  }

  /** The rate: the slow value when only slow is active, the accelerate value
      when only accelerate is active, and 1 when neither or both are. */
  function TargetRate(cards: set<Card>, slow: real, fast: real): (r: real)
    ensures EffectActive(cards, Slow) && !EffectActive(cards, Accelerate) ==> r == slow
    ensures EffectActive(cards, Accelerate) && !EffectActive(cards, Slow) ==> r == fast
    ensures EffectActive(cards, Slow) == EffectActive(cards, Accelerate) ==> r == 1.0
  {
    var isSlow := EffectActive(cards, Slow);
    var isFast := EffectActive(cards, Accelerate);
    if isSlow && !isFast then slow else if isFast && !isSlow then fast else 1.0
  }

  /** The calls `updateEffects` issues, given the unit's current pitch and
      rate and the three targets. The mix is always written; pitch only when
      it differs; rate only when it differs, and when it returns to 1 the
      unit is reset and the pitch written again just before the rate.
      A reset is issued exactly when the rate changes back to 1, and it is
      always followed immediately by the target pitch and then the rate. */
  function EffectWrites(curPitch: real, curRate: real, mix: real, pitch: real, rate: real): (w: seq<NodeOp>)
    ensures |w| >= 1 && w[0] == SetWetDryMix(mix)
    ensures ResetTimePitch in w <==> curRate != rate && rate == 1.0
    ensures forall k :: 0 <= k < |w| && w[k] == ResetTimePitch ==>
      k + 2 < |w| && w[k + 1] == SetPitch(pitch) && w[k + 2] == SetRate(rate)
    ensures forall k :: 0 <= k < |w| ==> !w[k].StartLoop? && !w[k].StartPersonal? && !w[k].Stop?
    ensures curPitch == pitch && curRate == rate ==> w == [SetWetDryMix(mix)]
  {
    [SetWetDryMix(mix)] + PitchWrites(curPitch, pitch) + RateWrites(curRate, pitch, rate)
  }

  /** The pitch step of `updateEffects`: a write only when the pitch differs. */
  function PitchWrites(curPitch: real, pitch: real): seq<NodeOp>
  {
    if curPitch != pitch then [SetPitch(pitch)] else []
  }

  /** The rate step of `updateEffects`: nothing when the rate is already the
      target; otherwise the rate write, preceded by a reset and a pitch
      rewrite when the target is 1. */
  function RateWrites(curRate: real, pitch: real, rate: real): seq<NodeOp>
  {
    if curRate != rate then
      (if rate == 1.0 then [ResetTimePitch, SetPitch(pitch)] else []) + [SetRate(rate)]
    else []
  }

  /** After the effect writes the unit holds exactly the targets, whatever
      it held before (the pitch is not left stale by the reset), and the
      players, volume and preset are untouched. */
  lemma EffectWritesReachTargets(n: Nodes, mix: real, pitch: real, rate: real)
    ensures var m := Run(n, EffectWrites(n.pitch, n.rate, mix, pitch, rate));
      && m.wetDryMix == mix && m.pitch == pitch && m.rate == rate
      && m.playing == n.playing && m.volume == n.volume && m.preset == n.preset
  {
    var mixWrite := [SetWetDryMix(mix)];
    var pitchWrite := if n.pitch != pitch then [SetPitch(pitch)] else [];
    var resetWrites := if n.rate != rate && rate == 1.0 then [ResetTimePitch, SetPitch(pitch)] else [];
    var rateWrite := if n.rate != rate then [SetRate(rate)] else [];
    var w := EffectWrites(n.pitch, n.rate, mix, pitch, rate);
    assert w == mixWrite + pitchWrite + resetWrites + rateWrite;
    RunAppend(n, mixWrite + pitchWrite + resetWrites, rateWrite);
    RunAppend(n, mixWrite + pitchWrite, resetWrites);
    RunAppend(n, mixWrite, pitchWrite);
    RunOne(n, SetWetDryMix(mix));
    var n1 := Apply(n, SetWetDryMix(mix));
    var n2 := Run(n1, pitchWrite);
    if n.pitch != pitch { RunOne(n1, SetPitch(pitch)); } else { assert n2 == n1; }
    var n3 := Run(n2, resetWrites);
    if n.rate != rate && rate == 1.0 {
      RunAppend(n2, [ResetTimePitch], [SetPitch(pitch)]);
      RunOne(n2, ResetTimePitch);
      RunOne(Apply(n2, ResetTimePitch), SetPitch(pitch));
    } else {
      assert n3 == n2;
    }
    if n.rate != rate { RunOne(n3, SetRate(rate)); } else { assert Run(n3, rateWrite) == n3; }
  }

  /** Re-deriving the effects from an unchanged card set issues nothing but
      the (unchanged) mix write: no pitch write, no rate write, no reset. */
  lemma EffectWritesSettle(n: Nodes, mix: real, pitch: real, rate: real)
    ensures var m := Run(n, EffectWrites(n.pitch, n.rate, mix, pitch, rate));
      EffectWrites(m.pitch, m.rate, mix, pitch, rate) == [SetWetDryMix(mix)]
  {
    EffectWritesReachTargets(n, mix, pitch, rate);
  }

  // ---------------------------------------------------------------------
  // Buffer cache (getCachedBuffer)

  /** The outcome of a cache request: the buffer (nil when the asset cannot
      be loaded), the cache afterwards and the number of loads so far. */
  datatype Fetched = Fetched(buffer: Option<PcmBuffer>, cache: map<string, PcmBuffer>, loads: nat)

  /** `getCachedBuffer(for:)`. `loadable` is the set of bundled assets that
      open, allocate and read successfully. A hit returns the stored buffer
      and changes nothing; a miss on a loadable asset loads it once and
      stores exactly that key; a miss on anything else returns nil and
      changes nothing. Entries are never removed or replaced. */
  function FetchBuffer(cache: map<string, PcmBuffer>, loadable: set<string>, loads: nat, name: string): (f: Fetched)
    ensures cache.Keys <= f.cache.Keys && f.cache.Keys <= cache.Keys + {name}
    ensures forall k :: k in cache ==> f.cache[k] == cache[k]
    ensures f.buffer.Some? <==> name in cache || name in loadable
    ensures f.buffer.Some? ==> name in f.cache && f.cache[name] == f.buffer.value
    ensures name in cache ==> f.cache == cache && f.loads == loads
    ensures f.buffer.None? ==> f.cache == cache && f.loads == loads
    ensures name !in cache && name in loadable ==>
      f.buffer == Some(PcmBuffer(name, loads)) && f.loads == loads + 1
  {
    if name in cache then Fetched(Some(cache[name]), cache, loads)
    else if name in loadable then
      var buffer := PcmBuffer(name, loads);
      Fetched(Some(buffer), cache[name := buffer], loads + 1)
    else Fetched(None, cache, loads)
  }

  /** Asking twice for the same asset returns the same buffer the second
      time, without loading again. */
  lemma FetchTwiceSameBuffer(cache: map<string, PcmBuffer>, loadable: set<string>, loads: nat, name: string)
    ensures var f := FetchBuffer(cache, loadable, loads, name);
      var g := FetchBuffer(f.cache, loadable, f.loads, name);
      g.buffer == f.buffer && g.cache == f.cache && g.loads == f.loads
  {
  }

}
