/** The playback channels of the mixer (Model/AudioTrack.swift). */
module AudioTracks {

  /** One player node per case; `Personal` plays a user-imported recording
      instead of a bundled asset. */
  datatype AudioTrack = Melody | Harmony | Groove | Personal

  /** `AudioTrack.allCases`: every case exactly once, in declaration order. */
  function AllCases(): (r: seq<AudioTrack>)
    ensures |r| == 4
    ensures forall t: AudioTrack :: t in r
    ensures forall i, j :: 0 <= i < j < |r| ==> r[i] != r[j]
  {
    var r := [Melody, Harmony, Groove, Personal];
    EveryCaseListed(r);
    r
  }

  lemma EveryCaseListed(r: seq<AudioTrack>)
    requires r == [Melody, Harmony, Groove, Personal]
    ensures forall t: AudioTrack :: t in r
  {
    forall t: AudioTrack ensures t in r {
      if t.Melody? { assert r[0] == t; }
      else if t.Harmony? { assert r[1] == t; }
      else if t.Groove? { assert r[2] == t; }
      else { assert r[3] == t; }
    }
  }

}
