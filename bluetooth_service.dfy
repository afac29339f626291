/** The slot decoder and the mockup-or-session selection of
    Services/BluetoothService.swift. The session manager below it is not part
    of this model: what it last received is handed in as a `Session` value. */
module Bluetooth {

  import opened Options
  import Cards

  /** What the service reads from its peripheral session manager: the last
      raw slot string received (nil before the first notification) and the
      connection flag. */
  datatype Session = Session(cardsInSlot: Option<string>, peripheralConnected: bool)

  /** An ASCII decimal digit. */
  predicate IsDigit(c: char)
  {
    '0' <= c <= '9'
  }

  /** `Character.wholeNumberValue` restricted to ASCII: the value of a decimal
      digit, nil for every other character. */
  function WholeNumberValue(c: char): (r: Option<int>)
    ensures r.Some? <==> '0' <= c <= '9'
    ensures r.Some? ==> 0 <= r.value <= 9 && r.value == c as int - '0' as int
  {
    if IsDigit(c) then Some(c as int - '0' as int) else None
  }

  /** `compactMap { $0.wholeNumberValue }`: the values of the digits of `s`,
      in order, every other character dropped. */
  function DigitValues(s: string): (r: seq<int>)
    ensures |r| <= |s|
    ensures forall k :: 0 <= k < |r| ==> 0 <= r[k] <= 9
    ensures (forall k :: 0 <= k < |s| ==> !IsDigit(s[k])) ==> r == []
  {
    if s == [] then []
    else
      var rest := DigitValues(s[1..]);
      assert forall k :: 0 <= k < |s[1..]| ==> s[1..][k] == s[k + 1];
      match WholeNumberValue(s[0])
      case Some(v) => [v] + rest
      case None => rest
  }

  /** Decoding distributes over concatenation of payloads: order is kept and
      each character contributes on its own. */
  lemma {:induction false} DigitValuesAppend(a: string, b: string)
    ensures DigitValues(a + b) == DigitValues(a) + DigitValues(b)
    decreases |a|
  {
    if a != [] {
      assert (a + b)[1..] == a[1..] + b;
      DigitValuesAppend(a[1..], b);
    } else {
      assert a + b == b;
    }
  }

  /** A single character decodes to its digit value, or to nothing when it
      is not a digit; with `DigitValuesAppend` this pins down the decoding
      of every payload. */
  lemma DigitValuesOfChar(c: char)
    ensures IsDigit(c) ==> DigitValues([c]) == [c as int - '0' as int]
    ensures !IsDigit(c) ==> DigitValues([c]) == []
  {
    assert [c][1..] == [];
  }

  /** A payload made of digits only decodes position by position. */
  lemma {:induction false} DigitValuesOfDigits(s: string)
    requires forall k :: 0 <= k < |s| ==> IsDigit(s[k])
    ensures |DigitValues(s)| == |s|
    ensures forall k :: 0 <= k < |s| ==> DigitValues(s)[k] == s[k] as int - '0' as int
    decreases |s|
  {
    if s != [] {
      DigitValuesOfDigits(s[1..]);
      assert DigitValues(s) == [s[0] as int - '0' as int] + DigitValues(s[1..]);
    }
  }

  /** `getSlotsCard`: no payload yet reads as six empty slots; a payload
      decodes to its digit values. A payload without any digit yields the
      empty list, not six zeros. */
  function GetSlotsCard(cardsInSlot: Option<string>): (r: seq<int>)
    ensures cardsInSlot.None? ==> r == [0, 0, 0, 0, 0, 0]
    ensures cardsInSlot.Some? ==> |r| <= |cardsInSlot.value|
    ensures cardsInSlot.Some? && (forall k :: 0 <= k < |cardsInSlot.value| ==> !IsDigit(cardsInSlot.value[k])) ==> r == []
    ensures forall k :: 0 <= k < |r| ==> 0 <= r[k] < |Cards.RegisteredCards()|
  {
    match cardsInSlot
    case None => [0, 0, 0, 0, 0, 0]
    case Some(s) => DigitValues(s)
  }

  /** A payload of exactly six digits yields six slots, each the digit's
      value. */
  lemma SixDigitPayload(s: string)
    requires |s| == 6 && forall k :: 0 <= k < 6 ==> IsDigit(s[k])
    ensures |GetSlotsCard(Some(s))| == 6
    ensures forall k :: 0 <= k < 6 ==> GetSlotsCard(Some(s))[k] == s[k] as int - '0' as int
  {
    DigitValuesOfDigits(s);
  }

  /** The service as the views see it. In mockup mode it reports the
      simulated slots and connection flag; otherwise it forwards the session
      manager's values. */
  class BluetoothService {
    const mockup: bool
    var mockupSlots: seq<int>
    var mockConnected: bool

    /** Simulated slots are always six catalog ids, 0 to 8. */
    ghost predicate Valid()
      reads this
    {
      |mockupSlots| == 6 && forall k :: 0 <= k < 6 ==> 0 <= mockupSlots[k] <= 8
    }

    /** `init(mockup:)`: six zero slots, then in mockup mode six random ids
        in 0...8 (the random draw is any such list). */
    constructor (mockup: bool)
      ensures Valid()
      ensures this.mockup == mockup && !mockConnected
      ensures !mockup ==> mockupSlots == [0, 0, 0, 0, 0, 0]
    {
      this.mockup := mockup;
      mockConnected := false;
      mockupSlots := [0, 0, 0, 0, 0, 0];
      if mockup {
        var slots: seq<int> :| |slots| == 6 && forall k :: 0 <= k < 6 ==> 0 <= slots[k] <= 8;
        mockupSlots := slots;
      }
    }

    /** The mockup timer's refresh: six random ids in 0...5 (any such list). */
    method MockupTimerFired()
      requires Valid() && mockup
      modifies this`mockupSlots
      ensures Valid()
      ensures |mockupSlots| == 6 && forall k :: 0 <= k < 6 ==> 0 <= mockupSlots[k] <= 5
    {
      assert |[0, 0, 0, 0, 0, 0]| == 6;
      var slots: seq<int> :| |slots| == 6 && forall k :: 0 <= k < 6 ==> 0 <= slots[k] <= 5;
      mockupSlots := slots;
    }

    /** The delayed effect of `simulatePairing`: the simulated peripheral
        reports itself connected. */
    method SimulatedPairingElapsed()
      requires mockup
      modifies this`mockConnected
      ensures mockConnected
    {
      mockConnected := true;
    }

    /** `isPeripheralConnected`: the simulated flag in mockup mode, the
        session's flag otherwise. */
    function IsPeripheralConnected(session: Session): (r: bool)
      reads this
      ensures mockup ==> r == mockConnected
      ensures !mockup ==> r == session.peripheralConnected
    {
      if mockup then mockConnected else session.peripheralConnected
    }

    /** `slotCards`: the simulated slots in mockup mode, the decoded payload
        otherwise. Either way every value is a catalog id, and in mockup
        mode there are always six. */
    function SlotCards(session: Session): (r: seq<int>)
      requires Valid()
      reads this
      ensures mockup ==> r == mockupSlots && |r| == 6
      ensures !mockup ==> r == GetSlotsCard(session.cardsInSlot)
      ensures forall k :: 0 <= k < |r| ==> 0 <= r[k] < |Cards.RegisteredCards()|
    {
      if mockup then mockupSlots else GetSlotsCard(session.cardsInSlot)
    }
  }

}
