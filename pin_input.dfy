/** The delivery-PIN entry widget of components/PinInput.tsx: a row of
    one-character slots that reports the whole PIN once every slot is
    filled. Focus is modelled as the index of the slot last asked to take
    it. */
module PinEntry {
  import opened Wrappers

  /** The number of slots when the caller gives none. */
  const DefaultPinLength: nat := 4

  /** Every slot holds at most one character. */
  ghost predicate SlotsValid(slots: seq<string>) {
    forall i :: 0 <= i < |slots| ==> |slots[i]| <= 1
  }

  /** `slots.every(digit => digit !== "")`. */
  predicate AllFilled(slots: seq<string>) {
    forall i :: 0 <= i < |slots| ==> slots[i] != ""
  }

  /** `slots.join("")`. */
  function Joined(slots: seq<string>): string {
    if slots == [] then "" else slots[0] + Joined(slots[1..])
  }

  /** Filled one-character slots join to a string with one character per
      slot, each slot's character in its place. */
  lemma {:induction false} JoinedFilledSlots(slots: seq<string>)
    requires SlotsValid(slots) && AllFilled(slots)
    ensures |Joined(slots)| == |slots|
    ensures forall i :: 0 <= i < |slots| ==> Joined(slots)[i] == slots[i][0]
  {
    if slots != [] {
      JoinedFilledSlots(slots[1..]);
      assert forall i :: 1 <= i < |slots| ==> slots[1..][i - 1] == slots[i];
    }
  }

  class PinInput {
    const pinLength: nat
    const pin: array<string>
    var focus: Option<nat>

    ghost predicate Valid()
      reads this, pin
    {
      pin.Length == pinLength &&
      SlotsValid(pin[..]) &&
      (focus.Some? ==> focus.value < pinLength)
    }

    /** `pinLength` empty slots and no focus request yet. */
    constructor (pinLength: nat)
      ensures Valid() && fresh(pin)
      ensures this.pinLength == pinLength
      ensures pin[..] == seq(pinLength, _ => "") && focus == None
    {
      this.pinLength := pinLength;
      pin := new string[pinLength](_ => "");
      focus := None;
    }

    /** The widget as rendered without a `pinLength` property. */
    constructor Default()
      ensures Valid() && fresh(pin)
      ensures pinLength == DefaultPinLength
      ensures pin[..] == seq(DefaultPinLength, _ => "") && focus == None
    {
      pinLength := DefaultPinLength;
      pin := new string[DefaultPinLength](_ => "");
      focus := None;
    }

    /** `handlePinChange(value, index)`: a value of more than one character
        is ignored; otherwise it replaces slot `index` alone, a character
        moves focus to the next slot, and the joined PIN is reported when
        every slot is filled. */
    method HandlePinChange(value: string, index: nat) returns (completed: Option<string>)
      requires Valid() && index < pinLength
      modifies pin, this`focus
      ensures Valid()
      ensures |value| > 1 ==> pin[..] == old(pin[..]) && completed == None
      ensures |value| <= 1 ==> pin[..] == old(pin[..])[index := value]
      ensures focus == if |value| == 1 && index < pinLength - 1 then Some(index + 1) else old(focus)
      ensures completed.Some? <==> |value| <= 1 && AllFilled(pin[..])
      ensures completed.Some? ==> completed.value == Joined(pin[..]) && |completed.value| == pinLength
      ensures completed.Some? ==> forall i :: 0 <= i < pinLength ==> completed.value[i] == pin[i][0]
      ensures value == "" ==> completed == None
    {
      if |value| > 1 {
        return None;
      }
      pin[index] := value;
      if value != "" && index < pinLength - 1 {
        focus := Some(index + 1);
      }
      var newPin := pin[..];
      if AllFilled(newPin) {
        JoinedFilledSlots(newPin);
      }
      if AllFilled(newPin) && |Joined(newPin)| == pinLength {
        completed := Some(Joined(newPin));
      } else {
        completed := None;
      }
    }

    /** `handleKeyPress(key, index)`: backspace on an empty slot other than
        the first moves focus back one slot. */
    method HandleKeyPress(key: string, index: nat)
      requires Valid() && index < pinLength
      modifies this`focus
      ensures Valid()
      ensures focus == if key == "Backspace" && pin[index] == "" && index > 0 then Some(index - 1) else old(focus)
    {
      if key == "Backspace" && pin[index] == "" && index > 0 {
        focus := Some(index - 1);
      }
    }
  }
}
