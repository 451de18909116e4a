/**
 * The nanoKONTROL2 element identifiers and their classification
 * (main.go:14-48): two paging buttons, five banks of eight controls,
 * nine transport buttons, and everything else unmapped.
 */
module Controls {

  /** A MIDI data byte, as carried in pkg.Data[1] and pkg.Data[2]. */
  type Byte = x: int | 0 <= x < 256

  /** The value a button sends when it is pressed. */
  const ButtonPressed := 127

  const ButtonTrackPrevious := 58
  const ButtonTrackNext := 59
  const ButtonCycle := 46
  const ButtonMarkerSet := 60
  const ButtonMarkerPrevious := 61
  const ButtonMarkerNext := 62
  const ButtonRewind := 43
  const ButtonForward := 44
  const ButtonStop := 42
  const ButtonPlay := 41
  const ButtonRecord := 45
  const Slider1 := 0
  const Slider8 := 7
  const Knob1 := 16
  const Knob8 := 23
  const ButtonSolo1 := 32
  const ButtonSolo8 := 39
  const ButtonMute1 := 48
  const ButtonMute8 := 55
  const ButtonRecord1 := 64
  const ButtonRecord8 := 71

  const SliderDelta := 1
  const KnobDelta := -15
  const MuteDelta := -47
  const SoloDelta := -31
  const RecordDelta := -63

  /** The five banks of eight physical controls. */
  datatype Bank = Sliders | Knobs | Solos | Mutes | Records

  function First(b: Bank): int
  {
    match b
    case Sliders => Slider1
    case Knobs => Knob1
    case Solos => ButtonSolo1
    case Mutes => ButtonMute1
    case Records => ButtonRecord1
  }

  function Last(b: Bank): int
  {
    match b
    case Sliders => Slider8
    case Knobs => Knob8
    case Solos => ButtonSolo8
    case Mutes => ButtonMute8
    case Records => ButtonRecord8
  }

  /** The class delta: it turns the first element of each bank into index 1. */
  function Delta(b: Bank): (d: int)
    ensures First(b) + d == 1
    ensures Last(b) + d == 8
  {
    match b
    case Sliders => SliderDelta
    case Knobs => KnobDelta
    case Solos => SoloDelta
    case Mutes => MuteDelta
    case Records => RecordDelta
  }

  predicate InBank(e: int, b: Bank)
  {
    First(b) <= e <= Last(b)
  }

  /**
   * The transport switch of main.go:81-100: the address suffix of a transport
   * button, or "" for any other element.
   */
  function TransportAddress(e: int): (a: string)
    ensures a != "" <==> e in TransportButtons
  {
    if e == ButtonCycle then "cycle"
    else if e == ButtonMarkerSet then "marker/set"
    else if e == ButtonMarkerPrevious then "marker/previous"
    else if e == ButtonMarkerNext then "marker/next"
    else if e == ButtonRewind then "rewind"
    else if e == ButtonForward then "forward"
    else if e == ButtonStop then "stop"
    else if e == ButtonPlay then "play"
    else if e == ButtonRecord then "record"
    else ""
  }

  /** The elements the transport switch has a case for. */
  const TransportButtons: set<int> := {
    ButtonCycle, ButtonMarkerSet, ButtonMarkerPrevious, ButtonMarkerNext,
    ButtonRewind, ButtonForward, ButtonStop, ButtonPlay, ButtonRecord}

  /** The transport buttons in the order of the switch, with their address suffixes. */
  const TransportTable: seq<(int, string)> := [
    (ButtonCycle, "cycle"), (ButtonMarkerSet, "marker/set"),
    (ButtonMarkerPrevious, "marker/previous"), (ButtonMarkerNext, "marker/next"),
    (ButtonRewind, "rewind"), (ButtonForward, "forward"), (ButtonStop, "stop"),
    (ButtonPlay, "play"), (ButtonRecord, "record")]

  /** The switch sends exactly the table's buttons, each to its own suffix. */
  lemma TransportAddressMatchesTable(e: int)
    ensures TransportAddress(e) != "" <==> exists k :: 0 <= k < |TransportTable| && TransportTable[k].0 == e
    ensures forall k :: 0 <= k < |TransportTable| && TransportTable[k].0 == e ==>
      TransportAddress(e) == TransportTable[k].1
  {
    if TransportAddress(e) != "" {
      var k := if e == ButtonCycle then 0 else if e == ButtonMarkerSet then 1
        else if e == ButtonMarkerPrevious then 2 else if e == ButtonMarkerNext then 3
        else if e == ButtonRewind then 4 else if e == ButtonForward then 5
        else if e == ButtonStop then 6 else if e == ButtonPlay then 7 else 8;
      assert TransportTable[k].0 == e;
    }
  }

  /** No two transport buttons share an address. */
  lemma TransportAddressInjective(e1: int, e2: int)
    requires TransportAddress(e1) != ""
    requires TransportAddress(e1) == TransportAddress(e2)
    ensures e1 == e2
  {
  }

  /** What an element is, derived from its identifier alone. */
  datatype Control =
    | TrackPrevious
    | TrackNext
    | BankControl(bank: Bank, index: int)
    | Transport(address: string)
    | Unmapped

  /**
   * The element classifier: exact match for single buttons, inclusive range
   * for the banks. A bank control carries its 1-based position in the bank.
   */
  function Classify(e: int): (c: Control)
    ensures c.BankControl? ==> 1 <= c.index <= 8 && InBank(e, c.bank) && c.index == e + Delta(c.bank)
    ensures c.Transport? ==> c.address == TransportAddress(e) != ""
    ensures c == TrackPrevious <==> e == ButtonTrackPrevious
    ensures c == TrackNext <==> e == ButtonTrackNext
  {
    if e == ButtonTrackPrevious then TrackPrevious
    else if e == ButtonTrackNext then TrackNext
    else if InBank(e, Sliders) then BankControl(Sliders, e + Delta(Sliders))
    else if InBank(e, Knobs) then BankControl(Knobs, e + Delta(Knobs))
    else if InBank(e, Solos) then BankControl(Solos, e + Delta(Solos))
    else if InBank(e, Mutes) then BankControl(Mutes, e + Delta(Mutes))
    else if InBank(e, Records) then BankControl(Records, e + Delta(Records))
    else if TransportAddress(e) != "" then Transport(TransportAddress(e))
    else Unmapped
  }

  /**
   * The classes do not overlap: an element lies in at most one bank, and no
   * bank element is a paging or a transport button. So the order in which the
   * tests are made does not matter.
   */
  lemma ClassesDisjoint(e: int, b1: Bank, b2: Bank)
    ensures InBank(e, b1) && InBank(e, b2) ==> b1 == b2
    ensures InBank(e, b1) ==> e != ButtonTrackPrevious && e != ButtonTrackNext && TransportAddress(e) == ""
    ensures TransportAddress(e) != "" ==> e != ButtonTrackPrevious && e != ButtonTrackNext
  {
  }

  /** Every element of a bank is classified into that bank. */
  lemma ClassifyBank(e: int, b: Bank)
    requires InBank(e, b)
    ensures Classify(e) == BankControl(b, e + Delta(b))
  {
  }

  /** Exactly the elements outside every class are unmapped. */
  lemma ClassifyUnmapped(e: int)
    ensures Classify(e) == Unmapped <==>
      && e != ButtonTrackPrevious && e != ButtonTrackNext
      && (forall b: Bank :: !InBank(e, b))
      && TransportAddress(e) == ""
  {
    if Classify(e) != Unmapped {
      match Classify(e)
      case BankControl(b, _) => assert InBank(e, b);
      case _ =>
    }
  }

  /** Two elements with the same mapped class are the same element. */
  lemma ClassifyInjective(e1: int, e2: int)
    requires Classify(e1) == Classify(e2) != Unmapped
    ensures e1 == e2
  {
    if Classify(e1).Transport? {
      TransportAddressInjective(e1, e2);
    }
  }
}
