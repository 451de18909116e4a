/**
 * The event-mapping engine of main.go: the session state (the globals page and
 * group, main.go:50-52, and the alias table groupNames), the handler callback
 * (main.go:55-124), sendOsc (main.go:126-132) and the table fold of loadNames
 * (main.go:163-177).
 *
 * Step is the reference definition of one event, written over the element
 * classifier; Engine.Handle follows the handler's own chain of tests and is
 * proved to agree with Step for every event and every valid state.
 */
module EventEngine {
  import opened Wrappers
  import opened Strings
  import opened Controls
  import opened Mapping
  import opened Aliases

  /** The mutable session state of the engine. */
  datatype Session = Session(page: int, group: string)

  /** page = 1 and group = "s1" at start-up. */
  const InitialSession := Session(1, "s1")

  /** The invariant the engine keeps: a page in [1,8] and a well-formed group token. */
  predicate ValidSession(s: Session)
  {
    ValidPage(s.page) && ValidGroupToken(s.group)
  }

  /** What one event produces: the new session, at most one message and at most one status line. */
  datatype Outcome = Outcome(session: Session, message: Option<Message>, status: Option<string>)

  /** No state change, nothing sent, nothing shown. */
  function Quiet(s: Session): Outcome
  {
    Outcome(s, None, None)
  }

  /** A view change: the new session, and the status line that reports it. */
  function ViewChanged(s: Session, names: map<string, string>): Outcome
    requires ValidPage(s.page)
  {
    Outcome(s, None, Some(StatusLine(s.group, names, s.page)))
  }

  /** One input event (pkg.Data[1], pkg.Data[2]). */
  datatype Event = Event(element: Byte, value: Byte)

  /**
   * The effect of one event, by the class of its element: paging on a pressed
   * TrackPrevious/TrackNext within the page bounds; a channel message from every
   * slider and knob event; a group selection on a pressed solo, mute or record
   * button; a fixed message from every transport event; nothing otherwise.
   */
  function Step(s: Session, names: map<string, string>, element: Byte, value: Byte): (r: Outcome)
    requires ValidPage(s.page)
    ensures ValidPage(r.session.page)
  {
    match Classify(element)
    case TrackPrevious =>
      if value == ButtonPressed && s.page > 1 then ViewChanged(s.(page := s.page - 1), names) else Quiet(s)
    case TrackNext =>
      if value == ButtonPressed && s.page < 8 then ViewChanged(s.(page := s.page + 1), names) else Quiet(s)
    case BankControl(b, i) =>
      if b == Sliders || b == Knobs then
        Outcome(s, Some(ChannelMessage(s.group, OutType(b), element, Delta(b), s.page, value)), None)
      else if value == ButtonPressed then
        ViewChanged(s.(group := GroupToken(GroupLetter(b), i)), names)
      else Quiet(s)
    case Transport(a) => Outcome(s, Some(TransportMessage(a)), None)
    case Unmapped => Quiet(s)
  }

  /** Every event keeps the page in [1,8] and the group a well-formed token. */
  lemma StepKeepsSessionValid(s: Session, names: map<string, string>, element: Byte, value: Byte)
    requires ValidSession(s)
    ensures ValidSession(Step(s, names, element, value).session)
  {
    match Classify(element)
    case BankControl(b, i) =>
      if b != Sliders && b != Knobs {
        GroupTokenFormat(GroupLetter(b), i);
      }
    case _ =>
  }

  /** A pressed paging button within the page bounds moves one page and reports it. */
  lemma StepPaging(s: Session, names: map<string, string>, element: Byte, value: Byte)
    requires ValidPage(s.page)
    ensures element == ButtonTrackPrevious && value == ButtonPressed && s.page > 1 ==>
      Step(s, names, element, value) == ViewChanged(s.(page := s.page - 1), names)
    ensures element == ButtonTrackNext && value == ButtonPressed && s.page < 8 ==>
      Step(s, names, element, value) == ViewChanged(s.(page := s.page + 1), names)
  {
  }

  /** A slider or knob event sends the channel message of the current group and page, whatever its value. */
  lemma StepChannelControl(s: Session, names: map<string, string>, element: Byte, value: Byte, b: Bank)
    requires ValidPage(s.page)
    requires (b == Sliders || b == Knobs) && InBank(element, b)
    ensures Step(s, names, element, value) ==
      Outcome(s, Some(ChannelMessage(s.group, OutType(b), element, Delta(b), s.page, value)), None)
  {
    ClassifyBank(element, b);
  }

  /** A pressed solo, mute or record button selects the group of its letter and bank position. */
  lemma StepGroupPress(s: Session, names: map<string, string>, element: Byte, b: Bank)
    requires ValidPage(s.page)
    requires (b == Solos || b == Mutes || b == Records) && InBank(element, b)
    ensures Step(s, names, element, ButtonPressed) ==
      ViewChanged(s.(group := GroupToken(GroupLetter(b), element + Delta(b))), names)
  {
    ClassifyBank(element, b);
  }

  /**
   * An event that none of the handler's first seven tests takes (main.go:60-78) is
   * left to the transport switch alone: it sends the transport message of the
   * element if the switch has a case for it, and does nothing otherwise.
   */
  lemma StepFallThrough(s: Session, names: map<string, string>, element: Byte, value: Byte)
    requires ValidPage(s.page)
    requires !(element == ButtonTrackPrevious && value == ButtonPressed && s.page > 1)
    requires !(element == ButtonTrackNext && value == ButtonPressed && s.page < 8)
    requires !InBank(element, Sliders) && !InBank(element, Knobs)
    requires !(value == ButtonPressed && (InBank(element, Solos) || InBank(element, Mutes) || InBank(element, Records)))
    ensures Step(s, names, element, value) ==
      if TransportAddress(element) != "" then Outcome(s, Some(TransportMessage(TransportAddress(element))), None)
      else Quiet(s)
  {
    match Classify(element)
    case BankControl(b, i) =>
      assert InBank(element, b);
    case _ =>
  }

  /** What a sequence of events produces, one after the other. */
  datatype Trace = Trace(session: Session, messages: seq<Message>, statuses: seq<string>)

  function Emitted<T>(o: Option<T>): seq<T>
  {
    if o.Some? then [o.value] else []
  }

  /** The events handled in order, each seeing the state the previous one left. */
  function Run(s: Session, names: map<string, string>, events: seq<Event>): (r: Trace)
    requires ValidPage(s.page)
    ensures ValidPage(r.session.page)
    ensures |r.messages| <= |events| && |r.statuses| <= |events|
    decreases |events|
  {
    if |events| == 0 then Trace(s, [], [])
    else
      var o := Step(s, names, events[0].element, events[0].value);
      var t := Run(o.session, names, events[1..]);
      Trace(t.session, Emitted(o.message) + t.messages, Emitted(o.status) + t.statuses)
  }

  /** The engine: the process-wide state of main.go as the fields of one object. */
  class Engine {
    var page: int
    var group: string
    var groupNames: map<string, string>

    ghost predicate Valid()
      reads this
    {
      ValidSession(State())
    }

    function State(): Session
      reads this
    {
      Session(page, group)
    }

    /** The start-up state: page 1, group "s1", no aliases. */
    constructor ()
      ensures Valid() && State() == InitialSession && groupNames == map[]
    {
      page := 1;
      group := "s1";
      groupNames := map[];
    }

    /**
     * loadNames: with exactly one command-line argument (|args| == 2, counting the
     * program name) the lines of the named file are folded into groupNames;
     * otherwise the table is left as it is. A line without '=' stops the fold,
     * as the index out of range does, and its index is returned.
     */
    method LoadNames(args: seq<string>, lines: seq<string>) returns (failure: Option<nat>)
      modifies this`groupNames
      ensures |args| != 2 ==> failure == None && groupNames == old(groupNames)
      ensures |args| == 2 ==>
        match Fold(old(groupNames), lines)
        case Success(m) => failure == None && groupNames == m
        case Failure(i) => failure == Some(i) && Fold(old(groupNames), lines[..i]) == Success(groupNames)
    {
      if |args| != 2 {
        return None;
      }
      var i := 0;
      while i < |lines|
        invariant 0 <= i <= |lines|
        invariant Fold(old(groupNames), lines[..i]) == Success(groupNames)
      {
        var values := Split(lines[i], '=');
        SplitCount(lines[i], '=');
        assert lines[..i + 1][..i] == lines[..i];
        if |values| < 2 {
          FoldFailureLasts(old(groupNames), lines, i + 1);
          return Some(i);
        }
        groupNames := groupNames[TrimSpace(values[0]) := TrimSpace(values[1])];
        i := i + 1;
      }
      assert lines[..i] == lines;
      return None;
    }

    /**
     * sendOsc: the message of a bank control on the current page and group. Its
     * address reads back as that group, that type and channel
     * element + delta + (page-1)*8; its payload is the integer nearest to
     * value * 255 / 127, within [0,255] for a value up to 127.
     */
    method SendOsc(outType: string, element: int, value: Byte, delta: int) returns (msg: Message)
      requires Valid() && 1 <= element + delta <= 8
      ensures msg == ChannelMessage(group, outType, element, delta, page, value)
      ensures '/' !in outType ==>
        ParseChannelAddress(msg.address) == Some((group, outType, element + delta + (page - 1) * 8))
      ensures -127 < 254 * msg.payload - 510 * value < 127
      ensures value <= 127 ==> 0 <= msg.payload <= 255
      ensures 0 <= msg.payload <= 512
    {
      var channel := element + delta + (page - 1) * 8;
      var msgValue := Scale(value);
      msg := Message("/" + group + "/" + outType + "/" + NatToDecimal(channel), msgValue);
      if '/' !in outType {
        ValidGroupTokenHasNoSlash(group);
      }
      if value <= 127 {
        ScaleRange(value);
      }
      ScaleFitsInt32(value);
    }

    /**
     * handler: one event, tested in the order of main.go:60-106. The new state,
     * the message sent and the status line printed are those of Step.
     */
    method Handle(element: Byte, value: Byte) returns (msg: Option<Message>, status: Option<string>)
      requires Valid()
      modifies this`page, this`group
      ensures Valid()
      ensures Outcome(State(), msg, status) == Step(old(State()), groupNames, element, value)
    {
      ghost var s := State();
      StepPaging(s, groupNames, element, value);
      msg, status := None, None;
      var viewChanged := false;
      if element == ButtonTrackPrevious && value == ButtonPressed && page > 1 {
        page := page - 1;
        viewChanged := true;
      } else if element == ButtonTrackNext && value == ButtonPressed && page < 8 {
        page := page + 1;
        viewChanged := true;
      } else if Slider1 <= element <= Slider8 {
        StepChannelControl(s, groupNames, element, value, Sliders);
        var m := SendOsc("slider", element, value, SliderDelta);
        msg := Some(m);
      } else if Knob1 <= element <= Knob8 {
        StepChannelControl(s, groupNames, element, value, Knobs);
        var m := SendOsc("knob", element, value, KnobDelta);
        msg := Some(m);
      } else if ButtonSolo1 <= element <= ButtonSolo8 && value == ButtonPressed {
        StepGroupPress(s, groupNames, element, Solos);
        GroupTokenFormat('s', element + SoloDelta);
        group := GroupToken('s', element + SoloDelta);
        viewChanged := true;
      } else if ButtonMute1 <= element <= ButtonMute8 && value == ButtonPressed {
        StepGroupPress(s, groupNames, element, Mutes);
        GroupTokenFormat('m', element + MuteDelta);
        group := GroupToken('m', element + MuteDelta);
        viewChanged := true;
      } else if ButtonRecord1 <= element <= ButtonRecord8 && value == ButtonPressed {
        StepGroupPress(s, groupNames, element, Records);
        GroupTokenFormat('r', element + RecordDelta);
        group := GroupToken('r', element + RecordDelta);
        viewChanged := true;
      } else {
        StepFallThrough(s, groupNames, element, value);
        var address := TransportAddress(element);
        if address != "" {
          var m := SendTransport(address);
          msg := Some(m);
        }
      }

      if viewChanged {
        var line := StatusText();
        status := Some(line);
      }
    }

    /** The message of a transport button (main.go:101-104): its suffix under the root, with payload 255. */
    method SendTransport(address: string) returns (msg: Message)
      ensures msg == TransportMessage(address)
    {
      msg := Message("/" + address, 255);
    }

    /** The status line of main.go:108-113: the group, with its alias when it has one, and the page. */
    method StatusText() returns (line: string)
      requires Valid()
      ensures line == StatusLine(group, groupNames, page)
    {
      var groupDisplay := group;
      if group in groupNames {
        groupDisplay := group + " (" + groupNames[group] + ")";
      }
      line := "Group: " + groupDisplay + ", Page: " + NatToDecimal(page) + "\n";
    }
  }
}
