/**
 * What the engine promises, stated over Step and Run: the page bounds, the
 * channel and payload of slider and knob messages, group selection, the
 * transport buttons, when a status line appears, and a few whole scenarios.
 */
module EngineProperties {
  import opened Wrappers
  import opened Strings
  import opened Controls
  import opened Mapping
  import opened EventEngine

  /** The same holds of any sequence of events from a valid state, the start-up state among them. */
  lemma {:induction false} RunKeepsSessionValid(s: Session, names: map<string, string>, events: seq<Event>)
    requires ValidSession(s)
    ensures ValidSession(Run(s, names, events).session)
    decreases |events|
  {
    if |events| > 0 {
      StepKeepsSessionValid(s, names, events[0].element, events[0].value);
      RunKeepsSessionValid(Step(s, names, events[0].element, events[0].value).session, names, events[1..]);
    }
  }

  /**
   * TrackPrevious: a press moves one page down unless already on page 1. Any
   * other case falls through to the transport switch, which has no case for it:
   * nothing changes and nothing is sent.
   */
  lemma TrackPreviousPaging(s: Session, names: map<string, string>, value: Byte)
    requires ValidPage(s.page)
    ensures var r := Step(s, names, ButtonTrackPrevious, value);
      && r.message == None
      && r.session.group == s.group
      && (if value == ButtonPressed && s.page > 1
          then r.session.page == s.page - 1 && r.status == Some(StatusLine(s.group, names, s.page - 1))
          else r == Quiet(s))
  {
  }

  /** TrackNext: a press moves one page up unless already on page 8; otherwise nothing happens. */
  lemma TrackNextPaging(s: Session, names: map<string, string>, value: Byte)
    requires ValidPage(s.page)
    ensures var r := Step(s, names, ButtonTrackNext, value);
      && r.message == None
      && r.session.group == s.group
      && (if value == ButtonPressed && s.page < 8
          then r.session.page == s.page + 1 && r.status == Some(StatusLine(s.group, names, s.page + 1))
          else r == Quiet(s))
  {
  }

  /** Only the two paging buttons change the page, by one step at a time. */
  lemma PageChangesOnlyByPaging(s: Session, names: map<string, string>, element: Byte, value: Byte)
    requires ValidPage(s.page)
    ensures var p := Step(s, names, element, value).session.page;
      && (p != s.page ==> (element == ButtonTrackPrevious || element == ButtonTrackNext) && value == ButtonPressed)
      && (p == s.page || p == s.page - 1 || p == s.page + 1)
  {
  }

  /**
   * A slider or knob event, whatever its value, sends one message and changes
   * nothing. The address reads back as the current group, the control's type
   * and channel element + delta + (page-1)*8, which lies in [1,64]; the payload
   * is the integer nearest to value * 255 / 127, within [0,255] for values up to 127.
   */
  lemma ChannelControlSends(s: Session, names: map<string, string>, element: Byte, value: Byte, b: Bank)
    requires ValidSession(s)
    requires (b == Sliders || b == Knobs) && InBank(element, b)
    ensures var r := Step(s, names, element, value);
      var ch := element + Delta(b) + (s.page - 1) * 8;
      && r.session == s && r.status == None && r.message.Some?
      && 1 <= ch <= 64
      && ParseChannelAddress(r.message.value.address) == Some((s.group, OutType(b), ch))
      && -127 < 254 * r.message.value.payload - 510 * value < 127
      && (value <= 127 ==> 0 <= r.message.value.payload <= 255)
  {
    ClassifyBank(element, b);
    ValidGroupTokenHasNoSlash(s.group);
    if value <= 127 {
      ScaleRange(value);
    }
  }

  /** On a higher page the same slider or knob reaches a higher channel. */
  lemma ChannelGrowsWithPage(s1: Session, s2: Session, names: map<string, string>, element: Byte, value: Byte, b: Bank)
    requires ValidSession(s1) && ValidSession(s2) && s1.group == s2.group
    requires (b == Sliders || b == Knobs) && InBank(element, b)
    requires s1.page < s2.page
    ensures var a1 := ParseChannelAddress(Step(s1, names, element, value).message.value.address);
      var a2 := ParseChannelAddress(Step(s2, names, element, value).message.value.address);
      a1.Some? && a2.Some? && a1.value.2 < a2.value.2
  {
    ChannelControlSends(s1, names, element, value, b);
    ChannelControlSends(s2, names, element, value, b);
  }

  /**
   * A pressed solo, mute or record button selects the group named by the bank's
   * letter and the button's 1-based position, whatever the page or the previous
   * group, keeps the page, sends nothing and shows a status line. Any other value
   * on these buttons changes nothing.
   */
  lemma GroupSelection(s: Session, names: map<string, string>, element: Byte, value: Byte, b: Bank)
    requires ValidPage(s.page)
    requires (b == Solos || b == Mutes || b == Records) && InBank(element, b)
    ensures var r := Step(s, names, element, value);
      if value == ButtonPressed then
        && r.session == Session(s.page, GroupToken(GroupLetter(b), element + Delta(b)))
        && ValidGroupToken(r.session.group)
        && r.session.group[0] == GroupLetter(b)
        && TokenIndex(r.session.group) == element - First(b) + 1
        && r.message == None
        && r.status == Some(StatusLine(r.session.group, names, s.page))
      else r == Quiet(s)
  {
    ClassifyBank(element, b);
    GroupTokenFormat(GroupLetter(b), element + Delta(b));
  }

  /** Pressing the third solo button always selects group "s3". */
  lemma ThirdSoloSelectsS3(s: Session, names: map<string, string>)
    requires ValidPage(s.page)
    ensures Step(s, names, ButtonSolo1 + 2, ButtonPressed).session.group == "s3"
  {
    GroupSelection(s, names, ButtonSolo1 + 2, ButtonPressed, Solos);
    assert NatToDecimal(3) == "3";
  }

  /**
   * A transport button sends its fixed address with payload 255 on every value,
   * pressed or released, and changes nothing.
   */
  lemma TransportSends(s: Session, names: map<string, string>, element: Byte, value: Byte)
    requires ValidPage(s.page)
    requires TransportAddress(element) != ""
    ensures Step(s, names, element, value) ==
      Outcome(s, Some(Message("/" + TransportAddress(element), 255)), None)
  {
    ClassesDisjoint(element, Sliders, Sliders);
    ClassesDisjoint(element, Knobs, Knobs);
    ClassesDisjoint(element, Solos, Solos);
    ClassesDisjoint(element, Mutes, Mutes);
    ClassesDisjoint(element, Records, Records);
  }

  /** An element outside every class sends nothing and changes nothing. */
  lemma UnmappedIsIgnored(s: Session, names: map<string, string>, element: Byte, value: Byte)
    requires ValidPage(s.page)
    requires Classify(element) == Unmapped
    ensures Step(s, names, element, value) == Quiet(s)
  {
  }

  /** An event sends a message or shows a status line, never both. */
  lemma MessageOrStatus(s: Session, names: map<string, string>, element: Byte, value: Byte)
    requires ValidPage(s.page)
    ensures var r := Step(s, names, element, value);
      !(r.message.Some? && r.status.Some?)
  {
  }

  /** True of a pressed solo, mute or record button. */
  predicate IsGroupPress(element: int, value: int)
  {
    value == ButtonPressed && (InBank(element, Solos) || InBank(element, Mutes) || InBank(element, Records))
  }

  /**
   * A status line appears exactly when the page changed or a group button was
   * pressed (re-selecting the current group included), and it shows the new
   * group and page.
   */
  lemma StatusExactlyOnViewChange(s: Session, names: map<string, string>, element: Byte, value: Byte)
    requires ValidPage(s.page)
    ensures var r := Step(s, names, element, value);
      && (r.status.Some? <==> r.session.page != s.page || IsGroupPress(element, value))
      && (r.status.Some? ==> r.status.value == StatusLine(r.session.group, names, r.session.page))
  {
    if IsGroupPress(element, value) {
      var b :| (b == Solos || b == Mutes || b == Records) && InBank(element, b);
      ClassifyBank(element, b);
    } else {
      match Classify(element)
      case BankControl(b, i) =>
        assert InBank(element, b);
      case _ =>
    }
  }

  /** Pressing the button of the group already selected changes nothing but still shows a status line. */
  lemma ReselectionStillReports(s: Session, names: map<string, string>, element: Byte, b: Bank)
    requires ValidPage(s.page)
    requires (b == Solos || b == Mutes || b == Records) && InBank(element, b)
    requires s.group == GroupToken(GroupLetter(b), element + Delta(b))
    ensures Step(s, names, element, ButtonPressed) == Outcome(s, None, Some(StatusLine(s.group, names, s.page)))
  {
    GroupSelection(s, names, element, ButtonPressed, b);
  }

  /** A selected group governs the address of the next slider or knob message. */
  lemma SelectionPrefixesNextAddress(s: Session, names: map<string, string>, button: Byte, element: Byte, value: Byte, b: Bank, c: Bank)
    requires ValidSession(s)
    requires (b == Solos || b == Mutes || b == Records) && InBank(button, b)
    requires (c == Sliders || c == Knobs) && InBank(element, c)
    ensures var t := Run(s, names, [Event(button, ButtonPressed), Event(element, value)]);
      var g := GroupToken(GroupLetter(b), button + Delta(b));
      && |t.messages| == 1
      && ParseChannelAddress(t.messages[0].address) == Some((g, OutType(c), element + Delta(c) + (s.page - 1) * 8))
  {
    GroupSelection(s, names, button, ButtonPressed, b);
    var o1 := Step(s, names, button, ButtonPressed);
    ChannelControlSends(o1.session, names, element, value, c);
    RunPair(s, names, Event(button, ButtonPressed), Event(element, value));
  }

  /** Two events: the second sees the state the first left, and their outputs are in order. */
  lemma RunPair(s: Session, names: map<string, string>, e1: Event, e2: Event)
    requires ValidPage(s.page)
    ensures var o1 := Step(s, names, e1.element, e1.value);
      var o2 := Step(o1.session, names, e2.element, e2.value);
      Run(s, names, [e1, e2]) == Trace(o2.session, Emitted(o1.message) + Emitted(o2.message), Emitted(o1.status) + Emitted(o2.status))
  {
    var events := [e1, e2];
    assert events[1..] == [e2];
    assert events[1..][1..] == [];
    var o1 := Step(s, names, e1.element, e1.value);
    var o2 := Step(o1.session, names, e2.element, e2.value);
    assert Run(o1.session, names, [e2]) == Trace(o2.session, Emitted(o2.message) + [], Emitted(o2.status) + []);
  }

  /**
   * The same event twice from a state it does not change sends the same message
   * twice: messages are not deduplicated.
   */
  lemma RepeatedEventRepeatsMessage(s: Session, names: map<string, string>, e: Event)
    requires ValidPage(s.page)
    requires Step(s, names, e.element, e.value).session == s
    requires Step(s, names, e.element, e.value).message.Some?
    ensures var m := Step(s, names, e.element, e.value).message.value;
      Run(s, names, [e, e]).messages == [m, m]
  {
    RunPair(s, names, e, e);
  }

  /** Slider 1 at full travel, page 1, group "s1": address /s1/slider/1, payload 255. */
  lemma ScenarioSlider1()
    ensures Step(InitialSession, map[], Slider1, 127) == Outcome(InitialSession, Some(Message("/s1/slider/1", 255)), None)
  {
    SliderSends(InitialSession, map[], Slider1, 127);
    ScaleRange(127);
    FirstSliderAddress();
  }

  /** Any slider event sends the slider message of the current group and page, and changes nothing. */
  lemma SliderSends(s: Session, names: map<string, string>, element: Byte, value: Byte)
    requires ValidPage(s.page) && InBank(element, Sliders)
    ensures Step(s, names, element, value) ==
      Outcome(s, Some(ChannelMessage(s.group, "slider", element, SliderDelta, s.page, value)), None)
  {
    StepChannelControl(s, names, element, value, Sliders);
  }

  /** TrackNext pressed on page 3: page 4, status line "Group: s1, Page: 4", no message. */
  lemma ScenarioTrackNext()
    ensures var r := Step(Session(3, "s1"), map[], ButtonTrackNext, ButtonPressed);
      && r.session == Session(4, "s1")
      && r.message == None
      && r.status == Some("Group: s1, Page: 4\n")
      && StatusPage(r.status.value) == Some(4)
  {
    PageFourStatusLine();
    StatusLinePage("s1", map[], 4);
  }

  /** Play, at any value and in any state: /play with payload 255. */
  lemma ScenarioPlay(s: Session, names: map<string, string>, value: Byte)
    requires ValidPage(s.page)
    ensures Step(s, names, ButtonPlay, value) == Outcome(s, Some(Message("/play", 255)), None)
  {
    TransportSends(s, names, ButtonPlay, value);
    assert "/" + TransportAddress(ButtonPlay) == "/play";
  }
}
