/**
 * The pure arithmetic and formatting of the engine: logical channel numbers,
 * payload rescaling, outbound addresses (sendOsc, main.go:126-132), group tokens
 * (main.go:70-78) and the console status line (main.go:108-114).
 */
module Mapping {
  import opened Wrappers
  import opened Strings
  import opened Controls

  /** The pages a bank of eight physical controls can be switched to. */
  predicate ValidPage(p: int)
  {
    1 <= p <= 8
  }

  // ---------------------------------------------------------------------------
  // Channels
  // ---------------------------------------------------------------------------

  /**
   * The logical channel of a bank control: its 1-based position in the bank
   * (element + delta) moved up eight channels per page, so a bank of eight
   * covers 64 channels.
   */
  function Channel(element: int, delta: int, page: int): (ch: int)
    requires 1 <= element + delta <= 8 && ValidPage(page)
    ensures 1 <= ch <= 64
  {
    element + delta + (page - 1) * 8
  }

  /** The position in the bank and the page can both be read back from a channel. */
  lemma ChannelLayout(element: int, delta: int, page: int)
    requires 1 <= element + delta <= 8 && ValidPage(page)
    ensures (Channel(element, delta, page) - 1) % 8 + 1 == element + delta
    ensures (Channel(element, delta, page) - 1) / 8 + 1 == page
  {
    var i := element + delta - 1;
    var ch := Channel(element, delta, page);
    assert ch - 1 == (page - 1) * 8 + i;
    LemmaDivModUnique(ch - 1, page - 1, i);
  }

  lemma LemmaDivModUnique(n: int, q: int, r: int)
    requires 0 <= r < 8 && n == q * 8 + r
    ensures n / 8 == q && n % 8 == r
  {
  }

  /** For a fixed element, a higher page gives a higher channel. */
  lemma ChannelIncreasing(element: int, delta: int, p1: int, p2: int)
    requires 1 <= element + delta <= 8 && ValidPage(p1) && ValidPage(p2)
    ensures p1 < p2 <==> Channel(element, delta, p1) < Channel(element, delta, p2)
  {
  }

  /** Distinct bank positions or pages never share a channel. */
  lemma ChannelInjective(i1: int, p1: int, i2: int, p2: int)
    requires 1 <= i1 <= 8 && ValidPage(p1) && 1 <= i2 <= 8 && ValidPage(p2)
    requires Channel(i1, 0, p1) == Channel(i2, 0, p2)
    ensures i1 == i2 && p1 == p2
  {
    ChannelLayout(i1, 0, p1);
    ChannelLayout(i2, 0, p2);
  }

  // ---------------------------------------------------------------------------
  // Payload rescaling
  // ---------------------------------------------------------------------------

  /**
   * math.Round(float64(value) / 127.0 * 255.0), in exact integer arithmetic:
   * the integer nearest to value * 255 / 127. Since 127 is odd that quotient is
   * never exactly halfway between two integers, so the rounding rule for halves
   * never comes into play.
   */
  function Scale(value: nat): (r: nat)
    ensures -127 < 254 * r - 510 * value < 127
  {
    var r := (510 * value + 127) / 254;
    assert 254 * r <= 510 * value + 127 < 254 * r + 254;
    assert 254 * r - 510 * value == 2 * (127 * r - 255 * value);
    r
  }

  /** Only one integer is that close to value * 255 / 127, so Scale is the rounding. */
  lemma ScaleIsNearest(value: nat, r: int)
    requires -127 < 254 * r - 510 * value < 127
    ensures r == Scale(value)
  {
    var s := Scale(value);
    assert -254 < 254 * r - 254 * s < 254;
  }

  /** The input range [0,127] is mapped onto [0,255], ends to ends. */
  lemma ScaleRange(value: nat)
    requires value <= 127
    ensures 0 <= Scale(value) <= 255
    ensures Scale(0) == 0 && Scale(127) == 255
  {
    ScaleMonotone(value, 127);
    ScaleIsNearest(0, 0);
    ScaleIsNearest(127, 255);
  }

  /** Every byte value, 255 included, rescales to at most 512, well inside an int32. */
  lemma ScaleFitsInt32(value: nat)
    requires value < 256
    ensures 0 <= Scale(value) <= 512 < 0x8000_0000
  {
    ScaleMonotone(value, 255);
    ScaleIsNearest(255, 512);
  }

  /** Scale(63) is 126 (nearest to 126.496...) and Scale(64) is 129 (nearest to 128.503...). */
  lemma ScaleMidpoints()
    ensures Scale(63) == 126 && Scale(64) == 129
  {
    ScaleIsNearest(63, 126);
    ScaleIsNearest(64, 129);
  }

  /** A larger input never gives a smaller payload. */
  lemma ScaleMonotone(v1: nat, v2: nat)
    requires v1 <= v2
    ensures Scale(v1) <= Scale(v2)
  {
    var r1, r2 := Scale(v1), Scale(v2);
    assert 254 * r1 - 254 * r2 < 254 + 510 * v1 - 510 * v2;
  }

  /** One step up the input moves the payload up by two or by three. */
  lemma ScaleStep(v: nat)
    ensures Scale(v + 1) - Scale(v) == 2 || Scale(v + 1) - Scale(v) == 3
  {
    var r1, r2 := Scale(v), Scale(v + 1);
    assert 256 < 254 * r2 - 254 * r1 < 764;
  }

  // ---------------------------------------------------------------------------
  // Outbound messages
  // ---------------------------------------------------------------------------

  /** An outbound control message: an address and an int32 payload. */
  datatype Message = Message(address: string, payload: int)

  /** The two kinds of bank control that send, and the name each sends under. */
  function OutType(b: Bank): string
    requires b == Sliders || b == Knobs
  {
    if b == Sliders then "slider" else "knob"
  }

  /**
   * The address fmt.Sprintf("/%s/%s/%d", group, outType, channel). When neither
   * the group nor the type holds a '/', it reads back as exactly those three parts.
   */
  function ChannelAddress(group: string, outType: string, channel: nat): (a: string)
    ensures '/' !in group && '/' !in outType ==>
      ParseChannelAddress(a) == Some((group, outType, channel))
  {
    DecimalRoundTrip(channel);
    SegmentsParse(group, outType, NatToDecimal(channel));
    "/" + group + "/" + outType + "/" + NatToDecimal(channel)
  }

  /** Reads `/<group>/<type>/<channel>` back into its three parts. */
  function ParseChannelAddress(a: string): Option<(string, string, nat)>
  {
    var ps := Split(a, '/');
    if |ps| == 4 && ps[0] == "" && ps[3] != "" && IsDigits(ps[3])
    then Some((ps[1], ps[2], DecimalToNat(ps[3])))
    else None
  }

  /** Three slash-free segments, the last of them digits, parse back from their slash-joined address. */
  lemma SegmentsParse(group: string, outType: string, d: string)
    requires d != "" && IsDigits(d)
    ensures '/' !in group && '/' !in outType ==>
      ParseChannelAddress("/" + group + "/" + outType + "/" + d) == Some((group, outType, DecimalToNat(d)))
  {
    if '/' !in group && '/' !in outType {
      SegmentsParseFree(group, outType, d);
    }
  }

  lemma SegmentsParseFree(group: string, outType: string, d: string)
    requires '/' !in group && '/' !in outType
    requires d != "" && IsDigits(d)
    ensures ParseChannelAddress("/" + group + "/" + outType + "/" + d) == Some((group, outType, DecimalToNat(d)))
  {
    var ps := ["", group, outType, d];
    DigitsExclude(d, '/');
    assert ps[1..] == [group, outType, d] && ps[2..] == [outType, d] && ps[3..] == [d];
    assert Join([outType, d], '/') == outType + "/" + d by {
      assert [outType, d][1..] == [d];
    }
    assert Join([group, outType, d], '/') == group + "/" + outType + "/" + d by {
      assert [group, outType, d][1..] == [outType, d];
    }
    assert Join(ps, '/') == "" + "/" + (group + "/" + outType + "/" + d);
    assert Join(ps, '/') == "/" + group + "/" + outType + "/" + d;
    SplitJoin(ps, '/');
  }

  /** Distinct channels of one group and type are sent to distinct addresses. */
  lemma ChannelAddressDistinct(group: string, outType: string, c1: nat, c2: nat)
    requires c1 != c2
    ensures ChannelAddress(group, outType, c1) != ChannelAddress(group, outType, c2)
  {
    var prefix := "/" + group + "/" + outType + "/";
    var a1, a2 := ChannelAddress(group, outType, c1), ChannelAddress(group, outType, c2);
    assert a1 == prefix + NatToDecimal(c1) && a2 == prefix + NatToDecimal(c2);
    if a1 == a2 {
      assert a1[|prefix|..] == NatToDecimal(c1) && a2[|prefix|..] == NatToDecimal(c2);
      DecimalInjective(c1, c2);
    }
  }

  /** The message a slider or knob sends: its channel address and the rescaled value. */
  function ChannelMessage(group: string, outType: string, element: int, delta: int, page: int, value: nat): Message
    requires 1 <= element + delta <= 8 && ValidPage(page)
  {
    Message(ChannelAddress(group, outType, Channel(element, delta, page)), Scale(value))
  }

  /** The message a transport button sends: fmt.Sprintf("/%s", address) with int32(255). */
  function TransportMessage(address: string): (m: Message)
    ensures m.payload == 255
    ensures Split(m.address, '/') == [""] + Split(address, '/')
  {
    SplitAtFirst("", address, '/');
    assert "" + ['/'] + address == "/" + address;
    Message("/" + address, 255)
  }

  // ---------------------------------------------------------------------------
  // Group tokens
  // ---------------------------------------------------------------------------

  /** The class letter of a group bank: solo 's', mute 'm', record 'r'. */
  function GroupLetter(b: Bank): char
    requires b == Solos || b == Mutes || b == Records
  {
    match b
    case Solos => 's'
    case Mutes => 'm'
    case Records => 'r'
  }

  /** fmt.Sprintf("<letter>%d", index). */
  function GroupToken(letter: char, index: nat): (g: string)
    ensures |g| >= 2 && g[0] == letter && IsDigits(g[1..])
    ensures |g| == 2 <==> index < 10
  {
    var d := NatToDecimal(index);
    assert ([letter] + d)[1..] == d;
    [letter] + d
  }

  /** The token format: a class letter followed by an index 1 to 8. */
  predicate ValidGroupToken(g: string)
  {
    |g| == 2 && (g[0] == 's' || g[0] == 'm' || g[0] == 'r') && '1' <= g[1] <= '8'
  }

  /** The index a group token carries. */
  function TokenIndex(g: string): nat
    requires ValidGroupToken(g)
  {
    g[1] as int - '0' as int
  }

  /** Valid tokens are exactly the class letters followed by an index 1 to 8. */
  lemma GroupTokenFormat(letter: char, index: nat)
    requires letter == 's' || letter == 'm' || letter == 'r'
    ensures ValidGroupToken(GroupToken(letter, index)) <==> 1 <= index <= 8
    ensures 1 <= index <= 8 ==> TokenIndex(GroupToken(letter, index)) == index
  {
    var d := NatToDecimal(index);
    if 1 <= index <= 8 {
      assert d == [DigitChar(index)];
    } else if index == 0 {
      assert d == ['0'];
    } else if index == 9 {
      assert d == ['9'];
    } else {
      assert |d| > 1;
    }
  }

  /** Every valid token is the token of its letter and index. */
  lemma ValidGroupTokenIsSynthesized(g: string)
    requires ValidGroupToken(g)
    ensures g == GroupToken(g[0], TokenIndex(g))
  {
    var i := TokenIndex(g);
    assert NatToDecimal(i) == [DigitChar(i)];
  }

  /** A valid token holds no '/', so it is one segment of an address. */
  lemma ValidGroupTokenHasNoSlash(g: string)
    requires ValidGroupToken(g)
    ensures '/' !in g
  {
  }

  // ---------------------------------------------------------------------------
  // The console status line
  // ---------------------------------------------------------------------------

  /** The group as shown on the console: with its alias in parentheses when it has one. */
  function GroupDisplay(group: string, names: map<string, string>): (r: string)
    ensures |r| >= |group| && r[..|group|] == group
    ensures r == group <==> group !in names
  {
    if group in names then group + " (" + names[group] + ")" else group
  }

  /** fmt.Printf("Group: %s, Page: %d\n", groupDisplay, page). */
  function StatusLine(group: string, names: map<string, string>, page: nat): string
  {
    "Group: " + GroupDisplay(group, names) + ", Page: " + NatToDecimal(page) + "\n"
  }

  /** The status line reports the page it was given. */
  lemma StatusLinePage(group: string, names: map<string, string>, page: nat)
    ensures StatusPage(StatusLine(group, names, page)) == Some(page)
  {
    var d := NatToDecimal(page);
    var head := "Group: " + GroupDisplay(group, names) + ", Page:";
    var line := StatusLine(group, names, page);
    assert line == head + [' '] + d + "\n";
    assert line[..|line| - 1] == head + [' '] + d;
    DigitsExclude(d, ' ');
    SplitLast(head, d, ' ');
    DecimalRoundTrip(page);
  }

  /** The page a status line reports: the last space-separated word before the newline. */
  function StatusPage(line: string): Option<nat>
  {
    if |line| == 0 || line[|line| - 1] != '\n' then None
    else
      var words := Split(line[..|line| - 1], ' ');
      var w := words[|words| - 1];
      if w != "" && IsDigits(w) then Some(DecimalToNat(w)) else None
  }

  /** The status line starts with the group token, followed by its alias in parentheses if it has one. */
  lemma StatusLineGroup(group: string, names: map<string, string>, page: nat)
    ensures var line := StatusLine(group, names, page);
      |line| > 7 + |group| && line[..7 + |group|] == "Group: " + group
    ensures group in names ==>
      var line := StatusLine(group, names, page);
      |line| > 9 + |group| + |names[group]| && line[7 + |group|..9 + |group| + |names[group]|] == " (" + names[group]
  {
    var disp := GroupDisplay(group, names);
    var tail := ", Page: " + NatToDecimal(page) + "\n";
    var line := StatusLine(group, names, page);
    assert line == "Group: " + disp + tail;
    if group in names {
      var alias := names[group];
      assert disp == group + " (" + alias + ")";
      assert line == ("Group: " + group) + (" (" + alias) + (")" + tail);
    } else {
      assert line == ("Group: " + group) + tail;
    }
  }

  // ---------------------------------------------------------------------------
  // Worked values
  // ---------------------------------------------------------------------------

  /** Slider 1 on page 1 in group "s1" is addressed /s1/slider/1. */
  lemma FirstSliderAddress()
    ensures ChannelAddress("s1", "slider", Channel(Slider1, SliderDelta, 1)) == "/s1/slider/1"
  {
    assert NatToDecimal(1) == "1";
  }

  /** Group "s1" without an alias on page 4 is shown as "Group: s1, Page: 4". */
  lemma PageFourStatusLine()
    ensures StatusLine("s1", map[], 4) == "Group: s1, Page: 4\n"
  {
    assert NatToDecimal(4) == "4";
  }
}
