/** The command packets of lotus_lamp/controller.py. Every command the lamp
    accepts is one 9-byte packet `7E len type p0 p1 p2 p3 pad EF`; numeric
    arguments are clamped into range silently, never rejected. */
module Protocol {
  import opened Wrappers
  import Text

  type Byte = b: int | 0 <= b < 256

  type Packet = seq<Byte>

  /** Python's `max(lo, min(hi, x))`. */
  function Clamp(lo: int, hi: int, x: int): (r: int)
    requires lo <= hi
    ensures lo <= r <= hi
    ensures lo <= x <= hi ==> r == x
    ensures x < lo ==> r == lo
    ensures hi < x ==> r == hi
  {
    var m := if hi < x then hi else x;
    if lo < m then m else lo
  }

  /** The framing shared by every packet: nine bytes, 0x7E first, 0xEF last. */
  predicate Framed(p: Packet) {
    |p| == 9 && p[0] == 0x7E && p[8] == 0xEF
  }

  /** `set_rgb`: `7E 07 05 03 r g b 10 EF`, each channel clamped to [0, 255]. */
  function RgbPacket(r: int, g: int, b: int): (p: Packet)
    ensures Framed(p)
    ensures p[1] == 0x07 && p[2] == 0x05 && p[3] == 0x03 && p[7] == 0x10
    ensures p[4] == Clamp(0, 255, r) && p[5] == Clamp(0, 255, g) && p[6] == Clamp(0, 255, b)
  {
    [0x7E, 0x07, 0x05, 0x03, Clamp(0, 255, r), Clamp(0, 255, g), Clamp(0, 255, b), 0x10, 0xEF]
  }

  /** `set_brightness`: `7E 07 01 level FF FF FF 00 EF`, level clamped to [0, 100]. */
  function BrightnessPacket(level: int): (p: Packet)
    ensures Framed(p)
    ensures p[1] == 0x07 && p[2] == 0x01 && p[4] == p[5] == p[6] == 0xFF && p[7] == 0x00
    ensures p[3] == Clamp(0, 100, level)
  {
    [0x7E, 0x07, 0x01, Clamp(0, 100, level), 0xFF, 0xFF, 0xFF, 0x00, 0xEF]
  }

  /** `set_speed`: `7E 04 02 level FF FF FF 00 EF`; unlike every other
      command its length byte is 0x04. Level clamped to [0, 100]. */
  function SpeedPacket(level: int): (p: Packet)
    ensures Framed(p)
    ensures p[1] == 0x04 && p[2] == 0x02 && p[4] == p[5] == p[6] == 0xFF && p[7] == 0x00
    ensures p[3] == Clamp(0, 100, level)
  {
    [0x7E, 0x04, 0x02, Clamp(0, 100, level), 0xFF, 0xFF, 0xFF, 0x00, 0xEF]
  }

  /** `set_animation`: `7E 07 03 mode FF FF FF 00 EF`, mode clamped to [1, 233]. */
  function AnimationPacket(mode: int): (p: Packet)
    ensures Framed(p)
    ensures p[1] == 0x07 && p[2] == 0x03 && p[4] == p[5] == p[6] == 0xFF && p[7] == 0x00
    ensures p[3] == Clamp(1, 233, mode)
  {
    [0x7E, 0x07, 0x03, Clamp(1, 233, mode), 0xFF, 0xFF, 0xFF, 0x00, 0xEF]
  }

  /** `power_on` and `power_off`: `7E 07 04 on 00 FF FF 00 EF`. */
  function PowerPacket(on: bool): (p: Packet)
    ensures Framed(p)
    ensures p[1] == 0x07 && p[2] == 0x04 && p[4] == 0x00 && p[5] == p[6] == 0xFF && p[7] == 0x00
    ensures p[3] == if on then 0x01 else 0x00
  {
    [0x7E, 0x07, 0x04, if on then 0x01 else 0x00, 0x00, 0xFF, 0xFF, 0x00, 0xEF]
  }

  /** The two power packets differ in byte 3 alone. */
  lemma PowerPacketsDifferOnlyInState()
    ensures PowerPacket(true)[3] == 0x01 && PowerPacket(false)[3] == 0x00
    ensures forall i :: 0 <= i < 9 && i != 3 ==> PowerPacket(true)[i] == PowerPacket(false)[i]
  {
  }

  /** Out-of-range arguments are clamped, not rejected. */
  lemma ClampExamples()
    ensures BrightnessPacket(-10)[3] == 0 && BrightnessPacket(150)[3] == 100
    ensures BrightnessPacket(50)[3] == 50
    ensures AnimationPacket(0)[3] == 1 && AnimationPacket(500)[3] == 233
    ensures RgbPacket(-1, 300, 128)[4..7] == [0, 255, 128]
  {
  }

  // ---------------------------------------------------------------------
  // Reading a packet back: the partner of the encoders. It states which
  // request each packet carries, so that the wire format is unambiguous.

  datatype Command =
    | SetRgb(r: int, g: int, b: int)
    | SetBrightness(level: int)
    | SetSpeed(level: int)
    | SetAnimation(mode: int)
    | SetPower(on: bool)

  /** The packet the controller writes for a request. */
  function Encode(c: Command): Packet {
    match c
    case SetRgb(r, g, b) => RgbPacket(r, g, b)
    case SetBrightness(level) => BrightnessPacket(level)
    case SetSpeed(level) => SpeedPacket(level)
    case SetAnimation(mode) => AnimationPacket(mode)
    case SetPower(on) => PowerPacket(on)
  }

  /** The request with every argument clamped as the encoders clamp it. */
  function Clamped(c: Command): Command {
    match c
    case SetRgb(r, g, b) => SetRgb(Clamp(0, 255, r), Clamp(0, 255, g), Clamp(0, 255, b))
    case SetBrightness(level) => SetBrightness(Clamp(0, 100, level))
    case SetSpeed(level) => SetSpeed(Clamp(0, 100, level))
    case SetAnimation(mode) => SetAnimation(Clamp(1, 233, mode))
    case SetPower(on) => c
  }

  /** The request a packet carries, if it is one the controller can write. */
  function Decode(p: Packet): Option<Command> {
    if !Framed(p) then None
    else if p[1..4] == [0x07, 0x05, 0x03] && p[7] == 0x10 then
      Some(SetRgb(p[4], p[5], p[6]))
    else if p[4..8] != [0xFF, 0xFF, 0xFF, 0x00] then
      if p[1..3] == [0x07, 0x04] && p[3] <= 1 && p[4..8] == [0x00, 0xFF, 0xFF, 0x00] then
        Some(SetPower(p[3] == 1))
      else None
    else if p[1..3] == [0x07, 0x01] && p[3] <= 100 then Some(SetBrightness(p[3]))
    else if p[1..3] == [0x04, 0x02] && p[3] <= 100 then Some(SetSpeed(p[3]))
    else if p[1..3] == [0x07, 0x03] && 1 <= p[3] <= 233 then Some(SetAnimation(p[3]))
    else None
  }

  /** Every packet the controller writes reads back as the clamped request. */
  lemma DecodeEncode(c: Command)
    ensures Decode(Encode(c)) == Some(Clamped(c))
  {
    var p := Encode(c);
    assert p[1..4] == [p[1], p[2], p[3]];
    assert p[1..3] == [p[1], p[2]];
    assert p[4..8] == [p[4], p[5], p[6], p[7]];
  }

  /** A packet that decodes is exactly the encoding of what it decodes to. */
  lemma EncodeDecode(p: Packet)
    requires Decode(p).Some?
    ensures Encode(Decode(p).value) == p
  {
    assert |p| == 9;
    assert p == [p[0], p[1], p[2], p[3], p[4], p[5], p[6], p[7], p[8]];
    assert p[1..4] == [p[1], p[2], p[3]];
    assert p[1..3] == [p[1], p[2]];
    assert p[4..8] == [p[4], p[5], p[6], p[7]];
  }

  /** Requests that differ after clamping produce different packets. */
  lemma EncodeInjective(c1: Command, c2: Command)
    requires Encode(c1) == Encode(c2)
    ensures Clamped(c1) == Clamped(c2)
  {
    DecodeEncode(c1);
    DecodeEncode(c2);
  }

  // ---------------------------------------------------------------------
  // Colours by name.

  /** The eleven named colours of `set_color`. */
  const Colors: map<string, (int, int, int)> := map[
    "red" := (255, 0, 0),
    "green" := (0, 255, 0),
    "blue" := (0, 0, 255),
    "white" := (255, 255, 255),
    "yellow" := (255, 255, 0),
    "cyan" := (0, 255, 255),
    "magenta" := (255, 0, 255),
    "orange" := (255, 165, 0),
    "purple" := (128, 0, 128),
    "pink" := (255, 192, 203),
    "off" := (0, 0, 0)
  ]

  /** `ValueError(f"Unknown color: {color}")`, carrying the lower-cased name. */
  datatype ColorError = UnknownColor(color: string)

  /** `set_color`: lower-case the name, then the `set_rgb` packet of its
      table entry, or an error for a name outside the table. */
  function ColorPacket(color: string): (r: Result<Packet, ColorError>)
    ensures r.Ok? <==> Text.Lower(color) in Colors
    ensures r.Ok? ==> r.value == RgbPacket(Colors[Text.Lower(color)].0,
                                           Colors[Text.Lower(color)].1,
                                           Colors[Text.Lower(color)].2)
    ensures r.Err? ==> r.error == UnknownColor(Text.Lower(color))
  {
    var key := Text.Lower(color);
    if key in Colors then
      var (r, g, b) := Colors[key];
      Ok(RgbPacket(r, g, b))
    else
      Err(UnknownColor(key))
  }

  /** Colour names are matched without regard to case. */
  lemma ColorPacketIgnoresCase(color: string)
    ensures ColorPacket(Text.Upper(color)) == ColorPacket(color)
  {
    Text.LowerOfUpper(color);
  }

  /** A named colour is sent exactly as `set_rgb` sends its triple, so
      every named-colour packet carries an in-range RGB request. */
  lemma ColorPacketIsRgb(color: string)
    requires ColorPacket(color).Ok?
    ensures Decode(ColorPacket(color).value) == Some(SetRgb(Colors[Text.Lower(color)].0,
                                                            Colors[Text.Lower(color)].1,
                                                            Colors[Text.Lower(color)].2))
  {
    var t := Colors[Text.Lower(color)];
    DecodeEncode(SetRgb(t.0, t.1, t.2));
  }
}
