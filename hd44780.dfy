/** The HD44780 controller as lcdlib.py drives it through an I2C backpack in
    4-bit mode: the command opcodes and flags, the bytes one command or data
    write puts on the bus, and a reference reading of that byte stream that
    recovers the transfers it was made from. */
module Hd44780 {
  import opened Bytes

  datatype Option<T> = None | Some(value: T)

  // Command opcodes.
  const LCD_CLEARDISPLAY: bv8 := 0x01
  const LCD_RETURNHOME: bv8 := 0x02
  const LCD_ENTRYMODESET: bv8 := 0x04
  const LCD_DISPLAYCONTROL: bv8 := 0x08
  const LCD_CURSORSHIFT: bv8 := 0x10
  const LCD_FUNCTIONSET: bv8 := 0x20
  const LCD_SETCGRAMADDR: bv8 := 0x40
  const LCD_SETDDRAMADDR: bv8 := 0x80

  // Flags for the entry mode.
  const LCD_ENTRYRIGHT: bv8 := 0x00
  const LCD_ENTRYLEFT: bv8 := 0x02

  // Flags for display on/off control.
  const LCD_DISPLAYON: bv8 := 0x04
  const LCD_DISPLAYOFF: bv8 := 0x00
  const LCD_CURSORON: bv8 := 0x02
  const LCD_CURSOROFF: bv8 := 0x00
  const LCD_BLINKON: bv8 := 0x01
  const LCD_BLINKOFF: bv8 := 0x00

  // Flags for display/cursor shift.
  const LCD_DISPLAYMOVE: bv8 := 0x08
  const LCD_CURSORMOVE: bv8 := 0x00
  const LCD_MOVERIGHT: bv8 := 0x04
  const LCD_MOVELEFT: bv8 := 0x00

  // Flags for function set.
  const LCD_8BITMODE: bv8 := 0x10
  const LCD_4BITMODE: bv8 := 0x00
  const LCD_2LINE: bv8 := 0x08
  const LCD_1LINE: bv8 := 0x00
  const LCD_5x10DOTS: bv8 := 0x04
  const LCD_5x8DOTS: bv8 := 0x00

  // Backpack lines: backlight, enable and register select.
  const LCD_BACKLIGHT: bv8 := 0x08
  const LCD_NOBACKLIGHT: bv8 := 0x00
  const LCD_EN: bv8 := 0x04
  const LCD_RS: bv8 := 0x01

  /** One logical write of the driver. */
  datatype Transfer =
    | Command(value: bv8)  // lcd_write_cmd: register select low
    | Data(value: bv8)     // lcd_write_data: register select high
    | Raw(value: bv8)      // write_cmd called directly (the backlight switches)

  /** lcd_write_four_bits: the nibble byte as it is, then lcd_strobe's
      enable-high and enable-low bytes, both with the backlight bit. */
  function NibbleBytes(n: bv8): seq<bv8> {
    [n, n | LCD_EN | LCD_BACKLIGHT, (n & !LCD_EN) | LCD_BACKLIGHT]
  }

  /** The six bytes of lcd_write_cmd (rs == 0) or lcd_write_data
      (rs == LCD_RS): the high nibble `b & 0xF0`, then the low nibble
      `(b << 4) & 0xF0`, each with the register-select bit. */
  function FrameBytes(rs: bv8, b: bv8): seq<bv8>
    requires rs == 0 || rs == LCD_RS
  {
    NibbleBytes(rs | (b & 0xF0)) + NibbleBytes(rs | ((b << 4) & 0xF0))
  }

  /** A nibble goes out three times, unchanged apart from the enable and
      backlight bits: enable low, high, low; the backlight bit only on the
      two strobe bytes. */
  lemma NibbleShape(n: bv8)
    requires n & (LCD_EN | LCD_BACKLIGHT) == 0
    ensures |NibbleBytes(n)| == 3
    ensures forall i :: 0 <= i < 3 ==> NibbleBytes(n)[i] & 0xF3 == n
    ensures NibbleBytes(n)[0] & (LCD_EN | LCD_BACKLIGHT) == 0
    ensures NibbleBytes(n)[1] & (LCD_EN | LCD_BACKLIGHT) == LCD_EN | LCD_BACKLIGHT
    ensures NibbleBytes(n)[2] & (LCD_EN | LCD_BACKLIGHT) == LCD_BACKLIGHT
  {
  }

  /** A frame is six bytes, all with the register-select bit of its kind,
      carrying `b & 0xF0` in the first three and `(b << 4) & 0xF0` in the
      last three. */
  lemma FrameShape(rs: bv8, b: bv8)
    requires rs == 0 || rs == LCD_RS
    ensures |FrameBytes(rs, b)| == 6
    ensures forall i :: 0 <= i < 6 ==> FrameBytes(rs, b)[i] & LCD_RS == rs
    ensures forall i :: 0 <= i < 3 ==> FrameBytes(rs, b)[i] & 0xF0 == b & 0xF0
    ensures forall i :: 3 <= i < 6 ==> FrameBytes(rs, b)[i] & 0xF0 == (b << 4) & 0xF0
    ensures FrameBytes(rs, b)[0] & LCD_BACKLIGHT == 0 && FrameBytes(rs, b)[3] & LCD_BACKLIGHT == 0
  {
    NibbleShape(rs | (b & 0xF0));
    NibbleShape(rs | ((b << 4) & 0xF0));
  }

  function TransferBytes(t: Transfer): seq<bv8> {
    match t
    case Command(b) => FrameBytes(0, b)
    case Data(b) => FrameBytes(LCD_RS, b)
    case Raw(b) => [b]
  }

  /** The bus log that a sequence of transfers produces, in order. */
  function Encode(ts: seq<Transfer>): seq<bv8> {
    if ts == [] then [] else TransferBytes(ts[0]) + Encode(ts[1..])
  }

  lemma {:induction false} EncodeAppend(a: seq<Transfer>, b: seq<Transfer>)
    ensures Encode(a + b) == Encode(a) + Encode(b)
  {
    if a == [] {
      assert a + b == b;
    } else {
      assert (a + b)[1..] == a[1..] + b;
      EncodeAppend(a[1..], b);
    }
  }

  /** One more transfer puts its own bytes at the end of the log. */
  lemma EncodeSnoc(ts: seq<Transfer>, t: Transfer)
    ensures Encode(ts + [t]) == Encode(ts) + TransferBytes(t)
  {
    EncodeAppend(ts, [t]);
    assert Encode([t]) == TransferBytes(t) + Encode([]);
  }

  /** Bytes written with write_cmd alone, one raw transfer each: they
      encode back to exactly those bytes. */
  function Raws(bs: seq<bv8>): (r: seq<Transfer>)
    ensures |r| == |bs|
    ensures forall i :: 0 <= i < |bs| ==> r[i] == Raw(bs[i])
    ensures Encode(r) == bs
  {
    if bs == [] then [] else [Raw(bs[0])] + Raws(bs[1..])
  }

  /** With register select low the frame is the two masked nibbles alone. */
  lemma CommandFrame(cmd: bv8)
    ensures TransferBytes(Command(cmd)) == NibbleBytes(cmd & 0xF0) + NibbleBytes((cmd << 4) & 0xF0)
  {
    assert 0 | (cmd & 0xF0) == cmd & 0xF0;
    assert 0 | ((cmd << 4) & 0xF0) == (cmd << 4) & 0xF0;
  }

  /** With register select high each nibble carries the RS bit. */
  lemma DataFrame(b: bv8)
    ensures TransferBytes(Data(b)) == NibbleBytes(LCD_RS | (b & 0xF0)) + NibbleBytes(LCD_RS | ((b << 4) & 0xF0))
  {
  }

  /** Every command or data transfer takes six bus bytes. */
  lemma {:induction false} EncodeLength(ts: seq<Transfer>)
    requires forall i :: 0 <= i < |ts| ==> !ts[i].Raw?
    ensures |Encode(ts)| == 6 * |ts|
  {
    if ts != [] {
      EncodeLength(ts[1..]);
    }
  }

  /** The only bytes the driver writes outside the nibble protocol. */
  predicate RawByte(b: bv8) {
    b == LCD_BACKLIGHT || b == LCD_NOBACKLIGHT
  }

  predicate WellFormed(ts: seq<Transfer>) {
    forall i :: 0 <= i < |ts| ==> ts[i].Raw? ==> RawByte(ts[i].value)
  }

  /** Three bytes that present a nibble and pulse enable around it. */
  predicate IsNibble(a: bv8, b: bv8, c: bv8) {
    a & LCD_EN == 0 && b == a | LCD_EN | LCD_BACKLIGHT && c == (a & !LCD_EN) | LCD_BACKLIGHT
  }

  /** Two nibbles with the same register select and no other control bits. */
  predicate IsFrame(w: seq<bv8>)
    requires |w| == 6
  {
    IsNibble(w[0], w[1], w[2]) && IsNibble(w[3], w[4], w[5])
    && w[0] & 0x0E == 0 && w[3] & 0x0F == w[0] & 0x0F
  }

  /** The byte the controller assembles from a frame, as command or data. */
  function FrameTransfer(w: seq<bv8>): Transfer
    requires |w| == 6
  {
    var v := (w[0] & 0xF0) | (w[3] >> 4);
    if w[0] & LCD_RS == 0 then Command(v) else Data(v)
  }

  /** A reference reading of a bus log: frames of six bytes become commands
      or data, a lone backlight byte becomes a raw write; anything else is
      not something the driver writes. */
  function Decode(bs: seq<bv8>): Option<seq<Transfer>>
    decreases |bs|
  {
    if bs == [] then Some([])
    else if |bs| >= 6 && IsFrame(bs[..6]) then
      match Decode(bs[6..])
      case Some(rest) => Some([FrameTransfer(bs[..6])] + rest)
      case None => None
    else if RawByte(bs[0]) then
      match Decode(bs[1..])
      case Some(rest) => Some([Raw(bs[0])] + rest)
      case None => None
    else None
  }

  lemma FrameDecodes(rs: bv8, b: bv8)
    requires rs == 0 || rs == LCD_RS
    ensures IsFrame(FrameBytes(rs, b))
    ensures FrameTransfer(FrameBytes(rs, b)) == if rs == 0 then Command(b) else Data(b)
  {
    var w := FrameBytes(rs, b);
    assert w[0] == rs | (b & 0xF0) && w[3] == rs | ((b << 4) & 0xF0);
    assert ((rs | (b & 0xF0)) & 0xF0) | ((rs | ((b << 4) & 0xF0)) >> 4) == b;
  }

  lemma FirstByteEnableLow(ts: seq<Transfer>)
    requires ts != [] && WellFormed(ts)
    ensures Encode(ts) != [] && Encode(ts)[0] & LCD_EN == 0
  {
    assert Encode(ts) == TransferBytes(ts[0]) + Encode(ts[1..]);
    match ts[0]
    case Command(b) => assert Encode(ts)[0] == FrameBytes(0, b)[0];
    case Data(b) => assert Encode(ts)[0] == FrameBytes(LCD_RS, b)[0];
    case Raw(b) => assert RawByte(b);
  }

  /** Reading back the log of well-formed transfers gives those transfers. */
  lemma {:induction false} DecodeEncode(ts: seq<Transfer>)
    requires WellFormed(ts)
    ensures Decode(Encode(ts)) == Some(ts)
  {
    if ts != [] {
      var rest := ts[1..];
      assert WellFormed(rest) by {
        forall i | 0 <= i < |rest| && rest[i].Raw? ensures RawByte(rest[i].value) {
          assert rest[i] == ts[i + 1];
        }
      }
      DecodeEncode(rest);
      var bs := Encode(ts);
      var head := TransferBytes(ts[0]);
      assert bs == head + Encode(rest);
      assert ts == [ts[0]] + rest;
      match ts[0]
      case Command(b) =>
        FrameDecodes(0, b);
        assert bs[..6] == head && bs[6..] == Encode(rest);
      case Data(b) =>
        FrameDecodes(LCD_RS, b);
        assert bs[..6] == head && bs[6..] == Encode(rest);
      case Raw(b) =>
        assert RawByte(b);
        assert bs[1..] == Encode(rest);
        if |bs| >= 6 {
          FirstByteEnableLow(rest);
          assert bs[1] == Encode(rest)[0];
          assert !IsFrame(bs[..6]);
        }
    }
  }

  /** A data write depends on the low byte of its argument only, and on all
      of it: two codes give the same bus bytes exactly when they agree
      modulo 256. */
  lemma DataLowByteOnly(c: int, d: int)
    ensures Encode([Data(LowByte(c))]) == Encode([Data(LowByte(d))]) <==> c % 256 == d % 256
  {
    if Encode([Data(LowByte(c))]) == Encode([Data(LowByte(d))]) {
      DecodeEncode([Data(LowByte(c))]);
      DecodeEncode([Data(LowByte(d))]);
      assert [Data(LowByte(c))] == [Data(LowByte(d))];
      assert LowByte(c) == LowByte(d);
      ByteValue(c % 256);
      ByteValue(d % 256);
    }
  }
}
