/** The lcd class: an object holding the tracked state of one display and
    the log of every byte it has written to the I2C bus. Each public method
    is proved to leave the state and append the bytes that the Session
    module specifies for its operation. */
module Driver {
  import opened Bytes
  import opened Hd44780
  import opened CyrillicRemap
  import opened Session

  class Lcd {
    var addr: int
    var rows: int
    var cols: int
    var backlightState: Switch
    var displayState: Switch
    var cursorState: CursorMode
    var rowState: int
    var colState: int
    /** Every byte written to the device, oldest first. */
    var bus: seq<bv8>
    /** The commands, data and raw writes that produced `bus`. */
    ghost var sent: seq<Transfer>

    /** The bus log is exactly the encoding of the transfers sent. */
    ghost predicate Valid()
      reads this`bus, this`sent
    {
      bus == Encode(sent)
    }

    /** The tracked fields as a value. */
    function Snapshot(): State
      reads this`addr, this`rows, this`cols, this`backlightState, this`displayState
      reads this`cursorState, this`rowState, this`colState
    {
      State(addr, rows, cols, backlightState, displayState, cursorState, rowState, colState)
    }

    /** The tracked state is now `s1`, and exactly the transfers `ts` have
        been sent since the log was `sent0`. With Valid(), their bytes are
        what the bus log gained. */
    ghost predicate Performed(s1: State, sent0: seq<Transfer>, ts: seq<Transfer>)
      reads this
    {
      Valid() && Snapshot() == s1 && sent == sent0 + ts
    }

    /** Appending transfers to a valid log appends their bytes. */
    lemma SentGrows(sent0: seq<Transfer>, bus0: seq<bv8>, ts: seq<Transfer>)
      requires bus0 == Encode(sent0) && Valid() && sent == sent0 + ts
      ensures bus == bus0 + Encode(ts)
    {
      EncodeAppend(sent0, ts);
    }

    constructor (addr: int, rows: int, cols: int)
      ensures Valid() && Snapshot() == Initial(addr, rows, cols)
      ensures sent == InitTransfers()
    {
      this.addr := addr;
      if rows <= 4 {
        this.rows := rows;
      } else {
        this.rows := 4;
      }
      this.cols := cols;
      backlightState := Switch.On;
      displayState := Switch.On;
      cursorState := Hide;
      rowState := 0;
      colState := 0;
      bus := [];
      sent := [];
      new;
      WriteCommandByte(0x03);
      WriteCommandByte(0x03);
      WriteCommandByte(0x03);
      WriteCommandByte(0x02);
      WriteCommandByte(LCD_FUNCTIONSET | LCD_2LINE | LCD_5x8DOTS | LCD_4BITMODE);
      WriteCommandByte(LCD_DISPLAYCONTROL | LCD_DISPLAYON);
      WriteCommandByte(LCD_CLEARDISPLAY);
      WriteCommandByte(LCD_ENTRYMODESET | LCD_ENTRYLEFT);
    }

    /** ruprint: remap both lines through DICT_LCD, then write the first at
        row 0 and the second at row 1, both from column 0. */
    method RuPrint(line1: string, line2: string)
      requires Valid() && Enabled(Snapshot(), Op.RuPrint(line1, line2))
      modifies this`rowState, this`colState, this`bus, this`sent
      ensures Performed(Next(old(Snapshot()), Op.RuPrint(line1, line2)), old(sent), Emit(old(Snapshot()), Op.RuPrint(line1, line2)))
    {
      ghost var s0, sent0 := Snapshot(), sent;
      RuPrintPhases(s0, line1, line2);
      var lcdLine1 := RemapString(line1);
      DisplayString(lcdLine1, 0, 0);
      ghost var s1, sent1 := Snapshot(), sent;
      var lcdLine2 := RemapString(line2);
      DisplayString(lcdLine2, 1, 0);
      AppendAssoc(sent0, DisplayStringTransfers(s0, lcdLine1, 0, 0), DisplayStringTransfers(s1, lcdLine2, 1, 0));
    }

    /** ruprintchar: the first character of `ch`, remapped, at (row, col);
        the row is not clamped. */
    method RuPrintChar(ch: string, col: int, row: int)
      requires Valid() && Enabled(Snapshot(), Op.RuPrintChar(ch, col, row))
      modifies this`rowState, this`colState, this`bus, this`sent
      ensures Performed(old(Snapshot()).(row := row, col := col + 1), old(sent), RuPrintCharTransfers(old(Snapshot()), ch, col, row))
    {
      var c := RemapChar(ch[0]);
      rowState := row;
      colState := col + 1;
      var rowOffsets := RowOffsets(cols);
      var cmd := DdramCommand(PyIndex(rowOffsets, row) + col);
      WriteCommandByte(cmd);
      LcdWriteData(c as int);
      AppendAssoc(old(sent), [Command(cmd)], [Data(LowByte(c as int))]);
    }

    /** write_cmd: one byte to the device (the one-byte SMBus write),
        logged as a raw transfer. */
    method WriteCmd(cmd: bv8)
      requires Valid()
      modifies this`bus, this`sent
      ensures Valid() && bus == old(bus) + [cmd] && sent == old(sent) + [Raw(cmd)]
    {
      EncodeSnoc(sent, Raw(cmd));
      bus := bus + [cmd];
      sent := sent + [Raw(cmd)];
    }

    /** lcd_strobe: enable high, then enable low, with the backlight bit. */
    method LcdStrobe(data: bv8)
      requires Valid()
      modifies this`bus, this`sent
      ensures Valid() && bus == old(bus) + NibbleBytes(data)[1..]
      ensures sent == old(sent) + Raws(NibbleBytes(data)[1..])
    {
      WriteCmd(data | LCD_EN | LCD_BACKLIGHT);
      WriteCmd((data & !LCD_EN) | LCD_BACKLIGHT);
      AppendAssoc(old(sent), [Raw(data | LCD_EN | LCD_BACKLIGHT)], [Raw((data & !LCD_EN) | LCD_BACKLIGHT)]);
    }

    /** lcd_write_four_bits: the byte as it is, then the strobe. */
    method LcdWriteFourBits(data: bv8)
      requires Valid()
      modifies this`bus, this`sent
      ensures Valid() && bus == old(bus) + NibbleBytes(data)
      ensures sent == old(sent) + Raws(NibbleBytes(data))
    {
      WriteCmd(data);
      LcdStrobe(data);
      AppendAssoc(old(sent), [Raw(data)], Raws(NibbleBytes(data)[1..]));
    }

    /** lcd_write_cmd: `cmd & 0xF0` and `(cmd << 4) & 0xF0` on a Python
        integer are the same masks on its low byte, so only that byte
        reaches the bus. */
    method LcdWriteCmd(cmd: int)
      requires Valid()
      modifies this`bus, this`sent
      ensures Valid() && sent == old(sent) + [Command(LowByte(cmd))]
    {
      WriteCommandByte(LowByte(cmd));
    }

    /** lcd_write_cmd on a byte: high nibble, then low nibble, register
        select low. The methods below pass their commands as bytes. The six
        raw entries of the two nibbles are logged as the one command frame
        they form. */
    method WriteCommandByte(cmd: bv8)
      requires Valid()
      modifies this`bus, this`sent
      ensures Valid() && sent == old(sent) + [Command(cmd)]
    {
      ghost var sent0 := sent;
      LcdWriteFourBits(cmd & 0xF0);
      LcdWriteFourBits((cmd << 4) & 0xF0);
      CommandFrame(cmd);
      EncodeSnoc(sent0, Command(cmd));
      AppendAssoc(Encode(sent0), NibbleBytes(cmd & 0xF0), NibbleBytes((cmd << 4) & 0xF0));
      sent := sent0 + [Command(cmd)];
    }

    /** lcd_write_data: the same with register select high. `cmd & 0xF0`
        and `(cmd << 4) & 0xF0` on a Python integer are the same masks on
        its low byte. */
    method LcdWriteData(cmd: int)
      requires Valid()
      modifies this`bus, this`sent
      ensures Valid() && sent == old(sent) + [Data(LowByte(cmd))]
    {
      WriteDataByte(LowByte(cmd));
    }

    /** lcd_write_data on a byte: its two nibbles with register select
        high, logged as one data frame. */
    method WriteDataByte(b: bv8)
      requires Valid()
      modifies this`bus, this`sent
      ensures Valid() && sent == old(sent) + [Data(b)]
    {
      ghost var sent0 := sent;
      LcdWriteFourBits(LCD_RS | (b & 0xF0));
      LcdWriteFourBits(LCD_RS | ((b << 4) & 0xF0));
      DataFrame(b);
      EncodeSnoc(sent0, Data(b));
      AppendAssoc(Encode(sent0), NibbleBytes(LCD_RS | (b & 0xF0)), NibbleBytes(LCD_RS | ((b << 4) & 0xF0)));
      sent := sent0 + [Data(b)];
    }

    /** write_string: the characters at the current position, no address
        command. */
    method WriteString(text: string)
      requires Valid()
      modifies this`colState, this`bus, this`sent
      ensures Performed(Next(old(Snapshot()), Op.WriteString(text)), old(sent), Emit(old(Snapshot()), Op.WriteString(text)))
    {
      colState := colState + |text|;
      WriteCodes(text);
    }

    /** The loop of write_string and display_string: one lcd_write_data per
        character, with its code point. */
    method WriteCodes(text: string)
      requires Valid()
      modifies this`bus, this`sent
      ensures Valid() && sent == old(sent) + DataTransfers(Codes(text))
    {
      for i := 0 to |text|
        invariant Valid()
        invariant sent == old(sent) + DataTransfers(Codes(text[..i]))
      {
        LcdWriteData(text[i] as int);
        CodesSnoc(text, i);
        DataTransfersSnoc(Codes(text[..i]), text[i] as int);
        AppendAssoc(old(sent), DataTransfers(Codes(text[..i])), [Data(LowByte(text[i] as int))]);
      }
      assert text[..|text|] == text;
    }

    /** display_string: the characters from (row, col), the row clamped to
        the last one. */
    method DisplayString(text: string, row: int, col: int)
      requires Valid() && Enabled(Snapshot(), Op.DisplayString(text, row, col))
      modifies this`rowState, this`colState, this`bus, this`sent
      ensures Performed(AfterDisplayString(old(Snapshot()), text, row, col), old(sent), DisplayStringTransfers(old(Snapshot()), text, row, col))
    {
      var r := row;
      if r >= rows {
        r := rows - 1;
      }
      rowState := r;
      colState := col + |text|;
      var rowOffsets := RowOffsets(cols);
      assert r == ClampRow(rows, row) && PyIndex(rowOffsets, r) == RowOffset(cols, r);
      var cmd := DdramCommand(PyIndex(rowOffsets, r) + col);
      WriteCommandByte(cmd);
      WriteCodes(text);
      AppendAssoc(old(sent), [Command(cmd)], DataTransfers(Codes(text)));
    }

    /** set_cursor: the address command for (row, col), the row clamped. */
    method SetCursor(row: int, col: int)
      requires Valid() && Enabled(Snapshot(), Op.SetCursor(row, col))
      modifies this`rowState, this`colState, this`bus, this`sent
      ensures Performed(Next(old(Snapshot()), Op.SetCursor(row, col)), old(sent), Emit(old(Snapshot()), Op.SetCursor(row, col)))
    {
      var r := row;
      if r >= rows {
        r := rows - 1;
      }
      var rowOffsets := RowOffsets(cols);
      rowState := r;
      colState := col;
      WriteCommandByte(DdramCommand(col + PyIndex(rowOffsets, r)));
    }

    method CursorOn()
      requires Valid()
      modifies this`cursorState, this`bus, this`sent
      ensures Performed(Next(old(Snapshot()), Op.CursorOn), old(sent), Emit(old(Snapshot()), Op.CursorOn))
    {
      cursorState := CursorMode.On;
      WriteCommandByte(LCD_DISPLAYCONTROL | LCD_DISPLAYON | LCD_CURSORON);
    }

    method CursorBlink()
      requires Valid()
      modifies this`cursorState, this`bus, this`sent
      ensures Performed(Next(old(Snapshot()), Op.CursorBlink), old(sent), Emit(old(Snapshot()), Op.CursorBlink))
    {
      cursorState := Blink;
      WriteCommandByte(LCD_DISPLAYCONTROL | LCD_DISPLAYON | LCD_BLINKON);
    }

    method CursorOff()
      requires Valid()
      modifies this`cursorState, this`bus, this`sent
      ensures Performed(Next(old(Snapshot()), Op.CursorOff), old(sent), Emit(old(Snapshot()), Op.CursorOff))
    {
      cursorState := CursorMode.Off;
      WriteCommandByte(LCD_DISPLAYCONTROL | LCD_DISPLAYON | LCD_CURSOROFF | LCD_BLINKOFF);
    }

    method Home()
      requires Valid()
      modifies this`rowState, this`colState, this`bus, this`sent
      ensures Performed(Next(old(Snapshot()), Op.Home), old(sent), Emit(old(Snapshot()), Op.Home))
    {
      rowState := 0;
      colState := 0;
      WriteCommandByte(LCD_RETURNHOME);
    }

    method Clear()
      requires Valid()
      modifies this`rowState, this`colState, this`bus, this`sent
      ensures Performed(Next(old(Snapshot()), Op.Clear), old(sent), Emit(old(Snapshot()), Op.Clear))
    {
      rowState := 0;
      colState := 0;
      WriteCommandByte(LCD_CLEARDISPLAY);
      WriteCommandByte(LCD_RETURNHOME);
      AppendAssoc(old(sent), [Command(LCD_CLEARDISPLAY)], [Command(LCD_RETURNHOME)]);
    }

    method MoveLeft()
      requires Valid()
      modifies this`colState, this`bus, this`sent
      ensures Performed(Next(old(Snapshot()), Op.MoveLeft), old(sent), Emit(old(Snapshot()), Op.MoveLeft))
    {
      colState := colState - 1;
      WriteCommandByte(LCD_CURSORSHIFT | LCD_DISPLAYMOVE | LCD_MOVELEFT);
    }

    method MoveRight()
      requires Valid()
      modifies this`colState, this`bus, this`sent
      ensures Performed(Next(old(Snapshot()), Op.MoveRight), old(sent), Emit(old(Snapshot()), Op.MoveRight))
    {
      colState := colState + 1;
      WriteCommandByte(LCD_CURSORSHIFT | LCD_DISPLAYMOVE | LCD_MOVERIGHT);
    }

    method DisplayOn()
      requires Valid()
      modifies this`displayState, this`bus, this`sent
      ensures Performed(Next(old(Snapshot()), Op.DisplayOn), old(sent), Emit(old(Snapshot()), Op.DisplayOn))
    {
      displayState := Switch.On;
      WriteCommandByte(LCD_DISPLAYCONTROL | LCD_DISPLAYON);
    }

    method DisplayOff()
      requires Valid()
      modifies this`displayState, this`bus, this`sent
      ensures Performed(Next(old(Snapshot()), Op.DisplayOff), old(sent), Emit(old(Snapshot()), Op.DisplayOff))
    {
      displayState := Switch.Off;
      WriteCommandByte(LCD_DISPLAYCONTROL | LCD_DISPLAYOFF);
    }

    method BacklightOn()
      requires Valid()
      modifies this`backlightState, this`bus, this`sent
      ensures Performed(Next(old(Snapshot()), Op.BacklightOn), old(sent), Emit(old(Snapshot()), Op.BacklightOn))
    {
      backlightState := Switch.On;
      WriteCmd(LCD_BACKLIGHT);
    }

    method BacklightOff()
      requires Valid()
      modifies this`backlightState, this`bus, this`sent
      ensures Performed(Next(old(Snapshot()), Op.BacklightOff), old(sent), Emit(old(Snapshot()), Op.BacklightOff))
    {
      backlightState := Switch.Off;
      WriteCmd(LCD_NOBACKLIGHT);
    }

    /** create_char: the CGRAM location masked to 0..7, then the first
        eight pattern bytes. */
    method CreateChar(location: int, pattern: seq<int>)
      requires Valid() && Enabled(Snapshot(), Op.CreateChar(location, pattern))
      modifies this`bus, this`sent
      ensures Performed(old(Snapshot()), old(sent), CreateCharTransfers(location, pattern))
    {
      WriteCommandByte(CgramCommand(location));
      ghost var sent1 := sent;
      for i := 0 to 8
        invariant Valid()
        invariant sent == sent1 + DataTransfers(pattern[..i])
      {
        LcdWriteData(pattern[i]);
        assert pattern[..i + 1] == pattern[..i] + [pattern[i]];
        DataTransfersSnoc(pattern[..i], pattern[i]);
        AppendAssoc(sent1, DataTransfers(pattern[..i]), [Data(LowByte(pattern[i]))]);
      }
      AppendAssoc(old(sent), [Command(CgramCommand(location))], DataTransfers(pattern[..8]));
    }

    method GetBacklight() returns (state: Switch)
      ensures state == backlightState
    {
      state := backlightState;
    }

    method GetDisplay() returns (state: Switch)
      ensures state == displayState
    {
      state := displayState;
    }

    method GetCursor() returns (state: CursorMode)
      ensures state == cursorState
    {
      state := cursorState;
    }

    method GetRowPos() returns (row: int)
      ensures row == rowState
    {
      row := rowState;
    }

    method GetColPos() returns (col: int)
      ensures col == colState
    {
      col := colState;
    }
  }

  /** The loop of ruprint that maps each character of a line through
      DICT_LCD, keeping the characters the table does not list. */
  method RemapString(line: string) returns (lcdLine: string)
    ensures lcdLine == RemapLine(line)
  {
    lcdLine := "";
    for i := 0 to |line|
      invariant lcdLine == RemapLine(line[..i])
    {
      var c := line[i];
      if c in DICT_LCD {
        lcdLine := lcdLine + [DICT_LCD[c] as char];
      } else {
        lcdLine := lcdLine + [c];
      }
      assert line[..i + 1] == line[..i] + [c];
    }
    assert line[..|line|] == line;
  }

  /** Concatenation is associative. */
  lemma AppendAssoc<T>(a: seq<T>, b: seq<T>, c: seq<T>)
    ensures (a + b) + c == a + (b + c)
  {
  }
}
