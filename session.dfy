/** What each public operation of the lcd class does: the tracked state it
    leaves and the transfers it puts on the bus, as functions of the state
    before it and its arguments. The Driver module's class is proved to do
    exactly this. */
module Session {
  import opened Bytes
  import opened Hd44780
  import opened CyrillicRemap

  /** backlight_state and display_state: 'on' or 'off'. */
  datatype Switch = On | Off

  /** cursor_state: 'hide' is only the initial value; cursor_off sets 'off'. */
  datatype CursorMode = Hide | On | Blink | Off

  /** The fields of an lcd object. */
  datatype State = State(
    addr: int,
    rows: int,
    cols: int,
    backlight: Switch,
    display: Switch,
    cursor: CursorMode,
    row: int,
    col: int)

  /** The public operations that change the state or write to the bus. */
  datatype Op =
    | RuPrint(line1: string, line2: string)
    | RuPrintChar(ch: string, col: int, row: int)
    | WriteString(text: string)
    | DisplayString(text: string, row: int, col: int)
    | SetCursor(row: int, col: int)
    | CursorOn
    | CursorBlink
    | CursorOff
    | Home
    | Clear
    | MoveLeft
    | MoveRight
    | DisplayOn
    | DisplayOff
    | BacklightOn
    | BacklightOff
    | CreateChar(location: int, pattern: seq<int>)

  /** The state __init__ leaves: at most four rows, everything on, the
      cursor hidden, the position at the origin. */
  function Initial(addr: int, rows: int, cols: int): State {
    State(addr, if rows <= 4 then rows else 4, cols, Switch.On, Switch.On, Hide, 0, 0)
  }

  /** The commands __init__ sends: three times 0x03 and 0x02 to enter 4-bit
      mode, then function set, display on, clear and entry mode. */
  function InitTransfers(): seq<Transfer> {
    [ Command(0x03), Command(0x03), Command(0x03), Command(0x02),
      Command(LCD_FUNCTIONSET | LCD_2LINE | LCD_5x8DOTS | LCD_4BITMODE),
      Command(LCD_DISPLAYCONTROL | LCD_DISPLAYON),
      Command(LCD_CLEARDISPLAY),
      Command(LCD_ENTRYMODESET | LCD_ENTRYLEFT) ]
  }

  /** List indexing as in Python: a negative index counts from the end. */
  function PyIndex<T>(xs: seq<T>, i: int): T
    requires -|xs| <= i < |xs|
  {
    if i >= 0 then xs[i] else xs[|xs| + i]
  }

  /** An index that row_offsets accepts without IndexError. */
  predicate RowIndexOk(i: int) {
    -4 <= i < 4
  }

  /** A row past the last one becomes the last row; any other row is kept. */
  function ClampRow(rows: int, row: int): int {
    if row >= rows then rows - 1 else row
  }

  /** row_offsets: the DDRAM address of the first cell of each row. */
  function RowOffsets(cols: int): seq<int> {
    [0x00, 0x40, cols, 0x40 + cols]
  }

  function RowOffset(cols: int, row: int): int
    requires RowIndexOk(row)
  {
    PyIndex(RowOffsets(cols), row)
  }

  /** The set-DDRAM-address command for an address; only the low byte of
      the address reaches the bus. */
  function DdramCommand(address: int): bv8 {
    LCD_SETDDRAMADDR | LowByte(address)
  }

  /** The set-CGRAM-address command for one of the eight character slots:
      the location's three low bits (its remainder modulo 8, for negative
      Python integers too) times eight. */
  function CgramCommand(location: int): bv8 {
    LCD_SETCGRAMADDR | ((location % 8) as bv8 << 3)
  }

  /** The code point of each character of a string. */
  function Codes(text: string): (r: seq<int>)
    ensures |r| == |text|
  {
    seq(|text|, i requires 0 <= i < |text| => text[i] as int)
  }

  /** One lcd_write_data per code, in order. */
  function DataTransfers(codes: seq<int>): (r: seq<Transfer>)
    ensures |r| == |codes|
  {
    seq(|codes|, i requires 0 <= i < |codes| => Data(LowByte(codes[i])))
  }

  /** When an operation runs without an exception: the row index it uses
      is one row_offsets has, `char[0]` and `pattern[0..7]` exist. */
  predicate Enabled(s: State, op: Op) {
    match op
    case RuPrint(_, _) => RowIndexOk(ClampRow(s.rows, 0)) && RowIndexOk(ClampRow(s.rows, 1))
    case RuPrintChar(ch, _, row) => |ch| >= 1 && RowIndexOk(row)
    case DisplayString(_, row, _) => RowIndexOk(ClampRow(s.rows, row))
    case SetCursor(row, _) => RowIndexOk(ClampRow(s.rows, row))
    case CreateChar(_, pattern) => |pattern| >= 8
    case _ => true
  }

  function AfterDisplayString(s: State, text: string, row: int, col: int): State {
    s.(row := ClampRow(s.rows, row), col := col + |text|)
  }

  function DisplayStringTransfers(s: State, text: string, row: int, col: int): seq<Transfer>
    requires RowIndexOk(ClampRow(s.rows, row))
  {
    var r := ClampRow(s.rows, row);
    [Command(DdramCommand(RowOffset(s.cols, r) + col))] + DataTransfers(Codes(text))
  }

  /** ruprintchar: the address of (row, col), then the remapped first
      character. */
  function RuPrintCharTransfers(s: State, ch: string, col: int, row: int): seq<Transfer>
    requires |ch| >= 1 && RowIndexOk(row)
  {
    [Command(DdramCommand(RowOffset(s.cols, row) + col)), Data(LowByte(RemapChar(ch[0]) as int))]
  }

  /** create_char: the CGRAM address, then the first eight pattern rows. */
  function CreateCharTransfers(location: int, pattern: seq<int>): seq<Transfer>
    requires |pattern| >= 8
  {
    [Command(CgramCommand(location))] + DataTransfers(pattern[..8])
  }

  /** The state after an operation. */
  function Next(s: State, op: Op): State
    requires Enabled(s, op)
  {
    match op
    case RuPrint(line1, line2) =>
      AfterDisplayString(AfterDisplayString(s, RemapLine(line1), 0, 0), RemapLine(line2), 1, 0)
    case RuPrintChar(_, col, row) => s.(row := row, col := col + 1)
    case WriteString(text) => s.(col := s.col + |text|)
    case DisplayString(text, row, col) => AfterDisplayString(s, text, row, col)
    case SetCursor(row, col) => s.(row := ClampRow(s.rows, row), col := col)
    case CursorOn => s.(cursor := CursorMode.On)
    case CursorBlink => s.(cursor := Blink)
    case CursorOff => s.(cursor := CursorMode.Off)
    case Home => s.(row := 0, col := 0)
    case Clear => s.(row := 0, col := 0)
    case MoveLeft => s.(col := s.col - 1)
    case MoveRight => s.(col := s.col + 1)
    case DisplayOn => s.(display := Switch.On)
    case DisplayOff => s.(display := Switch.Off)
    case BacklightOn => s.(backlight := Switch.On)
    case BacklightOff => s.(backlight := Switch.Off)
    case CreateChar(_, _) => s
  }

  /** The transfers an operation puts on the bus, in order. */
  function Emit(s: State, op: Op): seq<Transfer>
    requires Enabled(s, op)
  {
    match op
    case RuPrint(line1, line2) =>
      DisplayStringTransfers(s, RemapLine(line1), 0, 0)
      + DisplayStringTransfers(AfterDisplayString(s, RemapLine(line1), 0, 0), RemapLine(line2), 1, 0)
    case RuPrintChar(ch, col, row) => RuPrintCharTransfers(s, ch, col, row)
    case WriteString(text) => DataTransfers(Codes(text))
    case DisplayString(text, row, col) => DisplayStringTransfers(s, text, row, col)
    case SetCursor(row, col) => [Command(DdramCommand(col + RowOffset(s.cols, ClampRow(s.rows, row))))]
    case CursorOn => [Command(LCD_DISPLAYCONTROL | LCD_DISPLAYON | LCD_CURSORON)]
    case CursorBlink => [Command(LCD_DISPLAYCONTROL | LCD_DISPLAYON | LCD_BLINKON)]
    case CursorOff => [Command(LCD_DISPLAYCONTROL | LCD_DISPLAYON | LCD_CURSOROFF | LCD_BLINKOFF)]
    case Home => [Command(LCD_RETURNHOME)]
    case Clear => [Command(LCD_CLEARDISPLAY), Command(LCD_RETURNHOME)]
    case MoveLeft => [Command(LCD_CURSORSHIFT | LCD_DISPLAYMOVE | LCD_MOVELEFT)]
    case MoveRight => [Command(LCD_CURSORSHIFT | LCD_DISPLAYMOVE | LCD_MOVERIGHT)]
    case DisplayOn => [Command(LCD_DISPLAYCONTROL | LCD_DISPLAYON)]
    case DisplayOff => [Command(LCD_DISPLAYCONTROL | LCD_DISPLAYOFF)]
    case BacklightOn => [Raw(LCD_BACKLIGHT)]
    case BacklightOff => [Raw(LCD_NOBACKLIGHT)]
    case CreateChar(location, pattern) => CreateCharTransfers(location, pattern)
  }

  /** The RuPrint cases of Enabled, Next and Emit, spelled out for the
      class's proof. */
  lemma RuPrintPhases(s: State, line1: string, line2: string)
    requires Enabled(s, RuPrint(line1, line2))
    ensures Enabled(s, DisplayString(RemapLine(line1), 0, 0))
    ensures Enabled(AfterDisplayString(s, RemapLine(line1), 0, 0), DisplayString(RemapLine(line2), 1, 0))
    ensures Next(s, RuPrint(line1, line2))
         == AfterDisplayString(AfterDisplayString(s, RemapLine(line1), 0, 0), RemapLine(line2), 1, 0)
    ensures Emit(s, RuPrint(line1, line2))
         == DisplayStringTransfers(s, RemapLine(line1), 0, 0)
            + DisplayStringTransfers(AfterDisplayString(s, RemapLine(line1), 0, 0), RemapLine(line2), 1, 0)
  {
  }

  /** Appending a code to the codes appends its data write. */
  lemma DataTransfersSnoc(codes: seq<int>, c: int)
    ensures DataTransfers(codes + [c]) == DataTransfers(codes) + [Data(LowByte(c))]
  {
  }

  /** The codes of a one-character-longer prefix. */
  lemma CodesSnoc(text: string, i: nat)
    requires i < |text|
    ensures Codes(text[..i + 1]) == Codes(text[..i]) + [text[i] as int]
  {
  }

  // Properties of the specification.

  /** __init__ sends exactly these commands, and nothing else, in this order. */
  lemma InitSequence()
    ensures InitTransfers() == [ Command(0x03), Command(0x03), Command(0x03), Command(0x02),
                                 Command(0x28), Command(0x0C), Command(0x01), Command(0x06) ]
  {
  }

  /** The 48 bytes of __init__ read back as its eight commands. */
  lemma InitDecodes()
    ensures Decode(Encode(InitTransfers())) == Some(InitTransfers())
    ensures |Encode(InitTransfers())| == 48
  {
    var ts := InitTransfers();
    assert forall i :: 0 <= i < |ts| ==> ts[i].Command?;
    DecodeEncode(ts);
    EncodeLength(ts);
  }

  /** No operation changes the address, the row count or the column count. */
  lemma {:induction false} GeometryUnchanged(s: State, op: Op)
    requires Enabled(s, op)
    ensures Next(s, op).addr == s.addr && Next(s, op).rows == s.rows && Next(s, op).cols == s.cols
  {
  }

  /** The bus log of every operation reads back as exactly its transfers. */
  lemma EmitDecodes(s: State, op: Op)
    requires Enabled(s, op)
    ensures WellFormed(Emit(s, op))
    ensures Decode(Encode(Emit(s, op))) == Some(Emit(s, op))
  {
    var ts := Emit(s, op);
    assert WellFormed(ts) by {
      if !op.BacklightOn? && !op.BacklightOff? {
        forall i | 0 <= i < |ts| ensures !ts[i].Raw? {
          match op
          case RuPrint(l1, l2) =>
            var first := DisplayStringTransfers(s, RemapLine(l1), 0, 0);
            if i >= |first| {
              assert ts[i] == DisplayStringTransfers(AfterDisplayString(s, RemapLine(l1), 0, 0), RemapLine(l2), 1, 0)[i - |first|];
            }
          case _ =>
        }
      }
    }
    DecodeEncode(ts);
  }

  /** set_cursor: a row past the last becomes the last row; the column is
      taken as it is; one address command for row_offsets[row] + col. */
  lemma SetCursorPosition(s: State, row: int, col: int)
    requires Enabled(s, SetCursor(row, col))
    ensures row < s.rows ==> Next(s, SetCursor(row, col)).row == row
    ensures row >= s.rows ==> Next(s, SetCursor(row, col)).row == s.rows - 1
    ensures Next(s, SetCursor(row, col)) == s.(row := Next(s, SetCursor(row, col)).row, col := col)
    ensures Emit(s, SetCursor(row, col))
            == [Command(DdramCommand(RowOffset(s.cols, Next(s, SetCursor(row, col)).row) + col))]
  {
  }

  /** display_string: the same clamped position and address command, then
      one data write per character; the tracked column ends past the text. */
  lemma {:induction false} DisplayStringPosition(s: State, text: string, row: int, col: int)
    requires Enabled(s, DisplayString(text, row, col))
    ensures Next(s, DisplayString(text, row, col)) == s.(row := ClampRow(s.rows, row), col := col + |text|)
    ensures Emit(s, DisplayString(text, row, col))[0]
            == Command(DdramCommand(RowOffset(s.cols, ClampRow(s.rows, row)) + col))
    ensures Emit(s, DisplayString(text, row, col))[1..] == DataTransfers(Codes(text))
    ensures |Encode(Emit(s, DisplayString(text, row, col)))| == 6 * (|text| + 1)
  {
    EncodeLength(Emit(s, DisplayString(text, row, col)));
  }

  /** write_string: no address command, only one data write per character;
      the row stays and the column advances by the length of the text. */
  lemma {:induction false} WriteStringAtCursor(s: State, text: string)
    ensures Next(s, WriteString(text)) == s.(col := s.col + |text|)
    ensures forall i :: 0 <= i < |Emit(s, WriteString(text))| ==> Emit(s, WriteString(text))[i] == Data(LowByte(text[i] as int))
    ensures |Emit(s, WriteString(text))| == |text|
    ensures |Encode(Emit(s, WriteString(text)))| == 6 * |text|
  {
    EncodeLength(Emit(s, WriteString(text)));
  }

  /** home and clear go back to (0, 0) from any state; clear clears first. */
  lemma HomeClearReset(s: State)
    ensures Next(s, Home) == s.(row := 0, col := 0) && Next(s, Clear) == s.(row := 0, col := 0)
    ensures Emit(s, Home) == [Command(0x02)]
    ensures Emit(s, Clear) == [Command(0x01), Command(0x02)]
  {
  }

  /** move_left and move_right: one display-shift command and a column
      one less or one more. */
  lemma MoveShifts(s: State)
    ensures Next(s, MoveLeft) == s.(col := s.col - 1) && Emit(s, MoveLeft) == [Command(0x18)]
    ensures Next(s, MoveRight) == s.(col := s.col + 1) && Emit(s, MoveRight) == [Command(0x1C)]
  {
  }

  /** The three cursor modes: each a display-control command that keeps the
      display-on bit, so changing the cursor never blanks the screen. */
  lemma CursorModes(s: State)
    ensures Next(s, CursorOn) == s.(cursor := CursorMode.On) && Emit(s, CursorOn) == [Command(0x0E)]
    ensures Next(s, CursorBlink) == s.(cursor := Blink) && Emit(s, CursorBlink) == [Command(0x0D)]
    ensures Next(s, CursorOff) == s.(cursor := CursorMode.Off) && Emit(s, CursorOff) == [Command(0x0C)]
    ensures forall op :: op in {CursorOn, CursorBlink, CursorOff} ==>
              |Emit(s, op)| == 1 && Emit(s, op)[0].Command?
              && Emit(s, op)[0].value & 0xF8 == LCD_DISPLAYCONTROL
              && Emit(s, op)[0].value & LCD_DISPLAYON == LCD_DISPLAYON
  {
  }

  lemma DisplayToggles(s: State)
    ensures Next(s, DisplayOn) == s.(display := Switch.On) && Emit(s, DisplayOn) == [Command(0x0C)]
    ensures Next(s, DisplayOff) == s.(display := Switch.Off) && Emit(s, DisplayOff) == [Command(0x08)]
  {
  }

  /** The backlight switches write one raw byte, outside the nibble
      protocol, and change nothing but backlight_state. */
  lemma BacklightRawByte(s: State)
    ensures Next(s, BacklightOn) == s.(backlight := Switch.On) && Encode(Emit(s, BacklightOn)) == [0x08]
    ensures Next(s, BacklightOff) == s.(backlight := Switch.Off) && Encode(Emit(s, BacklightOff)) == [0x00]
  {
  }

  /** The CGRAM address command of create_char depends only on the location
      modulo 8, and on all of it. */
  lemma CgramCommandMasks(a: int, b: int)
    ensures CgramCommand(a) == CgramCommand(b) <==> a % 8 == b % 8
  {
    ByteValue(a % 8);
    ByteValue(b % 8);
  }

  /** create_char: the CGRAM address command, then exactly the first eight
      pattern bytes as data; locations agreeing modulo 8 give the same log. */
  lemma {:induction false} CreateCharMasks(s: State, location: int, pattern: seq<int>)
    requires |pattern| >= 8
    ensures Next(s, CreateChar(location, pattern)) == s
    ensures |Emit(s, CreateChar(location, pattern))| == 9
    ensures Emit(s, CreateChar(location, pattern))[0] == Command(CgramCommand(location))
    ensures forall i :: 0 <= i < 8 ==> Emit(s, CreateChar(location, pattern))[i + 1] == Data(LowByte(pattern[i]))
    ensures forall other :: Emit(s, CreateChar(other, pattern)) == Emit(s, CreateChar(location, pattern))
                            <==> other % 8 == location % 8
  {
    forall other ensures Emit(s, CreateChar(other, pattern)) == Emit(s, CreateChar(location, pattern))
                         <==> other % 8 == location % 8
    {
      CgramCommandMasks(other, location);
      if Emit(s, CreateChar(other, pattern)) == Emit(s, CreateChar(location, pattern)) {
        assert Emit(s, CreateChar(other, pattern))[0] == Emit(s, CreateChar(location, pattern))[0];
      }
    }
  }

  lemma CreateCharNineIsOne(s: State, pattern: seq<int>)
    requires |pattern| >= 8
    ensures Emit(s, CreateChar(9, pattern)) == Emit(s, CreateChar(1, pattern))
  {
  }

  /** ruprintchar: the first character only, remapped; the row is used as
      given, not clamped; the column afterwards is one past it. */
  lemma RuPrintCharPosition(s: State, ch: string, col: int, row: int)
    requires Enabled(s, RuPrintChar(ch, col, row))
    ensures Next(s, RuPrintChar(ch, col, row)) == s.(row := row, col := col + 1)
    ensures |Emit(s, RuPrintChar(ch, col, row))| == 2
    ensures Emit(s, RuPrintChar(ch, col, row))[0] == Command(DdramCommand(RowOffset(s.cols, row) + col))
    ensures ch[0] in DICT_LCD ==> Emit(s, RuPrintChar(ch, col, row))[1] == Data(LowByte(DICT_LCD[ch[0]]))
    ensures ch[0] !in DICT_LCD ==> Emit(s, RuPrintChar(ch, col, row))[1] == Data(LowByte(ch[0] as int))
    ensures forall other: string :: |other| >= 1 && other[0] == ch[0] ==>
              Emit(s, RuPrintChar(other, col, row)) == Emit(s, RuPrintChar(ch, col, row))
  {
  }

  /** ruprint is display_string of the remapped first line at (0, 0) and of
      the remapped second line at (1, 0); on a display of two or more rows
      these are addresses 0x00 and 0x40. */
  lemma RuPrintLines(s: State, line1: string, line2: string)
    requires s.rows >= 2
    ensures Enabled(s, RuPrint(line1, line2))
    ensures Next(s, RuPrint(line1, line2)) == s.(row := 1, col := |line2|)
    ensures Emit(s, RuPrint(line1, line2))
            == [Command(0x80)] + DataTransfers(Codes(RemapLine(line1)))
               + [Command(0xC0)] + DataTransfers(Codes(RemapLine(line2)))
  {
    var a := RemapLine(line1);
    var b := RemapLine(line2);
    assert DdramCommand(0) == 0x80 && DdramCommand(0x40) == 0xC0;
    assert Emit(s, RuPrint(line1, line2))
        == DisplayStringTransfers(s, a, 0, 0) + DisplayStringTransfers(AfterDisplayString(s, a, 0, 0), b, 1, 0);
  }

  /** Every operation but ruprintchar keeps the tracked row below the row
      count. */
  lemma RowInvariant(s: State, op: Op)
    requires Enabled(s, op) && !op.RuPrintChar?
    requires s.rows >= 1 && s.row < s.rows
    ensures Next(s, op).row < Next(s, op).rows
  {
  }

  /** A new display with at least one row starts inside the invariant. */
  lemma InitialRowInvariant(addr: int, rows: int, cols: int)
    requires rows >= 1
    ensures Initial(addr, rows, cols).row < Initial(addr, rows, cols).rows
  {
  }

  /** ruprint composed from the operation algebra: display_string of the
      remapped first line at (0, 0), then display_string of the remapped
      second line at (1, 0) from the state the first one leaves. */
  lemma RuPrintComposes(s: State, line1: string, line2: string)
    requires Enabled(s, RuPrint(line1, line2))
    ensures Enabled(s, DisplayString(RemapLine(line1), 0, 0))
    ensures Enabled(Next(s, DisplayString(RemapLine(line1), 0, 0)), DisplayString(RemapLine(line2), 1, 0))
    ensures Next(s, RuPrint(line1, line2))
         == Next(Next(s, DisplayString(RemapLine(line1), 0, 0)), DisplayString(RemapLine(line2), 1, 0))
    ensures Emit(s, RuPrint(line1, line2))
         == Emit(s, DisplayString(RemapLine(line1), 0, 0))
            + Emit(Next(s, DisplayString(RemapLine(line1), 0, 0)), DisplayString(RemapLine(line2), 1, 0))
  {
  }

  /** ruprintchar does not clamp: on a two-row display it can leave the
      tracked row at 3. */
  lemma RuPrintCharEscapesRows()
    ensures Enabled(Initial(0x27, 2, 16), RuPrintChar("A", 0, 3))
    ensures Next(Initial(0x27, 2, 16), RuPrintChar("A", 0, 3)).row == 3
    ensures Initial(0x27, 2, 16).rows == 2
  {
  }

  /** On a display of up to four rows of at most 32 columns, distinct cells
      have distinct DDRAM addresses, all of them below 0x80. */
  lemma CellAddressesDistinct(cols: int, r1: int, c1: int, r2: int, c2: int)
    requires 0 < cols <= 32
    requires 0 <= r1 < 4 && 0 <= r2 < 4 && 0 <= c1 < cols && 0 <= c2 < cols
    ensures 0 <= RowOffset(cols, r1) + c1 < 0x80
    ensures RowOffset(cols, r1) + c1 == RowOffset(cols, r2) + c2 <==> r1 == r2 && c1 == c2
  {
  }

  /** The set-DDRAM-address command carries a 7-bit address in its low bits. */
  lemma DdramCommandValue(address: int)
    requires 0 <= address < 0x80
    ensures DdramCommand(address) as int == 0x80 + address
  {
    ByteValue(address);
  }

  /** A 2x16 display: "HI" at (0, 0) is command 0x80, then data 'H' and 'I'. */
  lemma DisplayStringExample()
    ensures Emit(Initial(0x27, 2, 16), DisplayString("HI", 0, 0)) == [Command(0x80), Data(0x48), Data(0x49)]
  {
  }
}
