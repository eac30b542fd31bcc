# lcdlib1602 in Dafny

`lcdlib.py` drives an HD44780 character display, 16x2 or 20x4, through an
I2C backpack in 4-bit mode. The interface is the class `lcd`:

- It tracks the display's geometry, the backlight, display and cursor
  states, and the cursor position.
- Every public method updates that state and writes bytes to the bus.
- Each command or data byte goes out as two nibbles. Each nibble takes three
  bus bytes: the nibble, then an enable pulse high and low.
- `ruprint` and `ruprintchar` remap Russian letters through the table
  `DICT_LCD` to the character-ROM codes of a Cyrillic module.

The model has five modules:

- `Bytes` (`bytes.dfy`): `LowByte`, the low byte of a Python integer. This
  is all that survives the masks `& 0xF0` and `(x << 4) & 0xF0`.
- `Hd44780` (`hd44780.dfy`): the constants and the three kinds of write a
  driver makes, as the datatype `Transfer`:
  - `Command`: `lcd_write_cmd`;
  - `Data`: `lcd_write_data`;
  - `Raw`: a bare `write_cmd`.

  It also holds `Encode`, which gives the bytes a sequence of transfers puts
  on the bus, and `Decode`, an independent reading of a byte log back into
  transfers.
- `CyrillicRemap` (`cyrillic_remap.dfy`): `DICT_LCD` and the per-character
  substitution.
- `Session` (`session.dfy`): the specification of the class.
  - `State` is an `lcd` object's fields and `Op` its public operations.
  - `Enabled(s, op)` holds when the operation raises no Python exception.
  - `Next(s, op)` is the state afterwards and `Emit(s, op)` the transfers
    written, in order.
  - The properties of the class are lemmas about these functions.
- `Driver` (`driver.dfy`): the class itself, as `class Lcd`.
  - It has the same fields.
  - `bus: seq<bv8>` is the log of every byte handed to `write_byte`.
  - The ghost `sent: seq<Transfer>` is the log of transfers;
    `Valid()` says `bus == Encode(sent)`.
  - Every method is imperative, like the Python.
    - `WriteCmd` appends one byte and logs it as a raw transfer, so a
      client may call it, `LcdStrobe` or `LcdWriteFourBits` directly and
      the object stays valid.
    - `LcdStrobe`, `LcdWriteFourBits`, `LcdWriteCmd` and `LcdWriteData`
      call each other as in the source. The two frame writers fold the six
      raw entries of their nibbles into one command or data transfer.
    - `LcdWriteCmd` and `LcdWriteData` take any integer and send its low
      byte, like the Python masks. `WriteCommandByte` and `WriteDataByte`
      do the same on a byte, and the other methods pass their commands to
      `WriteCommandByte`.
    - `WriteCodes` is the loop over the characters that `write_string` and
      `display_string` both contain; `WriteString` and `DisplayString` call
      it. `CreateChar` loops over the eight pattern rows and `RemapString`
      over the characters of a line, each with invariants.
  - Each public method is proved to leave exactly the state and append
    exactly the transfers of `Session`, through
    `Performed(newState, oldLog, transfers)`:
    - the constant-size operations, `WriteString`, `SetCursor` and `RuPrint`
      are stated with `Next`/`Emit`;
    - `DisplayString`, `RuPrintChar` and `CreateChar` are stated with the
      functions that `Next` and `Emit` return for them, `AfterDisplayString`
      and the three `*Transfers` functions.

Points where the model follows the code and not its comments:

- `cursor_state` is `'hide'` only before the first cursor call. The comment
  on line 90 lists `'hide'`, `'on'` and `'blink'`, but `cursor_off` sets
  `'off'`. `CursorMode` has all four values.
- `lcd_strobe` ORs the backlight bit into both strobe bytes. The first byte
  of each nibble, written by `lcd_write_four_bits`, carries no backlight
  bit. `NibbleShape` and `FrameShape` state this.
- `row_offsets[row]` follows Python indexing: a negative row counts from the
  end. `display_string` and `set_cursor` on a display with `rows == 0` clamp
  the row to `-1`. `Enabled` admits exactly the rows in `-4 .. 3`, the ones
  for which Python raises no `IndexError`.
- `ruprintchar` does not clamp its row, unlike `display_string` and
  `set_cursor`. Every other operation keeps the tracked row below the row
  count; `ruprintchar` can leave it past the last row (`RowInvariant`,
  `RuPrintCharEscapesRows`).
- Constants that the driver never uses, such as `LCD_8BITMODE` and
  `LCD_CURSORMOVE`, are declared all the same, with their values.
- `location &= 0x7` on a Python integer equals `location % 8`, with Dafny's
  non-negative `%`. Commands and data reach the bus only through their low
  byte, taken as `x % 256`, which is also exact for negative Python
  integers.

## Model

| member | source | states |
|---|---|---|
| Bytes.LowByte | lcdlib.py:155-162 | the low byte of a Python integer in two's complement, the only bits the masks `& 0xF0` and `(x << 4) & 0xF0` keep |
| Hd44780.NibbleBytes | lcdlib.py:143-152 | the three bytes of lcd_write_four_bits: the nibble, then the two strobe bytes with enable high and low, both with the backlight bit |
| Hd44780.FrameBytes | lcdlib.py:155-162 | the six bytes of lcd_write_cmd (register select 0) or lcd_write_data (LCD_RS): the high nibble then the low nibble |
| Hd44780.TransferBytes | lcdlib.py:138-162 | the bytes of one write: a command or data frame, or the single byte of a direct write_cmd |
| Hd44780.Encode | lcdlib.py:138-139 | the bus log of a sequence of writes: their bytes in order, each write_cmd appending one byte |
| Hd44780.Decode | lcdlib.py:143-162 | a reference reader with no counterpart in the source: six-byte frames become commands or data, a lone backlight byte a raw write, anything else is rejected |
| CyrillicRemap.DICT_LCD | lcdlib.py:55-74 | the 66 Cyrillic letters and their character-ROM codes, as the union of the capital and the small half |
| CyrillicRemap.RemapChar | lcdlib.py:113-116 | a table key becomes the character of its code, any other character stays |
| Session.Initial | lcdlib.py:81-92 | the fields __init__ sets: rows capped at 4, backlight and display on, cursor hidden, position (0, 0) |
| Session.InitTransfers | lcdlib.py:94-103 | the eight commands of __init__, in order |
| Session.PyIndex | lcdlib.py:130-131 | Python list indexing, a negative index counting from the end |
| Session.ClampRow | lcdlib.py:175-176 | a row at or past the row count becomes the last row |
| Session.RowOffsets | lcdlib.py:179 | the row-offset table 0x00, 0x40, cols, 0x40 + cols |
| Session.RowOffset | lcdlib.py:179-180 | the entry of the row-offset table for a row, Python-indexed |
| Session.DdramCommand | lcdlib.py:180 | LCD_SETDDRAMADDR with the low byte of the address |
| Session.CgramCommand | lcdlib.py:261-262 | LCD_SETCGRAMADDR with the location modulo 8 shifted left by three |
| Session.Codes | lcdlib.py:170-171 | the code point of each character, as many as there are characters |
| Session.DataTransfers | lcdlib.py:181-182 | one data write per code, in order, as many as there are codes |
| Session.Enabled | lcdlib.py:109-264 | the arguments for which an operation raises no IndexError: the clamped row of display_string, set_cursor and ruprint, or the row of ruprintchar as given, in -4..3; a non-empty string for ruprintchar; at least eight pattern rows |
| Session.AfterDisplayString | lcdlib.py:175-178 | the state after display_string: the clamped row and the column past the text |
| Session.DisplayStringTransfers | lcdlib.py:179-182 | the address command of the clamped row and column, then one data write per character |
| Session.RuPrintCharTransfers | lcdlib.py:130-132 | the address command of the unclamped row and column, then the remapped first character |
| Session.CreateCharTransfers | lcdlib.py:261-264 | the CGRAM address command, then the first eight pattern entries as data |
| Session.Next | lcdlib.py:109-264 | the fields each public operation leaves |
| Session.Emit | lcdlib.py:109-264 | the writes each public operation makes, in order |
| Session.RuPrintComposes | lcdlib.py:109-123 | ruprint is the composition of display_string of the remapped first line at (0, 0) with display_string of the remapped second line at (1, 0), in state and in writes |
| Session.InitialRowInvariant | lcdlib.py:81-92 | a new display with at least one row starts with the tracked row below the row count |
| Hd44780.NibbleShape | lcdlib.py:143-152 | a nibble goes out as three bytes equal to it apart from the enable and backlight bits: enable low, high, low; backlight bit only on the two strobe bytes |
| Hd44780.FrameShape | lcdlib.py:155-162 | a command or data write is six bytes, all with its register-select bit, carrying the high nibble in the first three and the low nibble in the last three; bytes 0 and 3 have no backlight bit |
| Hd44780.Raws | lcdlib.py:138-140 | bytes written directly, one raw transfer each, encode back to exactly those bytes |
| Hd44780.EncodeAppend | lcdlib.py:138-139 | the log of two runs of writes is the concatenation of their logs |
| Hd44780.EncodeLength | lcdlib.py:150-162 | every command or data write takes exactly six bus bytes |
| Hd44780.FrameDecodes | lcdlib.py:155-162 | the six bytes of a write form a frame from which the controller reassembles exactly the byte written, as a command or as data according to register select |
| Hd44780.FirstByteEnableLow | lcdlib.py:150-152 | every log of well-formed writes starts with enable low |
| Hd44780.DecodeEncode | lcdlib.py:138-162 | decoding the bus log of any well-formed sequence of writes gives back that sequence: no two sequences share a log |
| Hd44780.DataLowByteOnly | lcdlib.py:160-162 | two data codes give the same bus bytes exactly when they agree modulo 256 |
| CyrillicRemap.RemapLine | lcdlib.py:110-116 | the remapped line has the length of the line |
| CyrillicRemap.UpperKeysCyrillic | lcdlib.py:55-64 | every capital key is a Cyrillic capital letter (U+0401 to U+042F) with a code in 65..226 |
| CyrillicRemap.LowerKeysCyrillic | lcdlib.py:65-73 | every small key is a Cyrillic small letter (U+0430 to U+0451) with a code in 97..230 |
| CyrillicRemap.TableKeysCyrillic | lcdlib.py:55-74 | every key of DICT_LCD is a Cyrillic letter and every code is in 65..230 |
| CyrillicRemap.RemapCharMeaning | lcdlib.py:127 | a table key becomes its code; every other character, and every character below U+0401, passes unchanged |
| CyrillicRemap.RemapIdempotent | lcdlib.py:112-122 | remapping a remapped line changes nothing |
| CyrillicRemap.RemapSmallYa | lcdlib.py:73 | the small letter ya is sent as code 199 |
| CyrillicRemap.RemapLatinZ | lcdlib.py:127 | a Latin letter is sent as its own code point |
| Session.InitSequence | lcdlib.py:94-103 | __init__ sends exactly 0x03, 0x03, 0x03, 0x02, 0x28, 0x0C, 0x01, 0x06, in this order |
| Session.InitDecodes | lcdlib.py:94-103 | the initialisation log is 48 bytes and reads back as those eight commands |
| Session.GeometryUnchanged | lcdlib.py:109-264 | no operation changes the address, the row count or the column count |
| Session.EmitDecodes | lcdlib.py:109-264 | the bus log of every operation reads back as exactly its transfers |
| Session.DataTransfersSnoc | lcdlib.py:170-171 | one more character appends one data write |
| Session.CodesSnoc | lcdlib.py:170-171 | one more character appends its code point |
| Session.SetCursorPosition | lcdlib.py:185-191 | a row below the row count is kept, any other becomes the last row; the column is taken as given; one address command for row_offsets[row] + col |
| Session.DisplayStringPosition | lcdlib.py:174-182 | clamped row, column past the text, the address command first, then one data write per character; 6 * (length + 1) bus bytes |
| Session.WriteStringAtCursor | lcdlib.py:168-171 | no address command; the i-th transfer is the data write of the i-th character; the column advances by the length, the row stays; 6 * length bus bytes |
| Session.HomeClearReset | lcdlib.py:212-224 | home and clear return to (0, 0) from any state; home sends 0x02, clear sends 0x01 then 0x02 |
| Session.MoveShifts | lcdlib.py:227-234 | move_left sends 0x18 and decrements the column; move_right sends 0x1C and increments it |
| Session.CursorModes | lcdlib.py:194-209 | cursor_on, cursor_blink and cursor_off send 0x0E, 0x0D, 0x0C and set their mode; each is one display-control command with the display-on bit |
| Session.DisplayToggles | lcdlib.py:237-244 | display_on sends 0x0C, display_off 0x08, and each sets display_state |
| Session.BacklightRawByte | lcdlib.py:247-254 | the backlight switches write the single raw byte 0x08 or 0x00 and change only backlight_state |
| Session.CgramCommandMasks | lcdlib.py:261-262 | two locations give the same CGRAM command exactly when they agree modulo 8 |
| Session.CreateCharMasks | lcdlib.py:259-264 | create_char leaves the state alone; nine transfers: the CGRAM command, then the data writes of pattern[0..7]; two locations give the same log exactly when they agree modulo 8 |
| Session.CreateCharNineIsOne | lcdlib.py:261 | location 9 writes what location 1 writes |
| Session.RuPrintCharPosition | lcdlib.py:125-132 | ruprintchar sets the row as given and the column to col + 1; two transfers: the address of row_offsets[row] + col, then the table code of the first character if it is a key, else its code point; the rest of the string is ignored |
| Session.RuPrintLines | lcdlib.py:109-123 | on two or more rows ruprint sends 0x80 and the remapped first line, then 0xC0 and the remapped second line, and ends at row 1 past the second line |
| Session.RowInvariant | lcdlib.py:174-234 | every operation other than ruprintchar keeps the tracked row below the row count |
| Session.RuPrintCharEscapesRows | lcdlib.py:128 | on a two-row display ruprintchar can leave the tracked row at 3 |
| Session.CellAddressesDistinct | lcdlib.py:179-180 | with up to 32 columns, distinct cells of a four-row display have distinct DDRAM addresses below 0x80 |
| Session.DdramCommandValue | lcdlib.py:180 | the set-DDRAM command for an address below 0x80 is 0x80 plus the address |
| Session.DisplayStringExample | lcdlib.py:174-182 | "HI" at (0, 0) on a 2x16 display sends 0x80, then data 0x48 and 0x49 |
| Driver.Lcd.SentGrows | lcdlib.py:138-139 | appending transfers to a valid log appends exactly their bytes to the bus log |
| Driver.Lcd.constructor | lcdlib.py:81-104 | the initial state of `Initial`, rows capped at 4; the log is exactly the eight initialisation commands |
| Driver.Lcd.RuPrint | lcdlib.py:109-123 | state and transfers are those of `Next`/`Emit` for ruprint |
| Driver.Lcd.RuPrintChar | lcdlib.py:125-132 | row and column as ruprintchar sets them, nothing else changed; address then remapped character appended |
| Driver.Lcd.WriteCmd | lcdlib.py:138-140 | exactly one byte appended to the bus log, logged as one raw transfer; the log stays valid |
| Driver.Lcd.LcdStrobe | lcdlib.py:143-147 | the enable-high and enable-low bytes, both with the backlight bit, appended, each as a raw transfer; the log stays valid |
| Driver.Lcd.LcdWriteFourBits | lcdlib.py:150-152 | the three bytes of a nibble appended, each as a raw transfer; the log stays valid |
| Driver.Lcd.LcdWriteCmd | lcdlib.py:155-157 | for any integer argument, the log stays valid with one command appended, carrying the argument's low byte |
| Driver.Lcd.WriteCommandByte | lcdlib.py:155-157 | the log stays valid with one command appended, its six raw nibble bytes replaced by that one command |
| Driver.Lcd.LcdWriteData | lcdlib.py:160-162 | the log stays valid with one data write of the argument's low byte appended |
| Driver.Lcd.WriteDataByte | lcdlib.py:160-162 | the log stays valid with one data write appended, its six raw nibble bytes replaced by that one data transfer |
| Driver.Lcd.WriteString | lcdlib.py:168-171 | state and transfers are those of `Next`/`Emit` for write_string |
| Driver.Lcd.WriteCodes | lcdlib.py:170-171 | one data write per character, in order |
| Driver.Lcd.DisplayString | lcdlib.py:174-182 | state and transfers of display_string (clamped row, address, codes) |
| Driver.Lcd.SetCursor | lcdlib.py:185-191 | state and transfers are those of `Next`/`Emit` for set_cursor |
| Driver.Lcd.CursorOn | lcdlib.py:194-197 | state and transfers are those of `Next`/`Emit` for cursor_on |
| Driver.Lcd.CursorBlink | lcdlib.py:200-203 | state and transfers are those of `Next`/`Emit` for cursor_blink |
| Driver.Lcd.CursorOff | lcdlib.py:206-209 | state and transfers are those of `Next`/`Emit` for cursor_off |
| Driver.Lcd.Home | lcdlib.py:212-216 | state and transfers are those of `Next`/`Emit` for home |
| Driver.Lcd.Clear | lcdlib.py:219-224 | state and transfers are those of `Next`/`Emit` for clear |
| Driver.Lcd.MoveLeft | lcdlib.py:227-229 | state and transfers are those of `Next`/`Emit` for move_left |
| Driver.Lcd.MoveRight | lcdlib.py:232-234 | state and transfers are those of `Next`/`Emit` for move_right |
| Driver.Lcd.DisplayOn | lcdlib.py:237-239 | state and transfers are those of `Next`/`Emit` for display_on |
| Driver.Lcd.DisplayOff | lcdlib.py:242-244 | state and transfers are those of `Next`/`Emit` for display_off |
| Driver.Lcd.BacklightOn | lcdlib.py:247-249 | state and transfers are those of `Next`/`Emit` for backlight_on |
| Driver.Lcd.BacklightOff | lcdlib.py:252-254 | state and transfers are those of `Next`/`Emit` for backlight_off |
| Driver.Lcd.CreateChar | lcdlib.py:259-264 | the state unchanged; the CGRAM command of the masked location, then the first eight pattern entries as data |
| Driver.Lcd.GetBacklight | lcdlib.py:267-268 | returns backlight_state |
| Driver.Lcd.GetDisplay | lcdlib.py:271-272 | returns display_state |
| Driver.Lcd.GetCursor | lcdlib.py:275-276 | returns cursor_state |
| Driver.Lcd.GetRowPos | lcdlib.py:279-280 | returns row_state |
| Driver.Lcd.GetColPos | lcdlib.py:283-284 | returns col_state |
| Driver.RemapString | lcdlib.py:110-122 | the line built character by character is `RemapLine` of the input |

## Left out

- Timing: the `sleep` calls carry no state and are not modelled.
- The SMBus handle opened on `I2C_PORT` is not modelled, nor is the device
  address passed to each `write_byte`: the bus log holds only the bytes.
  `addr` is kept as a field, and no operation changes it. A failing bus
  write is not modelled.
- Python exceptions are not modelled. The methods require the inputs for
  which Python raises no exception:
  - by `char[0]` on an empty string;
  - by `row_offsets[row]` outside `-4 .. 3`;
  - by `pattern[i]` on a pattern shorter than eight.
- Python's dynamic typing is left out: strings are `seq<char>` and the
  patterns are sequences of integers.
- Default arguments (`rows=4, cols=16`, `line1=""`, `char=""`, `col=0`,
  `row=0`) are not modelled: every operation takes all its arguments.
