/** DICT_LCD: the character-ROM codes of a Cyrillic HD44780 module for the
    Russian alphabet, and the per-character substitution ruprint and
    ruprintchar apply before writing. */
module CyrillicRemap {

  /** A controller character-ROM code. */
  type Code = x: int | 0 <= x < 256

  /** The table is written as its capital and its small letters; DICT_LCD
      is their union (the two halves share no key). */
  const DICT_LCD_UPPER: map<char, Code> := map[
    'А' := 65, 'Б' := 160, 'В' := 66, 'Г' := 161,
    'Д' := 224, 'Е' := 69, 'Ё' := 162, 'Ж' := 163,
    'З' := 164, 'И' := 165, 'Й' := 166, 'К' := 75,
    'Л' := 167, 'М' := 77, 'Н' := 72, 'О' := 79,
    'П' := 168, 'Р' := 80, 'С' := 67, 'Т' := 84,
    'У' := 169, 'Ф' := 170, 'Х' := 88, 'Ц' := 225,
    'Ч' := 171, 'Ш' := 172, 'Щ' := 226, 'Ъ' := 173,
    'Ы' := 174, 'Ь' := 98, 'Э' := 175, 'Ю' := 176,
    'Я' := 177
  ]

  const DICT_LCD_LOWER: map<char, Code> := map[
    'а' := 97, 'б' := 178, 'в' := 179, 'г' := 180,
    'д' := 227, 'е' := 101, 'ё' := 181, 'ж' := 182,
    'з' := 183, 'и' := 184, 'й' := 185, 'к' := 186,
    'л' := 187, 'м' := 188, 'н' := 189, 'о' := 111,
    'п' := 190, 'р' := 112, 'с' := 99, 'т' := 191,
    'у' := 121, 'ф' := 228, 'х' := 120, 'ц' := 229,
    'ч' := 192, 'ш' := 193, 'щ' := 230, 'ъ' := 194,
    'ы' := 195, 'ь' := 196, 'э' := 197, 'ю' := 198,
    'я' := 199
  ]

  const DICT_LCD: map<char, Code> := DICT_LCD_UPPER + DICT_LCD_LOWER

  /** A table key becomes the character of its code; any other character
      stays as it is. */
  function RemapChar(c: char): char {
    if c in DICT_LCD then DICT_LCD[c] as char else c
  }

  /** The string ruprint accumulates from one line, character by character. */
  function RemapLine(line: string): (r: string)
    ensures |r| == |line|
  {
    seq(|line|, i requires 0 <= i < |line| => RemapChar(line[i]))
  }

  /** Every key of the table is a Cyrillic letter (U+0401 to U+0451). */
  lemma UpperKeysCyrillic(c: char)
    requires c in DICT_LCD_UPPER
    ensures 0x401 <= c as int <= 0x42F && 65 <= DICT_LCD_UPPER[c] <= 226
  {
  }

  lemma LowerKeysCyrillic(c: char)
    requires c in DICT_LCD_LOWER
    ensures 0x430 <= c as int <= 0x451 && 97 <= DICT_LCD_LOWER[c] <= 230
  {
  }

  lemma TableKeysCyrillic(c: char)
    requires c in DICT_LCD
    ensures 0x401 <= c as int <= 0x451 && 65 <= DICT_LCD[c] <= 230
  {
    if c in DICT_LCD_LOWER {
      LowerKeysCyrillic(c);
    } else {
      UpperKeysCyrillic(c);
    }
  }

  /** A mapped character becomes its table code; every character below
      U+0401, ASCII and every table code included, passes through. */
  lemma RemapCharMeaning(c: char)
    ensures c in DICT_LCD ==> RemapChar(c) as int == DICT_LCD[c] && 65 <= DICT_LCD[c] <= 230
    ensures c !in DICT_LCD || c as int < 0x401 ==> RemapChar(c) == c
  {
    if c in DICT_LCD {
      TableKeysCyrillic(c);
    }
  }

  /** The table's codes are never keys of the table, so remapping a line
      twice is remapping it once. */
  lemma {:induction false} RemapIdempotent(line: string)
    ensures RemapLine(RemapLine(line)) == RemapLine(line)
  {
    var once := RemapLine(line);
    forall i | 0 <= i < |line| ensures RemapChar(once[i]) == once[i] {
      RemapCharMeaning(line[i]);
      assert once[i] as int < 0x401 || (once[i] == line[i] && line[i] !in DICT_LCD);
      RemapCharMeaning(once[i]);
    }
  }

  /** The small letter ya is sent as code 199 of the character ROM. */
  lemma RemapSmallYa()
    ensures RemapChar('я') as int == 199
  {
  }

  /** A Latin letter is sent as its own code point. */
  lemma RemapLatinZ()
    ensures RemapChar('Z') == 'Z'
  {
    RemapCharMeaning('Z');
  }
}
