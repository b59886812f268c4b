/** The letter dictionary of the Morse game: 36 entries, the letters A-Z
    followed by the digits 0-9, each paired with its international Morse
    code (ITU-R M.1677-1). The firmware keeps it in a global fixed-size
    array that `morse_init` fills once at start-up. */
module Morse {

  const TableSize: nat := 36

  /** One dictionary entry: the character and its code over '.' and '-'. */
  datatype Entry = Entry(letter: char, code: string)

  /** The value of an entry before `morse_init` has run (a zeroed C struct):
      letter NUL, and the NULL code pointer modelled as the empty string. */
  const Blank := Entry(0 as char, "")

  /** The dictionary exactly as `morse_init` leaves it, index by index. */
  function Itu(): (t: seq<Entry>)
    ensures |t| == TableSize
  {
    [ Entry('A', ".-"),    Entry('B', "-..."),  Entry('C', "-.-."),  Entry('D', "-.."),
      Entry('E', "."),     Entry('F', "..-."),  Entry('G', "--."),   Entry('H', "...."),
      Entry('I', ".."),    Entry('J', ".---"),  Entry('K', "-.-"),   Entry('L', ".-.."),
      Entry('M', "--"),    Entry('N', "-."),    Entry('O', "---"),   Entry('P', ".--."),
      Entry('Q', "--.-"),  Entry('R', ".-."),   Entry('S', "..."),   Entry('T', "-"),
      Entry('U', "..-"),   Entry('V', "...-"),  Entry('W', ".--"),   Entry('X', "-..-"),
      Entry('Y', "-.--"),  Entry('Z', "--.."),
      Entry('0', "-----"), Entry('1', ".----"), Entry('2', "..---"), Entry('3', "...--"),
      Entry('4', "....-"), Entry('5', "....."), Entry('6', "-...."), Entry('7', "--..."),
      Entry('8', "---.."), Entry('9', "----.") ]
  }

  /** The character the table holds at index `i`: 'A'.. for 0-25, '0'.. for 26-35. */
  function LetterAt(i: nat): char
    requires i < TableSize
  {
    if i < 26 then ('A' as int + i) as char else ('0' as int + (i - 26)) as char
  }

  /** A Morse code as the game uses it: one to five symbols, each a dot or a dash. */
  predicate IsCode(c: string)
  {
    0 < |c| <= 5 && forall k :: 0 <= k < |c| ==> c[k] == '.' || c[k] == '-'
  }

  /** Entry `i` of `t` holds LetterAt(i) and a well-formed code. */
  predicate Shaped(t: seq<Entry>)
  {
    |t| == TableSize && forall i :: 0 <= i < |t| ==> t[i].letter == LetterAt(i) && IsCode(t[i].code)
  }

  /** No two entries of `t` share a code. */
  predicate CodesDistinct(t: seq<Entry>)
  {
    forall i, j :: 0 <= i < j < |t| ==> t[i].code != t[j].code
  }

  /** 1 when symbol `k` of `c` is a dash, 0 otherwise. */
  function Dash(c: string, k: nat): nat
  {
    if k < |c| && c[k] == '-' then 1 else 0
  }

  /** A number for a code of at most five symbols: its length, then its dashes as bits. */
  function Key(c: string): nat
  {
    100 * |c| + Dash(c, 0) + 2 * Dash(c, 1) + 4 * Dash(c, 2) + 8 * Dash(c, 3) + 16 * Dash(c, 4)
  }

  /** The index of the entry whose code has key `k`, or -1 when there is none:
      the inverse of Key on the table's codes. */
  function IndexOfKey(k: nat): int
  {
    match k
    case 202 => 0
    case 401 => 1
    case 405 => 2
    case 301 => 3
    case 100 => 4
    case 404 => 5
    case 303 => 6
    case 400 => 7
    case 200 => 8
    case 414 => 9
    case 305 => 10
    case 402 => 11
    case 203 => 12
    case 201 => 13
    case 307 => 14
    case 406 => 15
    case 411 => 16
    case 302 => 17
    case 300 => 18
    case 101 => 19
    case 304 => 20
    case 408 => 21
    case 306 => 22
    case 409 => 23
    case 413 => 24
    case 403 => 25
    case 531 => 26
    case 530 => 27
    case 528 => 28
    case 524 => 29
    case 516 => 30
    case 500 => 31
    case 501 => 32
    case 503 => 33
    case 507 => 34
    case 515 => 35
    case _ => -1
  }

  /** Entry `i` of `t` holds LetterAt(i) and a well-formed code, and
      IndexOfKey takes that code's key back to `i`. */
  predicate EntryOk(t: seq<Entry>, i: nat)
    requires i < |t| && i < TableSize
  {
    var e := t[i];
    e.letter == LetterAt(i) && IsCode(e.code) && IndexOfKey(Key(e.code)) == i
  }

  // The entries are checked six at a time, which keeps each proof small.
  lemma EntriesOkFrom0()
    ensures forall i :: 0 <= i < 6 ==> EntryOk(Itu(), i)
  {
  }

  lemma EntriesOkFrom6()
    ensures forall i :: 6 <= i < 12 ==> EntryOk(Itu(), i)
  {
  }

  lemma EntriesOkFrom12()
    ensures forall i :: 12 <= i < 18 ==> EntryOk(Itu(), i)
  {
  }

  lemma EntriesOkFrom18()
    ensures forall i :: 18 <= i < 24 ==> EntryOk(Itu(), i)
  {
  }

  lemma EntriesOkFrom24()
    ensures forall i :: 24 <= i < 30 ==> EntryOk(Itu(), i)
  {
  }

  lemma EntriesOkFrom30()
    ensures forall i :: 30 <= i < 36 ==> EntryOk(Itu(), i)
  {
  }

  lemma AllEntriesOk()
    ensures forall i :: 0 <= i < TableSize ==> EntryOk(Itu(), i)
  {
    EntriesOkFrom0();
    EntriesOkFrom6();
    EntriesOkFrom12();
    EntriesOkFrom18();
    EntriesOkFrom24();
    EntriesOkFrom30();
  }

  /** A table whose every entry passes EntryOk is shaped and has distinct codes. */
  lemma CheckedTable(t: seq<Entry>)
    requires |t| == TableSize && forall i :: 0 <= i < TableSize ==> EntryOk(t, i)
    ensures Shaped(t) && CodesDistinct(t)
  {
    forall i | 0 <= i < |t| ensures t[i].letter == LetterAt(i) && IsCode(t[i].code) {
      assert EntryOk(t, i);
    }
    forall i, j | 0 <= i < j < |t| ensures t[i].code != t[j].code {
      assert EntryOk(t, i) && EntryOk(t, j);
    }
  }

  /** The table has 'A'-'Z' at indices 0-25 and '0'-'9' at 26-35, and every
      code is a non-empty dot/dash string of at most five symbols. */
  lemma TableShape()
    ensures Shaped(Itu())
  {
    AllEntriesOk();
    CheckedTable(Itu());
  }

  /** No two entries of the table share a code, so a code names at most one character. */
  lemma TableCodesDistinct()
    ensures CodesDistinct(Itu())
  {
    AllEntriesOk();
    CheckedTable(Itu());
  }

  /** The global `table`: a fixed array of TableSize entries. */
  class Table {
    const entries: array<Entry>

    ghost predicate Valid()
      reads this
    {
      entries.Length == TableSize
    }

    /** The zero-initialised global array. */
    constructor ()
      ensures Valid() && fresh(entries)
      ensures entries[..] == seq(TableSize, _ => Blank)
    {
      entries := new Entry[TableSize](_ => Blank);
    }

    /** `morse_init`: stores every entry's letter and code in place. */
    method Init()
      requires Valid()
      modifies entries
      ensures Valid() && entries[..] == Itu()
      ensures Shaped(entries[..]) && CodesDistinct(entries[..])
    {
      forall i | 0 <= i < TableSize {
        entries[i] := Itu()[i];
      }
      TableShape();
      TableCodesDistinct();
    }
  }
}
