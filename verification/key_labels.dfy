/**
 The display label of a Windows virtual-key code, as the keyboard sink prints
 it for every key press (`key_to_string` in src/main.rs).

 The labelling is a total function on 16-bit codes: the letter keys
 `0x41..=0x5A` and the digit keys `0x30..=0x39` become one upper-case letter or
 one digit, eight further keys have a spelled-out name, and every other code is
 reported as "Unknown". `NamedKeys` is an independent table of the eight named
 keys; `CodeOf` reads a label back to its code and is the inverse of
 `KeyToString` on the recognised codes.
 */
module KeyLabels {
  import opened Prelude

  /** Virtual-key codes of the letter keys, VK 'A' to VK 'Z'. */
  predicate IsLetterCode(k: u16) {
    0x41 <= k <= 0x5A
  }

  /** Virtual-key codes of the digit keys on the main keyboard, VK '0' to VK '9'. */
  predicate IsDigitCode(k: u16) {
    0x30 <= k <= 0x39
  }

  /** One row of the table of keys whose label is a word. */
  datatype NamedKey = NamedKey(code: u16, name: string)

  /** Return, Shift, Control, Menu (Alt), Capital, Back, Space and Escape. */
  const NamedKeys: seq<NamedKey> := [
    NamedKey(0x0D, "Enter"),
    NamedKey(0x10, "Shift"),
    NamedKey(0x11, "Ctrl"),
    NamedKey(0x12, "Alt"),
    NamedKey(0x14, "Caps lock"),
    NamedKey(0x08, "Backspace"),
    NamedKey(0x20, "Space"),
    NamedKey(0x1B, "Escape")
  ]

  /** The sentinel label of every code the program does not recognise. */
  const UnknownLabel: string := "Unknown"

  predicate IsNamedCode(k: u16) {
    exists i | 0 <= i < |NamedKeys| :: NamedKeys[i].code == k
  }

  /** The 44 codes that receive a label other than the sentinel. */
  predicate IsRecognised(k: u16) {
    IsLetterCode(k) || IsDigitCode(k) || IsNamedCode(k)
  }

  predicate DistinctCodes(table: seq<NamedKey>) {
    forall i, j | 0 <= i < j < |table| :: table[i].code != table[j].code
  }

  predicate DistinctLabels(table: seq<NamedKey>) {
    forall i, j | 0 <= i < j < |table| :: table[i].name != table[j].name
  }

  /** The label of the first row of `table` whose code is `k`, if any. */
  function FindLabel(table: seq<NamedKey>, k: u16): (r: Option<string>)
    ensures r.None? <==> forall i | 0 <= i < |table| :: table[i].code != k
    ensures r.Some? ==> exists i | 0 <= i < |table| :: table[i] == NamedKey(k, r.value)
  {
    if |table| == 0 then None
    else if table[0].code == k then Some(table[0].name)
    else
      var r := FindLabel(table[1..], k);
      assert r.Some? ==> exists i | 0 <= i < |table[1..]| :: table[1..][i] == NamedKey(k, r.value);
      r
  }

  /** The code of the first row of `table` whose label is `s`, if any. */
  function FindCode(table: seq<NamedKey>, s: string): (r: Option<u16>)
    ensures r.None? <==> forall i | 0 <= i < |table| :: table[i].name != s
    ensures r.Some? ==> exists i | 0 <= i < |table| :: table[i] == NamedKey(r.value, s)
  {
    if |table| == 0 then None
    else if table[0].name == s then Some(table[0].code)
    else
      var r := FindCode(table[1..], s);
      assert r.Some? ==> exists i | 0 <= i < |table[1..]| :: table[1..][i] == NamedKey(r.value, s);
      r
  }

  /**
   The byte computed by the letter arm: `key as u8 - 0x41 + b'A'`. Every step
   is u8 arithmetic, so the well-formedness of this body is the proof that the
   narrowing loses nothing and neither the subtraction nor the addition
   overflows for a letter code.
   */
  function LetterByte(k: u16): (b: u8)
    requires IsLetterCode(k)
    ensures 'A' as int <= b as int <= 'Z' as int
    ensures b as int - 'A' as int == k as int - 0x41
  {
    NarrowToU8(k) - 0x41 + 'A' as u8
  }

  /** The byte computed by the digit arm: `key as u8 - 0x30 + b'0'`, without overflow. */
  function DigitByte(k: u16): (b: u8)
    requires IsDigitCode(k)
    ensures '0' as int <= b as int <= '9' as int
    ensures b as int - '0' as int == k as int - 0x30
  {
    NarrowToU8(k) - 0x30 + '0' as u8
  }

  /** `key_to_string`: the label printed for virtual-key code `k`. */
  function KeyToString(k: u16): (r: string)
    ensures IsLetterCode(k) ==> r == [('A' as int + (k as int - 0x41)) as char]
    ensures IsDigitCode(k) ==> r == [('0' as int + (k as int - 0x30)) as char]
    ensures |r| > 0
  {
    if 0x41 <= k <= 0x5A then [LetterByte(k) as char]
    else if 0x30 <= k <= 0x39 then [DigitByte(k) as char]
    else if k == 0x0D then "Enter"
    else if k == 0x10 then "Shift"
    else if k == 0x11 then "Ctrl"
    else if k == 0x12 then "Alt"
    else if k == 0x14 then "Caps lock"
    else if k == 0x08 then "Backspace"
    else if k == 0x20 then "Space"
    else if k == 0x1B then "Escape"
    else UnknownLabel
  }

  /**
   Reads a printed label back to the virtual-key code it names: one upper-case
   letter, one digit, or the word of a named key. Anything else, the sentinel
   included, names no code.
   */
  function CodeOf(s: string): (r: Option<u16>)
    ensures r.Some? ==> IsRecognised(r.value)
  {
    if |s| == 1 && 'A' <= s[0] <= 'Z' then Some((s[0] as int - 'A' as int + 0x41) as u16)
    else if |s| == 1 && '0' <= s[0] <= '9' then Some((s[0] as int - '0' as int + 0x30) as u16)
    else
      var r := FindCode(NamedKeys, s);
      assert r.Some? ==> IsNamedCode(r.value);
      r
  }

  /**
   The codes of the named keys are distinct and none of them lies in the
   letter or digit range.
   */
  lemma NamedCodesWellFormed()
    ensures DistinctCodes(NamedKeys)
    ensures forall i | 0 <= i < |NamedKeys| ::
      !IsLetterCode(NamedKeys[i].code) && !IsDigitCode(NamedKeys[i].code)
  {
  }

  /**
   The names of the named keys are distinct, and every one is a word of more
   than one character other than the sentinel.
   */
  lemma NamedLabelsWellFormed()
    ensures DistinctLabels(NamedKeys)
    ensures forall i | 0 <= i < |NamedKeys| ::
      |NamedKeys[i].name| > 1 && NamedKeys[i].name != UnknownLabel
  {
  }

  /**
   Outside the letter and digit ranges, `KeyToString` agrees with the table of
   named keys, and falls back to the sentinel exactly where the table has no row.
   */
  lemma NamedArmsMatchTable(k: u16)
    requires !IsLetterCode(k) && !IsDigitCode(k)
    ensures KeyToString(k) == FindLabel(NamedKeys, k).GetOr(UnknownLabel)
  {
    var r := FindLabel(NamedKeys, k);
    if r.Some? {
      var i :| 0 <= i < |NamedKeys| && NamedKeys[i] == NamedKey(k, r.value);
      NamedKeyLabel(i);
    } else {
      assert k != 0x0D && k != 0x10 && k != 0x11 && k != 0x12;
      assert k != 0x14 && k != 0x08 && k != 0x20 && k != 0x1B;
    }
  }

  /** Every row of the table is what `KeyToString` prints for the row's code. */
  lemma NamedKeyLabel(i: int)
    requires 0 <= i < |NamedKeys|
    ensures KeyToString(NamedKeys[i].code) == NamedKeys[i].name
  {
  }

  /** The sentinel is printed for exactly the codes outside the 44 recognised ones. */
  lemma UnknownExactlyWhenUnrecognised(k: u16)
    ensures KeyToString(k) == UnknownLabel <==> !IsRecognised(k)
  {
    if !IsLetterCode(k) && !IsDigitCode(k) {
      NamedArmsMatchTable(k);
      NamedLabelsWellFormed();
    }
  }

  /** Letters and digits print as one character, every other code as a longer word. */
  lemma LabelLength(k: u16)
    ensures |KeyToString(k)| == 1 <==> IsLetterCode(k) || IsDigitCode(k)
  {
    if !IsLetterCode(k) && !IsDigitCode(k) {
      NamedArmsMatchTable(k);
      NamedLabelsWellFormed();
    }
  }

  /** Reading back the name of a table row gives the row's code. */
  lemma NamedKeyReadBack(i: int)
    requires 0 <= i < |NamedKeys|
    ensures CodeOf(NamedKeys[i].name) == Some(NamedKeys[i].code)
  {
    NamedLabelsWellFormed();
    var r := FindCode(NamedKeys, NamedKeys[i].name);
    var j :| 0 <= j < |NamedKeys| && NamedKeys[j] == NamedKey(r.value, NamedKeys[i].name);
    assert i == j;
  }

  /** Reading the label of a recognised code gives the code back; the sentinel gives nothing. */
  lemma LabelRoundTrip(k: u16)
    ensures IsRecognised(k) ==> CodeOf(KeyToString(k)) == Some(k)
    ensures !IsRecognised(k) ==> CodeOf(KeyToString(k)) == None
  {
    if IsLetterCode(k) || IsDigitCode(k) {
    } else if IsNamedCode(k) {
      var i :| 0 <= i < |NamedKeys| && NamedKeys[i].code == k;
      NamedKeyLabel(i);
      NamedKeyReadBack(i);
    } else {
      UnknownExactlyWhenUnrecognised(k);
      NamedLabelsWellFormed();
      assert FindCode(NamedKeys, UnknownLabel).None?;
    }
  }

  /** Every string that names a code is the label printed for that code. */
  lemma CodeRoundTrip(s: string)
    ensures CodeOf(s).Some? ==> KeyToString(CodeOf(s).value) == s
  {
    if |s| == 1 && 'A' <= s[0] <= 'Z' {
      var k := (s[0] as int - 'A' as int + 0x41) as u16;
      assert IsLetterCode(k) && CodeOf(s) == Some(k);
      assert KeyToString(k) == [s[0]] == s;
    } else if |s| == 1 && '0' <= s[0] <= '9' {
      var k := (s[0] as int - '0' as int + 0x30) as u16;
      assert IsDigitCode(k) && CodeOf(s) == Some(k);
      assert KeyToString(k) == [s[0]] == s;
    } else {
      var r := FindCode(NamedKeys, s);
      assert CodeOf(s) == r;
      if r.Some? {
        var i :| 0 <= i < |NamedKeys| && NamedKeys[i] == NamedKey(r.value, s);
        NamedKeyLabel(i);
      }
    }
  }

  /** Distinct recognised codes are printed with distinct labels. */
  lemma LabelsInjective(j: u16, k: u16)
    requires IsRecognised(j) && IsRecognised(k)
    requires KeyToString(j) == KeyToString(k)
    ensures j == k
  {
    LabelRoundTrip(j);
    LabelRoundTrip(k);
  }

  /** The codes `lo` up to but excluding `hi`. */
  ghost function CodesBetween(lo: int, hi: int): set<u16> {
    set k: u16 | Between(lo, k, hi)
  }

  predicate Between(lo: int, k: u16, hi: int) {
    lo <= k as int < hi
  }

  /** The codes `lo` up to but excluding `hi`, as a set whose size is known. */
  lemma CodeRangeSet(lo: int, hi: int) returns (s: set<u16>)
    requires 0 <= lo <= hi <= 0x1_0000
    ensures forall k :: k in s <==> Between(lo, k, hi)
    ensures |s| == hi - lo
  {
    s := CodesBetween(lo, hi);
    CodesBetweenSize(lo, hi);
  }

  lemma {:induction false} CodesBetweenSize(lo: int, hi: int)
    requires 0 <= lo <= hi <= 0x1_0000
    ensures |CodesBetween(lo, hi)| == hi - lo
    decreases hi - lo
  {
    if lo < hi {
      assert CodesBetween(lo, hi) == {lo as u16} + CodesBetween(lo + 1, hi);
      CodesBetweenSize(lo + 1, hi);
    }
  }

  /** The codes of the rows of `table`. */
  ghost function CodesOf(table: seq<NamedKey>): set<u16> {
    set i | 0 <= i < |table| :: table[i].code
  }

  /** A table with distinct codes has as many codes as rows. */
  lemma {:induction false} CodesOfSize(table: seq<NamedKey>)
    requires DistinctCodes(table)
    ensures |CodesOf(table)| == |table|
  {
    if |table| > 0 {
      var rest := table[1..];
      assert CodesOf(table) == {table[0].code} + CodesOf(rest) by {
        forall k ensures k in CodesOf(table) <==> k in {table[0].code} + CodesOf(rest) {
          if k in CodesOf(table) {
            var i :| 0 <= i < |table| && table[i].code == k;
            if i > 0 { assert rest[i - 1].code == k; }
          }
          if k in CodesOf(rest) {
            var i :| 0 <= i < |rest| && rest[i].code == k;
            assert table[i + 1].code == k;
          }
        }
      }
      assert table[0].code !in CodesOf(rest);
      CodesOfSize(rest);
    }
  }

  ghost function RecognisedCodes(): set<u16> {
    set k: u16 | IsRecognised(k)
  }

  /** There are 44 recognised codes: 26 letters, 10 digits and the 8 named keys. */
  lemma RecognisedCount()
    ensures |RecognisedCodes()| == 44
  {
    var letters := CodeRangeSet(0x41, 0x5B);
    var digits := CodeRangeSet(0x30, 0x3A);
    var named := NamedCodeSet();
    DisjointUnionSize(letters, digits);
    DisjointUnionSize(letters + digits, named);
    forall k
      ensures k in RecognisedCodes() <==> k in letters + digits + named
    {
      assert k in letters <==> IsLetterCode(k);
      assert k in digits <==> IsDigitCode(k);
    }
    assert RecognisedCodes() == letters + digits + named;
  }

  /** The codes of the named keys, none of them a letter or digit code. */
  lemma NamedCodeSet() returns (named: set<u16>)
    ensures forall k :: k in named <==> IsNamedCode(k)
    ensures forall k | k in named :: !IsLetterCode(k) && !IsDigitCode(k)
    ensures |named| == 8
  {
    named := CodesOf(NamedKeys);
    NamedCodesSize(named);
    NamedCodesOutsideRanges(named);
  }

  lemma NamedCodesSize(named: set<u16>)
    requires named == CodesOf(NamedKeys)
    ensures |named| == 8
  {
    NamedCodesWellFormed();
    CodesOfSize(NamedKeys);
  }

  lemma NamedCodesOutsideRanges(named: set<u16>)
    requires forall k :: k in named <==> IsNamedCode(k)
    ensures forall k | k in named :: !IsLetterCode(k) && !IsDigitCode(k)
  {
    NamedCodesWellFormed();
    forall k | k in named
      ensures !IsLetterCode(k) && !IsDigitCode(k)
    {
      var i :| 0 <= i < |NamedKeys| && NamedKeys[i].code == k;
    }
  }

  lemma DisjointUnionSize(a: set<u16>, b: set<u16>)
    requires a !! b
    ensures |a + b| == |a| + |b|
  {
    assert a * b == {};
  }
}
