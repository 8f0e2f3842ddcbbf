/*
 * The early SoC identification of the generic MIPS board code
 * (board-realtek.c): read the model word of the matched SoC family
 * through the switch bus, store its family and id in soc_info, and
 * format "RTL%04x%s rev. %c%s" into the 32-byte model_name buffer that
 * soc_info.name points to.  C characters are bytes: character values
 * wrap modulo 256.
 */
module Board {
  import opened Tables
  import opened ChipId

  /** REALTEK_SOC_NAME_MAX_LEN, the size of model_name. */
  const NAME_MAX_LEN: nat := 32

  // Offsets from the switch-bus base.
  const RTL8380_MODEL_NAME_INFO_REG: int := 0x00D4
  const RTL8380_MODEL_EXT_VERSION_REG: int := 0x00D0
  const RTL8390_MODEL_NAME_INFO_REG: int := 0x0FF0
  const RTL9300_MODEL_NAME_INFO_REG: int := 0x4

  /** The initial contents of model_name: "Unknown Realtek", the rest of the buffer NUL. */
  const DEFAULT_NAME: string := "Unknown Realtek"
  function DefaultBuffer(): (b: seq<char>)
    ensures |b| == NAME_MAX_LEN
  {
    DEFAULT_NAME + seq(NAME_MAX_LEN - |DEFAULT_NAME|, _ => '\0')
  }

  /** Before any model word is read, the name reads "Unknown Realtek". */
  lemma DefaultNameReads()
    ensures CStr(DefaultBuffer()) == DEFAULT_NAME
  {
    var b := DefaultBuffer();
    assert b == DEFAULT_NAME + ['\0'] + b[|DEFAULT_NAME| + 1..];
    CStrTerminated(DEFAULT_NAME, b[|DEFAULT_NAME| + 1..]);
    CStrWhole(DEFAULT_NAME);
  }

  /** realtek_soc_family of this file: bits 20 to 31 of the model word, in place. */
  function Family(model: bv32): bv32
  {
    (model >> 16) & 0xfff0
  }

  /** It is the family of the chip-id drivers. */
  lemma FamilyAgrees(model: bv32)
    ensures Family(model) == SocFamily(model)
  {
  }

  /** realtek_int_to_char: 'A' + letter - 1 with no range check, truncated to a byte. */
  function IntToChar(letter: bv32): char
  {
    ((0x40 + letter as int) % 256) as char
  }

  /**
   * Codes 1 to 26 give the same capital letters as realtek_5b_char; a
   * code outside that range gives whatever byte the sum lands on: code 0
   * gives '@', code 27 '[', and code 0xc0 wraps round to NUL.
   */
  lemma IntToCharUnchecked(letter: bv32)
    ensures 1 <= letter <= 26 ==> IntToChar(letter) == LetterChar(letter)
    ensures IntToChar(0) == '@' && IntToChar(27) == '[' && IntToChar(0xc0) == '\0'
  {
  }

  /**
   * model_letters after the letter loop ran for the first n indices:
   * a slot whose code is non-zero holds its character, every other slot
   * the stale byte it held on the stack.
   */
  function BoardLetters(stack: seq<char>, model: bv32, n: nat): (s: seq<char>)
    requires |stack| == 4 && n <= 3
    ensures |s| == 4
  {
    seq(4, j requires 0 <= j < 4 =>
      if j < n && LetterCode(model, j) != 0 then IntToChar(LetterCode(model, j)) else stack[j])
  }

  /** The letter loop of realtek_read_soc_info over the uninitialised model_letters. */
  method FillBoardLetters(model: bv32, maxLetters: nat, stack: seq<char>) returns (letters: array<char>)
    requires |stack| == 4 && maxLetters <= 3
    ensures fresh(letters)
    ensures letters[..] == BoardLetters(stack, model, maxLetters)
  {
    letters := new char[4](j requires 0 <= j < 4 => stack[j]);
    var i := 0;
    while i < maxLetters
      invariant 0 <= i <= maxLetters
      invariant letters[..] == BoardLetters(stack, model, i)
    {
      var letter := LetterCode(model, i);
      if letter != 0 {
        letters[i] := IntToChar(letter);
      }
      i := i + 1;
    }
  }

  /**
   * A slot below max_letters is written exactly when its code is
   * non-zero; every other slot, the terminator's included, keeps the
   * stale stack byte.
   */
  lemma LettersWrittenWhenNonZero(stack: seq<char>, model: bv32, maxLetters: nat, j: nat)
    requires |stack| == 4 && maxLetters <= 3 && j < 4
    ensures j < maxLetters && LetterCode(model, j) != 0 ==> BoardLetters(stack, model, maxLetters)[j] == IntToChar(LetterCode(model, j))
    ensures !(j < maxLetters && LetterCode(model, j) != 0) ==> BoardLetters(stack, model, maxLetters)[j] == stack[j]
  {
  }

  /**
   * When every code is a letter and the stack byte after the last letter
   * happens to be NUL, the letters shown are those of the chip-id drivers.
   */
  lemma LettersAgreeWithChipId(stack: seq<char>, model: bv32, maxLetters: nat)
    requires |stack| == 4 && maxLetters <= 3 && stack[maxLetters] == '\0'
    requires forall i :: 0 <= i < maxLetters ==> 1 <= LetterCode(model, i) <= 26
    ensures CStr(BoardLetters(stack, model, maxLetters)) == Letters(model, maxLetters)
  {
    var b := BoardLetters(stack, model, maxLetters);
    var l := Letters(model, maxLetters);
    forall i | 0 <= i < maxLetters
      ensures b[i] == l[i]
    {
      IntToCharUnchecked(LetterCode(model, i));
    }
    assert b == l + ['\0'] + b[maxLetters + 1..];
    CStrTerminated(l, b[maxLetters + 1..]);
    LettersShown(model, maxLetters);
  }

  /** The revision character: '0', or realtek_int_to_char of a non-zero revision. */
  function BoardRevision(chipRev: bv32): char
  {
    if chipRev != 0 then IntToChar(chipRev) else '0'
  }

  /**
   * The branch of the family switch for a compatible, reading the model
   * registers at the switch-bus base; the RTL8380 branch leaves the
   * engineering-sample flag uninitialised, given here as es8380.
   */
  function BoardDecode(compat: bv32, regs: map<int, bv32>, base: int, es8380: bool): Option<ModelInfo>
  {
    if compat == COMPATIBLE_8380 then
      Some(ModelInfo(Get(regs, base + RTL8380_MODEL_NAME_INFO_REG), Get(regs, base + RTL8380_MODEL_EXT_VERSION_REG), es8380, 3))
    else if compat == COMPATIBLE_8390 then Some(Decode8390(Get(regs, base + RTL8390_MODEL_NAME_INFO_REG)))
    else if compat == COMPATIBLE_9300 || compat == COMPATIBLE_9310 then Some(Decode9300(Get(regs, base + RTL9300_MODEL_NAME_INFO_REG)))
    else None
  }

  /** What "RTL%04x%s rev. %c%s" produces, before snprintf bounds it; %c copies even a NUL byte. */
  function Formatted(info: ModelInfo, stack: seq<char>): string
    requires |stack| == 4 && info.maxLetters <= 3
  {
    "RTL" + Hex4(SocId(info.model)) + CStr(BoardLetters(stack, info.model, info.maxLetters)) +
    " rev. " + [BoardRevision(info.chipRev)] + (if info.es then "-ES" else "")
  }

  /** snprintf(buf, size, "%s", out): at most size - 1 characters, then a NUL; the rest of buf kept. */
  function SnprintfBuf(buf: seq<char>, size: nat, out: string): (r: seq<char>)
    requires 1 <= size <= |buf|
    ensures |r| == |buf|
  {
    var n := if |out| < size - 1 then |out| else size - 1;
    out[..n] + ['\0'] + buf[n + 1..]
  }

  /** The string left in the buffer is the output cut at size - 1 characters, and never longer. */
  lemma SnprintfReads(buf: seq<char>, size: nat, out: string)
    requires 1 <= size <= |buf|
    ensures var n := if |out| < size - 1 then |out| else size - 1;
      CStr(SnprintfBuf(buf, size, out)) == CStr(out[..n])
    ensures |CStr(SnprintfBuf(buf, size, out))| <= size - 1
  {
    var n := if |out| < size - 1 then |out| else size - 1;
    CStrTerminated(out[..n], buf[n + 1..]);
  }

  /** snprintf into model_name. */
  method Snprintf(buf: array<char>, size: nat, out: string)
    requires 1 <= size <= buf.Length
    modifies buf
    ensures buf[..] == SnprintfBuf(old(buf[..]), size, out)
  {
    var n := if |out| < size - 1 then |out| else size - 1;
    forall k | 0 <= k < n {
      buf[k] := out[k];
    }
    buf[n] := '\0';
  }

  /** The family switch of realtek_read_soc_info: the registers each family's branch reads. */
  method DecodeModel(compat: bv32, regs: map<int, bv32>, base: int, es8380: bool) returns (d: Option<ModelInfo>)
    ensures d == BoardDecode(compat, regs, base, es8380)
  {
    if compat == COMPATIBLE_8380 {
      var model := Get(regs, base + RTL8380_MODEL_NAME_INFO_REG);
      var chipRev := Get(regs, base + RTL8380_MODEL_EXT_VERSION_REG);
      d := Some(ModelInfo(model, chipRev, es8380, 3));
    } else if compat == COMPATIBLE_8390 {
      var model := Get(regs, base + RTL8390_MODEL_NAME_INFO_REG);
      var chipRev := (model >> 1) & 0x1f;
      d := Some(ModelInfo(model, chipRev, chipRev != 0, 2));
    } else if compat == COMPATIBLE_9300 || compat == COMPATIBLE_9310 {
      var model := Get(regs, base + RTL9300_MODEL_NAME_INFO_REG);
      d := Some(ModelInfo(model, model & 0xf, (model >> 4) & 0x1 == 1, 2));
    } else {
      d := None;
    }
  }

  /** The letter loop, the revision character and the format string of realtek_read_soc_info. */
  method FormatName(info: ModelInfo, stack: seq<char>) returns (out: string)
    requires |stack| == 4 && info.maxLetters <= 3
    ensures out == Formatted(info, stack)
  {
    var letters := FillBoardLetters(info.model, info.maxLetters, stack);
    var revision := '0';
    if info.chipRev != 0 {
      revision := IntToChar(info.chipRev);
    }
    var id := SocId(info.model);
    out := "RTL" + Hex4(id) + CStr(letters[..]) + " rev. " + [revision] + (if info.es then "-ES" else "");
  }

  /** The global soc_info of the board code, with the model_name buffer its name points to. */
  class SocInfo {
    var family: bv32
    var id: bv32
    const modelName: array<char>

    predicate Valid()
      reads this
    {
      modelName.Length == NAME_MAX_LEN
    }

    /** The static initial state: family and id zero, model_name "Unknown Realtek". */
    constructor ()
      ensures Valid() && fresh(modelName)
      ensures family == 0 && id == 0 && modelName[..] == DefaultBuffer()
    {
      family := 0;
      id := 0;
      modelName := new char[NAME_MAX_LEN](j requires 0 <= j < NAME_MAX_LEN => DefaultBuffer()[j]);
    }

    /** soc_info.name, as a C string reader sees it. */
    function Name(): string
      reads this, modelName
    {
      CStr(modelName[..])
    }

    /**
     * realtek_read_soc_info: with the switch-bus base found (ranges),
     * decode the model word of the compatible; on a known family that the
     * model word confirms, store family and id and format the name.
     */
    method ReadSocInfo(ranges: Option<int>, compat: bv32, regs: map<int, bv32>, es8380: bool, stack: seq<char>)
      requires Valid() && |stack| == 4
      modifies this, modelName
      ensures Valid()
      ensures var d := if ranges.Some? then BoardDecode(compat, regs, ranges.value, es8380) else None;
        if d.None? || Family(d.value.model) != compat then
          family == old(family) && id == old(id) && modelName[..] == old(modelName[..])
        else
          family == Family(d.value.model) && id == SocId(d.value.model) &&
          modelName[..] == SnprintfBuf(old(modelName[..]), NAME_MAX_LEN - 1, Formatted(d.value, stack))
    {
      if ranges.None? {
        return;
      }
      var d := DecodeModel(compat, regs, ranges.value, es8380);
      if d.None? {
        return;
      }
      var info := d.value;
      if compat != Family(info.model) {
        return;
      }
      family := Family(info.model);
      id := info.model >> 16;
      var out := FormatName(info, stack);
      Snprintf(modelName, NAME_MAX_LEN - 1, out);
    }

    /** realtek_init: point the name at model_name, and read the SoC when both the match and the switch bus are found. */
    method Init(matched: Option<bv32>, busFound: bool, ranges: Option<int>, regs: map<int, bv32>, es8380: bool, stack: seq<char>)
      returns (r: bool)
      requires Valid() && |stack| == 4
      modifies this, modelName
      ensures Valid() && r
      ensures !(matched.Some? && busFound) ==> family == old(family) && id == old(id) && modelName[..] == old(modelName[..])
      ensures matched.Some? && busFound ==>
        var d := if ranges.Some? then BoardDecode(matched.value, regs, ranges.value, es8380) else None;
        if d.None? || Family(d.value.model) != matched.value then
          family == old(family) && id == old(id) && modelName[..] == old(modelName[..])
        else
          family == Family(d.value.model) && id == SocId(d.value.model) &&
          modelName[..] == SnprintfBuf(old(modelName[..]), NAME_MAX_LEN - 1, Formatted(d.value, stack))
    {
      if matched.Some? && busFound {
        ReadSocInfo(ranges, matched.value, regs, es8380, stack);
      }
      return true;
    }
  }

  /** The name never exceeds 30 characters: snprintf is given one byte less than the buffer holds. */
  lemma NameBounded(buf: seq<char>, info: ModelInfo, stack: seq<char>)
    requires |buf| == NAME_MAX_LEN && |stack| == 4 && info.maxLetters <= 3
    ensures |CStr(SnprintfBuf(buf, NAME_MAX_LEN - 1, Formatted(info, stack)))| <= NAME_MAX_LEN - 2
  {
    SnprintfReads(buf, NAME_MAX_LEN - 1, Formatted(info, stack));
  }

  /** A revision from 0 to 26 is printed as the chip-id drivers print it, without a NUL. */
  lemma RevisionAgrees(chipRev: bv32, es: bool)
    requires chipRev <= 26
    ensures [BoardRevision(chipRev)] + (if es then "-ES" else "") == RevisionString(chipRev, es)
    ensures '\0' !in RevisionString(chipRev, es) && |RevisionString(chipRev, es)| <= 4
  {
    RevisionForms(chipRev, es);
    IntToCharUnchecked(chipRev);
    LetterCharRange(chipRev);
  }

  /**
   * For a model word whose codes are all letters, with a revision from 0
   * to 26 and a NUL on the stack after the letters, the formatted text is
   * the soc_id string of the chip-id drivers, " rev. ", and their
   * revision string, at most 20 characters and without a NUL.
   */
  lemma FormattedAgreesWithChipId(info: ModelInfo, stack: seq<char>)
    requires |stack| == 4 && info.maxLetters <= 3 && stack[info.maxLetters] == '\0'
    requires forall i :: 0 <= i < info.maxLetters ==> 1 <= LetterCode(info.model, i) <= 26
    requires info.chipRev <= 26
    ensures Formatted(info, stack) == Attributes(info).socId + " rev. " + Attributes(info).revision
    ensures |Formatted(info, stack)| <= 20 && '\0' !in Formatted(info, stack)
  {
    SocIdAgrees(info, stack);
    RevisionAgrees(info.chipRev, info.es);
  }

  /** The part before " rev. " is the soc_id string, at most ten characters without a NUL. */
  lemma SocIdAgrees(info: ModelInfo, stack: seq<char>)
    requires |stack| == 4 && info.maxLetters <= 3 && stack[info.maxLetters] == '\0'
    requires forall i :: 0 <= i < info.maxLetters ==> 1 <= LetterCode(info.model, i) <= 26
    ensures var s := "RTL" + Hex4(SocId(info.model)) + CStr(BoardLetters(stack, info.model, info.maxLetters));
      s == Attributes(info).socId && |s| <= 10 && '\0' !in s
  {
    var h := Hex4(SocId(info.model));
    var l := CStr(BoardLetters(stack, info.model, info.maxLetters));
    LettersAgreeWithChipId(stack, info.model, info.maxLetters);
    LettersShown(info.model, info.maxLetters);
    assert l == Letters(info.model, info.maxLetters) == CStr(Letters(info.model, info.maxLetters));
    Hex4NoNul(SocId(info.model));
    assert |"RTL" + h + l| <= 10;
    NoNulJoin("RTL", h);
    NoNulJoin("RTL" + h, l);
  }

  /** A concatenation of two NUL-free strings has no NUL. */
  lemma NoNulJoin(a: string, b: string)
    requires '\0' !in a && '\0' !in b
    ensures '\0' !in a + b
  {
  }

  /** So the name board-realtek.c registers is then that text, uncut. */
  lemma NameAgreesWithChipId(buf: seq<char>, info: ModelInfo, stack: seq<char>)
    requires |buf| == NAME_MAX_LEN && |stack| == 4 && info.maxLetters <= 3 && stack[info.maxLetters] == '\0'
    requires forall i :: 0 <= i < info.maxLetters ==> 1 <= LetterCode(info.model, i) <= 26
    requires info.chipRev <= 26
    ensures CStr(SnprintfBuf(buf, NAME_MAX_LEN - 1, Formatted(info, stack))) ==
      Attributes(info).socId + " rev. " + Attributes(info).revision
  {
    var out := Formatted(info, stack);
    FormattedAgreesWithChipId(info, stack);
    SnprintfReads(buf, NAME_MAX_LEN - 1, out);
    assert out[..|out|] == out;
    CStrWhole(out);
  }
}
