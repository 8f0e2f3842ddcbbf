/*
 * The SoC identification of realtek-chipid.c: the model word's chip id
 * and family, its three 5-bit model letters, the revision and
 * engineering-sample decoding of each family, and the strings probe
 * registers ("RTL8380", "RTL8382M", "A-ES", ...).  The helpers are also
 * those of realtek-rtl-chipid.c, which repeats them word for word.
 */
module ChipId {
  import opened Tables

  datatype Option<T> = None | Some(value: T)

  // The family each compatible string announces.
  const COMPATIBLE_8380: bv32 := 0x8380
  const COMPATIBLE_8390: bv32 := 0x8390
  const COMPATIBLE_9300: bv32 := 0x9300
  const COMPATIBLE_9310: bv32 := 0x9310

  // Register offsets.
  const RTL8380_MODEL_EXT_VERSION: int := 0x00
  const RTL8380_MODEL_NAME: int := 0x04
  const RTL8390_MODEL_NAME: int := 0x00
  const RTL9300_MODEL_NAME: int := 0x00

  const ENOMEM: int := 12
  const ENODEV: int := 19
  const EINVAL: int := 22

  // ---------------------------------------------------------------------
  // The model word

  /** realtek_soc_id: the top half of the model word. */
  function SocId(model: bv32): (id: bv32)
    ensures id < 0x10000
  {
    model >> 16
  }

  /** realtek_soc_family: the chip id with its last hex digit cleared. */
  function SocFamily(model: bv32): bv32
  {
    SocId(model) & 0xfff0
  }

  /** The family is the id rounded down to a multiple of 16. */
  lemma FamilyOfId(model: bv32)
    ensures SocFamily(model) & 0xf == 0
    ensures SocFamily(model) <= SocId(model) < SocFamily(model) + 16
  {
  }

  /** The right shift realtek_soc_5b_char uses for letter index: 16 - 5 * (index + 1). */
  function CodeShift(index: nat): (s: bv32)
    requires index < 3
  {
    if index == 0 then 11 else if index == 1 then 6 else 1
  }

  lemma CodeShiftFormula(index: nat)
    requires index < 3
    ensures CodeShift(index) as int == 16 - 5 * (index + 1)
  {
  }

  /** realtek_soc_5b_char: the 5-bit code of model letter index. */
  function LetterCode(model: bv32, index: nat): (c: bv32)
    requires index < 3
    ensures c < 32
  {
    (model >> CodeShift(index)) & 0x1f
  }

  /** The three codes and bit 0 are the whole lower half of the model word, without overlap. */
  lemma CodesFillLowHalf(model: bv32)
    ensures (LetterCode(model, 0) << 11) | (LetterCode(model, 1) << 6) | (LetterCode(model, 2) << 1) | (model & 1) ==
      model & 0xffff
  {
  }

  /** realtek_5b_char: codes 1 to 26 are the letters A to Z, every other code NUL. */
  function LetterChar(letter: bv32): char
  {
    if letter != 0 && letter <= 26 then (('A' as int) + (letter as int) - 1) as char else '\0'
  }

  /** A code gives NUL exactly when it is 0 or above 26, and otherwise a capital letter. */
  lemma LetterCharRange(letter: bv32)
    ensures LetterChar(letter) == '\0' <==> letter == 0 || letter > 26
    ensures LetterChar(letter) != '\0' ==> 'A' <= LetterChar(letter) <= 'Z'
  {
  }

  /** The code of a capital letter. */
  function CodeOf(c: char): bv32
    requires 'A' <= c <= 'Z'
  {
    ((c as int) - ('A' as int) + 1) as bv32
  }

  /** Every capital letter has a code, and decoding it gives the letter back. */
  lemma LetterRoundTrip(c: char)
    requires 'A' <= c <= 'Z'
    ensures 1 <= CodeOf(c) <= 26 && LetterChar(CodeOf(c)) == c
  {
    var k := (c as int) - ('A' as int) + 1;
    assert (k as bv8) as bv32 == CodeOf(c);
  }

  /** Two codes that give the same letter are the same code. */
  lemma LetterCharInjective(a: bv32, b: bv32)
    requires 1 <= a <= 26 && 1 <= b <= 26 && LetterChar(a) == LetterChar(b)
    ensures a == b
  {
  }

  // ---------------------------------------------------------------------
  // C strings and "%04x"

  /** What a C string reader sees of a character buffer: everything before the first NUL. */
  function CStr(s: seq<char>): (r: seq<char>)
    ensures |r| <= |s| && r == s[..|r|] && '\0' !in r
    ensures |r| == |s| || s[|r|] == '\0'
  {
    if s == [] || s[0] == '\0' then [] else [s[0]] + CStr(s[1..])
  }

  /** A NUL written after s ends the string there, whatever follows. */
  lemma {:induction false} CStrTerminated(s: seq<char>, rest: seq<char>)
    ensures CStr(s + ['\0'] + rest) == CStr(s)
  {
    if s != [] && s[0] != '\0' {
      assert (s + ['\0'] + rest)[1..] == s[1..] + ['\0'] + rest;
      CStrTerminated(s[1..], rest);
    }
  }

  /** A buffer without a NUL is read whole. */
  lemma {:induction false} CStrWhole(s: seq<char>)
    ensures CStr(s) == s <==> '\0' !in s
  {
    if s != [] && s[0] != '\0' {
      CStrWhole(s[1..]);
      assert s == [s[0]] + s[1..];
    }
  }

  /** "%x" of one hex digit: lower-case letters for 10 to 15. */
  function HexDigit(d: bv32): char
    requires d < 16
  {
    if d < 10 then (('0' as int) + (d as int)) as char else (('a' as int) + (d as int) - 10) as char
  }

  /** The value of a lower-case hex digit. */
  function DigitValue(c: char): bv32
  {
    if '0' <= c <= '9' then ((c as int) - ('0' as int)) as bv32
    else if 'a' <= c <= 'f' then ((c as int) - ('a' as int) + 10) as bv32
    else 0
  }

  lemma DigitRoundTrip(d: bv32)
    requires d < 16
    ensures DigitValue(HexDigit(d)) == d
  {
  }

  /** "%04x" of a value below 0x10000: four digits, most significant first. */
  function Hex4(v: bv32): (s: string)
    requires v < 0x10000
    ensures |s| == 4
  {
    [HexDigit((v >> 12) & 0xf), HexDigit((v >> 8) & 0xf), HexDigit((v >> 4) & 0xf), HexDigit(v & 0xf)]
  }

  /** Reading four hex digits back. */
  function ParseHex4(s: string): bv32
    requires |s| == 4
  {
    (DigitValue(s[0]) << 12) | (DigitValue(s[1]) << 8) | (DigitValue(s[2]) << 4) | DigitValue(s[3])
  }

  lemma NibblesReassemble(v: bv32)
    requires v < 0x10000
    ensures (((v >> 12) & 0xf) << 12) | (((v >> 8) & 0xf) << 8) | (((v >> 4) & 0xf) << 4) | (v & 0xf) == v
  {
  }

  /** "%04x" loses nothing: the four digits read back as the value. */
  lemma Hex4RoundTrip(v: bv32)
    requires v < 0x10000
    ensures ParseHex4(Hex4(v)) == v
  {
    DigitRoundTrip((v >> 12) & 0xf);
    DigitRoundTrip((v >> 8) & 0xf);
    DigitRoundTrip((v >> 4) & 0xf);
    DigitRoundTrip(v & 0xf);
    NibblesReassemble(v);
  }

  /** A NUL-free string: "%04x" never ends a string early. */
  lemma Hex4NoNul(v: bv32)
    requires v < 0x10000
    ensures '\0' !in Hex4(v)
  {
  }

  // ---------------------------------------------------------------------
  // Letters, revision, strings

  /** The first max model letters, in order. */
  function Letters(model: bv32, max: nat): (s: seq<char>)
    requires max <= 3
    ensures |s| == max
    ensures forall i :: 0 <= i < max ==> s[i] == LetterChar(LetterCode(model, i))
  {
    seq(max, i requires 0 <= i < max => LetterChar(LetterCode(model, i)))
  }

  /**
   * The letter loop of probe: model_letters[i] for i below max_letters,
   * then the terminating NUL at max_letters.
   */
  method FillLetters(model: bv32, maxLetters: nat) returns (letters: array<char>)
    requires maxLetters <= 3
    ensures fresh(letters) && letters.Length == 4
    ensures letters[..maxLetters + 1] == Letters(model, maxLetters) + ['\0']
  {
    letters := new char[4](_ => '\0');
    var letter := 0;
    while letter < maxLetters
      invariant 0 <= letter <= maxLetters
      invariant letters[..letter] == Letters(model, letter)
    {
      letters[letter] := LetterChar(LetterCode(model, letter));
      letter := letter + 1;
    }
    letters[letter] := '\0';
  }

  /** The letters the soc_id string shows: all of them exactly when every code is a letter. */
  lemma LettersShown(model: bv32, max: nat)
    requires max <= 3
    ensures CStr(Letters(model, max)) == Letters(model, max) <==>
      forall i :: 0 <= i < max ==> 1 <= LetterCode(model, i) <= 26
  {
    CStrWhole(Letters(model, max));
    forall i | 0 <= i < max {
      LetterCharRange(LetterCode(model, i));
    }
    if '\0' in Letters(model, max) {
      var i :| 0 <= i < max && Letters(model, max)[i] == '\0';
      LetterCharRange(LetterCode(model, i));
    }
  }

  /** The revision character: '0' for revision 0, else the revision's letter. */
  function RevisionChar(chipRev: bv32): char
  {
    if chipRev != 0 then LetterChar(chipRev) else '0'
  }

  /** The revision string "%c%s": the character, then "-ES" for an engineering sample. */
  function RevisionString(chipRev: bv32, es: bool): string
  {
    CStr([RevisionChar(chipRev)] + (if es then "-ES" else ""))
  }

  /**
   * Revision 0 reads "0", revisions 1 to 26 their letter, both followed by
   * "-ES" exactly for engineering samples; a revision above 26 prints a NUL
   * character and so leaves the string empty.
   */
  lemma RevisionForms(chipRev: bv32, es: bool)
    ensures chipRev == 0 ==> RevisionString(chipRev, es) == ['0'] + (if es then "-ES" else "")
    ensures 1 <= chipRev <= 26 ==> RevisionString(chipRev, es) == [LetterChar(chipRev)] + (if es then "-ES" else "")
    ensures chipRev > 26 ==> RevisionString(chipRev, es) == []
  {
    LetterCharRange(chipRev);
    CStrWhole([RevisionChar(chipRev)] + (if es then "-ES" else ""));
  }

  /** What a family's branch of probe takes from the registers. */
  datatype ModelInfo = ModelInfo(model: bv32, chipRev: bv32, es: bool, maxLetters: nat)

  /** RTL8390: the revision is bits 1 to 5 of the model word, and any non-zero revision is an engineering sample. */
  function Decode8390(model: bv32): ModelInfo
  {
    var chipRev := (model >> 1) & 0x1f;
    ModelInfo(model, chipRev, chipRev != 0, 2)
  }

  /** RTL9300 and RTL9310: the revision is the low nibble, the engineering-sample flag bit 4. */
  function Decode9300(model: bv32): ModelInfo
  {
    ModelInfo(model, model & 0xf, (model >> 4) & 0x1 == 1, 2)
  }

  /** On the RTL8390 the revision field is the third letter code, which only the RTL8380 shows. */
  lemma Rev8390IsThirdCode(model: bv32)
    ensures Decode8390(model).chipRev == LetterCode(model, 2)
    ensures Decode8390(model).es <==> LetterCode(model, 2) != 0
  {
  }

  /** An RTL9300 revision is always shown: '0' or one of the letters A to O. */
  lemma Rev9300Shown(model: bv32, es: bool)
    ensures Decode9300(model).chipRev < 16
    ensures |RevisionString(Decode9300(model).chipRev, es)| >= 1
  {
    RevisionForms(model & 0xf, es);
  }

  /**
   * The branch of the family switch for a matched family, reading the
   * model registers at base; the RTL8380 branch leaves the
   * engineering-sample flag as whatever the stack held, given here as es8380.
   */
  function DecodeFamily(family: bv32, regs: map<int, bv32>, base: int, es8380: bool): Option<ModelInfo>
  {
    if family == COMPATIBLE_8380 then
      Some(ModelInfo(Get(regs, base + RTL8380_MODEL_NAME), Get(regs, base + RTL8380_MODEL_EXT_VERSION), es8380, 3))
    else if family == COMPATIBLE_8390 then Some(Decode8390(Get(regs, base + RTL8390_MODEL_NAME)))
    else if family == COMPATIBLE_9300 || family == COMPATIBLE_9310 then Some(Decode9300(Get(regs, base + RTL9300_MODEL_NAME)))
    else None
  }

  /** The strings probe hands to soc_device_register. */
  datatype SocAttr = SocAttr(family: string, revision: string, socId: string)

  /** The three strings built from a decoded model: "RTL%04x", "%c%s" and "RTL%04x%s". */
  function Attributes(info: ModelInfo): SocAttr
    requires info.maxLetters <= 3
  {
    SocAttr("RTL" + Hex4(SocFamily(info.model)),
            RevisionString(info.chipRev, info.es),
            "RTL" + Hex4(SocId(info.model)) + CStr(Letters(info.model, info.maxLetters)))
  }

  /** The soc_id string begins with the family string up to its last digit, which the family has as 0. */
  lemma SocIdExtendsFamily(info: ModelInfo)
    requires info.maxLetters <= 3
    ensures Attributes(info).socId[..6] == Attributes(info).family[..6]
    ensures Attributes(info).family[6] == '0'
  {
    var id := SocId(info.model);
    IdDigits(id);
  }

  lemma IdDigits(id: bv32)
    requires id < 0x10000
    ensures ((id & 0xfff0) >> 12) & 0xf == (id >> 12) & 0xf
    ensures ((id & 0xfff0) >> 8) & 0xf == (id >> 8) & 0xf
    ensures ((id & 0xfff0) >> 4) & 0xf == (id >> 4) & 0xf
    ensures (id & 0xfff0) & 0xf == 0
  {
  }

  // ---------------------------------------------------------------------
  // realtek_chipinfo_probe

  /** What the kernel services probe calls return: regmap lookup, allocation, registration. */
  datatype Env = Env(regmapErr: int, allocFails: bool, registerErr: int)

  /**
   * The outcome of realtek_chipinfo_probe for the matched compatible's
   * family (None: no match), the registers behind the regmap and the
   * RTL8380 branch's stale engineering-sample flag.
   */
  function ProbeResult(env: Env, regs: map<int, bv32>, matched: Option<bv32>, es8380: bool): (int, Option<SocAttr>)
  {
    if env.regmapErr != 0 then (env.regmapErr, None)
    else if env.allocFails then (-ENOMEM, None)
    else if matched.None? then (-ENODEV, None)
    else
      match DecodeFamily(matched.value, regs, 0, es8380)
      case None => (-EINVAL, None)
      case Some(info) =>
        if SocFamily(info.model) != matched.value then (-EINVAL, None)
        else if env.registerErr != 0 then (env.registerErr, None)
        else (0, Some(Attributes(info)))
  }

  /** The tail of probe: fill the letters, then format the three strings. */
  method BuildAttributes(info: ModelInfo) returns (attr: SocAttr)
    requires info.maxLetters <= 3
    ensures attr == Attributes(info)
  {
    var letters := FillLetters(info.model, info.maxLetters);
    CStrTerminated(Letters(info.model, info.maxLetters), letters[info.maxLetters + 1..]);
    assert letters[..] == Letters(info.model, info.maxLetters) + ['\0'] + letters[info.maxLetters + 1..];
    var revision := RevisionChar(info.chipRev);
    var family := "RTL" + Hex4(SocFamily(info.model));
    var revisionStr := CStr([revision] + (if info.es then "-ES" else ""));
    var socId := "RTL" + Hex4(SocId(info.model)) + CStr(letters[..]);
    attr := SocAttr(family, revisionStr, socId);
  }

  /** The family switch of probe: read and decode the model registers of the matched family. */
  method DecodeMatched(matchFamily: bv32, regs: map<int, bv32>, es8380: bool) returns (info: Option<ModelInfo>)
    ensures info == DecodeFamily(matchFamily, regs, 0, es8380)
  {
    if matchFamily == COMPATIBLE_8380 {
      var model := Get(regs, RTL8380_MODEL_NAME);
      var chipRev := Get(regs, RTL8380_MODEL_EXT_VERSION);
      info := Some(ModelInfo(model, chipRev, es8380, 3));
    } else if matchFamily == COMPATIBLE_8390 {
      var model := Get(regs, RTL8390_MODEL_NAME);
      var chipRev := (model >> 1) & 0x1f;
      info := Some(ModelInfo(model, chipRev, chipRev != 0, 2));
    } else if matchFamily == COMPATIBLE_9300 || matchFamily == COMPATIBLE_9310 {
      var model := Get(regs, RTL9300_MODEL_NAME);
      info := Some(ModelInfo(model, model & 0xf, (model >> 4) & 0x1 == 1, 2));
    } else {
      info := None;
    }
  }

  /** realtek_chipinfo_probe. */
  method Probe(env: Env, regs: map<int, bv32>, matched: Option<bv32>, es8380: bool) returns (err: int, attr: Option<SocAttr>)
    ensures (err, attr) == ProbeResult(env, regs, matched, es8380)
  {
    if env.regmapErr != 0 {
      return env.regmapErr, None;
    }
    if env.allocFails {
      return -ENOMEM, None;
    }
    if matched.None? {
      return -ENODEV, None;
    }
    var matchFamily := matched.value;
    var decoded := DecodeMatched(matchFamily, regs, es8380);
    if decoded.None? {
      return -EINVAL, None;
    }
    var info := decoded.value;
    if SocFamily(info.model) != matchFamily {
      return -EINVAL, None;
    }
    var a := BuildAttributes(info);
    if env.registerErr != 0 {
      return env.registerErr, None;
    }
    return 0, Some(a);
  }

  /**
   * Probe succeeds exactly for a known compatible whose model word
   * carries the same family, when the kernel services succeed; the
   * family string then names the compatible's family.
   */
  lemma ProbeSucceeds(env: Env, regs: map<int, bv32>, matched: Option<bv32>, es8380: bool)
    ensures var (err, attr) := ProbeResult(env, regs, matched, es8380);
      (err == 0 <==> attr.Some?) &&
      (err == 0 <==>
        env.regmapErr == 0 && !env.allocFails && env.registerErr == 0 && matched.Some? &&
        DecodeFamily(matched.value, regs, 0, es8380).Some? &&
        SocFamily(DecodeFamily(matched.value, regs, 0, es8380).value.model) == matched.value) &&
      (err == 0 ==> ParseHex4(attr.value.family[3..]) == matched.value)
  {
    var (err, attr) := ProbeResult(env, regs, matched, es8380);
    if err == 0 {
      var info := DecodeFamily(matched.value, regs, 0, es8380).value;
      assert attr.value.family[3..] == Hex4(SocFamily(info.model));
      Hex4RoundTrip(SocFamily(info.model));
    }
  }

  /** An unknown family, or a model word of another family, is refused with -EINVAL and no strings. */
  lemma ProbeRefusesMismatch(regs: map<int, bv32>, family: bv32, es8380: bool)
    requires DecodeFamily(family, regs, 0, es8380).None? ||
      SocFamily(DecodeFamily(family, regs, 0, es8380).value.model) != family
    ensures ProbeResult(Env(0, false, 0), regs, Some(family), es8380) == (-EINVAL, None)
  {
  }
}
