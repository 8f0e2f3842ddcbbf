/*
 * The early platform set-up of arch/mips/realtek (prom.c): pick the SoC
 * model from the RTL8380 model register, falling back to the RTL8390
 * one, name it and give its family; assemble the kernel command line
 * from the firmware's argument vector; and choose the device tree blob.
 */
module Prom {
  import opened Tables
  import ChipId

  // The model registers, RTL8380_SWITCH_BASE + 0x00D4 and + 0x0FF0, as
  // arch/mips/include/asm/mach-realtek/mach-realtek.h:44-46 defines them.
  const RTL8380_SWITCH_BASE: int := 0xBB00_0000
  const RTL8380_MODEL_NAME_INFO: int := RTL8380_SWITCH_BASE + 0x00D4
  const RTL8390_MODEL_NAME_INFO: int := RTL8380_SWITCH_BASE + 0x0FF0

  // The family ids of the model switch.
  const RTL8328_FAMILY_ID: bv32 := 0x8328
  const RTL8390_FAMILY_ID: bv32 := 0x8390
  const RTL8380_FAMILY_ID: bv32 := 0x8380

  /** COMMAND_LINE_SIZE, the size of arcs_cmdline on MIPS. */
  const CMDLINE_SIZE: nat := 4096

  /** The model ids the RTL8380 register is trusted for. */
  predicate Is838xId(m: bv32)
  {
    m == 0x8330 || m == 0x8332 || m == 0x8380 || m == 0x8382
  }

  /** The model prom_init settles on: the RTL8380 register's top half, else the RTL8390 register's. */
  function ModelOf(regs: map<int, bv32>): bv32
  {
    var m := Get(regs, RTL8380_MODEL_NAME_INFO) >> 16;
    if !Is838xId(m) then Get(regs, RTL8390_MODEL_NAME_INFO) >> 16 else m
  }

  /**
   * The model is a 16-bit id; it is the RTL8380 register's exactly when
   * that one holds an RTL833x/RTL838x id, and otherwise the RTL8390
   * register's, whatever that holds.
   */
  lemma ModelFallback(regs: map<int, bv32>)
    ensures ModelOf(regs) < 0x10000
    ensures Is838xId(Get(regs, RTL8380_MODEL_NAME_INFO) >> 16) ==> ModelOf(regs) == Get(regs, RTL8380_MODEL_NAME_INFO) >> 16
    ensures !Is838xId(Get(regs, RTL8380_MODEL_NAME_INFO) >> 16) ==> ModelOf(regs) == Get(regs, RTL8390_MODEL_NAME_INFO) >> 16
  {
  }

  /** The name and family the model switch gives a model. */
  function NameFamily(model: bv32): (string, bv32)
  {
    if model == 0x8328 then ("RTL8328", RTL8328_FAMILY_ID)
    else if model == 0x8332 then ("RTL8332", RTL8380_FAMILY_ID)
    else if model == 0x8380 then ("RTL8380", RTL8380_FAMILY_ID)
    else if model == 0x8382 then ("RTL8382", RTL8380_FAMILY_ID)
    else if model == 0x8390 then ("RTL8390", RTL8390_FAMILY_ID)
    else if model == 0x8391 then ("RTL8391", RTL8390_FAMILY_ID)
    else if model == 0x8392 then ("RTL8392", RTL8390_FAMILY_ID)
    else if model == 0x8393 then ("RTL8393", RTL8390_FAMILY_ID)
    else ("DEFAULT", 0)
  }

  /**
   * Each family is exactly its models: RTL8328 alone, RTL8332, RTL8380 and
   * RTL8382 for the RTL8380 family, RTL8390 to RTL8393 for the RTL8390
   * family; every other model is "DEFAULT" with family 0, and a known
   * model's name is "RTL" and its id in hex.
   */
  lemma NameFamilyClasses(model: bv32)
    requires model < 0x10000
    ensures NameFamily(model).1 == RTL8328_FAMILY_ID <==> model == 0x8328
    ensures NameFamily(model).1 == RTL8380_FAMILY_ID <==> model == 0x8332 || model == 0x8380 || model == 0x8382
    ensures NameFamily(model).1 == RTL8390_FAMILY_ID <==> 0x8390 <= model <= 0x8393
    ensures NameFamily(model).1 == 0 <==> NameFamily(model).0 == "DEFAULT"
    ensures NameFamily(model).0 != "DEFAULT" ==> NameFamily(model).0 == "RTL" + ChipId.Hex4(model)
  {
  }

  /**
   * An RTL8330 passes the fallback guard, so its own register is used,
   * but the switch has no case for it: it is named "DEFAULT" with family 0.
   */
  lemma Rtl8330IsDefault(regs: map<int, bv32>)
    requires Get(regs, RTL8380_MODEL_NAME_INFO) >> 16 == 0x8330
    ensures ModelOf(regs) == 0x8330 && NameFamily(ModelOf(regs)) == ("DEFAULT", 0)
  {
  }

  // ---------------------------------------------------------------------
  // The command line

  /** strlcat(dst, src, size) on C strings: as much of src as still fits before the terminator. */
  function Strlcat(dst: string, src: string, size: nat): (r: string)
    requires |dst| < size
    ensures |r| < size
  {
    var room := size - 1 - |dst|;
    dst + (if |src| < room then src else src[..room])
  }

  /** One firmware argument: the physical address part of its pointer and the string it points to. */
  datatype Arg = Arg(phys: nat, text: string)

  /** The arguments prom_init_cmdline takes: a non-zero physical address and a non-empty string. */
  predicate Taken(a: Arg)
  {
    a.phys != 0 && a.text != []
  }

  /** One step of the loop: append a taken argument and a space. */
  function AppendArg(cmdline: string, a: Arg): (r: string)
    requires |cmdline| < CMDLINE_SIZE
    ensures |r| < CMDLINE_SIZE
  {
    if Taken(a) then Strlcat(Strlcat(cmdline, a.text, CMDLINE_SIZE), " ", CMDLINE_SIZE) else cmdline
  }

  /** arcs_cmdline after the loop has seen args, in order. */
  function CmdlineOf(args: seq<Arg>): (r: string)
    ensures |r| < CMDLINE_SIZE
  {
    if args == [] then "" else AppendArg(CmdlineOf(args[..|args| - 1]), args[|args| - 1])
  }

  /** The unbounded command line: each taken argument followed by one space. */
  function Joined(args: seq<Arg>): string
  {
    if args == [] then ""
    else Joined(args[..|args| - 1]) + (if Taken(args[|args| - 1]) then args[|args| - 1].text + " " else "")
  }

  /** x cut to what fits in the command-line buffer. */
  function Fit(x: string): string
  {
    if |x| < CMDLINE_SIZE then x else x[..CMDLINE_SIZE - 1]
  }

  /** strlcat onto a cut string is the cut of the concatenation. */
  lemma StrlcatFits(x: string, s: string)
    ensures Strlcat(Fit(x), s, CMDLINE_SIZE) == Fit(x + s)
  {
    if |x| < CMDLINE_SIZE {
      assert Fit(x) == x;
      if |x + s| >= CMDLINE_SIZE {
        assert (x + s)[..CMDLINE_SIZE - 1] == x + s[..CMDLINE_SIZE - 1 - |x|];
      }
    } else {
      assert (x + s)[..CMDLINE_SIZE - 1] == x[..CMDLINE_SIZE - 1];
    }
  }

  /**
   * The command line is the joined arguments cut to the buffer: strlcat
   * only ever drops the end, so nothing appended later can reappear after
   * a cut, and when everything fits nothing is lost.
   */
  lemma {:induction false} CmdlineIsCutJoin(args: seq<Arg>)
    ensures CmdlineOf(args) == Fit(Joined(args))
  {
    if args != [] {
      var init := args[..|args| - 1];
      var a := args[|args| - 1];
      CmdlineIsCutJoin(init);
      if Taken(a) {
        StrlcatFits(Joined(init), a.text);
        StrlcatFits(Joined(init) + a.text, " ");
        assert Joined(init) + a.text + " " == Joined(args);
      }
    }
  }

  /** The firmware's device tree, else a non-empty built-in one, else panic. */
  datatype Dtb = Passed(addr: nat) | BuiltIn(addr: nat) | Panic

  function DtbOf(fwPassedDtb: nat, dtbStart: nat, dtbEnd: nat): Dtb
  {
    if fwPassedDtb != 0 then Passed(fwPassedDtb)
    else if dtbStart != dtbEnd then BuiltIn(dtbStart)
    else Panic
  }

  /** The blob is the firmware's whenever it passes one, and the kernel panics only with neither. */
  lemma DtbChoice(fwPassedDtb: nat, dtbStart: nat, dtbEnd: nat)
    ensures fwPassedDtb != 0 ==> DtbOf(fwPassedDtb, dtbStart, dtbEnd) == Passed(fwPassedDtb)
    ensures DtbOf(fwPassedDtb, dtbStart, dtbEnd).Panic? <==> fwPassedDtb == 0 && dtbStart == dtbEnd
  {
  }

  /** The global soc_info and arcs_cmdline of this platform. */
  class Platform {
    var id: bv32
    var name: string
    var family: bv32
    var cmdline: string

    /** get_system_type. */
    function GetSystemType(): string
      reads this
    {
      name
    }

    /** prom_init_cmdline: start empty, then append each taken argument and a space. */
    method InitCmdline(args: seq<Arg>)
      modifies this
      ensures cmdline == CmdlineOf(args)
      ensures id == old(id) && name == old(name) && family == old(family)
    {
      cmdline := "";
      var i := 0;
      while i < |args|
        invariant 0 <= i <= |args|
        invariant cmdline == CmdlineOf(args[..i])
        invariant id == old(id) && name == old(name) && family == old(family)
      {
        var a := args[i];
        if a.phys != 0 && a.text != [] {
          cmdline := Strlcat(cmdline, a.text, CMDLINE_SIZE);
          cmdline := Strlcat(cmdline, " ", CMDLINE_SIZE);
        }
        assert args[..i + 1][..i] == args[..i];
        i := i + 1;
      }
      assert args[..|args|] == args;
    }

    /** prom_init: the model, its name and family, the command line and the device tree. */
    method PromInit(regs: map<int, bv32>, args: seq<Arg>, fwPassedDtb: nat, dtbStart: nat, dtbEnd: nat)
      returns (dtb: Dtb)
      modifies this
      ensures id == ModelOf(regs)
      ensures (name, family) == NameFamily(ModelOf(regs)) && GetSystemType() == name
      ensures cmdline == CmdlineOf(args)
      ensures dtb == DtbOf(fwPassedDtb, dtbStart, dtbEnd)
    {
      var model := Get(regs, RTL8380_MODEL_NAME_INFO) >> 16;
      if model != 0x8330 && model != 0x8332 && model != 0x8380 && model != 0x8382 {
        model := Get(regs, RTL8390_MODEL_NAME_INFO) >> 16;
      }
      id := model;
      if model == 0x8328 {
        name, family := "RTL8328", RTL8328_FAMILY_ID;
      } else if model == 0x8332 {
        name, family := "RTL8332", RTL8380_FAMILY_ID;
      } else if model == 0x8380 {
        name, family := "RTL8380", RTL8380_FAMILY_ID;
      } else if model == 0x8382 {
        name, family := "RTL8382", RTL8380_FAMILY_ID;
      } else if model == 0x8390 {
        name, family := "RTL8390", RTL8390_FAMILY_ID;
      } else if model == 0x8391 {
        name, family := "RTL8391", RTL8390_FAMILY_ID;
      } else if model == 0x8392 {
        name, family := "RTL8392", RTL8390_FAMILY_ID;
      } else if model == 0x8393 {
        name, family := "RTL8393", RTL8390_FAMILY_ID;
      } else {
        name, family := "DEFAULT", 0;
      }
      InitCmdline(args);
      if fwPassedDtb != 0 {
        dtb := Passed(fwPassedDtb);
      } else if dtbStart != dtbEnd {
        dtb := BuiltIn(dtbStart);
      } else {
        dtb := Panic;
      }
    }
  }
}
