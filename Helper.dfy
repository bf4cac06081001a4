/**
 * The analysis helper object for IDA Pro: the processor, bitness and
 * file-type fields it decodes from the host's database information when it
 * is created, and the function-boundary queries that turn the host's
 * `BADADDR` sentinel into `None`.
 */
module Helper {
  import opened Wrappers
  import opened FuncNames

  /** The file types the emulation framework distinguishes. */
  datatype FileType = PE | MACHO | ELF | UNKNOWN

  /** IDA Pro's file-type codes (`f_PE`, `f_MACHO`, `f_ELF`). */
  const FILETYPE_PE := 11
  const FILETYPE_MACHO := 25
  const FILETYPE_ELF := 18

  /** The database information structure that IDA Pro before version 9 returns from `get_inf_structure`. */
  datatype InfStructure = InfStructure(procname: string, is64bit: bool, is32bit: bool, filetype: int)

  /** What IDA Pro 9's `inf_get_procname`, `inf_is_64bit`, `inf_is_32bit_exactly` and `inf_get_filetype` return. */
  datatype Ida9Inf = Ida9Inf(procname: string, is64bit: bool, is32bitExactly: bool, filetype: int)

  /** The host API: before version 9 the information structure exists, from version 9 on only the getters do. */
  datatype HostApi = BeforeIda9(info: InfStructure) | Ida9(inf: Ida9Inf)

  /** The architecture name: IDA's `metapc` is the framework's `X86`; any other processor keeps its name. */
  function DecodeArch(procname: string): (r: string)
    ensures r == "X86" <==> procname == "metapc" || procname == "X86"
    ensures r != procname ==> procname == "metapc"
  {
    if procname == "metapc" then "X86" else procname
  }

  /** The bitness: 64 when the database is 64-bit, else 32 when it is 32-bit, else none. */
  function DecodeBitness(is64bit: bool, is32bit: bool): (r: Option<nat>)
    ensures r == Some(64) <==> is64bit
    ensures r == Some(32) <==> !is64bit && is32bit
    ensures r == None <==> !is64bit && !is32bit
  {
    if is64bit then Some(64) else if is32bit then Some(32) else None
  }

  function DecodeFileType(code: int): (r: FileType)
    ensures r == PE <==> code == FILETYPE_PE
    ensures r == MACHO <==> code == FILETYPE_MACHO
    ensures r == ELF <==> code == FILETYPE_ELF
    ensures r == UNKNOWN <==> code != FILETYPE_PE && code != FILETYPE_MACHO && code != FILETYPE_ELF
  {
    if code == FILETYPE_PE then PE
    else if code == FILETYPE_MACHO then MACHO
    else if code == FILETYPE_ELF then ELF
    else UNKNOWN
  }

  /** `getFuncName`: the host's name for the function, normalised unless the caller passes `normalized := false`. */
  function GetFuncName(hostName: string, normalized: bool := true): (r: string)
    ensures r <= hostName
    ensures !normalized ==> r == hostName
    ensures normalized ==> r == NormalizeFuncName(hostName)
  {
    if normalized then NormalizeFuncName(hostName) else hostName
  }

  /** Without the flag, `getFuncName` strips a duplicate-name suffix. */
  lemma GetFuncNameNormalizesByDefault(base: string, digits: string)
    requires digits != []
    requires forall j :: 0 <= j < |digits| ==> IsDigit(digits[j])
    ensures GetFuncName(base + "_" + digits) == base
    ensures GetFuncName(base + "_" + digits, false) == base + "_" + digits
  {
    StripsOneGroup(base, digits);
  }

  /** What the host reports for the function containing an address: its start and end attributes. */
  datatype FuncAttrs = FuncAttrs(start: int, end: int)

  /** `getFuncStart`: the function's start, or none when the host answers `badAddr`. */
  function GetFuncStart(attrs: FuncAttrs, badAddr: int): (r: Option<int>)
    ensures r == None <==> attrs.start == badAddr
    ensures r != None ==> r.value == attrs.start
  {
    if attrs.start == badAddr then None else Some(attrs.start)
  }

  /** `getFuncEnd`: the function's end, or none when the host answers `badAddr`. */
  function GetFuncEnd(attrs: FuncAttrs, badAddr: int): (r: Option<int>)
    ensures r == None <==> attrs.end == badAddr
    ensures r != None ==> r.value == attrs.end
  {
    if attrs.end == badAddr then None else Some(attrs.end)
  }

  class IdaProAnalysisHelper {
    var arch: string
    var bitness: Option<nat>
    var filetype: FileType

    /** Decodes the fields through whichever host API is present. */
    constructor (host: HostApi)
      ensures host.BeforeIda9? ==>
        arch == DecodeArch(host.info.procname) &&
        bitness == DecodeBitness(host.info.is64bit, host.info.is32bit) &&
        filetype == DecodeFileType(host.info.filetype)
      ensures host.Ida9? ==>
        arch == DecodeArch(host.inf.procname) &&
        bitness == DecodeBitness(host.inf.is64bit, host.inf.is32bitExactly) &&
        filetype == DecodeFileType(host.inf.filetype)
    {
      new;
      match host
      case BeforeIda9(info) => InitIdaUnder9(info);
      case Ida9(inf) => InitIda9(inf);
    }

    method InitIda9(inf: Ida9Inf)
      modifies this
      ensures arch == DecodeArch(inf.procname)
      ensures bitness == DecodeBitness(inf.is64bit, inf.is32bitExactly)
      ensures filetype == DecodeFileType(inf.filetype)
    {
      var procname := inf.procname;
      if procname == "metapc" {
        arch := "X86";
      } else {
        arch := procname;
      }
      if inf.is64bit {
        bitness := Some(64);
      } else if inf.is32bitExactly {
        bitness := Some(32);
      } else {
        bitness := None;
      }
      var code := inf.filetype;
      if code == 11 {
        filetype := PE;
      } else if code == 25 {
        filetype := MACHO;
      } else if code == 18 {
        filetype := ELF;
      } else {
        filetype := UNKNOWN;
      }
    }

    method InitIdaUnder9(info: InfStructure)
      modifies this
      ensures arch == DecodeArch(info.procname)
      ensures bitness == DecodeBitness(info.is64bit, info.is32bit)
      ensures filetype == DecodeFileType(info.filetype)
    {
      if info.procname == "metapc" {
        arch := "X86";
      } else {
        arch := info.procname;
      }
      if info.is64bit {
        bitness := Some(64);
      } else if info.is32bit {
        bitness := Some(32);
      } else {
        bitness := None;
      }
      if info.filetype == 11 {
        filetype := PE;
      } else if info.filetype == 25 {
        filetype := MACHO;
      } else if info.filetype == 18 {
        filetype := ELF;
      } else {
        filetype := UNKNOWN;
      }
    }

    function GetArch(): string reads this { arch }
    function GetBitness(): Option<nat> reads this { bitness }
    function GetFileType(): FileType reads this { filetype }
  }

  /**
   * Both host APIs give a helper the same fields for the same database. The
   * older `is_32bit` probe also holds of 64-bit databases, where the newer
   * `is_32bit_exactly` does not; the 64-bit check comes first, so the two
   * probes need only agree on databases that are not 64-bit.
   */
  method InitPathsAgree(procname: string, is64bit: bool, is32bit: bool, is32bitExactly: bool, code: int)
    returns (older: IdaProAnalysisHelper, newer: IdaProAnalysisHelper)
    requires !is64bit ==> is32bit == is32bitExactly
    ensures older.arch == newer.arch == DecodeArch(procname)
    ensures older.bitness == newer.bitness == DecodeBitness(is64bit, is32bitExactly)
    ensures older.filetype == newer.filetype == DecodeFileType(code)
  {
    older := new IdaProAnalysisHelper(BeforeIda9(InfStructure(procname, is64bit, is32bit, code)));
    newer := new IdaProAnalysisHelper(Ida9(Ida9Inf(procname, is64bit, is32bitExactly, code)));
  }
}
