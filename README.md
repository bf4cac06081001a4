# IDA Pro analysis helper of flare-emu, modelled in Dafny

flare-emu drives a CPU emulator over disassembled code and asks the host
disassembler for facts through an "analysis helper" interface. Its IDA Pro
implementation, `IdaProAnalysisHelper`, mostly forwards one call each to
IDA's scripting API. This project models the parts with logic of their own.
Every host query becomes plain input data:

- `FuncNames`: `normalizeFuncName` strips the `_<digits>` suffix IDA appends to duplicate names.
- `FlowChart`: basic blocks are `(startEa, endEa, type, successor types)` records. A flowchart is a `seq` of them, and IDA's block types form a datatype. `_getBlockByAddr` is a first-match scan. `isTerminatingBB` decides whether a block ends control flow.
- `Memory`: loaded memory is a `map<int, byte>`. An absent key is an address whose one-byte read returns `None`. The addresses whose flags "have a value" form a `set<int>`. `getCString` and `getSegmentDefinedSize` are loops over these. The segment containing an address is the `SegmentQuery` the host reports for it (name, start, end). The section accessors alias the segment accessors.
- `Helper`: the helper object (`IdaProAnalysisHelper`) holds the fields `arch`, `bitness` and `filetype`. It decodes them from the host's database information, through the pre-9 information structure or through the IDA 9 getters. `getFuncName` applies the normalisation unless its caller passes `normalized=False`. `getFuncStart` and `getFuncEnd` map the host's `BADADDR` sentinel to `None`. `BADADDR` is a parameter because it differs between 32-bit and 64-bit host builds.

Addresses are unbounded integers, like Python's. None of the modelled loops
wraps around.

## Model

| member | source | states |
|---|---|---|
| FuncNames.NormalizeFuncName | flare_emu_ida.py:245-248 | the result is a prefix of the name; it equals the name exactly when the name does not end in `_` plus one or more digits; otherwise what is removed is such a suffix, and its underscore is the last one in the name |
| FuncNames.DupSuffixPosition | flare_emu_ida.py:247 | a `_<digits>` suffix can start at one position only, just before the maximal run of trailing digits, so the substitution has a single match |
| FuncNames.NoDupSuffix | flare_emu_ida.py:247 | when the character before the trailing digits is not `_` (or there are no trailing digits), the pattern matches nowhere |
| FuncNames.StripsOneGroup | flare_emu_ida.py:247 | normalising `base + "_" + digits` gives back `base` for any base and any non-empty digit string |
| FuncNames.NotIdempotent | flare_emu_ida.py:247 | one call removes one group only: `a_1_2` becomes `a_1`, and a second call gives `a` |
| FuncNames.AutoNameAddressStripped | flare_emu_ida.py:247 | the pattern also strips the address from an automatic name such as `sub_401000` when all its hex digits are decimal, and leaves `sub_4010a0` alone |
| FlowChart.GetBlockByAddr | flare_emu_ida.py:89-93 | returns the first block in flowchart order with `start <= addr < end` or `addr == start`; returns None exactly when no block satisfies this |
| FlowChart.AnyExtern | flare_emu_ida.py:228-230 | the successor scan answers true exactly when some successor has type `extern` |
| FlowChart.IsTerminatingBB | flare_emu_ida.py:224-232 | a block terminates exactly when its type is `ret` or `noret`, or it is an `indjump` with no successors, or some successor is `extern` |
| FlowChart.OtherKindsTerminateOnlyViaExtern | flare_emu_ida.py:224-232 | a block of any other type, `cndret` included, terminates exactly when a successor is `extern`; so a normal block with no successors does not terminate |
| Memory.GetCString | flare_emu_ida.py:109-115 | the result is the run of loaded non-NUL bytes from `addr`, each equal to the byte at its address, ended by a NUL or an unloaded address; it is empty exactly when the byte at `addr` is NUL or unloaded |
| Memory.CStringUnique | flare_emu_ida.py:109-115 | only one byte string satisfies that description, namely the longest run of loaded non-NUL bytes at `addr` |
| Memory.DefinedSize | flare_emu_ida.py:141-150 | the count is at most `max(0, end - start)`; every address in `[start, start + count)` has a value; if the count is below `end - start`, address `start + count` has none |
| Memory.GetSegmentDefinedSize | flare_emu_ida.py:141-150 | the loop that stops at the first address without a value or at the segment end computes exactly that count |
| Memory.FullyDefined | flare_emu_ida.py:141-156 | for a segment that is not reversed, the defined size equals the segment size exactly when every address of the segment has a value |
| Memory.SegmentSize | flare_emu_ida.py:155-156 | the segment size added to the segment start gives the segment end |
| Memory.SectionsAreSegments | flare_emu_ida.py:158-168 | the section name, start, end and size are the segment name, start, end and size |
| Helper.DecodeArch | flare_emu_ida.py:26-29 | `metapc` is reported as `X86`; any other processor name passes through unchanged |
| Helper.DecodeBitness | flare_emu_ida.py:31-36 | 64 exactly when the database is 64-bit; 32 exactly when it is 32-bit and not 64-bit; none exactly when it is neither |
| Helper.DecodeFileType | flare_emu_ida.py:37-45 | code 11 maps to PE, 25 to MACHO and 18 to ELF, each in both directions; every other code maps to UNKNOWN |
| Helper.GetFuncName | flare_emu_ida.py:80-84 | the flag defaults to normalising; the host's name is normalised when the flag is set and returned unchanged otherwise; the result is a prefix of the host's name either way |
| Helper.GetFuncNameNormalizesByDefault | flare_emu_ida.py:80-84 | called without the flag, the query strips a `_<digits>` suffix; called with `false`, it keeps it |
| Helper.GetFuncStart | flare_emu_ida.py:68-72 | None exactly when the host's start attribute is `BADADDR`; otherwise that attribute |
| Helper.GetFuncEnd | flare_emu_ida.py:74-78 | None exactly when the host's end attribute is `BADADDR`; otherwise that attribute |
| Helper.IdaProAnalysisHelper.InitIda9 | flare_emu_ida.py:24-45 | sets `arch`, `bitness` and `filetype` to the decoded processor name, 64/32-bit-exactly flags and file-type code of the IDA 9 getters |
| Helper.IdaProAnalysisHelper.InitIdaUnder9 | flare_emu_ida.py:47-66 | sets the same three fields to the same decoding of the pre-9 information structure's fields |
| Helper.IdaProAnalysisHelper.constructor | flare_emu_ida.py:15-22 | uses the pre-9 path when the information structure exists and the IDA 9 path otherwise |
| Helper.InitPathsAgree | flare_emu_ida.py:24-66 | both init paths give identical fields for the same database, even though the pre-9 `is_32bit` probe also holds of 64-bit databases |

The rows for `Memory.SegmentSize`, `Memory.SectionsAreSegments`,
`Helper.GetFuncStart` and `Helper.GetFuncEnd` are definitional. The source
lines they model are one-line expressions, so their contracts restate those
lines and involve no proof work. `Memory.FullyDefined` is the lemma that ties
`SegmentSize` to another operation, the defined-size count.

## Left out

- All one-line forwards to the host API: mnemonics, operands, word, dword and qword reads, `getBytes`, names, disassembly lines, cross-references, minimum and maximum address, flowchart construction, SP delta, item size, thumb mode, and the segment enumeration behind `getSegments` and `getSections`. They have no logic of their own. Their meaning lies in the closed host API.
- `getArch`, `getBitness` and `getFileType` are modelled as plain field reads without contracts. They return the fields the init methods set.
- Host-database mutation is left out: `makeInsn`, `createFunction` (an empty body in the source), `setName` and `setComment`. These are side effects on the disassembler's database.
- `getBlockEndInsnAddr` and `skipJumpTable` are left out. They depend on the host's `prev_head`, `next_head` and `print_insn_mnem` navigation. `skipJumpTable`'s loop has no termination argument outside the host.
- `getNameAddr` is left out. It compares the integer address returned by the host with `""` and then normalises that integer. It cannot be given a meaningful model as written.
- The version probe in `__init__` is left out. It calls `get_inf_structure` and catches `AttributeError`. The constructor takes the available host API as a datatype instead.
- Memory.GetCString: the model stops at a NUL byte or an unloaded byte and returns the bytes read. This is the evident intent. Under Python 3 the source compares the host's `bytes` result with the `str` value `"\x00"`, which is never equal, and appends it to a `str`. Those runtime type effects are not modelled.
- FuncNames.NormalizeFuncName: digits are the ASCII digits `0`-`9`, and the suffix must reach the true end of the name. Python's `\d` also matches other Unicode digits. Python's `$` also matches before a final newline. Neither is modelled.
- The emulation helper object passed to the constructor (`eh`) is stored by the source and never used by the modelled members. It is not part of this model.
