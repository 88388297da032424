# InterProcessCommunication.jl build helpers and wrapper library, in Dafny

This project models two parts of the InterProcessCommunication.jl package:

* **`gendeps` and `gencode`.** These are two C programs run at build time. Each one writes a Julia file of definitions (`deps.jl`) describing the host:
  * the integer types of the C library and their signedness;
  * the sizes and field offsets of system structures;
  * the values of the operating system's constants, each written only when the headers define it.

  Both programs refuse to go on when `tv_sec` does not have the type of `time_t`. `gendeps` also checks the member sizes of `siginfo_t`.
* **The Simple Wrapper Library (SWL).** This is a small C layer over System V shared memory. It translates its own flag bits and status codes to and from those of `ftok`, `shmget`, `shmat`, `shmdt` and `shmctl`.

## How the model is organised

* `ctypes.dfy` (`CTypes`) models C integer types as a width and a signedness. It covers two's-complement reading and storing, the integer promotions (section 6.3.1.1 of ISO C), and both spellings of `IS_SIGNED`. It also models the all-bits probe `SET_ALL_BITS` followed by `lval < 0`.
* `tiling.dfy` (`OpaqueTypes`) models `setofbits`, which describes an opaque type as a tuple of equal machine words.
* `numerals.dfy` (`Numerals`) models the digit conversions of the `printf` formats the programs use: `%d`, `%3ld`, `%04o` and `%08x`. Each one is proved to read back as the number written.
* `symbols.dfy` (`Symbols`) and `idents.dfy` (`Idents`) are vocabularies: the operating-system macros, the output categories, and the C types, lvalues and aliases the programs name.
* `generator.dfy` (`Generator`) is the machinery both programs share:
  * a `Platform` gives what the compiler knows: macro definitions and values, integer types, sizes, offsets and `sysconf` answers;
  * a `Step` is one output statement, and `StepLines` gives the lines it writes;
  * `Exec` models output written as it is produced, with a check that ends the run in the middle;
  * `Main` models the argument handling;
  * a general set of lemmas covers which lines appear, in which order and with which values.
* `gendeps.dfy` (`GenDeps`) and `gencode.dfy` (`GenCode`) hold each program's catalog. Each catalog lists the program's statements in program order as `Step` values, grouped into the parts separated by the program's checks. The lemmas in these files state what each program writes and how each run ends.
* `swl.dfy` (`Swl`) models the SWL functions as pure functions of what the system calls answer. The system calls are parameters: `ftok`, `shmget`, `shmat`, `IPC_STAT`, `IPC_SET`, `IPC_RMID` and `shmdt`.

Catalog properties are mostly stated over any run of steps that holds the entry in question, together with a lemma placing that entry in the program's part. This keeps each proof small.

## Where the code differs from its documentation

The model follows the code in each of these cases:

* `swl/src/swl.h:114` documents `cgid` as the creator's group ID. `swl/src/ipc.c:100` fills it from `shm_perm.cuid`. `Swl.InfoOf` does the same, and `Swl.CreatorGroupIsLost` shows that the kernel's creator group never reaches the record.
* `swl/src/swl.h:110` documents `mode` as the lower 9 bits of the access modes. `swl/src/ipc.c:96` copies the whole mode word, and `Swl.ModeIsNotMasked` shows that higher bits come through.
* In `gendeps`, `SHM_REMAP` is guarded by `#ifdef SHM_EXEC` (`deps/gendeps.c:229`). `GenDeps.ShmRemapKeyedOnShmExec` states that whether the line is written depends on `SHM_EXEC` alone. A system that defines `SHM_EXEC` but not `SHM_REMAP` cannot compile the program at all, and `GenDeps.ShmRemapNeedsMacro` states that a build rules that case out.
* `IS_SIGNED` in `gencode` (`deps/gencode.c:21`) compares `~(type)0` after integer promotion, without casting back. It would call every unsigned type narrower than `int` signed (`CTypes.PromotedReportsNarrowAsSigned`). The macro is defined but never used: `gencode`'s type aliases go through the same all-bits probe as `gendeps`, and that probe is exact (`CTypes.ProbeIsExact`).

## Model

| member | source | states |
|---|---|---|
| CTypes.StoreThenRead | deps/gendeps.c:62 | storing a value into an integer object and reading it back gives the value exactly when the type can represent it |
| CTypes.ProbeIsExact | deps/gendeps.c:72-91 | after `lval = 0; lval = ~lval` the object holds all ones at its own width, whatever the width of `int`, and `lval < 0` is true exactly for signed types |
| CTypes.CastBackIsExact | deps/gendeps.c:55 | `(type)(~(type)0) < (type)0` is true exactly for signed types |
| CTypes.PromotedReportsNarrowAsSigned | deps/gencode.c:21 | `~(type)0 < (type)0` is true exactly for signed types and for types narrower than `int` |
| CTypes.PromotedMisjudgesUnsignedShort | deps/gencode.c:21 | for `unsigned short` with a 32-bit `int`, the two `IS_SIGNED` macros disagree |
| Generator.ProbesAgreeIffSameType | deps/gendeps.c:58-59 | the size-and-sign comparison of two integer types accepts exactly when they are the same type |
| OpaqueTypes.SetOfBits | deps/gendeps.c:110-130 | the tuple's words cover the size exactly, no wider word size divides the size, and the signedness is the caller's |
| OpaqueTypes.SetOfBitsIsTheWidestCover | deps/gendeps.c:110-130 | any exact cover by the widest possible word has the same shape as the one chosen |
| OpaqueTypes.SixteenBytesIsTwoWords | deps/gendeps.c:115-117 | 16 bytes become two 64-bit words, not sixteen bytes or four 32-bit words |
| OpaqueTypes.OddSizesUseBytes | deps/gendeps.c:124-126 | an odd size is tiled byte by byte |
| Numerals.ParseDigits | deps/gendeps.c:65-66 | the digits written for a number, read back in the same base, give the number |
| Numerals.ParseZeroPadded | deps/gendeps.c:481 | zero padding, as in `%08x`, does not change the value read back |
| Numerals.SignedDecimalRoundTrip | deps/gencode.c:108 | `%d` of any integer, negative ones included, reads back as that integer |
| Numerals.UnsignedPadded | deps/gencode.c:86 | `%04o` writes the octal digits of the argument's unsigned 32-bit value, preceded by zeros up to four characters and no more; the result is all digits and reads back as that value |
| Numerals.SpacedDecimal | deps/gencode.c:55-57 | `%3ld` writes the signed decimal numeral of the value, preceded by spaces up to three characters and no more |
| Generator.ConstValue | deps/gendeps.c:43-48 | a macro the headers leave undefined takes its fallback value; a defined one keeps its own |
| Generator.SemValueMaxChoice | deps/gendeps.c:401-418 | `sysconf` decides when it answers a non-negative value, otherwise the macro decides when it is defined, and only a positive result is written as a number (anything else becomes `typemax(Cuint)`) |
| Generator.StepLines | deps/gendeps.c:65-102 | each statement writes at most one line: a type alias with the probed signedness and `8*sizeof` bits, the forced unsigned or signed aliases, the widest tiling, and a constant or header exactly when its `#ifdef` holds |
| Generator.TimeCheck | deps/gendeps.c:262-273 | the `tv_sec` checks pass exactly when both fields have the type of `time_t` and, when offsets are checked, sit at offset 0; a complaint is about the type or the offset of one of the two fields, and about an offset only when offsets are checked |
| Generator.FirstMismatch | deps/gendeps.c:495-530 | the `siginfo_t` check passes exactly when every member has its reference size; otherwise it names the first member that does not |
| Generator.ExecCompletes | deps/gendeps.c:104-108 | a run whose checks all pass writes the lines of all its steps and ends normally; a run with a failing check ends with a complaint |
| Generator.ExecStopsAtFailure | deps/gendeps.c:104-108 | the first failing check ends the run, and the output is exactly what came before it |
| Generator.Main | deps/gendeps.c:138-146 | `--help` or `-h` alone gives usage and status 0; any other argument gives usage and status 1; no argument gives status 0 exactly when the checks pass |
| Generator.MainWritesEverything | deps/gendeps.c:841 | a run without arguments whose checks pass writes every line of the catalog with status 0 |
| Generator.ThreePhaseMain | deps/gendeps.c:250-552 | with two checks, a run writes one, two or all three parts according to which check fails first, with status 1 and that check's complaint on failure |
| Generator.TwoPhaseMain | deps/gencode.c:121-143 | with one check, a run writes the first part alone with status 1 and the complaint, or both parts with status 0 |
| Generator.ExecNeverComplainsOfUsage | deps/gendeps.c:104-108 | a check failure is never reported as a usage error |
| Generator.ConstantsInCatalogOrder | deps/gendeps.c:563-587 | the constants come out in program order, skipping exactly those whose guard fails |
| Generator.HeadersInCatalogOrder | deps/gencode.c:85-218 | the category headers come out in program order, skipping exactly the guarded ones whose guard fails |
| Generator.PresentDefinesMembership | deps/gendeps.c:563-566 | a symbol is among the written constants exactly when its statement is in the program and its guard holds |
| Generator.ConstantLineIff | deps/gendeps.c:563-566 | a constant's line is in the output exactly when its statement is in the program and its `#ifdef` holds |
| Generator.LinesComeFromSteps | deps/gendeps.c:148 | every line written is the line of some statement of the program |
| Generator.BuiltConstantsAreDefined | deps/gendeps.c:65-66 | in a program that builds, every constant written without an `#ifndef` fallback is a defined macro, carrying the macro's value |
| Generator.DefaultedConstantWritten | deps/gendeps.c:282-283 | a constant with a fallback is written whether or not the headers define it, with the fallback when they do not |
| Generator.AbsentEntryHasNoLine | deps/gencode.c:119 | a macro without a statement in the program never appears in the output |
| Generator.ConstantLinesFollowSpec | deps/gendeps.c:65-66 | every constant line carries the value the program sees for its macro, with its Julia type and format, and only when its guard holds |
| Generator.HeaderIff | deps/gendeps.c:720-723 | a category header is written exactly when its statement is in the program and its guard holds |
| Generator.ExecLinesFromSteps | deps/gendeps.c:148 | whatever a run writes, even a run cut short, is a line of the catalog |
| Generator.EarlyConstantIff | deps/gendeps.c:224-231 | a constant of the part before every check is in the output of every run exactly when its guard holds |
| Generator.EarlyConstantInRun | deps/gendeps.c:224-231 | in a program of three parts separated by two checks, a constant of the first part is in the process output exactly when its guard holds, whichever check fails |
| GenDeps.Arguments | deps/gendeps.c:138-146 | usage with status 0 on help, status 1 on other arguments; without arguments, status 0 exactly when both the `tv_sec` and `siginfo_t` checks pass |
| GenDeps.TimeCheckFailure | deps/gendeps.c:262-273 | a failing `tv_sec` check gives status 1, its complaint, and the lines of the first part only |
| GenDeps.SiginfoCheckFailure | deps/gendeps.c:495-530 | a failing `siginfo_t` check gives status 1, its complaint, and the lines of the first two parts |
| GenDeps.CompleteRun | deps/gendeps.c:841 | when both checks pass, the three parts are written in order with status 0 |
| GenDeps.FirstPartReachesOutput | deps/gendeps.c:149-248 | every line of the part before the time check is written by every run without arguments |
| GenDeps.SecondPartReachesOutput | deps/gendeps.c:274-492 | every line of the middle part is written whenever the `tv_sec` checks pass, even if the `siginfo_t` check then fails |
| GenDeps.ThirdPartReachesOutput | deps/gendeps.c:542-839 | every line of the last part is written when both checks pass |
| GenDeps.ShmRemapKeyedOnShmExec | deps/gendeps.c:229-231 | `SHM_REMAP` is written exactly when `SHM_EXEC` is defined; its own definition is not consulted |
| GenDeps.ShmRemapNeedsMacro | deps/gendeps.c:229-231 | a program holding the `SHM_REMAP` entry builds only where `SHM_EXEC` being defined implies `SHM_REMAP` is |
| GenDeps.ShmRemapInEveryRun | deps/gendeps.c:224-231 | in every run without arguments, even a failing one, `SHM_REMAP` is in the output exactly when `SHM_EXEC` is defined |
| GenDeps.StandardTypeAlias | deps/gendeps.c:170-186 | each type of the standard-types section is written in the first part without prefix, as the Julia integer of its own signedness and width |
| GenDeps.NoClockBeforeTimeCheck | deps/gendeps.c:250-283 | no constant of the POSIX clocks section is in the part written before the `tv_sec` checks |
| GenDeps.SiCodeRegularHoldsSiCodes | deps/gendeps.c:563-587 | every constant of the generic `si_code` section is an `si_code` value |
| GenDeps.SiCodeIllHoldsSiCodes | deps/gendeps.c:589-613 | every constant of the `SIGILL` section is an `si_code` value |
| GenDeps.SiCodeFpeHoldsSiCodes | deps/gendeps.c:615-639 | every constant of the `SIGFPE` section is an `si_code` value |
| GenDeps.SiCodeSegvBusHoldSiCodes | deps/gendeps.c:641-664 | every constant of the `SIGSEGV` and `SIGBUS` sections is an `si_code` value |
| GenDeps.SiCodeTrapChldHoldSiCodes | deps/gendeps.c:666-698 | every constant of the `SIGTRAP` and `SIGCHLD` sections is an `si_code` value |
| GenDeps.SiCodePollSysHoldSiCodes | deps/gendeps.c:700-723 | every constant of the `SIGPOLL` and `SIGSYS` sections is an `si_code` value |
| GenDeps.NoSiCodeBeforeSiginfoCheck | deps/gendeps.c:492-566 | no `si_code` value (`IsSiCode`, the only kind of entry the `si_code` sections hold) is in either part written before the `siginfo_t` check |
| GenDeps.DefaultedConstant | deps/gendeps.c:364-369 | `CLOCK_REALTIME`, `CLOCK_MONOTONIC` and `SEMVMX` are always written in the second part, with 0, 1 and 32767 when the headers leave them undefined |
| GenDeps.SigactionFlagsUnsigned | deps/gendeps.c:473-475 | the second part writes the `sa_flags` alias unsigned, of the field's width, whatever its C type |
| GenDeps.SigvalSigned | deps/gendeps.c:457 | the second part writes `sigval_t` as a signed integer of its own size |
| GenDeps.SigsetTiling | deps/gendeps.c:459 | `sigset_t` is written as unsigned words of the widest size that tiles it exactly |
| GenDeps.SiginfoTiling | deps/gendeps.c:542 | `siginfo_t` is written as unsigned words of the widest size that tiles it exactly |
| GenDeps.SigsysHeader | deps/gendeps.c:720-721 | the SIGSYS header is written exactly when `SYS_SECCOMP` is defined |
| GenDeps.SysSeccompLine | deps/gendeps.c:720-723 | the SIGSYS constant is written exactly when `SYS_SECCOMP` is defined |
| GenDeps.OtherHeadersAlways | deps/gendeps.c:725 | every header other than the SIGSYS one is written by each of the three parts whose headings include it |
| GenCode.Arguments | deps/gencode.c:75-83 | usage with status 0 on help, status 1 on other arguments; without arguments, status 0 exactly when both `tv_sec` fields have the type of `time_t` |
| GenCode.TimeCheckFailure | deps/gencode.c:133-138 | a failing `tv_sec` type check gives status 1, a type complaint, and only the lines up to the header of the standard types |
| GenCode.CompleteRun | deps/gencode.c:224 | when the type check passes, both parts are written in order with status 0 |
| GenCode.OffsetsAreNotChecked | deps/gencode.c:133-138 | a `tv_sec` not at offset 0 does not stop `gencode`, although the stricter check of `gendeps` rejects it |
| GenCode.ShmRemapNeverWritten | deps/gencode.c:116-119 | `SHM_REMAP` is never written, whatever the platform defines |
| GenCode.ShmExecUnconditional | deps/gencode.c:117 | `SHM_EXEC` has no guard: its line is written wherever its entry is reached |
| GenCode.ShmExecNeedsMacro | deps/gencode.c:117 | a program holding the `SHM_EXEC` entry builds only where the macro is defined, and then writes its value as `Cint` in decimal |
| GenCode.SemValueMaxIff | deps/gencode.c:220-222 | `SEM_VALUE_MAX` is written exactly when the macro is defined |
| GenCode.BitsInOctal | deps/gencode.c:85-114 | every entry of the open, permission and `shmget` bit sections is written before the standard types as `Cint` in octal with at least four digits |
| GenCode.IpcCommandsInDecimal | deps/gencode.c:106-110 | `IPC_STAT`, `IPC_SET` and `IPC_RMID` are written before the standard types as `Cint` in decimal |
| GenCode.SemctlCommandsInDecimal | deps/gencode.c:175-182 | each `semctl` command is written after the standard types as `Cint` in decimal |
| GenCode.PrefixedTypeAlias | deps/gencode.c:43-51 | each standard type of the list is written after the standard-types header as `_typeof_<type>`, the Julia integer of its own signedness and width |
| GenCode.FirstPartHeaders | deps/gencode.c:85-121 | the first part's headers are: open bits, permissions, IPC commands, `shmget` bits, `shmdt` flags, standard types |
| GenCode.SecondPartHeaders | deps/gencode.c:152-218 | the second part's headers are: sizes, `shmid_ds` offsets, IPC key, `semctl`, `semop`, `sembuf`, POSIX semaphores |
| Swl.LibraryFlagsAreSingleBits | swl/src/swl.h:18-24 | `SWL_CREAT`, `SWL_EXCL` and `SWL_RDONLY` are distinct single bits outside the nine permission bits |
| Swl.BitConv | swl/src/ipc.c:13 | the translation yields `val` when every bit of the mask is set and 0 otherwise; for a non-zero `val`, it yields `val` exactly when the mask is included in the flags |
| Swl.BitConvSingleBit | swl/src/ipc.c:13 | for a one-bit mask, the translation is on exactly when that bit is set |
| Swl.ShmgetFlags | swl/src/ipc.c:45-47 | no bit outside the permissions, `IPC_CREAT` and `IPC_EXCL` reaches `shmget` |
| Swl.ShmgetKeepsPermissions | swl/src/ipc.c:15 | the nine permission bits pass through unchanged |
| Swl.ShmgetCreationBits | swl/src/ipc.c:46-47 | `IPC_CREAT` is requested exactly when `SWL_CREAT` is given, and `IPC_EXCL` exactly when `SWL_EXCL` is |
| Swl.ShmgetIgnoresOtherBits | swl/src/ipc.c:45-47 | only the recognised bits of the flags affect the translation |
| Swl.ShmgetFlagsOnLinux | swl/src/swl.h:18-21 | with Linux's values, the translation keeps the low eleven bits and clears the rest |
| Swl.SystemKey | swl/src/ipc.c:48-50 | `SWL_PRIVATE` becomes `IPC_PRIVATE`; any other key passes through unchanged |
| Swl.GetSharedMemory | swl/src/ipc.c:41-52 | `shmget` receives the translated key, the caller's size and the translated flags |
| Swl.GetSharedMemoryIgnoresOtherBits | swl/src/ipc.c:41-52 | two calls whose flags differ only in unrecognised bits make the same request |
| Swl.ShmatFlags | swl/src/ipc.c:60 | `shmat` is asked either for nothing or for `SHM_RDONLY` |
| Swl.ReadOnlyIff | swl/src/ipc.c:60 | `SHM_RDONLY` is requested exactly when `SWL_RDONLY` is given |
| Swl.ToIntFixesExactlyInts | swl/src/ipc.c:30-31 | converting a key to `int` leaves it unchanged exactly when it fits in 32 bits |
| Swl.GenerateKey | swl/src/ipc.c:17-36 | `ftok` is consulted exactly when the low eight bits of `proj` are not all zero; the key is returned exactly when `ftok` succeeds with a value that fits `int`; otherwise -1 is returned, with `EINVAL` exactly for a zero `proj` or a key that does not fit |
| Swl.OnlyLowEightBitsMatter | swl/src/swl.h:38-39 | if `ftok` reads only the low eight bits of `proj`, so does the whole call |
| Swl.InfoFieldsByDecreasingSize | swl/src/swl.h:99-115 | the field types that bound the record's values (the ones `InfoOf` and `Query` fill within) are declared by non-increasing size, so laid end to end each field starts at a multiple of its own size; the thirteen fields take 68 bytes |
| Swl.InfoOf | swl/src/ipc.c:87-101 | every field of the record holds a value of its declared C width, and `id` is the identifier asked about, converted to `int` |
| Swl.InfoCopiesFields | swl/src/ipc.c:88-100 | values that fit are copied exactly, and the creator group field carries the creator's user ID |
| Swl.CreatorGroupIsLost | swl/src/ipc.c:100 | two segments that differ only in their creator group give the same record |
| Swl.ModeIsNotMasked | swl/src/ipc.c:96 | a mode bit above the nine permission bits reaches the record |
| Swl.Query | swl/src/ipc.c:80-103 | failure exactly when `IPC_STAT` fails, leaving the caller's record untouched; on success the record is filled, and a null record stays null |
| Swl.QueryOverwrites | swl/src/ipc.c:87-102 | a successful query's record does not depend on what the record held before, and fits its widths |
| Swl.Attach | swl/src/ipc.c:54-68 | the address is returned exactly when `shmat` succeeds and any requested query succeeds; the segment is detached exactly when the attach succeeded but the query failed |
| Swl.AttachLeavesNoStrayMapping | swl/src/ipc.c:62-66 | a successful call detaches nothing, and a detach only undoes the attachment this call made |
| Swl.StatusOf | swl/src/ipc.c:72 | a system answer of zero maps to `SWL_SUCCESS`, and anything else to `SWL_FAILURE` |
| Swl.Detach | swl/src/ipc.c:70-73 | success exactly when `shmdt` answers 0 |
| Swl.Destroy | swl/src/ipc.c:75-78 | success exactly when `IPC_RMID` answers 0 |
| Swl.MergeMode | swl/src/ipc.c:113 | the new mode has the permission bits of the flags and every other bit of the old mode |
| Swl.MergeModeUnique | swl/src/ipc.c:113 | those two halves determine the new mode |
| Swl.MergeModeIdempotent | swl/src/ipc.c:113 | merging the same permissions twice is the same as merging them once |
| Swl.MergeModeKeepsIff | swl/src/ipc.c:112-113 | the merge changes nothing exactly when the permission bits already agree |
| Swl.Configure | swl/src/ipc.c:105-119 | `IPC_SET` is issued exactly when `IPC_STAT` succeeds and the permission bits differ, with the merged mode and every other field unchanged; failure exactly when `IPC_STAT` fails or `IPC_SET` answers -1 |
| Swl.ConfigureSettled | swl/src/ipc.c:112-118 | a segment whose permission bits already match is left alone, and the call succeeds |
| Swl.ConfigureTwice | swl/src/ipc.c:112-118 | after the kernel has taken the new mode, repeating the call issues no `IPC_SET` and succeeds |

## Left out

- Text that carries no value is not modelled: the banner, the comment lines and the wording of headers. `Put`, `PutBanner` and `Header(category)` stand for them.
- The rendering of a line to text is not modelled. This covers the column padding in the format strings and the `const NAME = Cint(...)` spelling. `Numerals` models the digit conversions on their own.
- Pointer-valued constants (`MAP_FAILED`, `SEM_FAILED`, `SIG_DFL`, `SIG_IGN`) are lines without a value. Their values are casts of pointers, which the model does not represent.
- The page size (`sysconf(_SC_PAGESIZE)`) is a field of the platform and is passed through unchecked.
- The `#if 0` blocks of both programs are not part of the model, because they are never compiled. These are `union semnum`, the semaphore limits, the non-POSIX `siginfo_t` members, and the `sa_restorer` offset.
- Sizes, offsets, macro values, integer types and `sysconf` answers are inputs, the fields of `Platform`. `OFFSET_OF`, which is null-pointer arithmetic, is not evaluated.
- The process environment is left out. Writes to standard output and standard error are sequences of lines, and `exit(1)` ends the run.
- `errno` is modelled only in `Swl.GenerateKey`: unchanged, `EINVAL`, or whatever `ftok` set. The other wrappers leave `errno` to the system call, which the model does not represent.
- Swl.Attach: the result of the `shmdt` that undoes a failed attach is ignored by the code, so the model only records which address was detached.
- Swl.InfoOf: `shm_perm.mode` is taken as a 32-bit word. On platforms where it is an `unsigned short`, the upper half is always zero.
- Swl.GenerateKey: `key_t` is taken to be signed, as on the platforms in scope. With an unsigned 32-bit `key_t`, the comparison `res != key` would be made in unsigned arithmetic, and large keys would come back negative.
- Generator.ConstValue: an unguarded `DEF_CONST` of a macro the platform lacks (`SHM_EXEC` at `deps/gencode.c:117`; `SHM_REMAP` at `deps/gendeps.c:230` when only `SHM_EXEC` is defined) is a compile error, and no output exists then. The run functions still produce lines on such a platform, reading `value` of an undefined macro. `Generator.Builds` names the platforms on which a program compiles, and only the lemmas that take it as a precondition speak about compiled programs.
- Platform: `sizeOf` and `intType(x).width` are independent fields. A compiler makes the size of an integer type agree with its width, but the model does not require this. No lemma relies on the two disagreeing.
- Pointer-valued and type entries do not take part in `Generator.Builds`: a missing type or pointer macro is also a compile error, which the model does not represent.
- The segment table is not modelled. Each system call is an oracle parameter, and `Swl.ConfigureTwice` states its assumption about how `IPC_SET` updates the table as a precondition.
