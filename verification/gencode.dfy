/** `gencode`: the older generator of the Julia definitions, with fewer
    entries. Its aliases all carry the `_typeof_` prefix, its `shmat` flags have
    no `#ifdef`, and its `tv_sec` checks do not look at offsets. */
module GenCode {
  import opened Options
  import opened Symbols
  import opened Idents
  import opened Generator

  /** How `gencode` writes each constant. Every entry is unconditional except
      `SEM_VALUE_MAX`; `SHM_REMAP` is never written, so its entry is unused. */
  function Spec(s: Sym): ConstSpec {
    match s
    case O_RDONLY | O_WRONLY | O_RDWR | O_CREAT | O_EXCL | O_TRUNC | IPC_CREAT | IPC_EXCL
       | S_IRWXU | S_IRUSR | S_IWUSR | S_IXUSR | S_IRWXG | S_IRGRP | S_IWGRP | S_IXGRP
       | S_IRWXO | S_IROTH | S_IWOTH | S_IXOTH =>
      ConstSpec(Cint, Oct4, Always)
    case IPC_PRIVATE => ConstSpec(TypeofKeyT, Dec, Always)
    case IPC_NOWAIT | SEM_UNDO => ConstSpec(Cshort, Dec, Always)
    case SEM_VALUE_MAX => ConstSpec(Cint, Dec, IfDefined(SEM_VALUE_MAX))
    // IPC_STAT/SET/RMID, SHM_EXEC, SHM_RDONLY and the semctl commands.
    case _ => ConstSpec(Cint, Dec, Always)
  }

  const Code: Dialect := Dialect(LvaluePrefix, Spec)

  /** The `open` bits, in octal. */
  function OpenBitsSection(): seq<Step> {
    [Heading(OpenBits), Define(O_RDONLY), Define(O_WRONLY), Define(O_RDWR), Define(O_CREAT), Define(O_EXCL), Define(O_TRUNC)]
  }

  /** The permission bits, in octal, as `Cint`. */
  function PermissionBitsSection(): seq<Step> {
    [Heading(PermissionBits), Define(S_IRWXU), Define(S_IRUSR), Define(S_IWUSR), Define(S_IXUSR), Define(S_IRWXG), Define(S_IRGRP), Define(S_IWGRP), Define(S_IXGRP), Define(S_IRWXO), Define(S_IROTH), Define(S_IWOTH), Define(S_IXOTH)]
  }

  /** The `IPC_STAT`, `IPC_SET` and `IPC_RMID` commands. */
  function IpcCommandsSection(): seq<Step> {
    [Heading(IpcCommands), Define(IPC_STAT), Define(IPC_SET), Define(IPC_RMID)]
  }

  /** The `shmget` creation bits, in octal. */
  function ShmgetBitsSection(): seq<Step> {
    [Heading(ShmgetBits), Define(IPC_CREAT), Define(IPC_EXCL)]
  }

  /** The `shmat` flags, without `#ifdef`; `SHM_REMAP` is commented out. */
  function ShmdtFlagsSection(): seq<Step> {
    [Heading(ShmdtFlags), Define(SHM_EXEC), Define(SHM_RDONLY)]
  }

  /** The sizes of four C types. */
  function TypeSizesSection(): seq<Step> {
    [Heading(TypeSizes), SizeOfType(struct_stat, struct_stat), SizeOfType(struct_semid_ds, struct_semid_ds), SizeOfType(pthread_mutex_t, pthread_mutex_t), SizeOfType(pthread_cond_t, pthread_cond_t)]
  }

  /** The field offsets of `struct shmid_ds`. */
  function ShmidDsOffsetsSection(): seq<Step> {
    [Heading(ShmidDsOffsets), OffsetOfField(shm_perm_uid, shmid_ds_shm_perm_uid), OffsetOfField(shm_perm_gid, shmid_ds_shm_perm_gid), OffsetOfField(shm_perm_cuid, shmid_ds_shm_perm_cuid), OffsetOfField(shm_perm_cgid, shmid_ds_shm_perm_cgid), OffsetOfField(shm_perm_mode, shmid_ds_shm_perm_mode), OffsetOfField(shm_segsz, shmid_ds_shm_segsz), OffsetOfField(shm_atime, shmid_ds_shm_atime), OffsetOfField(shm_dtime, shmid_ds_shm_dtime), OffsetOfField(shm_ctime, shmid_ds_shm_ctime), OffsetOfField(shm_cpid, shmid_ds_shm_cpid), OffsetOfField(shm_lpid, shmid_ds_shm_lpid), OffsetOfField(shm_nattch, shmid_ds_shm_nattch)]
  }

  /** `IPC_PRIVATE`, as a `_typeof_key_t`. */
  function IpcKeySection(): seq<Step> {
    [Heading(IpcKey), Define(IPC_PRIVATE)]
  }

  /** The `semctl` commands. */
  function SemctlCommandsSection(): seq<Step> {
    [Heading(SemctlCommands), Define(GETALL), Define(GETNCNT), Define(GETPID), Define(GETVAL), Define(GETZCNT), Define(SETALL), Define(SETVAL)]
  }

  /** The `semop` flags, as `Cshort`. */
  function SemopFlagsSection(): seq<Step> {
    [Heading(SemopFlags), Define(IPC_NOWAIT), Define(SEM_UNDO)]
  }

  /** The layout and field types of `struct sembuf`. */
  function SembufStructSection(): seq<Step> {
    [Heading(SembufStruct), SizeOfType(struct_sembuf, struct_sembuf), OffsetOfField(sem_num, sembuf_sem_num), OffsetOfField(sem_op, sembuf_sem_op), OffsetOfField(sem_flg, sembuf_sem_flg), AliasOfLvalue(sem_num, sembuf_sem_num), AliasOfLvalue(sem_op, sembuf_sem_op), AliasOfLvalue(sem_flg, sembuf_sem_flg)]
  }

  /** `SEM_FAILED` and, when the macro exists, `SEM_VALUE_MAX`. */
  function PosixSemaphoreConstantsSection(): seq<Step> {
    [Heading(PosixSemaphoreConstants), PointerConst(SEM_FAILED), Define(SEM_VALUE_MAX)]
  }

  /** The time types, probed once the `tv_sec` checks pass, then the other
      standard types. */
  function StandardTypes(): seq<Step> {
    [AliasOfLvalue(time_t, time_t), AliasOfLvalue(tv_sec, timeval_tv_sec), AliasOfLvalue(tv_usec, timeval_tv_usec), AliasOfLvalue(tv_nsec, timespec_tv_nsec), AliasOfType(mode_t), AliasOfType(pid_t), AliasOfType(uid_t), AliasOfType(gid_t), AliasOfType(key_t), AliasOfType(nlink_t), AliasOfType(shmatt_t)]
  }

  /** The sections up to the header of the standard types. */
  function FirstPart(): seq<Step> {
    OpenBitsSection()
    + PermissionBitsSection()
    + IpcCommandsSection()
    + ShmgetBitsSection()
    + ShmdtFlagsSection()
    + [Heading(StdTypes)]
  }

  /** From the standard types to the POSIX semaphore constants. */
  function SecondPart(): seq<Step> {
    StandardTypes()
    + TypeSizesSection()
    + ShmidDsOffsetsSection()
    + IpcKeySection()
    + SemctlCommandsSection()
    + SemopFlagsSection()
    + SembufStructSection()
    + PosixSemaphoreConstantsSection()
  }

  /** `main` after the argument check: one check, on the time types only. */
  function Program(): seq<Phase> {
    [Emit(FirstPart()), Verify(TimeFields(false)), Emit(SecondPart())]
  }

  /** A run of `gencode` with the arguments `args` (`argv[1..]`). */
  function Generate(p: Platform, prog: string, args: seq<string>): Outcome {
    Main(p, Code, prog, args, Program())
  }

  // ---------------------------------------------------------------------
  // How a run ends.

  /** The same argument handling as `gendeps`: `--help` or `-h` alone gives status
      0, any other argument status 1, both with usage only; no argument gives
      status 0 exactly when the `tv_sec` fields have the type of `time_t`,
      wherever they sit in their structures. */
  lemma Arguments(p: Platform, prog: string, args: seq<string>)
    ensures AsksForHelp(args) ==> Generate(p, prog, args) == Outcome(0, [], [Usage(prog)])
    ensures args != [] && !AsksForHelp(args) ==> Generate(p, prog, args) == Outcome(1, [], [Usage(prog)])
    ensures args == [] ==>
              (Generate(p, prog, args).status == 0 <==>
                 p.intType(timeval_tv_sec) == p.intType(time_t) && p.intType(timespec_tv_sec) == p.intType(time_t))
  {
    if args == [] {
      TwoPhaseMain(p, Code, prog, FirstPart(), TimeFields(false), SecondPart());
    }
  }

  /** A failing `tv_sec` check ends the run with status 1 and its complaint,
      after the lines up to the header of the standard types. */
  lemma TimeCheckFailure(p: Platform, prog: string)
    requires TimeCheck(p, false).Some?
    ensures Generate(p, prog, []) == Outcome(1, EmitAll(p, Code, FirstPart()), [TimeCheck(p, false).value])
    ensures Generate(p, prog, []).err[0].NotTimeT?
  {
    TwoPhaseMain(p, Code, prog, FirstPart(), TimeFields(false), SecondPart());
  }

  /** Otherwise both parts are written and the status is 0. */
  lemma CompleteRun(p: Platform, prog: string)
    requires TimeCheck(p, false).None?
    ensures Generate(p, prog, []) == Outcome(0, EmitAll(p, Code, FirstPart()) + EmitAll(p, Code, SecondPart()), [])
  {
    TwoPhaseMain(p, Code, prog, FirstPart(), TimeFields(false), SecondPart());
  }

  /** A `tv_sec` away from the start of its structure, which `gendeps`
      rejects, does not stop `gencode`. */
  lemma OffsetsAreNotChecked(p: Platform, prog: string)
    requires p.intType(timeval_tv_sec) == p.intType(time_t) && p.intType(timespec_tv_sec) == p.intType(time_t)
    requires p.offsetOf(timeval_tv_sec) != 0
    ensures Generate(p, prog, []).status == 0
    ensures TimeCheck(p, true) == Some(NotFirst(struct_timeval))
  {
    CompleteRun(p, prog);
  }

  // ---------------------------------------------------------------------
  // Where the catalog puts its entries.

  lemma OpenBitsInFirstPart(st: Step)
    requires st in OpenBitsSection()
    ensures st in FirstPart()
  {
  }

  lemma StandardTypesInSecondPart(st: Step)
    requires st in StandardTypes()
    ensures st in SecondPart()
  {
  }

  lemma MiddleSectionsInFirstPart(st: Step)
    requires st in PermissionBitsSection() + IpcCommandsSection() + ShmgetBitsSection()
    ensures st in FirstPart()
  {
  }

  lemma SemctlCommandsInSecondPart(st: Step)
    requires st in SemctlCommandsSection()
    ensures st in SecondPart()
  {
  }

  lemma ShmdtFlagsInFirstPart(st: Step)
    requires st in ShmdtFlagsSection()
    ensures st in FirstPart()
  {
  }

  lemma PosixSemaphoreConstantsInSecondPart(st: Step)
    requires st in PosixSemaphoreConstantsSection()
    ensures st in SecondPart()
  {
  }

  lemma NoShmRemapInFirstPart()
    ensures Define(SHM_REMAP) !in FirstPart()
  {
    assert Define(SHM_REMAP) !in OpenBitsSection();
    assert Define(SHM_REMAP) !in PermissionBitsSection();
    assert Define(SHM_REMAP) !in IpcCommandsSection();
    assert Define(SHM_REMAP) !in ShmgetBitsSection();
    assert Define(SHM_REMAP) !in ShmdtFlagsSection();
  }

  lemma NoShmRemapInSecondPart()
    ensures Define(SHM_REMAP) !in SecondPart()
  {
    assert Define(SHM_REMAP) !in StandardTypes();
    assert Define(SHM_REMAP) !in TypeSizesSection();
    assert Define(SHM_REMAP) !in ShmidDsOffsetsSection();
    assert Define(SHM_REMAP) !in IpcKeySection();
    assert Define(SHM_REMAP) !in SemctlCommandsSection();
    assert Define(SHM_REMAP) !in SemopFlagsSection();
    assert Define(SHM_REMAP) !in SembufStructSection();
    assert Define(SHM_REMAP) !in PosixSemaphoreConstantsSection();
  }

  // ---------------------------------------------------------------------
  // What the catalog writes.

  /** `SHM_REMAP` is never written, whatever the platform defines. */
  lemma ShmRemapNeverWritten(p: Platform, prog: string)
    ensures !HasConstant(Generate(p, prog, []).out, SHM_REMAP)
  {
    NoShmRemapInFirstPart();
    NoShmRemapInSecondPart();
    AbsentEntryHasNoLine(p, Code, FirstPart(), SHM_REMAP);
    AbsentEntryHasNoLine(p, Code, SecondPart(), SHM_REMAP);
    HasConstantAppend(EmitAll(p, Code, FirstPart()), EmitAll(p, Code, SecondPart()), SHM_REMAP);
    TwoPhaseMain(p, Code, prog, FirstPart(), TimeFields(false), SecondPart());
  }

  /** `SHM_EXEC` has no `#ifdef`: its line is written whenever its entry is
      reached. */
  lemma ShmExecUnconditional(p: Platform, steps: seq<Step>)
    requires Define(SHM_EXEC) in steps
    ensures HasConstant(EmitAll(p, Code, steps), SHM_EXEC)
  {
    ConstantLineIff(p, Code, steps, SHM_EXEC);
  }

  /** For the same reason a program holding the entry builds only where the
      macro exists, and then writes the macro's value. */
  lemma ShmExecNeedsMacro(p: Platform, steps: seq<Step>)
    requires Define(SHM_EXEC) in steps && Builds(p, Code, steps)
    ensures p.defined(SHM_EXEC)
    ensures Constant(SHM_EXEC, p.value(SHM_EXEC), Cint, Dec) in EmitAll(p, Code, steps)
  {
    EntryCompiles(p, Code, steps, SHM_EXEC);
    AlwaysConstantWritten(p, Code, steps, SHM_EXEC, Cint, Dec);
  }

  /** `SEM_VALUE_MAX` is written exactly when the macro is defined, as the
      macro's own value; there is no `sysconf` fallback here. */
  lemma SemValueMaxIff(p: Platform, steps: seq<Step>)
    requires Define(SEM_VALUE_MAX) in steps
    ensures HasConstant(EmitAll(p, Code, steps), SEM_VALUE_MAX) <==> p.defined(SEM_VALUE_MAX)
  {
    ConstantLineIff(p, Code, steps, SEM_VALUE_MAX);
  }

  /** Every constant of `steps` is written as `cs` says. */
  predicate WrittenAs(steps: seq<Step>, cs: ConstSpec) {
    forall i :: 0 <= i < |steps| && steps[i].Define? ==> Spec(steps[i].sym) == cs
  }

  lemma OctalSections()
    ensures WrittenAs(OpenBitsSection(), ConstSpec(Cint, Oct4, Always))
    ensures WrittenAs(PermissionBitsSection(), ConstSpec(Cint, Oct4, Always))
    ensures WrittenAs(ShmgetBitsSection(), ConstSpec(Cint, Oct4, Always))
  {
  }

  lemma DecimalCommandSections()
    ensures WrittenAs(IpcCommandsSection(), ConstSpec(Cint, Dec, Always))
    ensures WrittenAs(SemctlCommandsSection(), ConstSpec(Cint, Dec, Always))
  {
  }

  /** An entry of a section whose constants are all written as `cs` is
      written as `cs`. */
  lemma SpecFromSection(steps: seq<Step>, cs: ConstSpec, s: Sym)
    requires WrittenAs(steps, cs) && Define(s) in steps
    ensures Code.spec(s) == cs
  {
    var i :| 0 <= i < |steps| && steps[i] == Define(s);
  }

  /** Bits are written in the first part as `Cint` in octal with at least
      four digits, permission bits included. */
  lemma BitsInOctal(p: Platform, s: Sym)
    requires Define(s) in OpenBitsSection() || Define(s) in PermissionBitsSection() || Define(s) in ShmgetBitsSection()
    ensures Constant(s, p.value(s), Cint, Oct4) in EmitAll(p, Code, FirstPart())
  {
    OctalSections();
    if Define(s) in OpenBitsSection() {
      SpecFromSection(OpenBitsSection(), ConstSpec(Cint, Oct4, Always), s);
      OpenBitsInFirstPart(Define(s));
    } else if Define(s) in PermissionBitsSection() {
      SpecFromSection(PermissionBitsSection(), ConstSpec(Cint, Oct4, Always), s);
      MiddleSectionsInFirstPart(Define(s));
    } else {
      SpecFromSection(ShmgetBitsSection(), ConstSpec(Cint, Oct4, Always), s);
      MiddleSectionsInFirstPart(Define(s));
    }
    AlwaysConstantWritten(p, Code, FirstPart(), s, Cint, Oct4);
  }

  /** The `shmctl` commands `IPC_STAT`, `IPC_SET` and `IPC_RMID` are written
      in the first part as `Cint` in decimal. */
  lemma IpcCommandsInDecimal(p: Platform, s: Sym)
    requires Define(s) in IpcCommandsSection()
    ensures Constant(s, p.value(s), Cint, Dec) in EmitAll(p, Code, FirstPart())
  {
    DecimalCommandSections();
    SpecFromSection(IpcCommandsSection(), ConstSpec(Cint, Dec, Always), s);
    MiddleSectionsInFirstPart(Define(s));
    AlwaysConstantWritten(p, Code, FirstPart(), s, Cint, Dec);
  }

  /** The `semctl` commands are written in the second part as `Cint` in
      decimal. */
  lemma SemctlCommandsInDecimal(p: Platform, s: Sym)
    requires Define(s) in SemctlCommandsSection()
    ensures Constant(s, p.value(s), Cint, Dec) in EmitAll(p, Code, SecondPart())
  {
    DecimalCommandSections();
    SpecFromSection(SemctlCommandsSection(), ConstSpec(Cint, Dec, Always), s);
    SemctlCommandsInSecondPart(Define(s));
    AlwaysConstantWritten(p, Code, SecondPart(), s, Cint, Dec);
  }

  /** A standard type is written in the second part as `_typeof_<type>`, the
      Julia integer of its own signedness and width. */
  lemma PrefixedTypeAlias(p: Platform, ctype: Ident)
    requires AliasOfType(ctype) in StandardTypes()
    ensures TypeAlias("_typeof_", ctype, p.intType(ctype).signed, p.intType(ctype).width.Bits()) in EmitAll(p, Code, SecondPart())
  {
    StandardTypesInSecondPart(AliasOfType(ctype));
    TypeAliasWritten(p, Code, SecondPart(), ctype);
  }

  /** The headers of the first part, in order: open bits, permissions, IPC
      commands, `shmget` bits, `shmat` flags, standard types. */
  lemma FirstPartHeaders(p: Platform)
    ensures HeaderCats(EmitAll(p, Code, FirstPart())) == [OpenBits, PermissionBits, IpcCommands, ShmgetBits, ShmdtFlags, StdTypes]
  {
    var front := OpenBitsSection() + PermissionBitsSection() + IpcCommandsSection();
    var back := ShmgetBitsSection() + ShmdtFlagsSection() + [Heading(StdTypes)];
    assert FirstPart() == front + back;
    OpenerHeadings(p);
    CloserHeadings(p);
    PresentHeadingsAppend(p, front, back);
    HeadersInCatalogOrder(p, Code, FirstPart());
  }

  lemma OpenerHeadings(p: Platform)
    ensures PresentHeadings(p, OpenBitsSection() + PermissionBitsSection() + IpcCommandsSection())
            == [OpenBits, PermissionBits, IpcCommands]
  {
    var s1, s2, s3 := OpenBitsSection(), PermissionBitsSection(), IpcCommandsSection();
    OneHeading(p, s1);
    OneHeading(p, s2);
    OneHeading(p, s3);
    PresentHeadingsAppend(p, s1, s2);
    PresentHeadingsAppend(p, s1 + s2, s3);
  }

  lemma CloserHeadings(p: Platform)
    ensures PresentHeadings(p, ShmgetBitsSection() + ShmdtFlagsSection() + [Heading(StdTypes)])
            == [ShmgetBits, ShmdtFlags, StdTypes]
  {
    var s4, s5, s6 := ShmgetBitsSection(), ShmdtFlagsSection(), [Heading(StdTypes)];
    OneHeading(p, s4);
    OneHeading(p, s5);
    OneHeading(p, s6);
    PresentHeadingsAppend(p, s4, s5);
    PresentHeadingsAppend(p, s4 + s5, s6);
  }

  /** The headers of the second part, in order: sizes, offsets, the IPC key,
      `semctl`, `semop`, `sembuf`, POSIX semaphores. The standard types carry
      no header of their own. */
  lemma SecondPartHeaders(p: Platform)
    ensures HeaderCats(EmitAll(p, Code, SecondPart()))
            == [TypeSizes, ShmidDsOffsets, IpcKey, SemctlCommands, SemopFlags, SembufStruct, PosixSemaphoreConstants]
  {
    var front := StandardTypes() + TypeSizesSection() + ShmidDsOffsetsSection() + IpcKeySection();
    var back := SemctlCommandsSection() + SemopFlagsSection() + SembufStructSection() + PosixSemaphoreConstantsSection();
    Regroup(front, SemctlCommandsSection(), SemopFlagsSection(), SembufStructSection(), PosixSemaphoreConstantsSection());
    FrontHeadings(p);
    BackHeadings(p);
    PresentHeadingsAppend(p, front, back);
    HeadersInCatalogOrder(p, Code, SecondPart());
  }

  lemma FrontHeadings(p: Platform)
    ensures PresentHeadings(p, StandardTypes() + TypeSizesSection() + ShmidDsOffsetsSection() + IpcKeySection())
            == [TypeSizes, ShmidDsOffsets, IpcKey]
  {
    var s0, s1, s2, s3 := StandardTypes(), TypeSizesSection(), ShmidDsOffsetsSection(), IpcKeySection();
    StandardTypesUnheaded(p);
    OneHeading(p, s1);
    OneHeading(p, s2);
    OneHeading(p, s3);
    PresentHeadingsAppend(p, s0, s1);
    PresentHeadingsAppend(p, s0 + s1, s2);
    PresentHeadingsAppend(p, s0 + s1 + s2, s3);
  }

  lemma StandardTypesUnheaded(p: Platform)
    ensures PresentHeadings(p, StandardTypes()) == []
  {
    NoHeadings(p, StandardTypes());
  }

  lemma BackHeadings(p: Platform)
    ensures PresentHeadings(p, SemctlCommandsSection() + SemopFlagsSection() + SembufStructSection() + PosixSemaphoreConstantsSection())
            == [SemctlCommands, SemopFlags, SembufStruct, PosixSemaphoreConstants]
  {
    var s4, s5, s6, s7 := SemctlCommandsSection(), SemopFlagsSection(), SembufStructSection(), PosixSemaphoreConstantsSection();
    OneHeading(p, s4);
    OneHeading(p, s5);
    OneHeading(p, s6);
    OneHeading(p, s7);
    PresentHeadingsAppend(p, s4, s5);
    PresentHeadingsAppend(p, s4 + s5, s6);
    PresentHeadingsAppend(p, s4 + s5 + s6, s7);
  }

  /** Sections appended one after another form the same steps as a front
      followed by the rest taken together. */
  lemma Regroup(front: seq<Step>, s4: seq<Step>, s5: seq<Step>, s6: seq<Step>, s7: seq<Step>)
    ensures front + s4 + s5 + s6 + s7 == front + (s4 + s5 + s6 + s7)
  {
  }
}
