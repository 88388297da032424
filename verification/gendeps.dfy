/** `gendeps`: writes the Julia definitions the package needs (`deps.jl`)
    from what the C compiler knows about the host. The catalog below lists its
    statements in program order; the lemmas state what any run of it writes. */
module GenDeps {
  import opened Options
  import opened OpaqueTypes
  import opened Symbols
  import opened Idents
  import opened Generator

  /** How `gendeps` writes each constant: its Julia wrapper, its `printf`
      conversion and the `#ifdef`/`#ifndef` around it. */
  function Spec(s: Sym): ConstSpec {
    match s
    case O_RDONLY | O_WRONLY | O_RDWR | O_CREAT | O_EXCL | O_TRUNC | IPC_CREAT | IPC_EXCL =>
      ConstSpec(Cint, Oct4, Always)
    case S_IRWXU | S_IRUSR | S_IWUSR | S_IXUSR | S_IRWXG | S_IRGRP | S_IWGRP | S_IXGRP
       | S_IRWXO | S_IROTH | S_IWOTH | S_IXOTH =>
      ConstSpec(ModeT, Oct4, Always)
    case SHM_EXEC | SHM_REMAP => ConstSpec(Cint, Dec, IfDefined(SHM_EXEC))
    case CLOCK_REALTIME => ConstSpec(ClockidT, Dec, OrDefault(0))
    case CLOCK_MONOTONIC => ConstSpec(ClockidT, Dec, OrDefault(1))
    case PTHREAD_PROCESS_SHARED | PTHREAD_PROCESS_PRIVATE => ConstSpec(Bare, Dec, Always)
    case IPC_PRIVATE => ConstSpec(KeyT, Dec, Always)
    case IPC_NOWAIT | SEM_UNDO => ConstSpec(Cshort, Dec, Always)
    case SEMVMX => ConstSpec(Bare, Dec, OrDefault(32767))
    case SEMMNI | SEMMSL | SEMMNS | SEMOPM | SEMAEM => ConstSpec(Bare, Dec, IfDefined(s))
    case SA_SIGINFO | SA_NOCLDSTOP | SA_NOCLDWAIT | SA_NODEFER | SA_ONSTACK | SA_RESETHAND | SA_RESTART =>
      ConstSpec(SigactionFlags, Hex8, Always)
    case SIGRTMIN | SIGRTMAX | SIG_BLOCK | SIG_UNBLOCK | SIG_SETMASK
       | SI_USER | SI_KERNEL | SI_QUEUE | SI_TIMER | SI_MESGQ | SI_ASYNCIO | SI_SIGIO | SI_TKILL
       | ILL_ILLOPC | ILL_ILLOPN | ILL_ILLADR | ILL_ILLTRP | ILL_PRVOPC | ILL_PRVREG | ILL_COPROC | ILL_BADSTK
       | FPE_INTDIV | FPE_INTOVF | FPE_FLTDIV | FPE_FLTOVF | FPE_FLTUND | FPE_FLTRES | FPE_FLTINV | FPE_FLTSUB
       | SEGV_MAPERR | SEGV_ACCERR
       | BUS_ADRALN | BUS_ADRERR | BUS_OBJERR | BUS_MCEERR_AR | BUS_MCEERR_AO
       | TRAP_BRKPT | TRAP_TRACE | TRAP_BRANCH | TRAP_HWBKPT
       | CLD_EXITED | CLD_KILLED | CLD_DUMPED | CLD_TRAPPED | CLD_STOPPED | CLD_CONTINUED
       | POLL_IN | POLL_OUT | POLL_MSG | POLL_ERR | POLL_PRI | POLL_HUP
       | SYS_SECCOMP =>
      ConstSpec(Cint, Dec, IfDefined(s))
    case SIGHUP | SIGINT | SIGQUIT | SIGILL | SIGABRT | SIGFPE | SIGKILL | SIGSEGV | SIGPIPE
       | SIGALRM | SIGTERM | SIGUSR1 | SIGUSR2 | SIGCHLD | SIGCONT | SIGSTOP | SIGTSTP | SIGTTIN
       | SIGTTOU | SIGBUS | SIGPOLL | SIGPROF | SIGSYS | SIGTRAP | SIGURG | SIGVTALRM | SIGXCPU
       | SIGXFSZ | SIGIOT | SIGEMT | SIGSTKFLT | SIGIO | SIGCLD | SIGPWR | SIGINFO | SIGLOST
       | SIGWINCH | SIGUNUSED =>
      ConstSpec(Cint, Dec2, IfDefined(s))
    // SEEK_*, IPC_STAT/SET/RMID, SHM_RDONLY, the mmap constants and the
    // semctl commands; SEM_VALUE_MAX is never written by `DEF_CONST` here.
    case _ => ConstSpec(Cint, Dec, Always)
  }


  const Deps: Dialect := Dialect("", Spec)

  /** `SUCCESS` and `FAILURE`, written verbatim. */
  function StatusCodesSection(): seq<Step> {
    [Heading(StatusCodes), Put("const SUCCESS = Cint( 0)"), Put("const FAILURE = Cint(-1)")]
  }

  /** The standard C integer types, each probed for its signedness. */
  function StdTypesSection(): seq<Step> {
    [Heading(StdTypes), AliasOfType(time_t), AliasOfType(clock_t), AliasOfType(size_t), AliasOfType(ssize_t), AliasOfType(mode_t), AliasOfType(dev_t), AliasOfType(ino_t), AliasOfType(pid_t), AliasOfType(uid_t), AliasOfType(gid_t), AliasOfType(key_t), AliasOfType(nlink_t), AliasOfType(shmatt_t), AliasOfType(off_t), AliasOfType(blksize_t), AliasOfType(blkcnt_t)]
  }

  /** The `open` bits, in octal. */
  function OpenBitsSection(): seq<Step> {
    [Heading(OpenBits), Define(O_RDONLY), Define(O_WRONLY), Define(O_RDWR), Define(O_CREAT), Define(O_EXCL), Define(O_TRUNC)]
  }

  /** The permission bits, in octal, as `mode_t`. */
  function PermissionBitsSection(): seq<Step> {
    [Heading(PermissionBits), Define(S_IRWXU), Define(S_IRUSR), Define(S_IWUSR), Define(S_IXUSR), Define(S_IRWXG), Define(S_IRGRP), Define(S_IWGRP), Define(S_IXGRP), Define(S_IRWXO), Define(S_IROTH), Define(S_IWOTH), Define(S_IXOTH)]
  }

  /** The `whence` argument of `lseek`. */
  function LseekWhenceSection(): seq<Step> {
    [Heading(LseekWhence), Define(SEEK_SET), Define(SEEK_CUR), Define(SEEK_END)]
  }

  /** The `IPC_STAT`, `IPC_SET` and `IPC_RMID` commands. */
  function IpcCommandsSection(): seq<Step> {
    [Heading(IpcCommands), Define(IPC_STAT), Define(IPC_SET), Define(IPC_RMID)]
  }

  /** The `shmget` creation bits, in octal. */
  function ShmgetBitsSection(): seq<Step> {
    [Heading(ShmgetBits), Define(IPC_CREAT), Define(IPC_EXCL)]
  }

  /** The `shmat` flags; `SHM_EXEC` and `SHM_REMAP` both sit inside `#ifdef SHM_EXEC`. */
  function ShmdtFlagsSection(): seq<Step> {
    [Heading(ShmdtFlags), Define(SHM_EXEC), Define(SHM_RDONLY), Define(SHM_REMAP)]
  }

  /** The `mmap` and `msync` constants. */
  function MmapConstantsSection(): seq<Step> {
    [Heading(MmapConstants), Define(PROT_NONE), Define(PROT_READ), Define(PROT_WRITE), Define(PROT_EXEC), Define(MAP_SHARED), Define(MAP_PRIVATE), Define(MAP_ANONYMOUS), Define(MAP_FIXED), PointerConst(MAP_FAILED), Define(MS_ASYNC), Define(MS_SYNC), Define(MS_INVALIDATE)]
  }

  /** The page size reported by `sysconf`. */
  function MemoryPageSection(): seq<Step> {
    [Heading(MemoryPage), ReportPageSize]
  }

  /** `clockid_t` and the two clocks, with 0 and 1 when undefined. */
  function PosixClocksSection(): seq<Step> {
    [Heading(PosixClocks), AliasOfType(clockid_t), Define(CLOCK_REALTIME), Define(CLOCK_MONOTONIC)]
  }

  /** The sizes of the POSIX thread objects and the sharing constants. */
  function PthreadSizesSection(): seq<Step> {
    [Heading(PthreadSizes), SizeOfType(pthread_mutex_t, pthread_mutex_t), SizeOfType(pthread_mutexattr_t, pthread_mutexattr_t), SizeOfType(pthread_cond_t, pthread_cond_t), SizeOfType(pthread_condattr_t, pthread_condattr_t), SizeOfType(pthread_rwlock_t, pthread_rwlock_t), SizeOfType(pthread_rwlockattr_t, pthread_rwlockattr_t), Define(PTHREAD_PROCESS_SHARED), Define(PTHREAD_PROCESS_PRIVATE)]
  }

  /** The size and field offsets of `struct stat`. */
  function StatStructSection(): seq<Step> {
    [Heading(StatStruct), SizeOfType(struct_stat, struct_stat), OffsetOfField(stat_dev, stat_st_dev), OffsetOfField(stat_ino, stat_st_ino), OffsetOfField(stat_mode, stat_st_mode), OffsetOfField(stat_nlink, stat_st_nlink), OffsetOfField(stat_uid, stat_st_uid), OffsetOfField(stat_gid, stat_st_gid), OffsetOfField(stat_rdev, stat_st_rdev), OffsetOfField(stat_size, stat_st_size), OffsetOfField(stat_blksize, stat_st_blksize), OffsetOfField(stat_blocks, stat_st_blocks), OffsetOfField(stat_atime, stat_st_atim), OffsetOfField(stat_mtime, stat_st_mtim), OffsetOfField(stat_ctime, stat_st_ctim)]
  }

  /** The size and field offsets of `struct shmid_ds`, then two field types. */
  function ShmidDsStructSection(): seq<Step> {
    [Heading(ShmidDsStruct), SizeOfType(struct_shmid_ds, struct_shmid_ds), OffsetOfField(shm_perm_uid, shmid_ds_shm_perm_uid), OffsetOfField(shm_perm_gid, shmid_ds_shm_perm_gid), OffsetOfField(shm_perm_cuid, shmid_ds_shm_perm_cuid), OffsetOfField(shm_perm_cgid, shmid_ds_shm_perm_cgid), OffsetOfField(shm_perm_mode, shmid_ds_shm_perm_mode), OffsetOfField(shm_segsz, shmid_ds_shm_segsz), OffsetOfField(shm_atime, shmid_ds_shm_atime), OffsetOfField(shm_dtime, shmid_ds_shm_dtime), OffsetOfField(shm_ctime, shmid_ds_shm_ctime), OffsetOfField(shm_cpid, shmid_ds_shm_cpid), OffsetOfField(shm_lpid, shmid_ds_shm_lpid), OffsetOfField(shm_nattch, shmid_ds_shm_nattch), AliasOfLvalue(shm_segsz, shmid_ds_shm_segsz), AliasOfLvalue(shm_perm_mode, shmid_ds_shm_perm_mode)]
  }

  /** The size and field offsets of `struct semid_ds`, then two field types. */
  function SemidDsStructSection(): seq<Step> {
    [Heading(SemidDsStruct), SizeOfType(struct_semid_ds, struct_semid_ds), OffsetOfField(sem_perm_uid, semid_ds_sem_perm_uid), OffsetOfField(sem_perm_gid, semid_ds_sem_perm_gid), OffsetOfField(sem_perm_cuid, semid_ds_sem_perm_cuid), OffsetOfField(sem_perm_cgid, semid_ds_sem_perm_cgid), OffsetOfField(sem_perm_mode, semid_ds_sem_perm_mode), OffsetOfField(sem_otime, semid_ds_sem_otime), OffsetOfField(sem_ctime, semid_ds_sem_ctime), OffsetOfField(sem_nsems, semid_ds_sem_nsems), AliasOfLvalue(sem_nsems, semid_ds_sem_nsems), AliasOfLvalue(sem_perm_mode, semid_ds_sem_perm_mode)]
  }

  /** `IPC_PRIVATE`, as a `key_t`. */
  function IpcKeySection(): seq<Step> {
    [Heading(IpcKey), Define(IPC_PRIVATE)]
  }

  /** The `semctl` commands. */
  function SemctlCommandsSection(): seq<Step> {
    [Heading(SemctlCommands), Define(GETALL), Define(GETNCNT), Define(GETPID), Define(GETVAL), Define(GETZCNT), Define(SETALL), Define(SETVAL)]
  }

  /** The `semop` flags, as `Cshort`. */
  function SemopFlagsSection(): seq<Step> {
    [Heading(SemopFlags), Define(IPC_NOWAIT), Define(SEM_UNDO)]
  }

  /** The System V semaphore limits; `SEMVMX` defaults to 32767. */
  function SemLimitsSection(): seq<Step> {
    [Heading(SemLimits), Define(SEMVMX), Define(SEMMNI), Define(SEMMSL), Define(SEMMNS), Define(SEMOPM), Define(SEMAEM)]
  }

  /** The layout and field types of `struct sembuf`. */
  function SembufStructSection(): seq<Step> {
    [Heading(SembufStruct), SizeOfType(struct_sembuf, struct_sembuf), OffsetOfField(sem_num, sembuf_sem_num), OffsetOfField(sem_op, sembuf_sem_op), OffsetOfField(sem_flg, sembuf_sem_flg), AliasOfLvalue(sem_num, sembuf_sem_num), AliasOfLvalue(sem_op, sembuf_sem_op), AliasOfLvalue(sem_flg, sembuf_sem_flg)]
  }

  /** `sem_t`, `SEM_FAILED` and the largest semaphore value. */
  function PosixSemaphoresSection(): seq<Step> {
    [Heading(PosixSemaphores), SizeOfType(sem_t, sem_t), PointerConst(SEM_FAILED), ReportSemValueMax]
  }

  /** The real-time signal range, the mask commands, `sigval_t` and `sigset_t`. */
  function RealtimeSignalsSection(): seq<Step> {
    [Heading(RealtimeSignals), Define(SIGRTMIN), Define(SIGRTMAX), Define(SIG_BLOCK), Define(SIG_UNBLOCK), Define(SIG_SETMASK), SizedSignedAlias(sigval_t, sigval_t), WordsOf(sigset, sigset_t, true), SizeOfType(sigset, sigset_t)]
  }

  /** The layout of `struct sigaction`, its flags and the special handlers. */
  function SigactionStructSection(): seq<Step> {
    [Heading(SigactionStruct), SizeOfType(sigaction, struct_sigaction), OffsetOfField(sigaction_handler, sigaction_sa_handler), OffsetOfField(sigaction_action, sigaction_sa_sigaction), OffsetOfField(sigaction_mask, sigaction_sa_mask), OffsetOfField(sigaction_flags, sigaction_sa_flags), ForcedUnsignedAlias(sigaction_flags, sigaction_sa_flags), Define(SA_SIGINFO), Define(SA_NOCLDSTOP), Define(SA_NOCLDWAIT), Define(SA_NODEFER), Define(SA_ONSTACK), Define(SA_RESETHAND), Define(SA_RESTART), PointerConst(SIG_DFL), PointerConst(SIG_IGN)]
  }

  /** The `si_code` values of any signal. */
  function SiCodeRegularSection(): seq<Step> {
    [Heading(SiCodeRegular), Define(SI_USER), Define(SI_KERNEL), Define(SI_QUEUE), Define(SI_TIMER), Define(SI_MESGQ), Define(SI_ASYNCIO), Define(SI_SIGIO), Define(SI_TKILL)]
  }

  /** The `si_code` values of SIGILL. */
  function SiCodeIllSection(): seq<Step> {
    [Heading(SiCodeIll), Define(ILL_ILLOPC), Define(ILL_ILLOPN), Define(ILL_ILLADR), Define(ILL_ILLTRP), Define(ILL_PRVOPC), Define(ILL_PRVREG), Define(ILL_COPROC), Define(ILL_BADSTK)]
  }

  /** The `si_code` values of SIGFPE. */
  function SiCodeFpeSection(): seq<Step> {
    [Heading(SiCodeFpe), Define(FPE_INTDIV), Define(FPE_INTOVF), Define(FPE_FLTDIV), Define(FPE_FLTOVF), Define(FPE_FLTUND), Define(FPE_FLTRES), Define(FPE_FLTINV), Define(FPE_FLTSUB)]
  }

  /** The `si_code` values of SIGSEGV. */
  function SiCodeSegvSection(): seq<Step> {
    [Heading(SiCodeSegv), Define(SEGV_MAPERR), Define(SEGV_ACCERR)]
  }

  /** The `si_code` values of SIGBUS. */
  function SiCodeBusSection(): seq<Step> {
    [Heading(SiCodeBus), Define(BUS_ADRALN), Define(BUS_ADRERR), Define(BUS_OBJERR), Define(BUS_MCEERR_AR), Define(BUS_MCEERR_AO)]
  }

  /** The `si_code` values of SIGTRAP. */
  function SiCodeTrapSection(): seq<Step> {
    [Heading(SiCodeTrap), Define(TRAP_BRKPT), Define(TRAP_TRACE), Define(TRAP_BRANCH), Define(TRAP_HWBKPT)]
  }

  /** The `si_code` values of SIGCHLD. */
  function SiCodeChldSection(): seq<Step> {
    [Heading(SiCodeChld), Define(CLD_EXITED), Define(CLD_KILLED), Define(CLD_DUMPED), Define(CLD_TRAPPED), Define(CLD_STOPPED), Define(CLD_CONTINUED)]
  }

  /** The `si_code` values of SIGPOLL. */
  function SiCodePollSection(): seq<Step> {
    [Heading(SiCodePoll), Define(POLL_IN), Define(POLL_OUT), Define(POLL_MSG), Define(POLL_ERR), Define(POLL_PRI), Define(POLL_HUP)]
  }

  /** The `si_code` value of SIGSYS; the header itself depends on `SYS_SECCOMP`. */
  function SiCodeSysSection(): seq<Step> {
    [Heading(SiCodeSys), Define(SYS_SECCOMP)]
  }

  /** The signal numbers, each under its own `#ifdef`. */
  function SignalNumbersSection(): seq<Step> {
    [Heading(SignalNumbers), Define(SIGHUP), Define(SIGINT), Define(SIGQUIT), Define(SIGILL), Define(SIGABRT), Define(SIGFPE), Define(SIGKILL), Define(SIGSEGV), Define(SIGPIPE), Define(SIGALRM), Define(SIGTERM), Define(SIGUSR1), Define(SIGUSR2), Define(SIGCHLD), Define(SIGCONT), Define(SIGSTOP), Define(SIGTSTP), Define(SIGTTIN), Define(SIGTTOU), Define(SIGBUS), Define(SIGPOLL), Define(SIGPROF), Define(SIGSYS), Define(SIGTRAP), Define(SIGURG), Define(SIGVTALRM), Define(SIGXCPU), Define(SIGXFSZ), Define(SIGIOT), Define(SIGEMT), Define(SIGSTKFLT), Define(SIGIO), Define(SIGCLD), Define(SIGPWR), Define(SIGINFO), Define(SIGLOST), Define(SIGWINCH), Define(SIGUNUSED)]
  }

  /** The time-field aliases, written once the `tv_sec` checks pass. */
  function TimeFieldAliases(): seq<Step> {
    [AliasOfLvalue(timeval_sec, timeval_tv_sec), AliasOfLvalue(timeval_usec, timeval_tv_usec), AliasOfLvalue(timespec_sec, timespec_tv_sec), AliasOfLvalue(timespec_nsec, timespec_tv_nsec)]
  }

  /** The `siginfo_t` tiling, size and offsets, written once its member checks
      pass. */
  function SiginfoLayout(): seq<Step> {
    [WordsOf(siginfo, siginfo_t, true), SizeOfType(siginfo, siginfo_t), OffsetOfField(siginfo_signo, siginfo_t_si_signo), OffsetOfField(siginfo_code, siginfo_t_si_code), OffsetOfField(siginfo_errno, siginfo_t_si_errno), OffsetOfField(siginfo_pid, siginfo_t_si_pid), OffsetOfField(siginfo_uid, siginfo_t_si_uid), OffsetOfField(siginfo_status, siginfo_t_si_status), OffsetOfField(siginfo_value, siginfo_t_si_value), OffsetOfField(siginfo_addr, siginfo_t_si_addr), OffsetOfField(siginfo_band, siginfo_t_si_band)]
  }

  /** The banner and the sections up to the header of the time fields. */
  function FirstPart(): seq<Step> {
    [PutBanner]
    + StatusCodesSection()
    + StdTypesSection()
    + OpenBitsSection()
    + PermissionBitsSection()
    + LseekWhenceSection()
    + IpcCommandsSection()
    + ShmgetBitsSection()
    + ShmdtFlagsSection()
    + MmapConstantsSection()
    + MemoryPageSection()
    + [Heading(TimeStructs)]
  }

  /** From the time-field aliases to the header of `siginfo_t`. */
  function SecondPart(): seq<Step> {
    TimeFieldAliases()
    + PosixClocksSection()
    + PthreadSizesSection()
    + StatStructSection()
    + ShmidDsStructSection()
    + SemidDsStructSection()
    + IpcKeySection()
    + SemctlCommandsSection()
    + SemopFlagsSection()
    + SemLimitsSection()
    + SembufStructSection()
    + PosixSemaphoresSection()
    + RealtimeSignalsSection()
    + SigactionStructSection()
    + [Heading(SiginfoStruct)]
  }

  /** From the `siginfo_t` layout to the last signal number. */
  function ThirdPart(): seq<Step> {
    SiginfoLayout()
    + SiCodeRegularSection()
    + SiCodeIllSection()
    + SiCodeFpeSection()
    + SiCodeSegvSection()
    + SiCodeBusSection()
    + SiCodeTrapSection()
    + SiCodeChldSection()
    + SiCodePollSection()
    + SiCodeSysSection()
    + SignalNumbersSection()
  }

  /** `main` after the argument check. The time checks are the ones with the
      offset test. */
  function Program(): seq<Phase> {
    [Emit(FirstPart()), Verify(TimeFields(true)), Emit(SecondPart()), Verify(SiginfoMembers), Emit(ThirdPart())]
  }

  /** A run of `gendeps` with the arguments `args` (`argv[1..]`). */
  function Generate(p: Platform, prog: string, args: seq<string>): Outcome {
    Main(p, Deps, prog, args, Program())
  }

  // ---------------------------------------------------------------------
  // How a run ends.

  /** `--help` or `-h` alone: usage on standard error, nothing on standard
      output, status 0. Any other argument: the same with status 1. No
      argument: status 0 exactly when every layout check passes. */
  lemma Arguments(p: Platform, prog: string, args: seq<string>)
    ensures AsksForHelp(args) ==> Generate(p, prog, args) == Outcome(0, [], [Usage(prog)])
    ensures args != [] && !AsksForHelp(args) ==> Generate(p, prog, args) == Outcome(1, [], [Usage(prog)])
    ensures args == [] ==>
              (Generate(p, prog, args).status == 0 <==> TimeCheck(p, true) == None && FirstMismatch(p, SiginfoChecks) == None)
  {
    if args == [] {
      ThreePhaseMain(p, Deps, prog, FirstPart(), TimeFields(true), SecondPart(), SiginfoMembers, ThirdPart());
    }
  }

  /** A failing `tv_sec` check ends the run with status 1 and its complaint,
      after the lines of the first part and before any other. */
  lemma TimeCheckFailure(p: Platform, prog: string)
    requires TimeCheck(p, true).Some?
    ensures Generate(p, prog, []) == Outcome(1, EmitAll(p, Deps, FirstPart()), [TimeCheck(p, true).value])
  {
    ThreePhaseMain(p, Deps, prog, FirstPart(), TimeFields(true), SecondPart(), SiginfoMembers, ThirdPart());
  }

  /** A failing `siginfo_t` member check ends the run with status 1 and its
      complaint, after the lines of the first two parts. */
  lemma SiginfoCheckFailure(p: Platform, prog: string)
    requires TimeCheck(p, true).None? && FirstMismatch(p, SiginfoChecks).Some?
    ensures Generate(p, prog, []) ==
              Outcome(1, EmitAll(p, Deps, FirstPart()) + EmitAll(p, Deps, SecondPart()), [FirstMismatch(p, SiginfoChecks).value])
  {
    ThreePhaseMain(p, Deps, prog, FirstPart(), TimeFields(true), SecondPart(), SiginfoMembers, ThirdPart());
  }

  /** When every check passes, the three parts are written in order and the
      status is 0. */
  lemma CompleteRun(p: Platform, prog: string)
    requires TimeCheck(p, true).None? && FirstMismatch(p, SiginfoChecks).None?
    ensures Generate(p, prog, []) ==
              Outcome(0, EmitAll(p, Deps, FirstPart()) + EmitAll(p, Deps, SecondPart()) + EmitAll(p, Deps, ThirdPart()), [])
  {
    ThreePhaseMain(p, Deps, prog, FirstPart(), TimeFields(true), SecondPart(), SiginfoMembers, ThirdPart());
  }

  /** The first part is written by every run without arguments. */
  lemma FirstPartReachesOutput(p: Platform, prog: string, l: Line)
    requires l in EmitAll(p, Deps, FirstPart())
    ensures l in Generate(p, prog, []).out
  {
    ThreePhaseMain(p, Deps, prog, FirstPart(), TimeFields(true), SecondPart(), SiginfoMembers, ThirdPart());
  }

  /** The second part is written by every run past the `tv_sec` checks. */
  lemma SecondPartReachesOutput(p: Platform, prog: string, l: Line)
    requires TimeCheck(p, true).None?
    requires l in EmitAll(p, Deps, SecondPart())
    ensures l in Generate(p, prog, []).out
  {
    ThreePhaseMain(p, Deps, prog, FirstPart(), TimeFields(true), SecondPart(), SiginfoMembers, ThirdPart());
  }

  /** The third part is written by every complete run. */
  lemma ThirdPartReachesOutput(p: Platform, prog: string, l: Line)
    requires TimeCheck(p, true).None? && FirstMismatch(p, SiginfoChecks).None?
    requires l in EmitAll(p, Deps, ThirdPart())
    ensures l in Generate(p, prog, []).out
  {
    CompleteRun(p, prog);
  }

  // ---------------------------------------------------------------------
  // Where the catalog puts its entries.

  /** Each section's entries are entries of the part that holds it. */
  lemma ShmdtFlagsInFirstPart(st: Step)
    requires st in ShmdtFlagsSection()
    ensures st in FirstPart()
  {
  }

  lemma StdTypesInFirstPart(st: Step)
    requires st in StdTypesSection()
    ensures st in FirstPart()
  {
  }

  lemma PosixClocksInSecondPart(st: Step)
    requires st in PosixClocksSection()
    ensures st in SecondPart()
  {
  }

  lemma SemLimitsInSecondPart(st: Step)
    requires st in SemLimitsSection()
    ensures st in SecondPart()
  {
  }

  lemma PosixSemaphoresInSecondPart(st: Step)
    requires st in PosixSemaphoresSection()
    ensures st in SecondPart()
  {
  }

  lemma RealtimeSignalsInSecondPart(st: Step)
    requires st in RealtimeSignalsSection()
    ensures st in SecondPart()
  {
  }

  lemma SigactionStructInSecondPart(st: Step)
    requires st in SigactionStructSection()
    ensures st in SecondPart()
  {
  }

  lemma SiCodeSysInThirdPart(st: Step)
    requires st in SiCodeSysSection()
    ensures st in ThirdPart()
  {
  }

  lemma SiCodeRegularInThirdPart(st: Step)
    requires st in SiCodeRegularSection()
    ensures st in ThirdPart()
  {
  }

  lemma SiginfoLayoutInThirdPart(st: Step)
    requires st in SiginfoLayout()
    ensures st in ThirdPart()
  {
  }

  lemma SiginfoHeadingInSecondPart()
    ensures Heading(SiginfoStruct) in SecondPart()
  {
  }

  /** The `si_code` values, by name. */
  predicate IsSiCode(s: Sym) {
    match s
    case SI_USER | SI_KERNEL | SI_QUEUE | SI_TIMER | SI_MESGQ | SI_ASYNCIO | SI_SIGIO | SI_TKILL
       | ILL_ILLOPC | ILL_ILLOPN | ILL_ILLADR | ILL_ILLTRP | ILL_PRVOPC | ILL_PRVREG | ILL_COPROC | ILL_BADSTK
       | FPE_INTDIV | FPE_INTOVF | FPE_FLTDIV | FPE_FLTOVF | FPE_FLTUND | FPE_FLTRES | FPE_FLTINV | FPE_FLTSUB
       | SEGV_MAPERR | SEGV_ACCERR
       | BUS_ADRALN | BUS_ADRERR | BUS_OBJERR | BUS_MCEERR_AR | BUS_MCEERR_AO
       | TRAP_BRKPT | TRAP_TRACE | TRAP_BRANCH | TRAP_HWBKPT
       | CLD_EXITED | CLD_KILLED | CLD_DUMPED | CLD_TRAPPED | CLD_STOPPED | CLD_CONTINUED
       | POLL_IN | POLL_OUT | POLL_MSG | POLL_ERR | POLL_PRI | POLL_HUP
       | SYS_SECCOMP => true
    case _ => false
  }

  /** Every constant of `steps` is a `si_code` value. */
  predicate OnlySiCodes(steps: seq<Step>) {
    forall i :: 0 <= i < |steps| && steps[i].Define? ==> IsSiCode(steps[i].sym)
  }

  /** No constant of `steps` is a `si_code` value. */
  predicate NoSiCodes(steps: seq<Step>) {
    forall i :: 0 <= i < |steps| && steps[i].Define? ==> !IsSiCode(steps[i].sym)
  }

  /** The nine `si_code` sections, SIGSYS's included, hold `si_code`
      values only. */
  lemma SiCodeRegularHoldsSiCodes()
    ensures OnlySiCodes(SiCodeRegularSection())
  {
  }

  lemma SiCodeIllHoldsSiCodes()
    ensures OnlySiCodes(SiCodeIllSection())
  {
  }

  lemma SiCodeFpeHoldsSiCodes()
    ensures OnlySiCodes(SiCodeFpeSection())
  {
  }

  lemma SiCodeSegvBusHoldSiCodes()
    ensures OnlySiCodes(SiCodeSegvSection())
    ensures OnlySiCodes(SiCodeBusSection())
  {
  }

  lemma SiCodeTrapChldHoldSiCodes()
    ensures OnlySiCodes(SiCodeTrapSection())
    ensures OnlySiCodes(SiCodeChldSection())
  {
  }

  lemma SiCodePollSysHoldSiCodes()
    ensures OnlySiCodes(SiCodePollSection())
    ensures OnlySiCodes(SiCodeSysSection())
  {
  }

  /** No clock constant is an entry of the first part. */
  lemma ClockNotInFirstPart(s: Sym)
    requires Define(s) in PosixClocksSection()
    ensures Define(s) !in FirstPart()
  {
    assert Define(s) !in StatusCodesSection();
    assert Define(s) !in StdTypesSection();
    assert Define(s) !in OpenBitsSection();
    assert Define(s) !in PermissionBitsSection();
    assert Define(s) !in LseekWhenceSection();
    assert Define(s) !in IpcCommandsSection();
    assert Define(s) !in ShmgetBitsSection();
    assert Define(s) !in ShmdtFlagsSection();
    assert Define(s) !in MmapConstantsSection();
    assert Define(s) !in MemoryPageSection();
  }

  /** No `si_code` value is an entry of the first part. */
  lemma SiCodeNotInFirstPart(s: Sym)
    requires IsSiCode(s)
    ensures Define(s) !in FirstPart()
  {
    assert NoSiCodes(StatusCodesSection());
    assert NoSiCodes(StdTypesSection());
    assert NoSiCodes(OpenBitsSection());
    assert NoSiCodes(PermissionBitsSection());
    assert NoSiCodes(LseekWhenceSection());
    assert NoSiCodes(IpcCommandsSection());
    assert NoSiCodes(ShmgetBitsSection());
    assert NoSiCodes(ShmdtFlagsSection());
    assert NoSiCodes(MmapConstantsSection());
    assert NoSiCodes(MemoryPageSection());
  }

  /** No `si_code` value is an entry of the second part. */
  lemma SiCodeNotInSecondPart(s: Sym)
    requires IsSiCode(s)
    ensures Define(s) !in SecondPart()
  {
    EarlySecondPartHasNoSiCodes();
    LateSecondPartHasNoSiCodes();
    assert Define(s) !in TimeFieldAliases();
    assert Define(s) !in PosixClocksSection();
    assert Define(s) !in PthreadSizesSection();
    assert Define(s) !in StatStructSection();
    assert Define(s) !in ShmidDsStructSection();
    assert Define(s) !in SemidDsStructSection();
    assert Define(s) !in IpcKeySection();
    assert Define(s) !in SemctlCommandsSection();
    assert Define(s) !in SemopFlagsSection();
    assert Define(s) !in SemLimitsSection();
    assert Define(s) !in SembufStructSection();
    assert Define(s) !in PosixSemaphoresSection();
    assert Define(s) !in RealtimeSignalsSection();
    assert Define(s) !in SigactionStructSection();
  }

  lemma EarlySecondPartHasNoSiCodes()
    ensures NoSiCodes(TimeFieldAliases())
    ensures NoSiCodes(PosixClocksSection())
    ensures NoSiCodes(PthreadSizesSection())
    ensures NoSiCodes(StatStructSection())
    ensures NoSiCodes(ShmidDsStructSection())
    ensures NoSiCodes(SemidDsStructSection())
    ensures NoSiCodes(IpcKeySection())
  {
  }

  lemma LateSecondPartHasNoSiCodes()
    ensures NoSiCodes(SemctlCommandsSection())
    ensures NoSiCodes(SemopFlagsSection())
    ensures NoSiCodes(SemLimitsSection())
    ensures NoSiCodes(SembufStructSection())
    ensures NoSiCodes(PosixSemaphoresSection())
    ensures NoSiCodes(RealtimeSignalsSection())
    ensures NoSiCodes(SigactionStructSection())
  {
  }

  // ---------------------------------------------------------------------
  // What each part writes.

  /** In any run of catalog steps holding its entry (the first part does),
      `SHM_REMAP` is written exactly when `SHM_EXEC` is defined: its `#ifdef`
      names `SHM_EXEC`, not `SHM_REMAP`. Where that leaves `SHM_REMAP`
      undefined the program does not build (`ShmRemapNeedsMacro`). */
  lemma ShmRemapKeyedOnShmExec(p: Platform, steps: seq<Step>)
    requires Define(SHM_REMAP) in steps
    ensures HasConstant(EmitAll(p, Deps, steps), SHM_REMAP) <==> p.defined(SHM_EXEC)
  {
    ConstantLineIff(p, Deps, steps, SHM_REMAP);
  }

  /** The `SHM_REMAP` statement names `SHM_REMAP` itself, so a program
      holding it builds only where `SHM_EXEC` brings `SHM_REMAP` along. */
  lemma ShmRemapNeedsMacro(p: Platform, steps: seq<Step>)
    requires Define(SHM_REMAP) in steps && Builds(p, Deps, steps)
    ensures p.defined(SHM_EXEC) ==> p.defined(SHM_REMAP)
  {
    EntryCompiles(p, Deps, steps, SHM_REMAP);
  }

  /** The same for a whole run without arguments: the `shmat` flags precede
      every check, so whatever the checks say, `SHM_REMAP` is in the output
      exactly when `SHM_EXEC` is defined. */
  lemma ShmRemapInEveryRun(p: Platform, prog: string)
    ensures HasConstant(Generate(p, prog, []).out, SHM_REMAP) <==> p.defined(SHM_EXEC)
  {
    ShmdtFlagsInFirstPart(Define(SHM_REMAP));
    EarlyConstantInRun(p, Deps, prog, FirstPart(), TimeFields(true), SecondPart(), SiginfoMembers, ThirdPart(), SHM_REMAP);
    assert Generate(p, prog, []) == Main(p, Deps, prog, [], Program());
    assert Spec(SHM_REMAP).presence == IfDefined(SHM_EXEC);
  }

  /** Each standard C type is written in the first part, without prefix, as
      the Julia integer of its own signedness and width, on every width of
      `int`. */
  lemma StandardTypeAlias(p: Platform, ctype: Ident)
    requires AliasOfType(ctype) in StdTypesSection()
    ensures TypeAlias("", ctype, p.intType(ctype).signed, p.intType(ctype).width.Bits()) in EmitAll(p, Deps, FirstPart())
  {
    StdTypesInFirstPart(AliasOfType(ctype));
    TypeAliasWritten(p, Deps, FirstPart(), ctype);
  }

  /** The clock constants are not written before the `tv_sec` checks. */
  lemma NoClockBeforeTimeCheck(p: Platform, s: Sym)
    requires Define(s) in PosixClocksSection()
    ensures !HasConstant(EmitAll(p, Deps, FirstPart()), s)
  {
    ClockNotInFirstPart(s);
    AbsentEntryHasNoLine(p, Deps, FirstPart(), s);
  }

  /** The `si_code` values are not written before the `siginfo_t` checks. */
  lemma NoSiCodeBeforeSiginfoCheck(p: Platform, s: Sym)
    requires IsSiCode(s)
    ensures !HasConstant(EmitAll(p, Deps, FirstPart()), s)
    ensures !HasConstant(EmitAll(p, Deps, SecondPart()), s)
  {
    SiCodeNotInFirstPart(s);
    SiCodeNotInSecondPart(s);
    AbsentEntryHasNoLine(p, Deps, FirstPart(), s);
    AbsentEntryHasNoLine(p, Deps, SecondPart(), s);
  }

  /** The three entries with a fallback: `CLOCK_REALTIME` and
      `CLOCK_MONOTONIC` as `clockid_t` with 0 and 1, `SEMVMX` bare with 32767. */
  predicate Defaulted(s: Sym, fallback: int, jl: JlType) {
    (s, fallback, jl) in [(CLOCK_REALTIME, 0, ClockidT), (CLOCK_MONOTONIC, 1, ClockidT), (SEMVMX, 32767, Bare)]
  }

  /** The second part always writes each defaulted constant, with its
      fallback when the system does not define it. */
  lemma DefaultedConstant(p: Platform, s: Sym, fallback: int, jl: JlType)
    requires Defaulted(s, fallback, jl)
    ensures Constant(s, if p.defined(s) then p.value(s) else fallback, jl, Dec) in EmitAll(p, Deps, SecondPart())
  {
    if s == SEMVMX {
      assert fallback == 32767 && jl == Bare;
      SemvmxWritten(p);
    } else {
      assert jl == ClockidT;
      ClockWritten(p, s, fallback);
    }
  }

  /** `SEMVMX` is written bare, with 32767 when undefined. */
  lemma SemvmxWritten(p: Platform)
    ensures Constant(SEMVMX, if p.defined(SEMVMX) then p.value(SEMVMX) else 32767, Bare, Dec) in EmitAll(p, Deps, SecondPart())
  {
    assert Deps.spec(SEMVMX) == ConstSpec(Bare, Dec, OrDefault(32767));
    SemLimitsInSecondPart(Define(SEMVMX));
    DefaultedConstantWritten(p, Deps, SecondPart(), SEMVMX, Bare, Dec, 32767);
  }

  /** Each clock is written as a `clockid_t`, with its own number when
      undefined: 0 for `CLOCK_REALTIME`, 1 for `CLOCK_MONOTONIC`. */
  lemma ClockWritten(p: Platform, s: Sym, fallback: int)
    requires (s, fallback) == (CLOCK_REALTIME, 0) || (s, fallback) == (CLOCK_MONOTONIC, 1)
    ensures Constant(s, if p.defined(s) then p.value(s) else fallback, ClockidT, Dec) in EmitAll(p, Deps, SecondPart())
  {
    assert Deps.spec(s) == ConstSpec(ClockidT, Dec, OrDefault(fallback));
    PosixClocksInSecondPart(Define(s));
    DefaultedConstantWritten(p, Deps, SecondPart(), s, ClockidT, Dec, fallback);
  }

  /** The second part writes the `sigaction` flags alias unsigned, whatever
      the probe would say. */
  lemma SigactionFlagsUnsigned(p: Platform)
    ensures TypeAlias(LvaluePrefix, sigaction_flags, false, 8 * p.sizeOf(sigaction_sa_flags)) in EmitAll(p, Deps, SecondPart())
  {
    var st := ForcedUnsignedAlias(sigaction_flags, sigaction_sa_flags);
    SigactionStructInSecondPart(st);
    StepLineWritten(p, Deps, SecondPart(), st);
  }

  /** The second part writes `sigval_t` as a signed integer of its own size,
      unprobed. */
  lemma SigvalSigned(p: Platform)
    ensures TypeAlias("", sigval_t, true, 8 * p.sizeOf(sigval_t)) in EmitAll(p, Deps, SecondPart())
  {
    var st := SizedSignedAlias(sigval_t, sigval_t);
    RealtimeSignalsInSecondPart(st);
    StepLineWritten(p, Deps, SecondPart(), st);
  }

  /** `sigset_t` is tiled, unsigned, by the widest word that covers it
      exactly. */
  lemma SigsetTiling(p: Platform)
    ensures exists t :: Tuple(sigset, t) in EmitAll(p, Deps, SecondPart()) && Covers(t, p.sizeOf(sigset_t)) && t.unsigned
  {
    var w := WordsOf(sigset, sigset_t, true);
    RealtimeSignalsInSecondPart(w);
    StepsReachOutput(p, Deps, SecondPart(), w);
    assert StepLines(p, Deps, w)[0] in EmitAll(p, Deps, SecondPart());
  }

  /** `siginfo_t` is tiled, unsigned, by the widest word that covers it
      exactly. */
  lemma SiginfoTiling(p: Platform)
    ensures exists t :: Tuple(siginfo, t) in EmitAll(p, Deps, ThirdPart()) && Covers(t, p.sizeOf(siginfo_t)) && t.unsigned
  {
    var w := WordsOf(siginfo, siginfo_t, true);
    SiginfoLayoutInThirdPart(w);
    StepsReachOutput(p, Deps, ThirdPart(), w);
    assert StepLines(p, Deps, w)[0] in EmitAll(p, Deps, ThirdPart());
  }

  /** The SIGSYS header is written exactly when `SYS_SECCOMP` is defined. */
  lemma SigsysHeader(p: Platform, steps: seq<Step>)
    requires Heading(SiCodeSys) in steps
    ensures Header(SiCodeSys) in EmitAll(p, Deps, steps) <==> p.defined(SYS_SECCOMP)
  {
    HeaderIff(p, Deps, steps, SiCodeSys);
  }

  /** The one SIGSYS constant is written exactly when it is defined. */
  lemma SysSeccompLine(p: Platform, steps: seq<Step>)
    requires Define(SYS_SECCOMP) in steps
    ensures HasConstant(EmitAll(p, Deps, steps), SYS_SECCOMP) <==> p.defined(SYS_SECCOMP)
  {
    ConstantLineIff(p, Deps, steps, SYS_SECCOMP);
    assert Spec(SYS_SECCOMP).presence == IfDefined(SYS_SECCOMP);
  }

  /** Every other category header is written by the part that holds its
      heading, on every platform. */
  lemma OtherHeadersAlways(p: Platform, c: Category)
    requires c != SiCodeSys
    ensures Heading(c) in FirstPart() ==> Header(c) in EmitAll(p, Deps, FirstPart())
    ensures Heading(c) in SecondPart() ==> Header(c) in EmitAll(p, Deps, SecondPart())
    ensures Heading(c) in ThirdPart() ==> Header(c) in EmitAll(p, Deps, ThirdPart())
  {
    HeaderIff(p, Deps, FirstPart(), c);
    HeaderIff(p, Deps, SecondPart(), c);
    HeaderIff(p, Deps, ThirdPart(), c);
  }
}
