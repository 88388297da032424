/** The names the generators know: the operating-system constants they may
    emit and the categories their output is grouped under. */
module Symbols {

  /** Every operating-system constant either generator may emit. */
  datatype Sym =
    | O_RDONLY | O_WRONLY | O_RDWR | O_CREAT | O_EXCL | O_TRUNC
    | S_IRWXU | S_IRUSR | S_IWUSR | S_IXUSR | S_IRWXG | S_IRGRP | S_IWGRP |
      S_IXGRP | S_IRWXO | S_IROTH | S_IWOTH | S_IXOTH
    | SEEK_SET | SEEK_CUR | SEEK_END
    | IPC_STAT | IPC_SET | IPC_RMID
    | IPC_CREAT | IPC_EXCL
    | SHM_EXEC | SHM_RDONLY | SHM_REMAP
    | PROT_NONE | PROT_READ | PROT_WRITE | PROT_EXEC | MAP_SHARED |
      MAP_PRIVATE | MAP_ANONYMOUS | MAP_FIXED | MS_ASYNC | MS_SYNC |
      MS_INVALIDATE
    | CLOCK_REALTIME | CLOCK_MONOTONIC
    | PTHREAD_PROCESS_SHARED | PTHREAD_PROCESS_PRIVATE
    | IPC_PRIVATE
    | GETALL | GETNCNT | GETPID | GETVAL | GETZCNT | SETALL | SETVAL
    | IPC_NOWAIT | SEM_UNDO
    | SEMVMX | SEMMNI | SEMMSL | SEMMNS | SEMOPM | SEMAEM
    | SEM_VALUE_MAX
    | SIGRTMIN | SIGRTMAX | SIG_BLOCK | SIG_UNBLOCK | SIG_SETMASK
    | SA_SIGINFO | SA_NOCLDSTOP | SA_NOCLDWAIT | SA_NODEFER | SA_ONSTACK |
      SA_RESETHAND | SA_RESTART
    | SI_USER | SI_KERNEL | SI_QUEUE | SI_TIMER | SI_MESGQ | SI_ASYNCIO |
      SI_SIGIO | SI_TKILL
    | ILL_ILLOPC | ILL_ILLOPN | ILL_ILLADR | ILL_ILLTRP | ILL_PRVOPC |
      ILL_PRVREG | ILL_COPROC | ILL_BADSTK
    | FPE_INTDIV | FPE_INTOVF | FPE_FLTDIV | FPE_FLTOVF | FPE_FLTUND |
      FPE_FLTRES | FPE_FLTINV | FPE_FLTSUB
    | SEGV_MAPERR | SEGV_ACCERR
    | BUS_ADRALN | BUS_ADRERR | BUS_OBJERR | BUS_MCEERR_AR | BUS_MCEERR_AO
    | TRAP_BRKPT | TRAP_TRACE | TRAP_BRANCH | TRAP_HWBKPT
    | CLD_EXITED | CLD_KILLED | CLD_DUMPED | CLD_TRAPPED | CLD_STOPPED |
      CLD_CONTINUED
    | POLL_IN | POLL_OUT | POLL_MSG | POLL_ERR | POLL_PRI | POLL_HUP
    | SYS_SECCOMP
    | SIGHUP | SIGINT | SIGQUIT | SIGILL | SIGABRT | SIGFPE | SIGKILL |
      SIGSEGV | SIGPIPE | SIGALRM | SIGTERM | SIGUSR1 | SIGUSR2 | SIGCHLD |
      SIGCONT | SIGSTOP | SIGTSTP | SIGTTIN | SIGTTOU | SIGBUS | SIGPOLL |
      SIGPROF | SIGSYS | SIGTRAP | SIGURG | SIGVTALRM | SIGXCPU | SIGXFSZ |
      SIGIOT | SIGEMT | SIGSTKFLT | SIGIO | SIGCLD | SIGPWR | SIGINFO |
      SIGLOST | SIGWINCH | SIGUNUSED
  {
    /** The constant's C spelling, which is also its name in the output. */
    function Name(): string {
        match this
        case O_RDONLY => "O_RDONLY"
        case O_WRONLY => "O_WRONLY"
        case O_RDWR => "O_RDWR"
        case O_CREAT => "O_CREAT"
        case O_EXCL => "O_EXCL"
        case O_TRUNC => "O_TRUNC"
        case S_IRWXU => "S_IRWXU"
        case S_IRUSR => "S_IRUSR"
        case S_IWUSR => "S_IWUSR"
        case S_IXUSR => "S_IXUSR"
        case S_IRWXG => "S_IRWXG"
        case S_IRGRP => "S_IRGRP"
        case S_IWGRP => "S_IWGRP"
        case S_IXGRP => "S_IXGRP"
        case S_IRWXO => "S_IRWXO"
        case S_IROTH => "S_IROTH"
        case S_IWOTH => "S_IWOTH"
        case S_IXOTH => "S_IXOTH"
        case SEEK_SET => "SEEK_SET"
        case SEEK_CUR => "SEEK_CUR"
        case SEEK_END => "SEEK_END"
        case IPC_STAT => "IPC_STAT"
        case IPC_SET => "IPC_SET"
        case IPC_RMID => "IPC_RMID"
        case IPC_CREAT => "IPC_CREAT"
        case IPC_EXCL => "IPC_EXCL"
        case SHM_EXEC => "SHM_EXEC"
        case SHM_RDONLY => "SHM_RDONLY"
        case SHM_REMAP => "SHM_REMAP"
        case PROT_NONE => "PROT_NONE"
        case PROT_READ => "PROT_READ"
        case PROT_WRITE => "PROT_WRITE"
        case PROT_EXEC => "PROT_EXEC"
        case MAP_SHARED => "MAP_SHARED"
        case MAP_PRIVATE => "MAP_PRIVATE"
        case MAP_ANONYMOUS => "MAP_ANONYMOUS"
        case MAP_FIXED => "MAP_FIXED"
        case MS_ASYNC => "MS_ASYNC"
        case MS_SYNC => "MS_SYNC"
        case MS_INVALIDATE => "MS_INVALIDATE"
        case CLOCK_REALTIME => "CLOCK_REALTIME"
        case CLOCK_MONOTONIC => "CLOCK_MONOTONIC"
        case PTHREAD_PROCESS_SHARED => "PTHREAD_PROCESS_SHARED"
        case PTHREAD_PROCESS_PRIVATE => "PTHREAD_PROCESS_PRIVATE"
        case IPC_PRIVATE => "IPC_PRIVATE"
        case GETALL => "GETALL"
        case GETNCNT => "GETNCNT"
        case GETPID => "GETPID"
        case GETVAL => "GETVAL"
        case GETZCNT => "GETZCNT"
        case SETALL => "SETALL"
        case SETVAL => "SETVAL"
        case IPC_NOWAIT => "IPC_NOWAIT"
        case SEM_UNDO => "SEM_UNDO"
        case SEMVMX => "SEMVMX"
        case SEMMNI => "SEMMNI"
        case SEMMSL => "SEMMSL"
        case SEMMNS => "SEMMNS"
        case SEMOPM => "SEMOPM"
        case SEMAEM => "SEMAEM"
        case SEM_VALUE_MAX => "SEM_VALUE_MAX"
        case SIGRTMIN => "SIGRTMIN"
        case SIGRTMAX => "SIGRTMAX"
        case SIG_BLOCK => "SIG_BLOCK"
        case SIG_UNBLOCK => "SIG_UNBLOCK"
        case SIG_SETMASK => "SIG_SETMASK"
        case SA_SIGINFO => "SA_SIGINFO"
        case SA_NOCLDSTOP => "SA_NOCLDSTOP"
        case SA_NOCLDWAIT => "SA_NOCLDWAIT"
        case SA_NODEFER => "SA_NODEFER"
        case SA_ONSTACK => "SA_ONSTACK"
        case SA_RESETHAND => "SA_RESETHAND"
        case SA_RESTART => "SA_RESTART"
        case SI_USER => "SI_USER"
        case SI_KERNEL => "SI_KERNEL"
        case SI_QUEUE => "SI_QUEUE"
        case SI_TIMER => "SI_TIMER"
        case SI_MESGQ => "SI_MESGQ"
        case SI_ASYNCIO => "SI_ASYNCIO"
        case SI_SIGIO => "SI_SIGIO"
        case SI_TKILL => "SI_TKILL"
        case ILL_ILLOPC => "ILL_ILLOPC"
        case ILL_ILLOPN => "ILL_ILLOPN"
        case ILL_ILLADR => "ILL_ILLADR"
        case ILL_ILLTRP => "ILL_ILLTRP"
        case ILL_PRVOPC => "ILL_PRVOPC"
        case ILL_PRVREG => "ILL_PRVREG"
        case ILL_COPROC => "ILL_COPROC"
        case ILL_BADSTK => "ILL_BADSTK"
        case FPE_INTDIV => "FPE_INTDIV"
        case FPE_INTOVF => "FPE_INTOVF"
        case FPE_FLTDIV => "FPE_FLTDIV"
        case FPE_FLTOVF => "FPE_FLTOVF"
        case FPE_FLTUND => "FPE_FLTUND"
        case FPE_FLTRES => "FPE_FLTRES"
        case FPE_FLTINV => "FPE_FLTINV"
        case FPE_FLTSUB => "FPE_FLTSUB"
        case SEGV_MAPERR => "SEGV_MAPERR"
        case SEGV_ACCERR => "SEGV_ACCERR"
        case BUS_ADRALN => "BUS_ADRALN"
        case BUS_ADRERR => "BUS_ADRERR"
        case BUS_OBJERR => "BUS_OBJERR"
        case BUS_MCEERR_AR => "BUS_MCEERR_AR"
        case BUS_MCEERR_AO => "BUS_MCEERR_AO"
        case TRAP_BRKPT => "TRAP_BRKPT"
        case TRAP_TRACE => "TRAP_TRACE"
        case TRAP_BRANCH => "TRAP_BRANCH"
        case TRAP_HWBKPT => "TRAP_HWBKPT"
        case CLD_EXITED => "CLD_EXITED"
        case CLD_KILLED => "CLD_KILLED"
        case CLD_DUMPED => "CLD_DUMPED"
        case CLD_TRAPPED => "CLD_TRAPPED"
        case CLD_STOPPED => "CLD_STOPPED"
        case CLD_CONTINUED => "CLD_CONTINUED"
        case POLL_IN => "POLL_IN"
        case POLL_OUT => "POLL_OUT"
        case POLL_MSG => "POLL_MSG"
        case POLL_ERR => "POLL_ERR"
        case POLL_PRI => "POLL_PRI"
        case POLL_HUP => "POLL_HUP"
        case SYS_SECCOMP => "SYS_SECCOMP"
        case SIGHUP => "SIGHUP"
        case SIGINT => "SIGINT"
        case SIGQUIT => "SIGQUIT"
        case SIGILL => "SIGILL"
        case SIGABRT => "SIGABRT"
        case SIGFPE => "SIGFPE"
        case SIGKILL => "SIGKILL"
        case SIGSEGV => "SIGSEGV"
        case SIGPIPE => "SIGPIPE"
        case SIGALRM => "SIGALRM"
        case SIGTERM => "SIGTERM"
        case SIGUSR1 => "SIGUSR1"
        case SIGUSR2 => "SIGUSR2"
        case SIGCHLD => "SIGCHLD"
        case SIGCONT => "SIGCONT"
        case SIGSTOP => "SIGSTOP"
        case SIGTSTP => "SIGTSTP"
        case SIGTTIN => "SIGTTIN"
        case SIGTTOU => "SIGTTOU"
        case SIGBUS => "SIGBUS"
        case SIGPOLL => "SIGPOLL"
        case SIGPROF => "SIGPROF"
        case SIGSYS => "SIGSYS"
        case SIGTRAP => "SIGTRAP"
        case SIGURG => "SIGURG"
        case SIGVTALRM => "SIGVTALRM"
        case SIGXCPU => "SIGXCPU"
        case SIGXFSZ => "SIGXFSZ"
        case SIGIOT => "SIGIOT"
        case SIGEMT => "SIGEMT"
        case SIGSTKFLT => "SIGSTKFLT"
        case SIGIO => "SIGIO"
        case SIGCLD => "SIGCLD"
        case SIGPWR => "SIGPWR"
        case SIGINFO => "SIGINFO"
        case SIGLOST => "SIGLOST"
        case SIGWINCH => "SIGWINCH"
        case SIGUNUSED => "SIGUNUSED"
      }
  }

  /** The headed groups of the output. */
  datatype Category =
    | StatusCodes
    | StdTypes
    | OpenBits
    | PermissionBits
    | LseekWhence
    | IpcCommands
    | ShmgetBits
    | ShmdtFlags
    | MmapConstants
    | MemoryPage
    | TimeStructs
    | PosixClocks
    | PthreadSizes
    | StatStruct
    | ShmidDsStruct
    | SemidDsStruct
    | IpcKey
    | SemctlCommands
    | SemopFlags
    | SemLimits
    | SembufStruct
    | PosixSemaphores
    | RealtimeSignals
    | SigactionStruct
    | SiginfoStruct
    | SiCodeRegular
    | SiCodeIll
    | SiCodeFpe
    | SiCodeSegv
    | SiCodeBus
    | SiCodeTrap
    | SiCodeChld
    | SiCodePoll
    | SiCodeSys
    | SignalNumbers
    | TypeSizes
    | ShmidDsOffsets
    | PosixSemaphoreConstants
  {
    /** The comment text of the category's header line. */
    function Title(): string {
      match this
      case StatusCodes => "Standard codes returned by many functions of the C library:"
      case StdTypes => "Some standard C-types:"
      case OpenBits => "Bits for creating/opening a file:"
      case PermissionBits => "Bits for file permissions:"
      case LseekWhence => "Argument for `lseek`:"
      case IpcCommands => "Commands for `shmctl`, `semctl` and `msgctl`:"
      case ShmgetBits => "Bits for `shmget`:"
      case ShmdtFlags => "Flags for `shmdt`:"
      case MmapConstants => "Constants for `mmap`, `msync`, etc.:"
      case MemoryPage => "Memory page size:"
      case TimeStructs => "Fields of `struct timeval` and `struct timespec`:"
      case PosixClocks => "Definitions for the POSIX `clock_*` functions:"
      case PthreadSizes => "Sizes and constants for POSIX thread functions:"
      case StatStruct => "Definitions for `struct stat`:"
      case ShmidDsStruct => "Definitions for `struct shmid_ds`:"
      case SemidDsStruct => "Definitions for `struct semid_ds`:"
      case IpcKey => "Special IPC key:"
      case SemctlCommands => "Flags for `semctl`:"
      case SemopFlags => "Flags for `semop`:"
      case SemLimits => "Other constants for System V Semaphore Sets:"
      case SembufStruct => "Constants for `struct sembuf`:"
      case PosixSemaphores => "Definitions for POSIX semaphores:"
      case RealtimeSignals => "Definitions for real-time signals:"
      case SigactionStruct => "Definitions for `struct sigaction`:"
      case SiginfoStruct => "Definitions for `siginfo_t`:"
      case SiCodeRegular => "Possible `si_code` values for regular signals:"
      case SiCodeIll => "Possible `si_code` values for a SIGILL signal:"
      case SiCodeFpe => "Possible `si_code` values for a SIGFPE signal:"
      case SiCodeSegv => "Possible `si_code` values for a SIGSEGV signal:"
      case SiCodeBus => "Possible `si_code` values for a SIGBUS signal:"
      case SiCodeTrap => "Possible `si_code` values for a SIGTRAP signal:"
      case SiCodeChld => "Possible `si_code` values for a SIGCHLD signal:"
      case SiCodePoll => "Possible `si_code` values for a SIGIO/SIGPOLL signal:"
      case SiCodeSys => "Possible `si_code` value for a SIGSYS signal:"
      case SignalNumbers => "Predefined signal numbers:"
      case TypeSizes => "Sizes of some standard C types:"
      case ShmidDsOffsets => "Offsets of fields in `struct shmid_ds`:"
      case PosixSemaphoreConstants => "Constants for POSIX semaphores:"
    }
  }
}
