/** The identifiers the generators pass to the C compiler or write into the
    Julia file. A constructor is the identifier with `.` and spaces written
    as `_` (`int`, `long` and `void*` become `c_int`, `c_long`, `void_ptr`);
    `Text` gives the C spelling. A Julia name never holds a space, so
    `struct_stat` is both the C type `struct stat` and the Julia name
    `struct_stat`. */
module Idents {

  datatype Ident =
    // C types and the Julia names that spell a C type
    | c_int | c_long | void_ptr | time_t | clock_t | size_t | ssize_t | mode_t | dev_t | ino_t
    | pid_t | uid_t | gid_t | key_t | nlink_t | shmatt_t | off_t | blksize_t | blkcnt_t | clockid_t
    | pthread_mutex_t | pthread_mutexattr_t | pthread_cond_t | pthread_condattr_t | pthread_rwlock_t
    | pthread_rwlockattr_t | struct_stat | struct_shmid_ds | struct_semid_ds | struct_sembuf | sem_t
    | sigval_t | sigset_t | struct_sigaction | siginfo_t | struct_timeval | struct_timespec
    // Integer lvalues and structure members, as `variable.member`
    | timeval_tv_sec | timeval_tv_usec | timespec_tv_sec | timespec_tv_nsec | stat_st_dev
    | stat_st_ino | stat_st_mode | stat_st_nlink | stat_st_uid | stat_st_gid | stat_st_rdev
    | stat_st_size | stat_st_blksize | stat_st_blocks | stat_st_atim | stat_st_mtim | stat_st_ctim
    | shmid_ds_shm_perm_uid | shmid_ds_shm_perm_gid | shmid_ds_shm_perm_cuid
    | shmid_ds_shm_perm_cgid | shmid_ds_shm_perm_mode | shmid_ds_shm_segsz | shmid_ds_shm_atime
    | shmid_ds_shm_dtime | shmid_ds_shm_ctime | shmid_ds_shm_cpid | shmid_ds_shm_lpid
    | shmid_ds_shm_nattch | semid_ds_sem_perm_uid | semid_ds_sem_perm_gid | semid_ds_sem_perm_cuid
    | semid_ds_sem_perm_cgid | semid_ds_sem_perm_mode | semid_ds_sem_otime | semid_ds_sem_ctime
    | semid_ds_sem_nsems | sembuf_sem_num | sembuf_sem_op | sembuf_sem_flg | sigaction_sa_handler
    | sigaction_sa_sigaction | sigaction_sa_mask | sigaction_sa_flags | siginfo_t_si_signo
    | siginfo_t_si_code | siginfo_t_si_errno | siginfo_t_si_pid | siginfo_t_si_uid
    | siginfo_t_si_status | siginfo_t_si_value | siginfo_t_si_addr | siginfo_t_si_band
    // Julia names of aliases, sizes and offsets
    | timeval_sec | timeval_usec | timespec_sec | timespec_nsec | tv_sec | tv_usec | tv_nsec
    | stat_dev | stat_ino | stat_mode | stat_nlink | stat_uid | stat_gid | stat_rdev | stat_size
    | stat_blksize | stat_blocks | stat_atime | stat_mtime | stat_ctime | shm_perm_uid
    | shm_perm_gid | shm_perm_cuid | shm_perm_cgid | shm_perm_mode | shm_segsz | shm_atime
    | shm_dtime | shm_ctime | shm_cpid | shm_lpid | shm_nattch | sem_perm_uid | sem_perm_gid
    | sem_perm_cuid | sem_perm_cgid | sem_perm_mode | sem_otime | sem_ctime | sem_nsems | sem_num
    | sem_op | sem_flg | sigset | sigaction | sigaction_handler | sigaction_action | sigaction_mask
    | sigaction_flags | siginfo | siginfo_signo | siginfo_code | siginfo_errno | siginfo_pid
    | siginfo_uid | siginfo_status | siginfo_value | siginfo_addr | siginfo_band
    // Pointer-valued macros
    | MAP_FAILED | SEM_FAILED | SIG_DFL | SIG_IGN
  {
    function Text(): string {
      match this
      case c_int => "int"
      case c_long => "long"
      case void_ptr => "void*"
      case time_t => "time_t"
      case clock_t => "clock_t"
      case size_t => "size_t"
      case ssize_t => "ssize_t"
      case mode_t => "mode_t"
      case dev_t => "dev_t"
      case ino_t => "ino_t"
      case pid_t => "pid_t"
      case uid_t => "uid_t"
      case gid_t => "gid_t"
      case key_t => "key_t"
      case nlink_t => "nlink_t"
      case shmatt_t => "shmatt_t"
      case off_t => "off_t"
      case blksize_t => "blksize_t"
      case blkcnt_t => "blkcnt_t"
      case clockid_t => "clockid_t"
      case pthread_mutex_t => "pthread_mutex_t"
      case pthread_mutexattr_t => "pthread_mutexattr_t"
      case pthread_cond_t => "pthread_cond_t"
      case pthread_condattr_t => "pthread_condattr_t"
      case pthread_rwlock_t => "pthread_rwlock_t"
      case pthread_rwlockattr_t => "pthread_rwlockattr_t"
      case struct_stat => "struct stat"
      case struct_shmid_ds => "struct shmid_ds"
      case struct_semid_ds => "struct semid_ds"
      case struct_sembuf => "struct sembuf"
      case sem_t => "sem_t"
      case sigval_t => "sigval_t"
      case sigset_t => "sigset_t"
      case struct_sigaction => "struct sigaction"
      case siginfo_t => "siginfo_t"
      case struct_timeval => "struct timeval"
      case struct_timespec => "struct timespec"
      case timeval_tv_sec => "timeval.tv_sec"
      case timeval_tv_usec => "timeval.tv_usec"
      case timespec_tv_sec => "timespec.tv_sec"
      case timespec_tv_nsec => "timespec.tv_nsec"
      case stat_st_dev => "stat.st_dev"
      case stat_st_ino => "stat.st_ino"
      case stat_st_mode => "stat.st_mode"
      case stat_st_nlink => "stat.st_nlink"
      case stat_st_uid => "stat.st_uid"
      case stat_st_gid => "stat.st_gid"
      case stat_st_rdev => "stat.st_rdev"
      case stat_st_size => "stat.st_size"
      case stat_st_blksize => "stat.st_blksize"
      case stat_st_blocks => "stat.st_blocks"
      case stat_st_atim => "stat.st_atim"
      case stat_st_mtim => "stat.st_mtim"
      case stat_st_ctim => "stat.st_ctim"
      case shmid_ds_shm_perm_uid => "shmid_ds.shm_perm.uid"
      case shmid_ds_shm_perm_gid => "shmid_ds.shm_perm.gid"
      case shmid_ds_shm_perm_cuid => "shmid_ds.shm_perm.cuid"
      case shmid_ds_shm_perm_cgid => "shmid_ds.shm_perm.cgid"
      case shmid_ds_shm_perm_mode => "shmid_ds.shm_perm.mode"
      case shmid_ds_shm_segsz => "shmid_ds.shm_segsz"
      case shmid_ds_shm_atime => "shmid_ds.shm_atime"
      case shmid_ds_shm_dtime => "shmid_ds.shm_dtime"
      case shmid_ds_shm_ctime => "shmid_ds.shm_ctime"
      case shmid_ds_shm_cpid => "shmid_ds.shm_cpid"
      case shmid_ds_shm_lpid => "shmid_ds.shm_lpid"
      case shmid_ds_shm_nattch => "shmid_ds.shm_nattch"
      case semid_ds_sem_perm_uid => "semid_ds.sem_perm.uid"
      case semid_ds_sem_perm_gid => "semid_ds.sem_perm.gid"
      case semid_ds_sem_perm_cuid => "semid_ds.sem_perm.cuid"
      case semid_ds_sem_perm_cgid => "semid_ds.sem_perm.cgid"
      case semid_ds_sem_perm_mode => "semid_ds.sem_perm.mode"
      case semid_ds_sem_otime => "semid_ds.sem_otime"
      case semid_ds_sem_ctime => "semid_ds.sem_ctime"
      case semid_ds_sem_nsems => "semid_ds.sem_nsems"
      case sembuf_sem_num => "sembuf.sem_num"
      case sembuf_sem_op => "sembuf.sem_op"
      case sembuf_sem_flg => "sembuf.sem_flg"
      case sigaction_sa_handler => "sigaction.sa_handler"
      case sigaction_sa_sigaction => "sigaction.sa_sigaction"
      case sigaction_sa_mask => "sigaction.sa_mask"
      case sigaction_sa_flags => "sigaction.sa_flags"
      case siginfo_t_si_signo => "siginfo_t.si_signo"
      case siginfo_t_si_code => "siginfo_t.si_code"
      case siginfo_t_si_errno => "siginfo_t.si_errno"
      case siginfo_t_si_pid => "siginfo_t.si_pid"
      case siginfo_t_si_uid => "siginfo_t.si_uid"
      case siginfo_t_si_status => "siginfo_t.si_status"
      case siginfo_t_si_value => "siginfo_t.si_value"
      case siginfo_t_si_addr => "siginfo_t.si_addr"
      case siginfo_t_si_band => "siginfo_t.si_band"
      case timeval_sec => "timeval_sec"
      case timeval_usec => "timeval_usec"
      case timespec_sec => "timespec_sec"
      case timespec_nsec => "timespec_nsec"
      case tv_sec => "tv_sec"
      case tv_usec => "tv_usec"
      case tv_nsec => "tv_nsec"
      case stat_dev => "stat_dev"
      case stat_ino => "stat_ino"
      case stat_mode => "stat_mode"
      case stat_nlink => "stat_nlink"
      case stat_uid => "stat_uid"
      case stat_gid => "stat_gid"
      case stat_rdev => "stat_rdev"
      case stat_size => "stat_size"
      case stat_blksize => "stat_blksize"
      case stat_blocks => "stat_blocks"
      case stat_atime => "stat_atime"
      case stat_mtime => "stat_mtime"
      case stat_ctime => "stat_ctime"
      case shm_perm_uid => "shm_perm_uid"
      case shm_perm_gid => "shm_perm_gid"
      case shm_perm_cuid => "shm_perm_cuid"
      case shm_perm_cgid => "shm_perm_cgid"
      case shm_perm_mode => "shm_perm_mode"
      case shm_segsz => "shm_segsz"
      case shm_atime => "shm_atime"
      case shm_dtime => "shm_dtime"
      case shm_ctime => "shm_ctime"
      case shm_cpid => "shm_cpid"
      case shm_lpid => "shm_lpid"
      case shm_nattch => "shm_nattch"
      case sem_perm_uid => "sem_perm_uid"
      case sem_perm_gid => "sem_perm_gid"
      case sem_perm_cuid => "sem_perm_cuid"
      case sem_perm_cgid => "sem_perm_cgid"
      case sem_perm_mode => "sem_perm_mode"
      case sem_otime => "sem_otime"
      case sem_ctime => "sem_ctime"
      case sem_nsems => "sem_nsems"
      case sem_num => "sem_num"
      case sem_op => "sem_op"
      case sem_flg => "sem_flg"
      case sigset => "sigset"
      case sigaction => "sigaction"
      case sigaction_handler => "sigaction_handler"
      case sigaction_action => "sigaction_action"
      case sigaction_mask => "sigaction_mask"
      case sigaction_flags => "sigaction_flags"
      case siginfo => "siginfo"
      case siginfo_signo => "siginfo_signo"
      case siginfo_code => "siginfo_code"
      case siginfo_errno => "siginfo_errno"
      case siginfo_pid => "siginfo_pid"
      case siginfo_uid => "siginfo_uid"
      case siginfo_status => "siginfo_status"
      case siginfo_value => "siginfo_value"
      case siginfo_addr => "siginfo_addr"
      case siginfo_band => "siginfo_band"
      case MAP_FAILED => "MAP_FAILED"
      case SEM_FAILED => "SEM_FAILED"
      case SIG_DFL => "SIG_DFL"
      case SIG_IGN => "SIG_IGN"
    }
  }
}
