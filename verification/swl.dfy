/** The shared-memory part of the Simple Wrapper Library: thin wrappers over
    System V `ftok`, `shmget`, `shmat`, `shmdt` and `shmctl` that translate the
    library's own flag bits and status codes. The system calls are oracle
    parameters: each wrapper is a function of what the kernel answers. */
module Swl {
  import opened Options

  /** A C `unsigned int` flag word. */
  type Flags = bv32

  const SwlSuccess: int := 0
  const SwlFailure: int := -1
  const SwlPrivate: int := 0

  /** `0001000`: create the segment if the key has none. */
  const SwlCreat: Flags := 0x200
  /** `0002000`: fail if the key already has a segment. */
  const SwlExcl: Flags := 0x400
  /** `0010000`: attach for reading only. */
  const SwlRdonly: Flags := 0x1000
  /** `0777`: the owner, group and other permission bits. */
  const ModeMask: Flags := 0x1FF

  /** The System V values the wrappers translate to, as the platform's
      headers define them. */
  datatype SysV = SysV(ipcCreat: Flags, ipcExcl: Flags, shmRdonly: Flags, ipcPrivate: int)

  /** The values of Linux's headers. */
  const Linux: SysV := SysV(0x200, 0x400, 0x1000, 0)

  predicate SingleBit(b: Flags) {
    b != 0 && b & (b - 1) == 0
  }

  /** What the wrappers' translations rely on: the creation flags are two
      different single bits, neither among the permission bits. */
  predicate CreationBitsApart(sys: SysV) {
    && SingleBit(sys.ipcCreat) && SingleBit(sys.ipcExcl)
    && sys.ipcCreat != sys.ipcExcl
    && sys.ipcCreat & ModeMask == 0 && sys.ipcExcl & ModeMask == 0
  }

  /** The library's own flag bits are three different single bits, none of
      them a permission bit. */
  lemma LibraryFlagsAreSingleBits()
    ensures SingleBit(SwlCreat) && SingleBit(SwlExcl) && SingleBit(SwlRdonly)
    ensures SwlCreat != SwlExcl && SwlExcl != SwlRdonly && SwlCreat != SwlRdonly
    ensures (SwlCreat | SwlExcl | SwlRdonly) & ModeMask == 0
  {
  }

  // -------------------------------------------------------------------------
  // Flag translation.

  /** `BITCONV(flg, bit, val)`: `val` when every bit of `bit` is set in `flg`,
      none otherwise. */
  function BitConv(flg: Flags, bit: Flags, val: Flags): (r: Flags)
    ensures r == val || r == 0
    ensures flg & bit == bit ==> r == val
    ensures val != 0 ==> (r == val <==> flg | bit == flg)
  {
    if flg & bit == bit then val else 0
  }

  /** For a one-bit mask the translation is on exactly when that bit is. */
  lemma BitConvSingleBit(flg: Flags, bit: Flags, val: Flags)
    requires SingleBit(bit) && val != 0
    ensures BitConv(flg, bit, val) != 0 <==> flg & bit != 0
  {
  }

  /** The `shmflg` that `SWL_GetSharedMemory` hands to `shmget`: the
      permission bits, plus `IPC_CREAT` and `IPC_EXCL` for their library
      counterparts. Every other bit of `flg` is dropped. */
  function ShmgetFlags(sys: SysV, flg: Flags): (r: Flags)
    ensures r & !(ModeMask | sys.ipcCreat | sys.ipcExcl) == 0
  {
    (flg & ModeMask) | BitConv(flg, SwlCreat, sys.ipcCreat) | BitConv(flg, SwlExcl, sys.ipcExcl)
  }

  /** The permission bits are passed through as they are. */
  lemma ShmgetKeepsPermissions(sys: SysV, flg: Flags)
    requires CreationBitsApart(sys)
    ensures ShmgetFlags(sys, flg) & ModeMask == flg & ModeMask
  {
  }

  /** `IPC_CREAT` is requested exactly when `SWL_CREAT` is given, and
      `IPC_EXCL` exactly when `SWL_EXCL` is. */
  lemma ShmgetCreationBits(sys: SysV, flg: Flags)
    requires CreationBitsApart(sys)
    ensures ShmgetFlags(sys, flg) & sys.ipcCreat != 0 <==> flg & SwlCreat != 0
    ensures ShmgetFlags(sys, flg) & sys.ipcExcl != 0 <==> flg & SwlExcl != 0
  {
  }

  /** Only the recognised bits of `flg` make a difference. */
  lemma ShmgetIgnoresOtherBits(sys: SysV, flg: Flags)
    ensures ShmgetFlags(sys, flg) == ShmgetFlags(sys, flg & (ModeMask | SwlCreat | SwlExcl))
  {
    var g := flg & (ModeMask | SwlCreat | SwlExcl);
    assert g & ModeMask == flg & ModeMask;
    assert g & SwlCreat == flg & SwlCreat;
    assert g & SwlExcl == flg & SwlExcl;
    ShmgetFlagsSeesRecognisedBits(sys, flg, g);
  }

  lemma ShmgetFlagsSeesRecognisedBits(sys: SysV, a: Flags, b: Flags)
    requires a & ModeMask == b & ModeMask && a & SwlCreat == b & SwlCreat && a & SwlExcl == b & SwlExcl
    ensures ShmgetFlags(sys, a) == ShmgetFlags(sys, b)
  {
    BitConvSeesOnlyItsBits(a, b, SwlCreat, sys.ipcCreat);
    BitConvSeesOnlyItsBits(a, b, SwlExcl, sys.ipcExcl);
  }

  /** The translation of a bit depends on nothing but that bit. */
  lemma BitConvSeesOnlyItsBits(a: Flags, b: Flags, bit: Flags, val: Flags)
    requires a & bit == b & bit
    ensures BitConv(a, bit, val) == BitConv(b, bit, val)
  {
  }

  /** On Linux, where the library's bits equal the system's, the translation
      keeps the low eleven bits and clears the rest. */
  lemma ShmgetFlagsOnLinux(flg: Flags)
    ensures ShmgetFlags(Linux, flg) == flg & 0x7FF
  {
  }

  /** The `shmflg` that `SWL_AttachSharedMemory` hands to `shmat`. */
  function ShmatFlags(sys: SysV, flg: Flags): (r: Flags)
    ensures r == 0 || r == sys.shmRdonly
  {
    BitConv(flg, SwlRdonly, sys.shmRdonly)
  }

  /** Read-only access is requested exactly when `SWL_RDONLY` is given. */
  lemma ReadOnlyIff(sys: SysV, flg: Flags)
    requires sys.shmRdonly != 0
    ensures ShmatFlags(sys, flg) == sys.shmRdonly <==> flg & SwlRdonly != 0
    ensures ShmatFlags(sys, flg) == 0 <==> flg & SwlRdonly == 0
  {
  }

  // -------------------------------------------------------------------------
  // Keys.

  /** The key handed to `shmget`: `SWL_PRIVATE` is replaced by the system's
      `IPC_PRIVATE`, any other key is passed through. */
  function SystemKey(sys: SysV, key: int): (k: int)
    ensures key != SwlPrivate ==> k == key
    ensures key == SwlPrivate ==> k == sys.ipcPrivate
  {
    if key == SwlPrivate then sys.ipcPrivate else key
  }

  /** What `shmget` is asked for. */
  datatype ShmgetRequest = ShmgetRequest(key: int, size: nat, flags: Flags)

  /** `SWL_GetSharedMemory`: the answer of `shmget` to the request with the
      system's key and flags. */
  function GetSharedMemory(sys: SysV, key: int, size: nat, flg: Flags, shmget: ShmgetRequest -> int): (id: int)
    ensures key != SwlPrivate ==> id == shmget(ShmgetRequest(key, size, ShmgetFlags(sys, flg)))
    ensures key == SwlPrivate ==> id == shmget(ShmgetRequest(sys.ipcPrivate, size, ShmgetFlags(sys, flg)))
  {
    shmget(ShmgetRequest(SystemKey(sys, key), size, ShmgetFlags(sys, flg)))
  }

  /** Two calls that differ only in bits the library does not recognise ask
      `shmget` for the same thing. */
  lemma GetSharedMemoryIgnoresOtherBits(sys: SysV, key: int, size: nat, f1: Flags, f2: Flags, shmget: ShmgetRequest -> int)
    requires f1 & (ModeMask | SwlCreat | SwlExcl) == f2 & (ModeMask | SwlCreat | SwlExcl)
    ensures GetSharedMemory(sys, key, size, f1, shmget) == GetSharedMemory(sys, key, size, f2, shmget)
  {
    ShmgetIgnoresOtherBits(sys, f1);
    ShmgetIgnoresOtherBits(sys, f2);
  }

  /** C `int` is 32 bits, two's complement. */
  const IntMin: int := -0x8000_0000
  const IntMax: int := 0x7FFF_FFFF

  predicate IsInt(x: int) {
    IntMin <= x <= IntMax
  }

  /** `(int)x`: the 32-bit two's-complement truncation. */
  function ToInt(x: int): (r: int)
    ensures IsInt(r)
    ensures (r - x) % 0x1_0000_0000 == 0
  {
    (x - IntMin) % 0x1_0000_0000 + IntMin
  }

  /** The truncation leaves exactly the representable values alone. */
  lemma ToIntFixesExactlyInts(x: int)
    ensures ToInt(x) == x <==> IsInt(x)
  {
  }

  /** What `errno` holds after a call. */
  datatype Errno = ErrnoUnchanged | Einval | ErrnoOfFtok

  /** The outcome of `SWL_GenerateKey`: the value returned, `errno`, and
      whether `ftok` was consulted at all. */
  datatype KeyCall = KeyCall(ret: int, errno: Errno, ftokCalled: bool)

  /** `SWL_GenerateKey(path, proj)`. `ftok` stands for the system's key
      generator; a `key_t` value is any integer the platform's signed
      `key_t` holds. `proj & 255` on a two's-complement `int` is its
      non-negative remainder modulo 256. */
  function GenerateKey(path: string, proj: int, ftok: (string, int) -> int): (r: KeyCall)
    requires IsInt(proj)
    ensures r.ftokCalled <==> proj % 256 != 0
    ensures r.ret != -1 <==> proj % 256 != 0 && ftok(path, proj) != -1 && IsInt(ftok(path, proj))
    ensures r.ret != -1 ==> r.ret == ftok(path, proj) && r.errno == ErrnoUnchanged
    ensures r.errno == Einval <==> proj % 256 == 0 || (ftok(path, proj) != -1 && !IsInt(ftok(path, proj)))
    ensures r.errno == ErrnoOfFtok <==> proj % 256 != 0 && ftok(path, proj) == -1
  {
    if proj % 256 == 0 then KeyCall(-1, Einval, false)
    else
      var key := ftok(path, proj);
      if key == -1 then KeyCall(-1, ErrnoOfFtok, true)
      else
        var res := ToInt(key);
        ToIntFixesExactlyInts(key);
        if res != key then KeyCall(-1, Einval, true)
        else KeyCall(res, ErrnoUnchanged, true)
  }

  /** When `ftok` itself only looks at the low eight bits of `proj`, so does
      `SWL_GenerateKey`. */
  lemma OnlyLowEightBitsMatter(path: string, proj: int, ftok: (string, int) -> int)
    requires IsInt(proj)
    requires forall q :: ftok(path, q) == ftok(path, q % 256)
    ensures GenerateKey(path, proj, ftok) == GenerateKey(path, proj % 256, ftok)
  {
    assert ftok(path, proj) == ftok(path, proj % 256 % 256);
  }

  // -------------------------------------------------------------------------
  // Segment information.

  /** The part of `struct ipc_perm` the library reads. `mode` is the
      platform's mode word, here 32 bits. */
  datatype IpcPerm = IpcPerm(uid: int, gid: int, cuid: int, cgid: int, mode: Flags)

  /** The part of `struct shmid_ds` the library reads, with the values the
      platform's field types hold. */
  datatype ShmidDs = ShmidDs(perm: IpcPerm, segsz: nat, atime: int, dtime: int, ctime: int,
                             cpid: int, lpid: int, nattch: nat)

  const U64Modulus: nat := 0x1_0000_0000_0000_0000
  const U32Modulus: nat := 0x1_0000_0000

  /** `SWL_SharedMemoryInfo`: four `uint64_t` fields, then four `int32_t`,
      then five `uint32_t`. */
  datatype SharedMemoryInfo = SharedMemoryInfo(
    atime: nat, dtime: nat, ctime: nat, segsz: nat,
    id: int, cpid: int, lpid: int, nattch: int,
    mode: nat, uid: nat, gid: nat, cuid: nat, cgid: nat)

  /** The C types of the record's fields. */
  datatype FieldType = U64 | I32 | U32 {

    function Bytes(): nat {
      if this == U64 then 8 else 4
    }

    /** The values a field of this type holds. */
    predicate Holds(v: int) {
      match this
      case U64 => 0 <= v < U64Modulus
      case I32 => IsInt(v)
      case U32 => 0 <= v < U32Modulus
    }
  }

  /** The types of the record's fields, in declaration order. */
  const InfoFieldTypes: seq<FieldType> := [U64, U64, U64, U64, I32, I32, I32, I32, U32, U32, U32, U32, U32]

  /** The record's values, in declaration order. */
  function InfoFields(info: SharedMemoryInfo): (r: seq<int>)
    ensures |r| == |InfoFieldTypes|
  {
    [info.atime, info.dtime, info.ctime, info.segsz,
     info.id, info.cpid, info.lpid, info.nattch,
     info.mode, info.uid, info.gid, info.cuid, info.cgid]
  }

  /** Every field holds a value of its declared type. */
  ghost predicate FitsWidths(info: SharedMemoryInfo) {
    forall i :: 0 <= i < |InfoFieldTypes| ==> InfoFieldTypes[i].Holds(InfoFields(info)[i])
  }

  /** Where field `i` starts when the fields are laid out one after another
      with no padding. */
  function FieldOffset(i: nat): nat
    requires i <= |InfoFieldTypes|
  {
    if i == 0 then 0 else FieldOffset(i - 1) + InfoFieldTypes[i - 1].Bytes()
  }

  /** The fields are declared by non-increasing size, so none needs padding
      before it: each starts at a multiple of its own size, and the thirteen
      fields take 68 bytes. */
  lemma InfoFieldsByDecreasingSize()
    ensures forall i, j :: 0 <= i < j < |InfoFieldTypes| ==> InfoFieldTypes[i].Bytes() >= InfoFieldTypes[j].Bytes()
    ensures forall i :: 0 <= i < |InfoFieldTypes| ==> FieldOffset(i) % InfoFieldTypes[i].Bytes() == 0
    ensures FieldOffset(|InfoFieldTypes|) == 68
  {
    assert FieldOffset(4) == 32;
    assert FieldOffset(8) == 48;
    assert FieldOffset(13) == 68;
  }

  /** The record `SWL_QuerySharedMemoryInfo` fills in for segment `id`, each
      value converted to its field's C type. The creator group field is
      filled from the creator user ID, and the mode keeps every bit the
      kernel reports. */
  function InfoOf(id: int, ds: ShmidDs): (info: SharedMemoryInfo)
    ensures FitsWidths(info)
    ensures info.id == ToInt(id)
  {
    SharedMemoryInfo(
      ds.atime % U64Modulus, ds.dtime % U64Modulus, ds.ctime % U64Modulus, ds.segsz % U64Modulus,
      ToInt(id), ToInt(ds.cpid), ToInt(ds.lpid), ToInt(ds.nattch),
      ds.perm.mode as nat, ds.perm.uid % U32Modulus, ds.perm.gid % U32Modulus,
      ds.perm.cuid % U32Modulus, ds.perm.cuid % U32Modulus)
  }

  /** The kernel's values that fit their fields. */
  ghost predicate FitsInfo(id: int, ds: ShmidDs) {
    && IsInt(id)
    && 0 <= ds.atime < U64Modulus && 0 <= ds.dtime < U64Modulus && 0 <= ds.ctime < U64Modulus
    && ds.segsz < U64Modulus
    && IsInt(ds.cpid) && IsInt(ds.lpid) && IsInt(ds.nattch)
    && 0 <= ds.perm.uid < U32Modulus && 0 <= ds.perm.gid < U32Modulus && 0 <= ds.perm.cuid < U32Modulus
  }

  /** Values that fit are copied exactly, `id` is the segment asked about, and
      both creator fields carry the creator's user ID. */
  lemma InfoCopiesFields(id: int, ds: ShmidDs)
    requires FitsInfo(id, ds)
    ensures var info := InfoOf(id, ds);
      && info.atime == ds.atime && info.dtime == ds.dtime && info.ctime == ds.ctime
      && info.segsz == ds.segsz && info.id == id
      && info.cpid == ds.cpid && info.lpid == ds.lpid && info.nattch == ds.nattch
      && info.mode == ds.perm.mode as nat
      && info.uid == ds.perm.uid && info.gid == ds.perm.gid
      && info.cuid == ds.perm.cuid && info.cgid == ds.perm.cuid
  {
    ToIntFixesExactlyInts(id);
    ToIntFixesExactlyInts(ds.cpid);
    ToIntFixesExactlyInts(ds.lpid);
    ToIntFixesExactlyInts(ds.nattch);
  }

  /** The creator group ID the kernel reports does not reach the record:
      two segments that differ only in it give the same record. */
  lemma CreatorGroupIsLost(id: int, ds: ShmidDs, cgid: int)
    ensures InfoOf(id, ds) == InfoOf(id, ds.(perm := ds.perm.(cgid := cgid)))
  {
  }

  /** The record's mode is not cut to the nine permission bits: a segment
      whose mode has a higher bit set reports it. */
  lemma ModeIsNotMasked(id: int, ds: ShmidDs)
    requires ds.perm.mode & !ModeMask != 0
    ensures InfoOf(id, ds).mode >= 0x200
  {
    assert ds.perm.mode >= 0x200;
  }

  /** The outcome of `SWL_QuerySharedMemoryInfo`: the status and the
      caller's record afterwards (`None` for a null pointer). */
  datatype QueryCall = QueryCall(status: int, info: Option<SharedMemoryInfo>)

  /** `SWL_QuerySharedMemoryInfo(id, info)`. `stat` stands for
      `shmctl(id, IPC_STAT, &ds)`: the segment's data, or `None` when the
      call fails. */
  function Query(id: int, info: Option<SharedMemoryInfo>, stat: int -> Option<ShmidDs>): (r: QueryCall)
    ensures r.status == SwlSuccess || r.status == SwlFailure
    ensures r.status == SwlFailure <==> stat(id).None?
    ensures r.status == SwlFailure ==> r.info == info
    ensures r.info.Some? <==> info.Some?
    ensures r.status == SwlSuccess && info.Some? ==> r.info == Some(InfoOf(id, stat(id).value))
  {
    match stat(id)
    case None => QueryCall(SwlFailure, info)
    case Some(ds) => QueryCall(SwlSuccess, if info.Some? then Some(InfoOf(id, ds)) else None)
  }

  /** A successful query fills the record with values of its declared
      widths, whatever was in it before. */
  lemma QueryOverwrites(id: int, a: Option<SharedMemoryInfo>, b: Option<SharedMemoryInfo>, stat: int -> Option<ShmidDs>)
    requires stat(id).Some? && a.Some? && b.Some?
    ensures Query(id, a, stat) == Query(id, b, stat)
    ensures FitsWidths(Query(id, a, stat).info.value)
  {
  }

  // -------------------------------------------------------------------------
  // Attaching, detaching, destroying.

  /** An address in the caller's space. */
  type Address = nat

  /** The outcome of `SWL_AttachSharedMemory`: the address returned (`None`
      for `(void*)-1`), the caller's record afterwards, and the address
      detached again, if any. */
  datatype AttachCall = AttachCall(ptr: Option<Address>, info: Option<SharedMemoryInfo>, detached: Option<Address>)

  /** `SWL_AttachSharedMemory(id, flg, info)`. `shmat` stands for
      `shmat(id, NULL, shmflg)` (`None` for `(void*)-1`); the answer of the
      `shmdt` that undoes an attachment is ignored. */
  function Attach(sys: SysV, id: int, flg: Flags, info: Option<SharedMemoryInfo>,
                  shmat: (int, Flags) -> Option<Address>, stat: int -> Option<ShmidDs>): (r: AttachCall)
    ensures r.ptr.Some? <==> shmat(id, ShmatFlags(sys, flg)).Some? && (info.None? || stat(id).Some?)
    ensures r.ptr.Some? ==> r.ptr == shmat(id, ShmatFlags(sys, flg))
    ensures r.detached.Some? <==> shmat(id, ShmatFlags(sys, flg)).Some? && info.Some? && stat(id).None?
    ensures r.ptr.None? ==> r.detached == shmat(id, ShmatFlags(sys, flg))
    ensures r.ptr.Some? && info.Some? ==> r.info == Some(InfoOf(id, stat(id).value))
  {
    var ptr := shmat(id, BitConv(flg, SwlRdonly, sys.shmRdonly));
    if ptr.Some? && info.Some? then
      var q := Query(id, info, stat);
      if q.status != SwlSuccess then AttachCall(None, q.info, ptr)
      else AttachCall(ptr, q.info, None)
    else AttachCall(ptr, info, None)
  }

  /** A failed call never leaves a segment attached, and a successful one
      never detaches. */
  lemma AttachLeavesNoStrayMapping(sys: SysV, id: int, flg: Flags, info: Option<SharedMemoryInfo>,
                                   shmat: (int, Flags) -> Option<Address>, stat: int -> Option<ShmidDs>)
    ensures var r := Attach(sys, id, flg, info, shmat, stat);
      && (r.ptr.Some? ==> r.detached.None?)
      && (r.detached.Some? ==> r.ptr.None? && shmat(id, ShmatFlags(sys, flg)) == r.detached)
  {
  }

  /** Status mapping of detach and destroy: a system answer of zero is
      success, anything else failure. */
  function StatusOf(answer: int): (s: int)
    ensures s == SwlSuccess <==> answer == 0
    ensures s == SwlFailure <==> answer != 0
  {
    if answer == 0 then SwlSuccess else SwlFailure
  }

  /** `SWL_DetachSharedMemory(ptr)`; `shmdt` stands for the system call. */
  function Detach(ptr: Address, shmdt: Address -> int): (s: int)
    ensures s == SwlSuccess <==> shmdt(ptr) == 0
    ensures s == SwlSuccess || s == SwlFailure
  {
    StatusOf(shmdt(ptr))
  }

  /** `SWL_DestroySharedMemory(id)`; `rmid` stands for
      `shmctl(id, IPC_RMID, NULL)`. */
  function Destroy(id: int, rmid: int -> int): (s: int)
    ensures s == SwlSuccess <==> rmid(id) == 0
    ensures s == SwlSuccess || s == SwlFailure
  {
    StatusOf(rmid(id))
  }

  // -------------------------------------------------------------------------
  // Configuring.

  /** The new mode: the permission bits of `flg` over every other bit of the
      old mode. */
  function MergeMode(prev: Flags, flg: Flags): (m: Flags)
    ensures m & ModeMask == flg & ModeMask
    ensures m & !ModeMask == prev & !ModeMask
  {
    (prev & !ModeMask) | (flg & ModeMask)
  }

  /** The two halves determine the merged mode. */
  lemma MergeModeUnique(prev: Flags, flg: Flags, m: Flags)
    requires m & ModeMask == flg & ModeMask && m & !ModeMask == prev & !ModeMask
    ensures m == MergeMode(prev, flg)
  {
  }

  /** Merging the same permissions again changes nothing. */
  lemma MergeModeIdempotent(prev: Flags, flg: Flags)
    ensures MergeMode(MergeMode(prev, flg), flg) == MergeMode(prev, flg)
  {
  }

  /** The merge leaves the mode alone exactly when its permission bits
      already are those of `flg`. */
  lemma MergeModeKeepsIff(prev: Flags, flg: Flags)
    ensures MergeMode(prev, flg) == prev <==> prev & ModeMask == flg & ModeMask
  {
  }

  /** The outcome of `SWL_ConfigureSharedMemory`: the status, and the data
      handed to `shmctl(id, IPC_SET, ...)`, if that call was made. */
  datatype ConfigureCall = ConfigureCall(status: int, setData: Option<ShmidDs>)

  /** `SWL_ConfigureSharedMemory(id, flg)`. `stat` stands for `IPC_STAT` and
      `ipcSet` for the answer of `IPC_SET` to the data it is given; only an
      answer of -1 is a failure. */
  function Configure(id: int, flg: Flags, stat: int -> Option<ShmidDs>, ipcSet: ShmidDs -> int): (r: ConfigureCall)
    ensures r.status == SwlSuccess || r.status == SwlFailure
    ensures stat(id).None? ==> r == ConfigureCall(SwlFailure, None)
    ensures r.setData.Some? <==> stat(id).Some? && stat(id).value.perm.mode & ModeMask != flg & ModeMask
    ensures r.setData.Some? ==> r.setData.value == WithMode(stat(id).value, MergeMode(stat(id).value.perm.mode, flg))
    ensures r.status == SwlFailure <==> stat(id).None? || (r.setData.Some? && ipcSet(r.setData.value) == -1)
  {
    match stat(id)
    case None => ConfigureCall(SwlFailure, None)
    case Some(ds) =>
      if ds.perm.mode & ModeMask != flg & ModeMask then
        var ds' := WithMode(ds, (ds.perm.mode & !ModeMask) | (flg & ModeMask));
        ConfigureCall(if ipcSet(ds') == -1 then SwlFailure else SwlSuccess, Some(ds'))
      else ConfigureCall(SwlSuccess, None)
  }

  /** The segment data with only its mode replaced. */
  function WithMode(ds: ShmidDs, mode: Flags): ShmidDs {
    ds.(perm := ds.perm.(mode := mode))
  }

  /** A segment whose permission bits already are those of `flg` is left
      alone, and the call succeeds. */
  lemma ConfigureSettled(id: int, flg: Flags, stat: int -> Option<ShmidDs>, ipcSet: ShmidDs -> int)
    requires stat(id).Some? && stat(id).value.perm.mode & ModeMask == flg & ModeMask
    ensures Configure(id, flg, stat, ipcSet) == ConfigureCall(SwlSuccess, None)
  {
  }

  /** Once the kernel has taken the new data, repeating the call with the
      same `flg` asks nothing more of it and succeeds. */
  lemma ConfigureTwice(id: int, flg: Flags, stat: int -> Option<ShmidDs>, stat': int -> Option<ShmidDs>, ipcSet: ShmidDs -> int)
    requires Configure(id, flg, stat, ipcSet).status == SwlSuccess
    requires var r := Configure(id, flg, stat, ipcSet);
      stat'(id) == if r.setData.Some? then r.setData else stat(id)
    ensures Configure(id, flg, stat', ipcSet) == ConfigureCall(SwlSuccess, None)
  {
    var r := Configure(id, flg, stat, ipcSet);
    var ds := stat(id).value;
    if r.setData.Some? {
      assert stat'(id).value.perm.mode == MergeMode(ds.perm.mode, flg);
    }
    ConfigureSettled(id, flg, stat', ipcSet);
  }
}
