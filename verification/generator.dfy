/** The engine shared by the two ABI description generators (`gendeps` and its
    older variant `gencode`). A run is a pure function of the host platform:
    each program is a fixed list of phases, each phase either emits the lines
    of its steps or verifies a layout invariant, and the first invariant that
    fails ends the run with status 1 after whatever was already written. */
module Generator {
  import opened Options
  import opened CTypes
  import opened OpaqueTypes
  import opened Symbols
  import opened Idents

  /** What the C compiler and the C library say about the host.

      `intType` gives the C integer type of a type or of an integer lvalue
      (`time_t`, `timeval.tv_sec`, `sembuf.sem_op`); `sizeOf` answers `sizeof`
      for every type or member the programs print or compare; `offsetOf`
      gives the offset of a member within its structure (`shm_perm.uid`
      within `struct shmid_ds` for `shmid_ds.shm_perm.uid`). `defined` tells
      which macros exist and `value` gives their values. `semValueMaxSysconf`
      is `None` when `_SC_SEM_VALUE_MAX` is not defined and otherwise holds
      what `sysconf` returns for it. */
  datatype Platform = Platform(
    intType: Ident -> CInt,
    sizeOf: Ident -> nat,
    offsetOf: Ident -> nat,
    defined: Sym -> bool,
    value: Sym -> int,
    pageSize: int,
    semValueMaxSysconf: Option<int>)
  {
    /** The width of the C `int`, the target of the integer promotions. */
    function IntWidth(): Width {
      intType(c_int).width
    }
  }

  /** The Julia type a constant is wrapped in (`Bare` for an untyped number). */
  datatype JlType = Cint | Cshort | ModeT | ClockidT | KeyT | TypeofKeyT | SigactionFlags | Bare

  /** The `printf` conversion of a constant: `%04o`, `%d`, `%2d` or `%08x`. */
  datatype NumFmt = Oct4 | Dec | Dec2 | Hex8

  /** When a line is written: always, only when a macro is defined (an
      `#ifdef` around it), or always with a fallback value for an undefined
      macro (an `#ifndef` that defines it first). */
  datatype Presence = Always | IfDefined(guard: Sym) | OrDefault(fallback: int)

  /** How one constant is written. */
  datatype ConstSpec = ConstSpec(jl: JlType, fmt: NumFmt, presence: Presence)

  /** What distinguishes the two programs beyond their statements: the prefix
      of the type aliases (`""` in `gendeps`, `"_typeof_"` in `gencode`) and
      the way each constant is written. */
  datatype Dialect = Dialect(typePrefix: string, spec: Sym -> ConstSpec)

  /** The prefix of every alias made from an lvalue. */
  const LvaluePrefix: string := "_typeof_"

  predicate Present(p: Platform, pr: Presence) {
    match pr
    case IfDefined(g) => p.defined(g)
    case _ => true
  }

  /** The value the program sees for the macro `s`. */
  function ConstValue(p: Platform, s: Sym, pr: Presence): (v: int)
    ensures pr.OrDefault? && !p.defined(s) ==> v == pr.fallback
    ensures !pr.OrDefault? || p.defined(s) ==> v == p.value(s)
  {
    match pr
    case OrDefault(fallback) => if p.defined(s) then p.value(s) else fallback
    case _ => p.value(s)
  }

  /** Whether the C text of a `DEF_CONST` for `s` compiles on `p`. The
      statement names the macro, so an unguarded one needs it defined, a
      guarded one needs it defined whenever the guard holds, and one with an
      `#ifndef` fallback always compiles. */
  predicate Compiles(p: Platform, s: Sym, pr: Presence) {
    match pr
    case Always => p.defined(s)
    case IfDefined(g) => p.defined(g) ==> p.defined(s)
    case OrDefault(_) => true
  }

  /** A program made of `steps` builds on `p`: every constant entry compiles. */
  predicate Builds(p: Platform, d: Dialect, steps: seq<Step>) {
    forall i :: 0 <= i < |steps| && steps[i].Define? ==> Compiles(p, steps[i].sym, d.spec(steps[i].sym).presence)
  }

  /** In a program that builds, an entry reached is one that compiles. */
  lemma EntryCompiles(p: Platform, d: Dialect, steps: seq<Step>, s: Sym)
    requires Builds(p, d, steps) && Define(s) in steps
    ensures Compiles(p, s, d.spec(s).presence)
  {
    var i :| 0 <= i < |steps| && steps[i] == Define(s);
  }

  /** Every header is written unconditionally except the SIGSYS one, which
      sits inside `#ifdef SYS_SECCOMP`. */
  function HeadingPresence(c: Category): Presence {
    if c == SiCodeSys then IfDefined(SYS_SECCOMP) else Always
  }

  /** One line of the generated Julia file, before rendering. */
  datatype Line =
    | Banner
    | Verbatim(text: string)
    | Header(cat: Category)
      /** `const <prefix><name> = [U]Int<bits>` */
    | TypeAlias(prefix: string, name: Ident, signed: bool, bits: nat)
    | Constant(sym: Sym, value: int, jl: JlType, fmt: NumFmt)
      /** `const _sizeof_<name> = <bytes>` */
    | SizeOf(name: Ident, bytes: nat)
      /** `const _offsetof_<name> = <offset>` */
    | OffsetOf(name: Ident, offset: nat)
      /** `const _typeof_<name> = NTuple{...}` */
    | Tuple(name: Ident, tiling: Tiling)
    | PageSize(size: int)
    | SemValueMax(limit: Option<int>)
    | Pointer(name: Ident)

  /** One statement of a generator's `main`. */
  datatype Step =
    | PutBanner
    | Put(text: string)
    | Heading(cat: Category)
      /** `DEF_TYPEOF_TYPE(ctype, ...)` */
    | AliasOfType(ctype: Ident)
      /** `DEF_TYPEOF_LVALUE(alias, lvalue)` */
    | AliasOfLvalue(alias: Ident, lvalue: Ident)
      /** `DEF_CONST(sym, ...)`, with its `#ifdef` if any */
    | Define(sym: Sym)
      /** `DEF_SIZEOF_TYPE(alias, ctype)` */
    | SizeOfType(alias: Ident, ctype: Ident)
      /** `DEF_OFFSETOF(alias, struct, field)`, the member named as
          `variable.field` */
    | OffsetOfField(alias: Ident, member: Ident)
      /** `setofbits(output, "_typeof_<alias>", sizeof(ctype), unsigned)` */
    | WordsOf(alias: Ident, ctype: Ident, unsigned: bool)
      /** `Int<8*sizeof(ctype)>` written without probing (`sigval_t`) */
    | SizedSignedAlias(alias: Ident, ctype: Ident)
      /** `UInt<8*sizeof(lvalue)>` written without probing (`sa_flags`) */
    | ForcedUnsignedAlias(alias: Ident, lvalue: Ident)
    | ReportPageSize
    | ReportSemValueMax
      /** a pointer-valued constant (`MAP_FAILED`, `SIG_DFL`, ...) */
    | PointerConst(name: Ident)

  /** `SEM_VALUE_MAX`: starting from -1, `sysconf` is asked first and the
      macro only if the value is still negative; a positive value is written as
      is and anything else as `typemax(Cuint)` (here `None`). */
  function SemValueMaxChoice(p: Platform): (r: Option<int>)
    ensures r.Some? ==> r.value > 0
    ensures p.semValueMaxSysconf.Some? && p.semValueMaxSysconf.value >= 0 ==>
              r == if p.semValueMaxSysconf.value > 0 then p.semValueMaxSysconf else None
    ensures (p.semValueMaxSysconf.None? || p.semValueMaxSysconf.value < 0) ==>
              r == if p.defined(SEM_VALUE_MAX) && p.value(SEM_VALUE_MAX) > 0 then Some(p.value(SEM_VALUE_MAX)) else None
  {
    var v0 := -1;
    var v1 := if p.semValueMaxSysconf.Some? && v0 < 0 then p.semValueMaxSysconf.value else v0;
    var v2 := if p.defined(SEM_VALUE_MAX) && v1 < 0 then p.value(SEM_VALUE_MAX) else v1;
    if v2 > 0 then Some(v2) else None
  }

  /** The lines one step writes. An alias made by the all-bits probe carries
      exactly the signedness and width of its type, on every width of `int`. */
  function StepLines(p: Platform, d: Dialect, s: Step): (r: seq<Line>)
    ensures |r| <= 1
    ensures s.AliasOfType? ==>
              r == [TypeAlias(d.typePrefix, s.ctype, p.intType(s.ctype).signed, p.intType(s.ctype).width.Bits())]
    ensures s.AliasOfLvalue? ==>
              r == [TypeAlias(LvaluePrefix, s.alias, p.intType(s.lvalue).signed, p.intType(s.lvalue).width.Bits())]
    ensures s.WordsOf? ==>
              |r| == 1 && r[0].Tuple? && r[0].name == s.alias
              && Covers(r[0].tiling, p.sizeOf(s.ctype)) && r[0].tiling.unsigned == s.unsigned
    ensures s.ForcedUnsignedAlias? ==> r == [TypeAlias(LvaluePrefix, s.alias, false, 8 * p.sizeOf(s.lvalue))]
    ensures s.Define? ==> (r != [] <==> Present(p, d.spec(s.sym).presence))
    ensures s.Heading? ==> (r != [] <==> Present(p, HeadingPresence(s.cat)))
  {
    match s
    case PutBanner => [Banner]
    case Put(text) => [Verbatim(text)]
    case Heading(c) => if Present(p, HeadingPresence(c)) then [Header(c)] else []
    case AliasOfType(ctype) =>
      var t := p.intType(ctype);
      ProbeIsExact(t, p.IntWidth());
      [TypeAlias(d.typePrefix, ctype, ProbeNegative(t, p.IntWidth()), t.width.Bits())]
    case AliasOfLvalue(alias, lvalue) =>
      var t := p.intType(lvalue);
      ProbeIsExact(t, p.IntWidth());
      [TypeAlias(LvaluePrefix, alias, ProbeNegative(t, p.IntWidth()), t.width.Bits())]
    case Define(sym) =>
      var spec := d.spec(sym);
      if Present(p, spec.presence) then [Constant(sym, ConstValue(p, sym, spec.presence), spec.jl, spec.fmt)] else []
    case SizeOfType(alias, ctype) => [SizeOf(alias, p.sizeOf(ctype))]
    case OffsetOfField(alias, member) => [OffsetOf(alias, p.offsetOf(member))]
    case WordsOf(alias, ctype, unsigned) => [Tuple(alias, SetOfBits(p.sizeOf(ctype), unsigned))]
    case SizedSignedAlias(alias, ctype) => [TypeAlias("", alias, true, 8 * p.sizeOf(ctype))]
    case ForcedUnsignedAlias(alias, lvalue) => [TypeAlias(LvaluePrefix, alias, false, 8 * p.sizeOf(lvalue))]
    case ReportPageSize => [PageSize(p.pageSize)]
    case ReportSemValueMax => [SemValueMax(SemValueMaxChoice(p))]
    case PointerConst(name) => [Pointer(name)]
  }

  /** The lines of a run of steps, in order. */
  function EmitAll(p: Platform, d: Dialect, steps: seq<Step>): (r: seq<Line>)
    ensures |r| <= |steps|
  {
    if steps == [] then [] else StepLines(p, d, steps[0]) + EmitAll(p, d, steps[1..])
  }

  lemma {:induction false} EmitAllAppend(p: Platform, d: Dialect, a: seq<Step>, b: seq<Step>)
    ensures EmitAll(p, d, a + b) == EmitAll(p, d, a) + EmitAll(p, d, b)
  {
    if a != [] {
      assert (a + b)[0] == a[0];
      assert (a + b)[1..] == a[1..] + b;
      EmitAllAppend(p, d, a[1..], b);
      var h := StepLines(p, d, a[0]);
      assert h + (EmitAll(p, d, a[1..]) + EmitAll(p, d, b)) == (h + EmitAll(p, d, a[1..])) + EmitAll(p, d, b);
    } else {
      assert a + b == b;
    }
  }

  // ---------------------------------------------------------------------
  // Layout invariants.

  /** The complaints a run may end with, on the standard error stream. */
  datatype Diag =
    | Usage(prog: string)
    | NotTimeT(structType: Ident)
    | NotFirst(structType: Ident)
      /** `member` is `siginfo_t.<field>` */
    | MemberSize(member: Ident, reference: Ident)
  {
    function Message(): string {
      match this
      case Usage(prog) => "Usage: " + prog + " [--help|-h]"
      case NotTimeT(structType) => "error: Field `tv_sec` in `" + structType.Text() + "` is not of type `time_t`"
      case NotFirst(structType) => "error: Field `tv_sec` in `" + structType.Text() + "` is not the first one"
      case MemberSize(member, reference) =>
        var field := member.Text();
        "sizeof((siginfo_t)." + (if |field| >= 10 then field[10..] else field) + ") != sizeof(" + reference.Text() + ")"
    }
  }

  /** The test both programs apply to two integer lvalues: same size, and the
      all-bits probe gives the same sign. */
  predicate ProbesAgree(p: Platform, a: CInt, b: CInt) {
    a.width.Bytes() == b.width.Bytes() && ProbeNegative(a, p.IntWidth()) == ProbeNegative(b, p.IntWidth())
  }

  /** The test is exact: it accepts two types precisely when they are the same
      C integer type. */
  lemma ProbesAgreeIffSameType(p: Platform, a: CInt, b: CInt)
    ensures ProbesAgree(p, a, b) <==> a == b
  {
    ProbeIsExact(a, p.IntWidth());
    ProbeIsExact(b, p.IntWidth());
  }

  /** The `tv_sec` checks, in program order: the `timeval` type, its offset,
      the `timespec` type, its offset. The offset checks exist only in
      `gendeps` (`requireFirst`). */
  function TimeCheck(p: Platform, requireFirst: bool): (r: Option<Diag>)
    ensures r == None <==>
              && p.intType(timeval_tv_sec) == p.intType(time_t)
              && p.intType(timespec_tv_sec) == p.intType(time_t)
              && (requireFirst ==> p.offsetOf(timeval_tv_sec) == 0 && p.offsetOf(timespec_tv_sec) == 0)
    ensures r.Some? ==> r.value in {NotTimeT(struct_timeval), NotTimeT(struct_timespec),
                                    NotFirst(struct_timeval), NotFirst(struct_timespec)}
    ensures r.Some? && r.value.NotFirst? ==> requireFirst
  {
    var t := p.intType(time_t);
    ProbesAgreeIffSameType(p, p.intType(timeval_tv_sec), t);
    ProbesAgreeIffSameType(p, p.intType(timespec_tv_sec), t);
    if !ProbesAgree(p, p.intType(timeval_tv_sec), t) then Some(NotTimeT(struct_timeval))
    else if requireFirst && p.offsetOf(timeval_tv_sec) != 0 then Some(NotFirst(struct_timeval))
    else if !ProbesAgree(p, p.intType(timespec_tv_sec), t) then Some(NotTimeT(struct_timespec))
    else if requireFirst && p.offsetOf(timespec_tv_sec) != 0 then Some(NotFirst(struct_timespec))
    else None
  }

  /** A `siginfo_t` member and the type whose size it must have. */
  datatype MemberCheck = MemberCheck(member: Ident, reference: Ident)

  /** The nine POSIX members `gendeps` checks, in program order. */
  const SiginfoChecks: seq<MemberCheck> := [
    MemberCheck(siginfo_t_si_signo, c_int),
    MemberCheck(siginfo_t_si_code, c_int),
    MemberCheck(siginfo_t_si_errno, c_int),
    MemberCheck(siginfo_t_si_pid, pid_t),
    MemberCheck(siginfo_t_si_uid, uid_t),
    MemberCheck(siginfo_t_si_status, c_int),
    MemberCheck(siginfo_t_si_value, sigval_t),
    MemberCheck(siginfo_t_si_addr, void_ptr),
    MemberCheck(siginfo_t_si_band, c_long)
  ]

  predicate MemberMatches(p: Platform, m: MemberCheck) {
    p.sizeOf(m.member) == p.sizeOf(m.reference)
  }

  /** The complaint about the first member whose size is wrong, if any. */
  function FirstMismatch(p: Platform, cs: seq<MemberCheck>): (r: Option<Diag>)
    ensures r == None <==> forall i :: 0 <= i < |cs| ==> MemberMatches(p, cs[i])
    ensures r.Some? ==>
              exists i :: 0 <= i < |cs| && !MemberMatches(p, cs[i])
                          && r.value == MemberSize(cs[i].member, cs[i].reference)
                          && (forall j :: 0 <= j < i ==> MemberMatches(p, cs[j]))
  {
    if cs == [] then None
    else if !MemberMatches(p, cs[0]) then Some(MemberSize(cs[0].member, cs[0].reference))
    else
      var r := FirstMismatch(p, cs[1..]);
      assert forall i :: 1 <= i < |cs| ==> cs[i] == cs[1..][i - 1];
      if r.None? then r
      else
        var i :| 0 <= i < |cs[1..]| && !MemberMatches(p, cs[1..][i])
                 && r.value == MemberSize(cs[1..][i].member, cs[1..][i].reference)
                 && (forall j :: 0 <= j < i ==> MemberMatches(p, cs[1..][j]));
        assert cs[i + 1] == cs[1..][i];
        r
  }

  datatype Check = TimeFields(requireFirst: bool) | SiginfoMembers

  function CheckResult(p: Platform, c: Check): Option<Diag> {
    match c
    case TimeFields(requireFirst) => TimeCheck(p, requireFirst)
    case SiginfoMembers => FirstMismatch(p, SiginfoChecks)
  }

  // ---------------------------------------------------------------------
  // Runs.

  datatype Phase = Emit(steps: seq<Step>) | Verify(check: Check)

  /** What a run wrote to standard output and, if it stopped early, why. */
  datatype Run = Run(out: seq<Line>, failure: Option<Diag>)

  /** Output is written as it is produced, so a failing check leaves behind
      every line written before it. */
  function Exec(p: Platform, d: Dialect, phases: seq<Phase>): Run {
    if phases == [] then Run([], None)
    else match phases[0]
      case Emit(steps) =>
        var rest := Exec(p, d, phases[1..]);
        Run(EmitAll(p, d, steps) + rest.out, rest.failure)
      case Verify(c) =>
        match CheckResult(p, c)
        case Some(diag) => Run([], Some(diag))
        case None => Exec(p, d, phases[1..])
  }

  /** The steps of every emitting phase, in order. */
  function AllSteps(phases: seq<Phase>): seq<Step> {
    if phases == [] then []
    else (if phases[0].Emit? then phases[0].steps else []) + AllSteps(phases[1..])
  }

  lemma {:induction false} AllStepsAppend(a: seq<Phase>, b: seq<Phase>)
    ensures AllSteps(a + b) == AllSteps(a) + AllSteps(b)
  {
    if a != [] {
      assert (a + b)[0] == a[0];
      assert (a + b)[1..] == a[1..] + b;
      AllStepsAppend(a[1..], b);
    } else {
      assert a + b == b;
    }
  }

  predicate ChecksPass(p: Platform, phases: seq<Phase>) {
    forall i :: 0 <= i < |phases| && phases[i].Verify? ==> CheckResult(p, phases[i].check) == None
  }

  /** A run whose checks all pass writes the lines of all its steps and ends
      normally; a run with a failing check ends with a complaint. */
  lemma {:induction false} ExecCompletes(p: Platform, d: Dialect, phases: seq<Phase>)
    ensures ChecksPass(p, phases) ==> Exec(p, d, phases) == Run(EmitAll(p, d, AllSteps(phases)), None)
    ensures !ChecksPass(p, phases) ==> Exec(p, d, phases).failure.Some?
  {
    if phases != [] {
      ExecCompletes(p, d, phases[1..]);
      assert forall i :: 1 <= i < |phases| ==> phases[i] == phases[1..][i - 1];
      assert forall j :: 0 <= j < |phases[1..]| ==> phases[1..][j] == phases[j + 1];
      match phases[0]
      case Emit(steps) =>
        EmitAllAppend(p, d, steps, AllSteps(phases[1..]));
      case Verify(c) =>
        assert AllSteps(phases) == [] + AllSteps(phases[1..]);
        assert [] + AllSteps(phases[1..]) == AllSteps(phases[1..]);
        if CheckResult(p, c).Some? {
          assert phases[0].Verify? && CheckResult(p, phases[0].check) != None;
        }
    }
  }

  /** The first failing check ends the run: the output is exactly the lines of
      the steps before it and the complaint is that check's. */
  lemma {:induction false} ExecStopsAtFailure(p: Platform, d: Dialect, pre: seq<Phase>, c: Check, post: seq<Phase>)
    requires ChecksPass(p, pre)
    requires CheckResult(p, c).Some?
    ensures Exec(p, d, pre + [Verify(c)] + post) == Run(EmitAll(p, d, AllSteps(pre)), CheckResult(p, c))
  {
    var all := pre + [Verify(c)] + post;
    if pre == [] {
      assert all[0] == Verify(c);
    } else {
      assert all[1..] == pre[1..] + [Verify(c)] + post;
      assert ChecksPass(p, pre[1..]) by {
        assert forall i :: 0 <= i < |pre[1..]| ==> pre[1..][i] == pre[i + 1];
      }
      ExecStopsAtFailure(p, d, pre[1..], c, post);
      assert all[0] == pre[0];
      match pre[0]
      case Emit(steps) =>
        EmitAllAppend(p, d, steps, AllSteps(pre[1..]));
      case Verify(c0) =>
        assert CheckResult(p, c0) == None by {
          assert pre[0].Verify?;
        }
        assert AllSteps(pre) == [] + AllSteps(pre[1..]);
        assert [] + AllSteps(pre[1..]) == AllSteps(pre[1..]);
    }
  }

  // ---------------------------------------------------------------------
  // The command line.

  /** What a process leaves behind: its exit status and what it wrote to
      standard output and to standard error. */
  datatype Outcome = Outcome(status: int, out: seq<Line>, err: seq<Diag>)

  predicate AsksForHelp(args: seq<string>) {
    |args| == 1 && (args[0] == "--help" || args[0] == "-h")
  }

  /** `main(argc, argv)` with `args` = `argv[1..]`: help on request, usage and
      status 1 on any other argument, otherwise the run. */
  function Main(p: Platform, d: Dialect, prog: string, args: seq<string>, phases: seq<Phase>): (o: Outcome)
    ensures AsksForHelp(args) ==> o == Outcome(0, [], [Usage(prog)])
    ensures args != [] && !AsksForHelp(args) ==> o == Outcome(1, [], [Usage(prog)])
    ensures args == [] ==> (o.status == 0 <==> ChecksPass(p, phases)) && o.status in {0, 1}
    ensures args == [] && !ChecksPass(p, phases) ==> |o.err| == 1 && !o.err[0].Usage?
  {
    if AsksForHelp(args) then Outcome(0, [], [Usage(prog)])
    else if args != [] then Outcome(1, [], [Usage(prog)])
    else
      var run := Exec(p, d, phases);
      ExecCompletes(p, d, phases);
      ExecNeverComplainsOfUsage(p, d, phases);
      match run.failure
      case None => Outcome(0, run.out, [])
      case Some(diag) => Outcome(1, run.out, [diag])
  }

  /** A run without arguments writes what its phases write. */
  lemma MainWritesWhatExecWrites(p: Platform, d: Dialect, prog: string, phases: seq<Phase>)
    ensures Main(p, d, prog, [], phases).out == Exec(p, d, phases).out
  {
  }

  /** In a three-phase program, a constant of the first phase is written
      exactly when its guard holds, whatever the checks say. */
  lemma EarlyConstantInRun(p: Platform, d: Dialect, prog: string, a: seq<Step>, c1: Check, b: seq<Step>, c2: Check, c: seq<Step>, s: Sym)
    requires Define(s) in a
    ensures HasConstant(Main(p, d, prog, [], [Emit(a), Verify(c1), Emit(b), Verify(c2), Emit(c)]).out, s)
            <==> Present(p, d.spec(s).presence)
  {
    var phases := [Emit(a), Verify(c1), Emit(b), Verify(c2), Emit(c)];
    MainWritesWhatExecWrites(p, d, prog, phases);
    EarlyConstantIff(p, d, phases, s);
  }

  /** A run without arguments whose checks all pass writes the lines of every
      step, in order, and nothing on standard error. */
  lemma MainWritesEverything(p: Platform, d: Dialect, prog: string, phases: seq<Phase>)
    requires ChecksPass(p, phases)
    ensures Main(p, d, prog, [], phases) == Outcome(0, EmitAll(p, d, AllSteps(phases)), [])
  {
    ExecCompletes(p, d, phases);
  }

  lemma ExecEmitFirst(p: Platform, d: Dialect, steps: seq<Step>, rest: seq<Phase>)
    ensures Exec(p, d, [Emit(steps)] + rest)
            == Run(EmitAll(p, d, steps) + Exec(p, d, rest).out, Exec(p, d, rest).failure)
  {
    assert ([Emit(steps)] + rest)[1..] == rest;
  }

  lemma ExecVerifyFirst(p: Platform, d: Dialect, c: Check, rest: seq<Phase>)
    ensures Exec(p, d, [Verify(c)] + rest)
            == if CheckResult(p, c).Some? then Run([], CheckResult(p, c)) else Exec(p, d, rest)
  {
    assert ([Verify(c)] + rest)[1..] == rest;
  }

  /** Two emitting phases separated by a check: the second is written only
      when the check passes. */
  lemma TwoPhaseExec(p: Platform, d: Dialect, b: seq<Step>, c2: Check, c: seq<Step>)
    ensures Exec(p, d, [Emit(b), Verify(c2), Emit(c)]) ==
              if CheckResult(p, c2).Some? then Run(EmitAll(p, d, b), CheckResult(p, c2))
              else Run(EmitAll(p, d, b) + EmitAll(p, d, c), None)
  {
    ExecEmitFirst(p, d, c, []);
    assert [Emit(c)] + [] == [Emit(c)];
    ExecVerifyFirst(p, d, c2, [Emit(c)]);
    assert [Emit(b), Verify(c2), Emit(c)] == [Emit(b)] + ([Verify(c2)] + [Emit(c)]);
    ExecEmitFirst(p, d, b, [Verify(c2)] + [Emit(c)]);
  }

  /** The run of three emitting phases separated by two checks: the first
      failing check decides the complaint and how much of the output is
      written. */
  lemma ThreePhaseExec(p: Platform, d: Dialect, a: seq<Step>, c1: Check, b: seq<Step>, c2: Check, c: seq<Step>)
    ensures Exec(p, d, [Emit(a), Verify(c1), Emit(b), Verify(c2), Emit(c)]) ==
              if CheckResult(p, c1).Some? then Run(EmitAll(p, d, a), CheckResult(p, c1))
              else if CheckResult(p, c2).Some? then Run(EmitAll(p, d, a) + EmitAll(p, d, b), CheckResult(p, c2))
              else Run(EmitAll(p, d, a) + EmitAll(p, d, b) + EmitAll(p, d, c), None)
  {
    var tail := [Emit(b), Verify(c2), Emit(c)];
    var checked := [Verify(c1)] + tail;
    TwoPhaseExec(p, d, b, c2, c);
    ExecVerifyFirst(p, d, c1, tail);
    assert [Emit(a), Verify(c1), Emit(b), Verify(c2), Emit(c)] == [Emit(a)] + checked;
    ExecEmitFirst(p, d, a, checked);
    var oa, ob, oc := EmitAll(p, d, a), EmitAll(p, d, b), EmitAll(p, d, c);
    if CheckResult(p, c1).Some? {
      assert oa + [] == oa;
    } else if CheckResult(p, c2).Some? {
      assert Exec(p, d, checked) == Run(ob, CheckResult(p, c2));
    } else {
      assert Exec(p, d, checked) == Run(ob + oc, None);
      LinesAssociate(oa, ob, oc);
    }
  }

  /** Output written in three pieces is the same however it is grouped. */
  lemma LinesAssociate(x: seq<Line>, y: seq<Line>, z: seq<Line>)
    ensures x + (y + z) == x + y + z
  {
  }

  /** The same program as a whole process, run without arguments: status 1
      and one complaint at the first failing check, status 0 and every line
      otherwise. */
  lemma ThreePhaseMain(p: Platform, d: Dialect, prog: string, a: seq<Step>, c1: Check, b: seq<Step>, c2: Check, c: seq<Step>)
    ensures Main(p, d, prog, [], [Emit(a), Verify(c1), Emit(b), Verify(c2), Emit(c)]) ==
              if CheckResult(p, c1).Some? then Outcome(1, EmitAll(p, d, a), [CheckResult(p, c1).value])
              else if CheckResult(p, c2).Some? then Outcome(1, EmitAll(p, d, a) + EmitAll(p, d, b), [CheckResult(p, c2).value])
              else Outcome(0, EmitAll(p, d, a) + EmitAll(p, d, b) + EmitAll(p, d, c), [])
  {
    ThreePhaseExec(p, d, a, c1, b, c2, c);
  }

  /** A program of two emitting phases separated by one check, run without
      arguments: status 1 and the check's complaint after the first phase's
      lines when it fails, status 0 and both phases' lines otherwise. */
  lemma TwoPhaseMain(p: Platform, d: Dialect, prog: string, a: seq<Step>, c: Check, b: seq<Step>)
    ensures Main(p, d, prog, [], [Emit(a), Verify(c), Emit(b)]) ==
              if CheckResult(p, c).Some? then Outcome(1, EmitAll(p, d, a), [CheckResult(p, c).value])
              else Outcome(0, EmitAll(p, d, a) + EmitAll(p, d, b), [])
  {
    TwoPhaseExec(p, d, a, c, b);
  }

  lemma {:induction false} ExecNeverComplainsOfUsage(p: Platform, d: Dialect, phases: seq<Phase>)
    ensures Exec(p, d, phases).failure.Some? ==> !Exec(p, d, phases).failure.value.Usage?
  {
    if phases != [] {
      ExecNeverComplainsOfUsage(p, d, phases[1..]);
      match phases[0]
      case Emit(_) =>
      case Verify(c) =>
        var r := CheckResult(p, c);
        if r.Some? && c.SiginfoMembers? {
          var cs := SiginfoChecks;
          var i :| 0 <= i < |cs| && r.value == MemberSize(cs[i].member, cs[i].reference);
        }
    }
  }

  // ---------------------------------------------------------------------
  // What the catalog guarantees about the output.

  /** The symbols of the constant lines, in output order. */
  function ConstantSyms(lines: seq<Line>): seq<Sym> {
    if lines == [] then []
    else (if lines[0].Constant? then [lines[0].sym] else []) + ConstantSyms(lines[1..])
  }

  /** The symbols of the `DEF_CONST` steps whose guard holds, in step order. */
  function PresentDefines(p: Platform, d: Dialect, steps: seq<Step>): seq<Sym> {
    if steps == [] then []
    else (if steps[0].Define? && Present(p, d.spec(steps[0].sym).presence) then [steps[0].sym] else [])
         + PresentDefines(p, d, steps[1..])
  }

  lemma {:induction false} ConstantSymsAppend(a: seq<Line>, b: seq<Line>)
    ensures ConstantSyms(a + b) == ConstantSyms(a) + ConstantSyms(b)
  {
    if a != [] {
      assert (a + b)[0] == a[0];
      assert (a + b)[1..] == a[1..] + b;
      ConstantSymsAppend(a[1..], b);
    } else {
      assert a + b == b;
    }
  }

  /** Constants are written in catalog order, skipping exactly the ones whose
      guard does not hold. */
  lemma {:induction false} ConstantsInCatalogOrder(p: Platform, d: Dialect, steps: seq<Step>)
    ensures ConstantSyms(EmitAll(p, d, steps)) == PresentDefines(p, d, steps)
  {
    if steps != [] {
      ConstantsInCatalogOrder(p, d, steps[1..]);
      ConstantSymsAppend(StepLines(p, d, steps[0]), EmitAll(p, d, steps[1..]));
      var r := StepLines(p, d, steps[0]);
      if r != [] {
        assert r[1..] == [];
      }
    }
  }

  /** The categories of the header lines, in output order. */
  function HeaderCats(lines: seq<Line>): seq<Category> {
    if lines == [] then []
    else (if lines[0].Header? then [lines[0].cat] else []) + HeaderCats(lines[1..])
  }

  /** The categories of the headings whose guard holds, in step order. */
  function PresentHeadings(p: Platform, steps: seq<Step>): seq<Category> {
    if steps == [] then []
    else (if steps[0].Heading? && Present(p, HeadingPresence(steps[0].cat)) then [steps[0].cat] else [])
         + PresentHeadings(p, steps[1..])
  }

  lemma {:induction false} HeaderCatsAppend(a: seq<Line>, b: seq<Line>)
    ensures HeaderCats(a + b) == HeaderCats(a) + HeaderCats(b)
  {
    if a != [] {
      assert (a + b)[0] == a[0];
      assert (a + b)[1..] == a[1..] + b;
      HeaderCatsAppend(a[1..], b);
    } else {
      assert a + b == b;
    }
  }

  lemma {:induction false} PresentHeadingsAppend(p: Platform, a: seq<Step>, b: seq<Step>)
    ensures PresentHeadings(p, a + b) == PresentHeadings(p, a) + PresentHeadings(p, b)
  {
    if a != [] {
      assert (a + b)[0] == a[0];
      assert (a + b)[1..] == a[1..] + b;
      PresentHeadingsAppend(p, a[1..], b);
    } else {
      assert a + b == b;
    }
  }

  /** A run of steps with one unconditional heading, in front, heads one
      category. */
  lemma {:induction false} OneHeading(p: Platform, steps: seq<Step>)
    requires |steps| > 0 && steps[0].Heading? && steps[0].cat != SiCodeSys
    requires forall i :: 1 <= i < |steps| ==> !steps[i].Heading?
    ensures PresentHeadings(p, steps) == [steps[0].cat]
  {
    NoHeadings(p, steps[1..]);
  }

  lemma {:induction false} NoHeadings(p: Platform, steps: seq<Step>)
    requires forall i :: 0 <= i < |steps| ==> !steps[i].Heading?
    ensures PresentHeadings(p, steps) == []
  {
    if steps != [] {
      NoHeadings(p, steps[1..]);
    }
  }

  /** The headers come out exactly in the order of the headings in the
      program, less those whose guard fails. */
  lemma {:induction false} HeadersInCatalogOrder(p: Platform, d: Dialect, steps: seq<Step>)
    ensures HeaderCats(EmitAll(p, d, steps)) == PresentHeadings(p, steps)
  {
    if steps != [] {
      HeadersInCatalogOrder(p, d, steps[1..]);
      HeaderCatsAppend(StepLines(p, d, steps[0]), EmitAll(p, d, steps[1..]));
      var r := StepLines(p, d, steps[0]);
      if r != [] {
        assert r[1..] == [];
      }
    }
  }

  lemma {:induction false} PresentDefinesMembership(p: Platform, d: Dialect, steps: seq<Step>, s: Sym)
    ensures s in PresentDefines(p, d, steps) <==> Define(s) in steps && Present(p, d.spec(s).presence)
  {
    if steps != [] {
      PresentDefinesMembership(p, d, steps[1..], s);
      assert steps == [steps[0]] + steps[1..];
    }
  }

  predicate HasConstant(lines: seq<Line>, s: Sym) {
    exists i :: 0 <= i < |lines| && lines[i].Constant? && lines[i].sym == s
  }

  lemma {:induction false} ConstantLineListed(lines: seq<Line>, s: Sym)
    requires HasConstant(lines, s)
    ensures s in ConstantSyms(lines)
  {
    var tail := lines[1..];
    assert ConstantSyms(lines) == (if lines[0].Constant? then [lines[0].sym] else []) + ConstantSyms(tail);
    if !(lines[0].Constant? && lines[0].sym == s) {
      var i :| 0 <= i < |lines| && lines[i].Constant? && lines[i].sym == s;
      assert tail[i - 1] == lines[i];
      ConstantLineListed(tail, s);
    }
  }

  lemma {:induction false} ListedConstantHasLine(lines: seq<Line>, s: Sym)
    requires s in ConstantSyms(lines)
    ensures HasConstant(lines, s)
  {
    if !(lines[0].Constant? && lines[0].sym == s) {
      var tail := lines[1..];
      assert s in ConstantSyms(tail) by {
        assert ConstantSyms(lines) == (if lines[0].Constant? then [lines[0].sym] else []) + ConstantSyms(tail);
      }
      ListedConstantHasLine(tail, s);
      var i :| 0 <= i < |tail| && tail[i].Constant? && tail[i].sym == s;
      assert lines[i + 1] == tail[i];
    }
  }

  /** A constant is in the concatenation of two outputs exactly when it is in
      one of them. */
  lemma HasConstantAppend(a: seq<Line>, b: seq<Line>, s: Sym)
    ensures HasConstant(a + b, s) <==> HasConstant(a, s) || HasConstant(b, s)
  {
    if HasConstant(a + b, s) {
      var i :| 0 <= i < |a + b| && (a + b)[i].Constant? && (a + b)[i].sym == s;
      if i >= |a| {
        assert b[i - |a|] == (a + b)[i];
      }
    }
    if HasConstant(a, s) {
      var i :| 0 <= i < |a| && a[i].Constant? && a[i].sym == s;
      assert (a + b)[i] == a[i];
    }
    if HasConstant(b, s) {
      var i :| 0 <= i < |b| && b[i].Constant? && b[i].sym == s;
      assert (a + b)[i + |a|] == b[i];
    }
  }

  /** A constant's line is written exactly when its step is in the catalog and
      its guard holds. */
  lemma ConstantLineIff(p: Platform, d: Dialect, steps: seq<Step>, s: Sym)
    ensures HasConstant(EmitAll(p, d, steps), s) <==> Define(s) in steps && Present(p, d.spec(s).presence)
  {
    ConstantsInCatalogOrder(p, d, steps);
    PresentDefinesMembership(p, d, steps, s);
    var lines := EmitAll(p, d, steps);
    if HasConstant(lines, s) {
      ConstantLineListed(lines, s);
    }
    if s in ConstantSyms(lines) {
      ListedConstantHasLine(lines, s);
    }
  }

  /** Every line written is the line of some step. */
  lemma {:induction false} LinesComeFromSteps(p: Platform, d: Dialect, steps: seq<Step>, l: Line)
    requires l in EmitAll(p, d, steps)
    ensures exists s :: s in steps && l in StepLines(p, d, s)
  {
    var r := StepLines(p, d, steps[0]);
    if l in r {
      assert steps[0] in steps;
    } else {
      assert l in EmitAll(p, d, steps[1..]);
      LinesComeFromSteps(p, d, steps[1..], l);
      var s :| s in steps[1..] && l in StepLines(p, d, s);
      assert s in steps;
    }
  }

  /** Every line of every step is written. */
  lemma {:induction false} StepsReachOutput(p: Platform, d: Dialect, steps: seq<Step>, s: Step)
    requires s in steps
    ensures forall l :: l in StepLines(p, d, s) ==> l in EmitAll(p, d, steps)
  {
    if steps[0] != s {
      StepsReachOutput(p, d, steps[1..], s);
    }
  }

  /** The one line of a step that writes one is in the output of every run
      of steps holding it. */
  lemma StepLineWritten(p: Platform, d: Dialect, steps: seq<Step>, st: Step)
    requires st in steps && |StepLines(p, d, st)| == 1
    ensures StepLines(p, d, st)[0] in EmitAll(p, d, steps)
  {
    StepsReachOutput(p, d, steps, st);
  }

  /** The alias of a C type is written wherever its step is, with the type's
      own signedness and width. */
  lemma TypeAliasWritten(p: Platform, d: Dialect, steps: seq<Step>, ctype: Ident)
    requires AliasOfType(ctype) in steps
    ensures TypeAlias(d.typePrefix, ctype, p.intType(ctype).signed, p.intType(ctype).width.Bits()) in EmitAll(p, d, steps)
  {
    StepsReachOutput(p, d, steps, AliasOfType(ctype));
  }

  /** An unconditional constant is written wherever its entry is, with the
      platform's value in its own wrapper and format. */
  lemma AlwaysConstantWritten(p: Platform, d: Dialect, steps: seq<Step>, s: Sym, jl: JlType, fmt: NumFmt)
    requires Define(s) in steps && d.spec(s) == ConstSpec(jl, fmt, Always)
    ensures Constant(s, p.value(s), jl, fmt) in EmitAll(p, d, steps)
  {
    StepsReachOutput(p, d, steps, Define(s));
  }

  /** A constant with a fallback value is written whatever the platform
      defines: with its own value when defined and the fallback otherwise. */
  lemma DefaultedConstantWritten(p: Platform, d: Dialect, steps: seq<Step>, s: Sym, jl: JlType, fmt: NumFmt, fallback: int)
    requires Define(s) in steps && d.spec(s) == ConstSpec(jl, fmt, OrDefault(fallback))
    ensures Constant(s, if p.defined(s) then p.value(s) else fallback, jl, fmt) in EmitAll(p, d, steps)
  {
    StepsReachOutput(p, d, steps, Define(s));
  }

  /** A macro with no entry in a run of steps has no line in its output. */
  lemma AbsentEntryHasNoLine(p: Platform, d: Dialect, steps: seq<Step>, s: Sym)
    requires Define(s) !in steps
    ensures !HasConstant(EmitAll(p, d, steps), s)
  {
    ConstantLineIff(p, d, steps, s);
  }

  /** A constant line carries the value the program sees for its macro, in
      the wrapper and format its catalog entry says. */
  lemma ConstantLinesFollowSpec(p: Platform, d: Dialect, steps: seq<Step>, l: Line)
    requires l in EmitAll(p, d, steps) && l.Constant?
    ensures Present(p, d.spec(l.sym).presence)
    ensures l == Constant(l.sym, ConstValue(p, l.sym, d.spec(l.sym).presence), d.spec(l.sym).jl, d.spec(l.sym).fmt)
  {
    LinesComeFromSteps(p, d, steps, l);
  }

  /** In a program that builds, every constant written without a fallback is
      a macro the platform defines, with the macro's own value. */
  lemma BuiltConstantsAreDefined(p: Platform, d: Dialect, steps: seq<Step>, l: Line)
    requires Builds(p, d, steps) && l in EmitAll(p, d, steps) && l.Constant?
    ensures !d.spec(l.sym).presence.OrDefault? ==> p.defined(l.sym) && l.value == p.value(l.sym)
  {
    ConstantLinesFollowSpec(p, d, steps, l);
    ConstantLineIff(p, d, steps, l.sym);
    assert HasConstant(EmitAll(p, d, steps), l.sym);
    EntryCompiles(p, d, steps, l.sym);
  }

  /** A header is written exactly when its step is in the program and its
      guard holds. */
  lemma HeaderIff(p: Platform, d: Dialect, steps: seq<Step>, c: Category)
    ensures Header(c) in EmitAll(p, d, steps) <==> Heading(c) in steps && Present(p, HeadingPresence(c))
  {
    if Header(c) in EmitAll(p, d, steps) {
      LinesComeFromSteps(p, d, steps, Header(c));
    }
    if Heading(c) in steps && Present(p, HeadingPresence(c)) {
      StepsReachOutput(p, d, steps, Heading(c));
    }
  }

  /** Whatever a run writes is among the lines of its steps. */
  lemma {:induction false} ExecLinesFromSteps(p: Platform, d: Dialect, phases: seq<Phase>, l: Line)
    requires l in Exec(p, d, phases).out
    ensures l in EmitAll(p, d, AllSteps(phases))
  {
    var rest := phases[1..];
    match phases[0]
    case Emit(steps) =>
      EmitAllAppend(p, d, steps, AllSteps(rest));
      if l !in EmitAll(p, d, steps) {
        ExecLinesFromSteps(p, d, rest, l);
      }
    case Verify(c) =>
      if CheckResult(p, c).None? {
        ExecLinesFromSteps(p, d, rest, l);
        assert AllSteps(phases) == [] + AllSteps(rest);
        assert [] + AllSteps(rest) == AllSteps(rest);
      }
  }

  /** A constant of the first phase, which precedes every check, is written
      exactly when its guard holds, whether or not a later check fails. */
  lemma EarlyConstantIff(p: Platform, d: Dialect, phases: seq<Phase>, s: Sym)
    requires |phases| > 0 && phases[0].Emit? && Define(s) in phases[0].steps
    ensures HasConstant(Exec(p, d, phases).out, s) <==> Present(p, d.spec(s).presence)
  {
    var out := Exec(p, d, phases).out;
    var first := EmitAll(p, d, phases[0].steps);
    assert out == first + Exec(p, d, phases[1..]).out;
    ConstantLineIff(p, d, phases[0].steps, s);
    if Present(p, d.spec(s).presence) {
      var i :| 0 <= i < |first| && first[i].Constant? && first[i].sym == s;
      assert out[i] == first[i];
    }
    if HasConstant(out, s) {
      var i :| 0 <= i < |out| && out[i].Constant? && out[i].sym == s;
      ExecLinesFromSteps(p, d, phases, out[i]);
      ConstantLinesFollowSpec(p, d, AllSteps(phases), out[i]);
    }
  }
}
