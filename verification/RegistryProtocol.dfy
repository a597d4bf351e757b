/** The cross-process lock of the skills registry and the apply transaction it protects.

    Every process runs the same program; a step of the model is one file-system call (or one
    process-local decision) of one process, so a run is an arbitrary interleaving.  An outcome the
    operating system chooses (an `OSError`) is part of the event, and a process may die before any
    of its steps.  */
module RegistryProtocol {
  import opened Options

  /** A lock directory whose modification time is further back than this is considered stale. */
  const LOCK_STALE_SEC: real := 60.0

  // ---------------------------------------------------------------------------------------------
  // The registry file
  // ---------------------------------------------------------------------------------------------

  datatype Skill = Skill(description: string, body: string, sha256: string, reason: string, updated: string)

  datatype HistoryEntry = HistoryEntry(version: int, name: string, sha256: string, reason: string, timestamp: string)

  datatype Registry = Registry(version: int, skills: map<string, Skill>, history: seq<HistoryEntry>)

  datatype File = Absent | Malformed | Present(reg: Registry)

  datatype Request = Request(name: string, skill: Skill)

  const EMPTY: Registry := Registry(0, map[], [])

  /** `_load`: an absent file is the empty registry, a malformed one is an error. */
  function Load(f: File): Option<Registry> {
    match f
    case Absent => Some(EMPTY)
    case Malformed => None
    case Present(reg) => Some(reg)
  }

  /** The data `apply_skill` builds from the registry it has just re-read. */
  function Commit(reg: Registry, req: Request): Registry {
    var v := reg.version + 1;
    Registry(v, reg.skills[req.name := req.skill],
             reg.history + [HistoryEntry(v, req.name, req.skill.sha256, req.skill.reason, req.skill.updated)])
  }

  // ---------------------------------------------------------------------------------------------
  // Processes and the shared file system
  // ---------------------------------------------------------------------------------------------

  /** Where a process stands: the name says which call it makes next. */
  datatype Pc =
    | Idle
    | WriteToken                      // won the lock with a plain mkdir
    | TryGuard                        // found the lock taken
    | StatLock                        // owns the reclaim guard from here to DropGuard
    | ReadToken(age: real)
    | RemoveToken                     // shutil.rmtree: first the owner file ...
    | RemoveDir                       // ... then the directory
    | Remake
    | WriteTokenGuarded
    | DropGuard(won: bool)
    | LoadFile
    | WriteTmp(data: Registry)
    | Replace(data: Registry)
    | CheckOwner
    | UnlinkToken
    | RemoveLock
    | Dead

  /** `cache` is the registry object's `_data`.  It may start out as anything; an apply sets it and never
      reads it, since the data it installs is built from the file read under the lock. */
  datatype Proc = Proc(pc: Pc, req: Request, cache: Registry)

  datatype Lock = Lock(mtime: real, token: Option<nat>)

  /** `applied` records the requests whose replace completed, in order. */
  datatype State = State(
    now: real, lock: Option<Lock>, guard: bool, file: File, tmp: Option<Registry>,
    procs: seq<Proc>, applied: seq<Request>)

  datatype Act =
    | Acquire(req: Request)
    | PutToken
    | MakeGuard
    | Stat
    | Decide
    | RmToken
    | RmDir
    | MakeAgain
    | RmGuard
    | ReadFile
    | Stage
    | Swap
    | ReadOwner
    | Unlink
    | RmLock
    | Crash

  /** `ok` is false when the call fails with an `OSError` other than the one the protocol waits for. */
  datatype Event = Step(p: nat, act: Act, ok: bool) | Tick(elapsed: real)

  predicate Alive(s: State, p: nat) {
    p < |s.procs| && s.procs[p].pc != Dead
  }

  /** The process made the lock directory and has not yet given it back. */
  predicate Holding(pc: Pc) {
    match pc
    case WriteToken | WriteTokenGuarded | LoadFile | WriteTmp(_) | Replace(_) | CheckOwner | UnlinkToken | RemoveLock => true
    case DropGuard(won) => won
    case _ => false
  }

  predicate Critical(pc: Pc) {
    pc.LoadFile? || pc.WriteTmp? || pc.Replace?
  }

  predicate Guarding(pc: Pc) {
    match pc
    case StatLock | ReadToken(_) | RemoveToken | RemoveDir | Remake | WriteTokenGuarded | DropGuard(_) => true
    case _ => false
  }

  predicate Enabled(s: State, e: Event) {
    match e
    case Tick(elapsed) => elapsed >= 0.0
    case Step(p, act, _) =>
      && Alive(s, p)
      && var pc := s.procs[p].pc;
      match act
      case Acquire(_) => pc.Idle?
      case PutToken => pc.WriteToken? || pc.WriteTokenGuarded?
      case MakeGuard => pc.TryGuard?
      case Stat => pc.StatLock?
      case Decide => pc.ReadToken?
      case RmToken => pc.RemoveToken?
      case RmDir => pc.RemoveDir?
      case MakeAgain => pc.Remake?
      case RmGuard => pc.DropGuard?
      case ReadFile => pc.LoadFile?
      case Stage => pc.WriteTmp?
      case Swap => pc.Replace?
      case ReadOwner => pc.CheckOwner?
      case Unlink => pc.UnlinkToken?
      case RmLock => pc.RemoveLock?
      case Crash => true
  }

  function Goto(s: State, p: nat, pc: Pc): State
    requires p < |s.procs|
  {
    s.(procs := s.procs[p := s.procs[p].(pc := pc)])
  }

  /** Unlinking the owner file touches the directory only when there was one to unlink. */
  function WithoutToken(l: Lock, now: real): Lock {
    if l.token.None? then l else Lock(now, None)
  }

  /** `_can_reclaim_lock`, evaluated on the token found now and the age found earlier. */
  predicate CanReclaim(s: State, age: real) {
    && age > LOCK_STALE_SEC
    && (s.lock.Some? && s.lock.value.token.Some? ==> !Alive(s, s.lock.value.token.value))
  }

  function Apply(s: State, e: Event): State
    requires Enabled(s, e)
  {
    match e
    case Tick(elapsed) => s.(now := s.now + elapsed)
    case Step(p, act, ok) =>
      var proc := s.procs[p];
      match act
      case Acquire(req) =>
        var s' := s.(procs := s.procs[p := proc.(req := req)]);
        if s.lock.None? then Goto(s'.(lock := Some(Lock(s.now, None))), p, WriteToken) else Goto(s', p, TryGuard)
      case PutToken =>
        var s' := if ok && s.lock.Some? then s.(lock := Some(Lock(s.now, Some(p)))) else s;
        Goto(s', p, if proc.pc.WriteToken? then LoadFile else DropGuard(true))
      case MakeGuard =>
        if ok && !s.guard then Goto(s.(guard := true), p, StatLock) else Goto(s, p, Idle)
      case Stat =>
        if !ok then Goto(s, p, DropGuard(false))
        else if s.lock.None? then Goto(s, p, Remake)
        else Goto(s, p, ReadToken(s.now - s.lock.value.mtime))
      case Decide =>
        Goto(s, p, if CanReclaim(s, proc.pc.age) then RemoveToken else DropGuard(false))
      case RmToken =>
        if ok && s.lock.Some?
        then Goto(s.(lock := Some(WithoutToken(s.lock.value, s.now))), p, RemoveDir)
        else Goto(s, p, DropGuard(false))
      case RmDir =>
        if ok && s.lock.Some? && s.lock.value.token.None?
        then Goto(s.(lock := None), p, Remake)
        else Goto(s, p, DropGuard(false))
      case MakeAgain =>
        if ok && s.lock.None?
        then Goto(s.(lock := Some(Lock(s.now, None))), p, WriteTokenGuarded)
        else Goto(s, p, DropGuard(false))
      case RmGuard =>
        Goto(if ok then s.(guard := false) else s, p, if proc.pc.won then LoadFile else Idle)
      case ReadFile =>
        var loaded := Load(s.file);
        Goto(s, p, if ok && loaded.Some? then WriteTmp(Commit(loaded.value, proc.req)) else CheckOwner)
      case Stage =>
        if ok then Goto(s.(tmp := Some(proc.pc.data)), p, Replace(proc.pc.data))
        else Goto(s.(tmp := None), p, CheckOwner)
      case Swap =>
        if ok && s.tmp.Some? then
          Goto(s.(file := Present(s.tmp.value), tmp := None, applied := s.applied + [proc.req],
                  procs := s.procs[p := proc.(cache := proc.pc.data)]), p, CheckOwner)
        else Goto(s.(tmp := None), p, CheckOwner)
      case ReadOwner =>
        Goto(s, p, if s.lock.Some? && s.lock.value.token.Some? && s.lock.value.token.value != p then Idle else UnlinkToken)
      case Unlink =>
        if !ok then Goto(s, p, Idle)
        else if s.lock.None? then Goto(s, p, RemoveLock)
        else Goto(s.(lock := Some(WithoutToken(s.lock.value, s.now))), p, RemoveLock)
      case RmLock =>
        if ok && s.lock.Some? && s.lock.value.token.None? then Goto(s.(lock := None), p, Idle) else Goto(s, p, Idle)
      case Crash => Goto(s, p, Dead)
  }

  // ---------------------------------------------------------------------------------------------
  // Runs and the premises they are made under
  // ---------------------------------------------------------------------------------------------

  /** Nobody is applying; the directories may have been left behind by processes long gone. */
  ghost predicate Initial(s: State) {
    && (forall p :: 0 <= p < |s.procs| ==> s.procs[p].pc in {Idle, Dead})
    && s.applied == []
  }

  predicate Held(s: State) {
    exists p :: 0 <= p < |s.procs| && Holding(s.procs[p].pc)
  }

  /** Premise: a token-less lock that looks stale has no live holder. */
  predicate TokenlessStaleIsFree(s: State) {
    s.lock.Some? && s.lock.value.token.None? && s.now - s.lock.value.mtime > LOCK_STALE_SEC ==> !Held(s)
  }

  predicate SawStale(pc: Pc) {
    pc.ReadToken? && pc.age > LOCK_STALE_SEC
  }

  predicate AboutToReclaim(s: State) {
    exists q :: 0 <= q < |s.procs| && SawStale(s.procs[q].pc)
  }

  /** Premise: nobody gives the lock back between a reclaimer's stale `stat` and its look at the token. */
  predicate NoHandover(s: State, e: Event) {
    e.Step? && e.act.Unlink? ==> !AboutToReclaim(s)
  }

  ghost predicate Valid(s: State, es: seq<Event>)
    decreases |es|
  {
    es == [] || (Enabled(s, es[0]) && Valid(Apply(s, es[0]), es[1..]))
  }

  ghost function Exec(s: State, es: seq<Event>): State
    requires Valid(s, es)
    decreases |es|
  {
    if es == [] then s else Exec(Apply(s, es[0]), es[1..])
  }

  /** A run whose every state and step respects the two premises. */
  ghost predicate Admissible(s: State, es: seq<Event>)
    requires Valid(s, es)
    decreases |es|
  {
    && TokenlessStaleIsFree(s)
    && (es != [] ==> NoHandover(s, es[0]) && Admissible(Apply(s, es[0]), es[1..]))
  }

  /** No live process lets the lock it holds grow older than `hold` seconds. */
  predicate HeldAtMost(s: State, hold: real) {
    s.lock.Some? && Held(s) ==> s.now - s.lock.value.mtime <= hold
  }

  ghost predicate Prompt(s: State, es: seq<Event>, hold: real)
    requires Valid(s, es)
    decreases |es|
  {
    HeldAtMost(s, hold) && (es != [] ==> Prompt(Apply(s, es[0]), es[1..], hold))
  }

  ghost predicate Exclusive(s: State) {
    forall p, q :: 0 <= p < |s.procs| && 0 <= q < |s.procs| && Critical(s.procs[p].pc) && Critical(s.procs[q].pc) ==> p == q
  }

  // ---------------------------------------------------------------------------------------------
  // The invariant of the lock
  // ---------------------------------------------------------------------------------------------

  ghost predicate OneHolder(s: State) {
    && (forall p, q :: 0 <= p < |s.procs| && 0 <= q < |s.procs| && Holding(s.procs[p].pc) && Holding(s.procs[q].pc) ==> p == q)
    && (forall p :: 0 <= p < |s.procs| && Holding(s.procs[p].pc) ==> s.lock.Some? && s.lock.value.token in {None, Some(p)})
  }

  ghost predicate OneReclaimer(s: State) {
    && (forall p, q :: 0 <= p < |s.procs| && 0 <= q < |s.procs| && Guarding(s.procs[p].pc) && Guarding(s.procs[q].pc) ==> p == q)
    && (forall p :: 0 <= p < |s.procs| && Guarding(s.procs[p].pc) ==> s.guard)
  }

  /** A process that removes the lock directory removes one that nobody holds. */
  ghost predicate SafeRemoval(s: State) {
    forall p :: 0 <= p < |s.procs| ==>
      && (s.procs[p].pc.RemoveToken? || s.procs[p].pc.RemoveDir? ==> s.lock.Some? && !Held(s))
      && (s.procs[p].pc.RemoveDir? ==> s.lock.value.token.None?)
  }

  ghost predicate HolderSigned(s: State) {
    forall p :: 0 <= p < |s.procs| && Holding(s.procs[p].pc) ==> s.lock.Some? && s.lock.value.token == Some(p)
  }

  /** A pending reclaim decision is about the lock that is still there, and its holder has signed it. */
  ghost predicate SoundDecision(s: State) {
    AboutToReclaim(s) ==> s.lock.Some? && HolderSigned(s)
  }

  ghost predicate LockInv(s: State) {
    OneHolder(s) && OneReclaimer(s) && SafeRemoval(s) && SoundDecision(s)
  }

  lemma {:induction false} KeepAcquiring(s: State, e: Event)
    requires e.Step? && e.act.Acquire?
    requires LockInv(s) && Enabled(s, e) && TokenlessStaleIsFree(s) && NoHandover(s, e)
    ensures LockInv(Apply(s, e))
  {
    var s' := Apply(s, e);
    assert forall q :: 0 <= q < |s.procs| && q != e.p ==> s'.procs[q] == s.procs[q];
  }

  lemma {:induction false} KeepSigning(s: State, e: Event)
    requires e.Step? && e.act.PutToken?
    requires LockInv(s) && Enabled(s, e) && TokenlessStaleIsFree(s) && NoHandover(s, e)
    ensures LockInv(Apply(s, e))
  {
    var s' := Apply(s, e);
    assert forall q :: 0 <= q < |s.procs| && q != e.p ==> s'.procs[q] == s.procs[q];
  }

  lemma {:induction false} KeepGuarding(s: State, e: Event)
    requires e.Step? && e.act.MakeGuard?
    requires LockInv(s) && Enabled(s, e) && TokenlessStaleIsFree(s) && NoHandover(s, e)
    ensures LockInv(Apply(s, e))
  {
    var s' := Apply(s, e);
    assert forall q :: 0 <= q < |s.procs| && q != e.p ==> s'.procs[q] == s.procs[q];
  }

  lemma {:induction false} KeepStat(s: State, e: Event)
    requires e.Step? && e.act.Stat?
    requires LockInv(s) && Enabled(s, e) && TokenlessStaleIsFree(s) && NoHandover(s, e)
    ensures LockInv(Apply(s, e))
  {
    var s' := Apply(s, e);
    assert forall q :: 0 <= q < |s.procs| && q != e.p ==> s'.procs[q] == s.procs[q];
  }

  lemma {:induction false} KeepDeciding(s: State, e: Event)
    requires e.Step? && e.act.Decide?
    requires LockInv(s) && Enabled(s, e) && TokenlessStaleIsFree(s) && NoHandover(s, e)
    ensures LockInv(Apply(s, e))
  {
    var s' := Apply(s, e);
    assert forall q :: 0 <= q < |s.procs| && q != e.p ==> s'.procs[q] == s.procs[q];
  }

  lemma {:induction false} KeepRemovingToken(s: State, e: Event)
    requires e.Step? && e.act.RmToken?
    requires LockInv(s) && Enabled(s, e) && TokenlessStaleIsFree(s) && NoHandover(s, e)
    ensures LockInv(Apply(s, e))
  {
    var s' := Apply(s, e);
    assert forall q :: 0 <= q < |s.procs| && q != e.p ==> s'.procs[q] == s.procs[q];
  }

  lemma {:induction false} KeepRemovingLock(s: State, e: Event)
    requires e.Step? && e.act.RmDir?
    requires LockInv(s) && Enabled(s, e) && TokenlessStaleIsFree(s) && NoHandover(s, e)
    ensures LockInv(Apply(s, e))
  {
    var s' := Apply(s, e);
    assert forall q :: 0 <= q < |s.procs| && q != e.p ==> s'.procs[q] == s.procs[q];
  }

  lemma {:induction false} KeepRemaking(s: State, e: Event)
    requires e.Step? && e.act.MakeAgain?
    requires LockInv(s) && Enabled(s, e) && TokenlessStaleIsFree(s) && NoHandover(s, e)
    ensures LockInv(Apply(s, e))
  {
    var s' := Apply(s, e);
    assert forall q :: 0 <= q < |s.procs| && q != e.p ==> s'.procs[q] == s.procs[q];
  }

  lemma {:induction false} KeepUnguarding(s: State, e: Event)
    requires e.Step? && e.act.RmGuard?
    requires LockInv(s) && Enabled(s, e) && TokenlessStaleIsFree(s) && NoHandover(s, e)
    ensures LockInv(Apply(s, e))
  {
    var s' := Apply(s, e);
    assert forall q :: 0 <= q < |s.procs| && q != e.p ==> s'.procs[q] == s.procs[q];
  }

  lemma {:induction false} KeepReading(s: State, e: Event)
    requires e.Step? && e.act.ReadFile?
    requires LockInv(s) && Enabled(s, e) && TokenlessStaleIsFree(s) && NoHandover(s, e)
    ensures LockInv(Apply(s, e))
  {
    var s' := Apply(s, e);
    assert s'.lock == s.lock && s'.guard == s.guard;
    assert forall q :: 0 <= q < |s.procs| && q != e.p ==> s'.procs[q] == s.procs[q];
    assert Holding(s.procs[e.p].pc) && Holding(s'.procs[e.p].pc);
  }

  lemma {:induction false} KeepStaging(s: State, e: Event)
    requires e.Step? && e.act.Stage?
    requires LockInv(s) && Enabled(s, e) && TokenlessStaleIsFree(s) && NoHandover(s, e)
    ensures LockInv(Apply(s, e))
  {
    var s' := Apply(s, e);
    assert s'.lock == s.lock && s'.guard == s.guard;
    assert forall q :: 0 <= q < |s.procs| && q != e.p ==> s'.procs[q] == s.procs[q];
    assert Holding(s.procs[e.p].pc) && Holding(s'.procs[e.p].pc);
  }

  lemma {:induction false} KeepSwapping(s: State, e: Event)
    requires e.Step? && e.act.Swap?
    requires LockInv(s) && Enabled(s, e) && TokenlessStaleIsFree(s) && NoHandover(s, e)
    ensures LockInv(Apply(s, e))
  {
    var s' := Apply(s, e);
    assert s'.lock == s.lock && s'.guard == s.guard;
    assert forall q :: 0 <= q < |s.procs| && q != e.p ==> s'.procs[q] == s.procs[q];
    assert Holding(s.procs[e.p].pc) && Holding(s'.procs[e.p].pc);
  }

  lemma {:induction false} KeepCheckingOwner(s: State, e: Event)
    requires e.Step? && e.act.ReadOwner?
    requires LockInv(s) && Enabled(s, e) && TokenlessStaleIsFree(s) && NoHandover(s, e)
    ensures LockInv(Apply(s, e))
  {
    var s' := Apply(s, e);
    assert forall q :: 0 <= q < |s.procs| && q != e.p ==> s'.procs[q] == s.procs[q];
    assert Holding(s.procs[e.p].pc);
  }

  lemma {:induction false} KeepUnlinking(s: State, e: Event)
    requires e.Step? && e.act.Unlink?
    requires LockInv(s) && Enabled(s, e) && TokenlessStaleIsFree(s) && NoHandover(s, e)
    ensures LockInv(Apply(s, e))
  {
    var s' := Apply(s, e);
    assert forall q :: 0 <= q < |s.procs| && q != e.p ==> s'.procs[q] == s.procs[q];
    assert Holding(s.procs[e.p].pc);
  }

  lemma {:induction false} KeepReleasing(s: State, e: Event)
    requires e.Step? && e.act.RmLock?
    requires LockInv(s) && Enabled(s, e) && TokenlessStaleIsFree(s) && NoHandover(s, e)
    ensures LockInv(Apply(s, e))
  {
    var s' := Apply(s, e);
    assert forall q :: 0 <= q < |s.procs| && q != e.p ==> s'.procs[q] == s.procs[q];
    assert !Holding(s'.procs[e.p].pc) && !Guarding(s'.procs[e.p].pc);
  }

  lemma {:induction false} KeepCrashing(s: State, e: Event)
    requires e.Step? && e.act.Crash?
    requires LockInv(s) && Enabled(s, e) && TokenlessStaleIsFree(s) && NoHandover(s, e)
    ensures LockInv(Apply(s, e))
  {
    var s' := Apply(s, e);
    assert forall q :: 0 <= q < |s.procs| && q != e.p ==> s'.procs[q] == s.procs[q];
    assert !Holding(s'.procs[e.p].pc) && !Guarding(s'.procs[e.p].pc);
  }

  /** Every step made under the premises keeps the lock invariant. */
  lemma {:induction false} LockStep(s: State, e: Event)
    requires LockInv(s) && Enabled(s, e) && TokenlessStaleIsFree(s) && NoHandover(s, e)
    ensures LockInv(Apply(s, e))
  {
    match e
    case Tick(_) =>
      assert Apply(s, e).procs == s.procs;
    case Step(_, act, _) =>
      match act
      case Acquire(_) => KeepAcquiring(s, e);
      case PutToken => KeepSigning(s, e);
      case MakeGuard => KeepGuarding(s, e);
      case Stat => KeepStat(s, e);
      case Decide => KeepDeciding(s, e);
      case RmToken => KeepRemovingToken(s, e);
      case RmDir => KeepRemovingLock(s, e);
      case MakeAgain => KeepRemaking(s, e);
      case RmGuard => KeepUnguarding(s, e);
      case ReadFile => KeepReading(s, e);
      case Stage => KeepStaging(s, e);
      case Swap => KeepSwapping(s, e);
      case ReadOwner => KeepCheckingOwner(s, e);
      case Unlink => KeepUnlinking(s, e);
      case RmLock => KeepReleasing(s, e);
      case Crash => KeepCrashing(s, e);
  }

  lemma {:induction false} LockRun(s: State, es: seq<Event>)
    requires LockInv(s) && Valid(s, es) && Admissible(s, es)
    ensures LockInv(Exec(s, es))
    decreases |es|
  {
    if es != [] {
      LockStep(s, es[0]);
      LockRun(Apply(s, es[0]), es[1..]);
    }
  }

  /** Mutual exclusion, for any number of processes, over every admissible run: at most one process
      holds the lock, so at most one is in the apply section; at most one is reclaiming; and a
      process about to remove the lock directory removes one that no live process holds. */
  lemma {:induction false} MutualExclusion(s: State, es: seq<Event>)
    requires Initial(s) && Valid(s, es) && Admissible(s, es)
    ensures Exclusive(Exec(s, es))
    ensures OneHolder(Exec(s, es)) && OneReclaimer(Exec(s, es)) && SafeRemoval(Exec(s, es))
  {
    LockRun(s, es);
  }

  // ---------------------------------------------------------------------------------------------
  // How long may a live process hold the lock?
  // ---------------------------------------------------------------------------------------------

  ghost predicate StaleIsFree(s: State) {
    AboutToReclaim(s) ==> !Held(s)
  }

  lemma {:induction false} BecomesHeld(s: State, e: Event)
    requires Enabled(s, e) && !Held(s) && Held(Apply(s, e))
    ensures e.Step? && ((e.act.Acquire? && s.lock.None?) || e.act.MakeAgain?)
  {
    var s' := Apply(s, e);
    var h :| 0 <= h < |s'.procs| && Holding(s'.procs[h].pc);
    assert !Holding(s.procs[h].pc);
    assert e.Step? && e.p == h;
  }

  lemma {:induction false} StartsReclaim(s: State, e: Event)
    requires Enabled(s, e) && !AboutToReclaim(s) && AboutToReclaim(Apply(s, e))
    ensures e.Step? && e.act.Stat? && s.lock.Some? && s.now - s.lock.value.mtime > LOCK_STALE_SEC
  {
    var s' := Apply(s, e);
    var q :| 0 <= q < |s'.procs| && SawStale(s'.procs[q].pc);
    assert !SawStale(s.procs[q].pc);
    assert e.Step? && e.p == q;
  }

  lemma {:induction false} StaleStaysFree(s: State, e: Event, hold: real)
    requires hold <= LOCK_STALE_SEC && HeldAtMost(s, hold)
    requires LockInv(s) && StaleIsFree(s) && Enabled(s, e)
    ensures TokenlessStaleIsFree(s) && NoHandover(s, e)
    ensures StaleIsFree(Apply(s, e))
  {
    if e.Step? && e.act.Unlink? {
      assert Holding(s.procs[e.p].pc);
    }
    if AboutToReclaim(Apply(s, e)) && Held(Apply(s, e)) {
      if !AboutToReclaim(s) {
        StartsReclaim(s, e);
      }
      if !Held(s) {
        BecomesHeld(s, e);
      }
    }
  }

  /** Processes that never hold the lock past the staleness age only produce admissible runs. */
  lemma {:induction false} PromptIsAdmissible(s: State, es: seq<Event>, hold: real)
    requires hold <= LOCK_STALE_SEC
    requires LockInv(s) && StaleIsFree(s) && Valid(s, es) && Prompt(s, es, hold)
    ensures Admissible(s, es)
    decreases |es|
  {
    if es != [] {
      StaleStaysFree(s, es[0], hold);
      LockStep(s, es[0]);
      PromptIsAdmissible(Apply(s, es[0]), es[1..], hold);
    }
  }

  ghost predicate AlwaysTokenlessFree(s: State, es: seq<Event>)
    requires Valid(s, es)
    decreases |es|
  {
    TokenlessStaleIsFree(s) && (es != [] ==> AlwaysTokenlessFree(Apply(s, es[0]), es[1..]))
  }

  /** What the hand-over race can end in: two processes in the apply section, or, if they go on, two
      applies of which the file knows one. */
  datatype Harm = Overlap | Loss

  ghost predicate Harmed(harm: Harm, t: State) {
    match harm
    case Overlap => !Exclusive(t)
    case Loss => |t.applied| == 2 && Load(t.file).Some? && Load(t.file).value.version == 1
  }

  /** What the race needs of one of its states, with the events still to come. */
  ghost predicate Racing(s: State, es: seq<Event>, hold: real, harm: Harm) {
    Valid(s, es) && Prompt(s, es, hold) && AlwaysTokenlessFree(s, es) && Harmed(harm, Exec(s, es))
  }

  predicate StepsTo(s: State, e: Event, s': State, hold: real) {
    Enabled(s, e) && Apply(s, e) == s' && HeldAtMost(s, hold) && TokenlessStaleIsFree(s)
  }

  lemma {:induction false} RaceChain(ts: seq<State>, es: seq<Event>, rest: seq<Event>, hold: real, harm: Harm)
    requires |ts| == |es| + 1
    requires forall i :: 0 <= i < |es| ==> StepsTo(ts[i], es[i], ts[i + 1], hold)
    requires Racing(ts[|es|], rest, hold, harm)
    ensures Racing(ts[0], es + rest, hold, harm)
    decreases |es|
  {
    if es == [] {
      assert es + rest == rest;
    } else {
      assert (es + rest)[1..] == es[1..] + rest;
      assert forall i :: 0 <= i < |es[1..]| ==> es[1..][i] == es[i + 1] && ts[1..][i] == ts[i + 1];
      RaceChain(ts[1..], es[1..], rest, hold, harm);
    }
  }

  function Free(p0: Pc, p1: Pc, p2: Pc, now: real, lock: Option<Lock>, guard: bool): State {
    State(now, lock, guard, Absent, None,
          [Proc(p0, ANY_REQUEST, EMPTY), Proc(p1, ANY_REQUEST, EMPTY), Proc(p2, ANY_REQUEST, EMPTY)], [])
  }

  const ANY_REQUEST := Request("skill", Skill("", "", "", "", ""))

  /** Processes 1 and 2 in the apply section together. */
  function Applying(p1: Pc, p2: Pc, c1: Registry, c2: Registry, now: real, file: File, tmp: Option<Registry>,
                    applied: seq<Request>): State {
    State(now, Some(Lock(now, Some(2))), false, file, tmp,
          [Proc(Idle, ANY_REQUEST, EMPTY), Proc(p1, ANY_REQUEST, c1), Proc(p2, ANY_REQUEST, c2)], applied)
  }

  /** Both read the file, then both replace it: the second overwrites the first. */
  lemma {:induction false} BothInstall(hold: real) returns (es: seq<Event>)
    requires hold > LOCK_STALE_SEC
    ensures var d := Commit(EMPTY, ANY_REQUEST);
            Racing(Applying(WriteTmp(d), WriteTmp(d), EMPTY, EMPTY, hold, Absent, None, []), es, hold, Loss)
  {
    var d, r := Commit(EMPTY, ANY_REQUEST), ANY_REQUEST;
    var ts := [
      Applying(WriteTmp(d), WriteTmp(d), EMPTY, EMPTY, hold, Absent, None, []),
      Applying(Replace(d), WriteTmp(d), EMPTY, EMPTY, hold, Absent, Some(d), []),
      Applying(CheckOwner, WriteTmp(d), d, EMPTY, hold, Present(d), None, [r]),
      Applying(CheckOwner, Replace(d), d, EMPTY, hold, Present(d), Some(d), [r]),
      Applying(CheckOwner, CheckOwner, d, d, hold, Present(d), None, [r, r])
    ];
    es := [Step(1, Stage, true), Step(1, Swap, true), Step(2, Stage, true), Step(2, Swap, true)];
    assert [] + [r] == [r] && [r] + [r] == [r, r];
    RaceChain(ts, es, [], hold, Loss);
    assert es + [] == es;
  }

  /** With both in the apply section the overlap is there, and the loss is six steps away. */
  lemma {:induction false} RaceOver(hold: real, harm: Harm) returns (es: seq<Event>)
    requires hold > LOCK_STALE_SEC
    ensures Racing(Free(Idle, LoadFile, LoadFile, hold, Some(Lock(hold, Some(2))), false), es, hold, harm)
  {
    var s := Free(Idle, LoadFile, LoadFile, hold, Some(Lock(hold, Some(2))), false);
    match harm
    case Overlap =>
      es := [];
      assert Critical(s.procs[1].pc) && Critical(s.procs[2].pc);
    case Loss =>
      var d := Commit(EMPTY, ANY_REQUEST);
      var ts := [
        s,
        Applying(WriteTmp(d), LoadFile, EMPTY, EMPTY, hold, Absent, None, []),
        Applying(WriteTmp(d), WriteTmp(d), EMPTY, EMPTY, hold, Absent, None, [])
      ];
      var first := [Step(1, ReadFile, true), Step(2, ReadFile, true)];
      var rest := BothInstall(hold);
      RaceChain(ts, first, rest, hold, harm);
      es := first + rest;
  }

  /** Both believe they made the lock directory; process 1 signs it first, then process 2. */
  lemma {:induction false} RaceLast(hold: real, harm: Harm) returns (es: seq<Event>)
    requires hold > LOCK_STALE_SEC
    ensures Racing(Free(Idle, WriteTokenGuarded, WriteToken, hold, Some(Lock(hold, None)), true), es, hold, harm)
  {
    var mine := Some(Lock(hold, Some(1)));
    var ts := [
      Free(Idle, WriteTokenGuarded, WriteToken, hold, Some(Lock(hold, None)), true),
      Free(Idle, DropGuard(true), WriteToken, hold, mine, true),
      Free(Idle, LoadFile, WriteToken, hold, mine, false),
      Free(Idle, LoadFile, LoadFile, hold, Some(Lock(hold, Some(2))), false)
    ];
    var first := [Step(1, PutToken, true), Step(1, RmGuard, true), Step(2, PutToken, true)];
    var rest := RaceOver(hold, harm);
    RaceChain(ts, first, rest, hold, harm);
    es := first + rest;
  }

  /** Process 1 finds no token in process 2's young lock, removes it and makes its own. */
  lemma {:induction false} RaceEnd(hold: real, harm: Harm) returns (es: seq<Event>)
    requires hold > LOCK_STALE_SEC
    ensures Racing(Free(Idle, ReadToken(hold), WriteToken, hold, Some(Lock(hold, None)), true), es, hold, harm)
  {
    var young := Some(Lock(hold, None));
    var ts := [
      Free(Idle, ReadToken(hold), WriteToken, hold, young, true),
      Free(Idle, RemoveToken, WriteToken, hold, young, true),
      Free(Idle, RemoveDir, WriteToken, hold, young, true),
      Free(Idle, Remake, WriteToken, hold, None, true),
      Free(Idle, WriteTokenGuarded, WriteToken, hold, young, true)
    ];
    var first := [Step(1, Decide, true), Step(1, RmToken, true), Step(1, RmDir, true), Step(1, MakeAgain, true)];
    var rest := RaceLast(hold, harm);
    RaceChain(ts, first, rest, hold, harm);
    es := first + rest;
  }

  /** The lock is given back, and process 2 takes it. */
  lemma {:induction false} RaceTaken(hold: real, harm: Harm) returns (es: seq<Event>)
    requires hold > LOCK_STALE_SEC
    ensures Racing(Free(UnlinkToken, ReadToken(hold), Idle, hold, Some(Lock(0.0, Some(0))), true), es, hold, harm)
  {
    var young := Some(Lock(hold, None));
    var ts := [
      Free(UnlinkToken, ReadToken(hold), Idle, hold, Some(Lock(0.0, Some(0))), true),
      Free(RemoveLock, ReadToken(hold), Idle, hold, young, true),
      Free(Idle, ReadToken(hold), Idle, hold, None, true),
      Free(Idle, ReadToken(hold), WriteToken, hold, young, true)
    ];
    var first := [Step(0, Unlink, true), Step(0, RmLock, true), Step(2, Acquire(ANY_REQUEST), true)];
    var rest := RaceEnd(hold, harm);
    RaceChain(ts, first, rest, hold, harm);
    es := first + rest;
  }

  /** Process 1 waits for the guard and sees the lock stale; process 0 goes on to give it back. */
  lemma {:induction false} RaceMiddle(hold: real, harm: Harm) returns (es: seq<Event>)
    requires hold > LOCK_STALE_SEC
    ensures Racing(Free(LoadFile, TryGuard, Idle, hold, Some(Lock(0.0, Some(0))), false), es, hold, harm)
  {
    var signed := Some(Lock(0.0, Some(0)));
    var ts := [
      Free(LoadFile, TryGuard, Idle, hold, signed, false),
      Free(LoadFile, StatLock, Idle, hold, signed, true),
      Free(LoadFile, ReadToken(hold), Idle, hold, signed, true),
      Free(CheckOwner, ReadToken(hold), Idle, hold, signed, true),
      Free(UnlinkToken, ReadToken(hold), Idle, hold, signed, true)
    ];
    var first := [Step(1, MakeGuard, true), Step(1, Stat, true), Step(0, ReadFile, false), Step(0, ReadOwner, true)];
    var rest := RaceTaken(hold, harm);
    RaceChain(ts, first, rest, hold, harm);
    es := first + rest;
  }

  /** The hand-over race, from three idle processes: process 0 signs the lock and keeps it for `hold`
      seconds, process 1 sees it stale, and by the time process 1 looks for the token process 2 has
      just taken the lock.  Processes 1 and 2 end up in the apply section together -- and if both go on
      there, one of their two applies is lost. */
  lemma {:induction false} SlowOwnerRace(hold: real, harm: Harm) returns (s: State, es: seq<Event>)
    requires hold > LOCK_STALE_SEC
    ensures Initial(s) && s.file == Absent && Racing(s, es, hold, harm)
  {
    var signed := Some(Lock(0.0, Some(0)));
    var ts := [
      Free(Idle, Idle, Idle, 0.0, None, false),
      Free(WriteToken, Idle, Idle, 0.0, Some(Lock(0.0, None)), false),
      Free(LoadFile, Idle, Idle, 0.0, signed, false),
      Free(LoadFile, Idle, Idle, hold, signed, false),
      Free(LoadFile, TryGuard, Idle, hold, signed, false)
    ];
    var first := [Step(0, Acquire(ANY_REQUEST), true), Step(0, PutToken, true), Tick(hold),
                  Step(1, Acquire(ANY_REQUEST), true)];
    var rest := RaceMiddle(hold, harm);
    s := ts[0];
    RaceChain(ts, first, rest, hold, harm);
    es := first + rest;
  }

  ghost predicate PromptRun(s: State, es: seq<Event>, hold: real) {
    Initial(s) && Valid(s, es) && Prompt(s, es, hold)
  }

  /** The exact condition: mutual exclusion holds over every run whose live processes keep the lock for
      at most `hold` seconds if and only if `hold` does not exceed the staleness age. */
  lemma {:induction false} ExclusionIffPrompt(hold: real)
    ensures hold <= LOCK_STALE_SEC <==> forall s, es :: PromptRun(s, es, hold) ==> Exclusive(Exec(s, es))
  {
    if hold <= LOCK_STALE_SEC {
      forall s, es | PromptRun(s, es, hold)
        ensures Exclusive(Exec(s, es))
      {
        PromptIsAdmissible(s, es, hold);
        MutualExclusion(s, es);
      }
    } else {
      var s, es := SlowOwnerRace(hold, Overlap);
      assert PromptRun(s, es, hold);
    }
  }

  // ---------------------------------------------------------------------------------------------
  // A reclaim guard left behind
  // ---------------------------------------------------------------------------------------------

  ghost predicate GuardLeftBehind(s: State) {
    s.guard && forall p :: 0 <= p < |s.procs| ==> !Guarding(s.procs[p].pc)
  }

  /** Once a reclaimer died with the guard, no run whatsoever reclaims again: the guard stays, no
      process ever gets past it, and a lock that nobody holds is never removed.  A free lock is still
      taken by the next process that asks. */
  lemma {:induction false} LeftoverGuardOnlyBlocksReclaim(s: State, es: seq<Event>)
    requires Valid(s, es) && GuardLeftBehind(s)
    ensures GuardLeftBehind(Exec(s, es)) && |Exec(s, es).procs| == |s.procs|
    ensures s.lock.Some? && !Held(s) ==> Exec(s, es).lock == s.lock && !Held(Exec(s, es))
    ensures forall p: nat, req ::
              var t := Exec(s, es);
              p < |t.procs| && t.procs[p].pc.Idle? && t.lock.None? ==>
              Apply(t, Step(p, Acquire(req), true)).procs[p].pc == WriteToken
    decreases |es|
  {
    if es != [] {
      var s' := Apply(s, es[0]);
      if !Held(s) && Held(s') {
        BecomesHeld(s, es[0]);
      }
      if es[0].Step? {
        assert !Guarding(s.procs[es[0].p].pc);
        assert !Held(s) ==> !Holding(s.procs[es[0].p].pc);
      }
      LeftoverGuardOnlyBlocksReclaim(s', es[1..]);
    }
  }

  // ---------------------------------------------------------------------------------------------
  // What a process achieves when its calls succeed, and when they fail
  // ---------------------------------------------------------------------------------------------

  /** One process of a state elsewhere, the lock and the guard as given, all else as it is. */
  function At(s: State, p: nat, req: Request, pc: Pc, lock: Option<Lock>, guard: bool): State
    requires p < |s.procs|
  {
    s.(lock := lock, guard := guard, procs := s.procs[p := s.procs[p].(pc := pc, req := req)])
  }

  /** The lock may be taken over: nobody who signed it is alive. */
  ghost predicate Abandoned(s: State) {
    s.lock.Some? &&
    match s.lock.value.token
    case None => true
    case Some(owner) => owner >= |s.procs| || s.procs[owner].pc == Dead
  }

  /** The decision on a stale lock: it is removed exactly when it was more than 60 seconds old and nobody alive
      has signed it; otherwise the reclaimer leaves it as it is and gives up. */
  lemma {:induction false} DecisionIsExact(s: State, p: nat, ok: bool)
    requires Enabled(s, Step(p, Decide, ok)) && s.lock.Some?
    ensures var t := Apply(s, Step(p, Decide, ok));
            && t.procs[p].pc == (if s.procs[p].pc.age > 60.0 && Abandoned(s) then RemoveToken else DropGuard(false))
            && t == s.(procs := t.procs) && t.procs == s.procs[p := s.procs[p].(pc := t.procs[p].pc)]
  {
  }

  lemma {:induction false} RunChain(ts: seq<State>, es: seq<Event>)
    requires |ts| == |es| + 1
    requires forall i :: 0 <= i < |es| ==> Enabled(ts[i], es[i]) && Apply(ts[i], es[i]) == ts[i + 1]
    ensures Valid(ts[0], es) && Exec(ts[0], es) == ts[|es|]
    decreases |es|
  {
    if es != [] {
      assert forall i :: 0 <= i < |es[1..]| ==> es[1..][i] == es[i + 1] && ts[1..][i] == ts[i + 1];
      RunChain(ts[1..], es[1..]);
    }
  }

  lemma {:induction false} Runs(s: State, first: seq<Event>, rest: seq<Event>)
    requires Valid(s, first) && Valid(Exec(s, first), rest)
    ensures Valid(s, first + rest) && Exec(s, first + rest) == Exec(Exec(s, first), rest)
    decreases |first|
  {
    if first == [] {
      assert first + rest == rest;
    } else {
      assert (first + rest)[1..] == first[1..] + rest;
      Runs(Apply(s, first[0]), first[1..], rest);
    }
  }

  lemma {:induction false} PutTwice<T>(xs: seq<T>, p: nat, x: T, y: T)
    requires p < |xs|
    ensures xs[p := x][p := y] == xs[p := y]
  {
  }

  /** One more step of the process. */
  lemma {:induction false} MovesOn(s: State, p: nat, req: Request, pc: Pc, lock: Option<Lock>, guard: bool,
                                   pc': Pc, lock': Option<Lock>, guard': bool)
    requires p < |s.procs|
    ensures At(At(s, p, req, pc, lock, guard), p, req, pc', lock', guard') == At(s, p, req, pc', lock', guard')
  {
    PutTwice(s.procs, p, s.procs[p].(pc := pc, req := req), s.procs[p].(pc := pc', req := req));
  }

  /** Nobody holds the lock: the next process that asks is in the apply section after two calls. */
  lemma {:induction false} FreeLockIsTaken(s: State, p: nat, req: Request) returns (es: seq<Event>)
    requires p < |s.procs| && s.procs[p].pc.Idle? && s.lock.None?
    ensures es == [Step(p, Acquire(req), true), Step(p, PutToken, true)]
    ensures Valid(s, es) && Exec(s, es) == At(s, p, req, LoadFile, Some(Lock(s.now, Some(p))), s.guard)
  {
    var taken, signed := Some(Lock(s.now, None)), Some(Lock(s.now, Some(p)));
    es := [Step(p, Acquire(req), true), Step(p, PutToken, true)];
    PutTwice(s.procs, p, s.procs[p].(req := req), s.procs[p].(pc := WriteToken, req := req));
    MovesOn(s, p, req, WriteToken, taken, s.guard, LoadFile, signed, s.guard);
    RunChain([s, At(s, p, req, WriteToken, taken, s.guard), At(s, p, req, LoadFile, signed, s.guard)], es);
  }

  /** The reclaimer gets to its decision. */
  lemma {:induction false} ReachesDecision(s: State, p: nat, req: Request) returns (es: seq<Event>)
    requires p < |s.procs| && s.procs[p].pc.Idle? && s.lock.Some? && !s.guard
    ensures es == [Step(p, Acquire(req), true), Step(p, MakeGuard, true), Step(p, Stat, true)]
    ensures Valid(s, es) && Exec(s, es) == At(s, p, req, ReadToken(s.now - s.lock.value.mtime), s.lock, true)
  {
    es := [Step(p, Acquire(req), true), Step(p, MakeGuard, true), Step(p, Stat, true)];
    var age := s.now - s.lock.value.mtime;
    PutTwice(s.procs, p, s.procs[p].(req := req), s.procs[p].(pc := TryGuard, req := req));
    MovesOn(s, p, req, TryGuard, s.lock, false, StatLock, s.lock, true);
    MovesOn(s, p, req, StatLock, s.lock, true, ReadToken(age), s.lock, true);
    RunChain([s, At(s, p, req, TryGuard, s.lock, false), At(s, p, req, StatLock, s.lock, true),
              At(s, p, req, ReadToken(age), s.lock, true)], es);
  }

  /** From a decision to remove, to the apply section. */
  lemma {:induction false} TakesOver(s: State, p: nat, req: Request, age: real) returns (es: seq<Event>)
    requires p < |s.procs| && age > 60.0 && s.lock.Some? && Abandoned(At(s, p, req, ReadToken(age), s.lock, true))
    ensures es == [Step(p, Decide, true), Step(p, RmToken, true), Step(p, RmDir, true), Step(p, MakeAgain, true),
                   Step(p, PutToken, true), Step(p, RmGuard, true)]
    ensures Valid(At(s, p, req, ReadToken(age), s.lock, true), es)
    ensures Exec(At(s, p, req, ReadToken(age), s.lock, true), es) == At(s, p, req, LoadFile, Some(Lock(s.now, Some(p))), false)
  {
    es := [Step(p, Decide, true), Step(p, RmToken, true), Step(p, RmDir, true), Step(p, MakeAgain, true),
           Step(p, PutToken, true), Step(p, RmGuard, true)];
    var bare := Some(WithoutToken(s.lock.value, s.now));
    var made, signed := Some(Lock(s.now, None)), Some(Lock(s.now, Some(p)));
    MovesOn(s, p, req, ReadToken(age), s.lock, true, RemoveToken, s.lock, true);
    MovesOn(s, p, req, RemoveToken, s.lock, true, RemoveDir, bare, true);
    MovesOn(s, p, req, RemoveDir, bare, true, Remake, None, true);
    MovesOn(s, p, req, Remake, None, true, WriteTokenGuarded, made, true);
    MovesOn(s, p, req, WriteTokenGuarded, made, true, DropGuard(true), signed, true);
    MovesOn(s, p, req, DropGuard(true), signed, true, LoadFile, signed, false);
    DecisionIsExact(At(s, p, req, ReadToken(age), s.lock, true), p, true);
    RunChain([At(s, p, req, ReadToken(age), s.lock, true), At(s, p, req, RemoveToken, s.lock, true),
              At(s, p, req, RemoveDir, bare, true), At(s, p, req, Remake, None, true),
              At(s, p, req, WriteTokenGuarded, made, true), At(s, p, req, DropGuard(true), signed, true),
              At(s, p, req, LoadFile, signed, false)], es);
  }

  /** A lock left by a crash does not block: once it is more than 60 seconds old, any idle process that finds
      the guard free takes it over, in nine calls, and stands in the apply section with the lock signed. */
  lemma {:induction false} StaleLockIsReclaimed(s: State, p: nat, req: Request) returns (es: seq<Event>)
    requires p < |s.procs| && s.procs[p].pc.Idle? && !s.guard
    requires Abandoned(s) && s.now - s.lock.value.mtime > 60.0
    ensures es == [Step(p, Acquire(req), true), Step(p, MakeGuard, true), Step(p, Stat, true), Step(p, Decide, true),
                   Step(p, RmToken, true), Step(p, RmDir, true), Step(p, MakeAgain, true), Step(p, PutToken, true),
                   Step(p, RmGuard, true)]
    ensures Valid(s, es) && Exec(s, es) == At(s, p, req, LoadFile, Some(Lock(s.now, Some(p))), false)
  {
    var age := s.now - s.lock.value.mtime;
    var first := ReachesDecision(s, p, req);
    assert Abandoned(At(s, p, req, ReadToken(age), s.lock, true));
    var rest := TakesOver(s, p, req, age);
    Runs(s, first, rest);
    es := first + rest;
  }

  /** A process in the apply section, whose lock it has signed, with the file as it can be read. */
  ghost predicate ReadyToApply(s: State, p: nat) {
    && p < |s.procs| && s.procs[p].pc.LoadFile? && Load(s.file).Some?
    && s.lock.Some? && s.lock.value.token == Some(p)
  }

  /** One apply, undisturbed. */
  lemma {:induction false} ApplyInstalls(s: State, p: nat) returns (es: seq<Event>)
    requires ReadyToApply(s, p)
    ensures es == [Step(p, ReadFile, true), Step(p, Stage, true), Step(p, Swap, true)]
    ensures Valid(s, es)
    ensures var d := Commit(Load(s.file).value, s.procs[p].req);
            Exec(s, es) == s.(file := Present(d), tmp := None, applied := s.applied + [s.procs[p].req],
                              procs := s.procs[p := Proc(CheckOwner, s.procs[p].req, d)])
  {
    var d, proc := Commit(Load(s.file).value, s.procs[p].req), s.procs[p];
    es := [Step(p, ReadFile, true), Step(p, Stage, true), Step(p, Swap, true)];
    var read, staged, swapped := s.procs[p := proc.(pc := WriteTmp(d))], s.procs[p := proc.(pc := Replace(d))],
                                 s.procs[p := Proc(CheckOwner, proc.req, d)];
    PutTwice(s.procs, p, proc.(pc := WriteTmp(d)), proc.(pc := Replace(d)));
    PutTwice(s.procs, p, proc.(pc := Replace(d)), proc.(pc := Replace(d), cache := d));
    PutTwice(s.procs, p, proc.(pc := Replace(d), cache := d), Proc(CheckOwner, proc.req, d));
    RunChain([s, s.(procs := read), s.(procs := staged, tmp := Some(d)),
              s.(file := Present(d), tmp := None, applied := s.applied + [proc.req], procs := swapped)], es);
  }

  /** ... and the release of its lock: the lock is free again, and nothing else changes. */
  lemma {:induction false} ReleaseFrees(s: State, p: nat) returns (es: seq<Event>)
    requires p < |s.procs| && s.procs[p].pc.CheckOwner? && s.lock.Some? && s.lock.value.token in {None, Some(p)}
    ensures es == [Step(p, ReadOwner, true), Step(p, Unlink, true), Step(p, RmLock, true)]
    ensures Valid(s, es) && Exec(s, es) == At(s, p, s.procs[p].req, Idle, None, s.guard)
  {
    var req, bare := s.procs[p].req, Some(WithoutToken(s.lock.value, s.now));
    es := [Step(p, ReadOwner, true), Step(p, Unlink, true), Step(p, RmLock, true)];
    MovesOn(s, p, req, UnlinkToken, s.lock, s.guard, RemoveLock, bare, s.guard);
    MovesOn(s, p, req, RemoveLock, bare, s.guard, Idle, None, s.guard);
    RunChain([s, At(s, p, req, UnlinkToken, s.lock, s.guard), At(s, p, req, RemoveLock, bare, s.guard),
              At(s, p, req, Idle, None, s.guard)], es);
  }

  /** From the apply section to the end: the file holds the old registry and this request, the lock is free. */
  lemma {:induction false} ApplyCompletes(s: State, p: nat) returns (es: seq<Event>)
    requires ReadyToApply(s, p)
    ensures Valid(s, es)
    ensures var d := Commit(Load(s.file).value, s.procs[p].req);
            Exec(s, es) == s.(lock := None, file := Present(d), tmp := None, applied := s.applied + [s.procs[p].req],
                              procs := s.procs[p := Proc(Idle, s.procs[p].req, d)])
  {
    var first := ApplyInstalls(s, p);
    var t := Exec(s, first);
    var rest := ReleaseFrees(t, p);
    var d := Commit(Load(s.file).value, s.procs[p].req);
    PutTwice(s.procs, p, Proc(CheckOwner, s.procs[p].req, d), Proc(Idle, s.procs[p].req, d));
    Runs(s, first, rest);
    es := first + rest;
  }

  /** Whatever was left behind by a crash, the next apply goes through: with the guard free, the file readable,
      and the lock free or stale and signed by nobody alive, a run of this one process installs its request and
      leaves the lock free. */
  lemma {:induction false} NextApplyGoesThrough(s: State, p: nat, req: Request) returns (es: seq<Event>)
    requires p < |s.procs| && s.procs[p].pc.Idle? && !s.guard && Load(s.file).Some?
    requires s.lock.None? || (Abandoned(s) && s.now - s.lock.value.mtime > 60.0)
    ensures Valid(s, es)
    ensures var d := Commit(Load(s.file).value, req);
            Exec(s, es) == s.(lock := None, file := Present(d), tmp := None, applied := s.applied + [req],
                              procs := s.procs[p := Proc(Idle, req, d)])
  {
    var first: seq<Event>;
    if s.lock.None? {
      first := FreeLockIsTaken(s, p, req);
    } else {
      first := StaleLockIsReclaimed(s, p, req);
    }
    var t := Exec(s, first);
    var rest := ApplyCompletes(t, p);
    var d := Commit(Load(s.file).value, req);
    PutTwice(s.procs, p, s.procs[p].(pc := LoadFile, req := req), Proc(Idle, req, d));
    Runs(s, first, rest);
    es := first + rest;
  }

  /** A call of the apply that fails, or a registry that cannot be read, changes neither file nor lock; the
      process goes on to release its lock. */
  lemma {:induction false} FailedApplyChangesNothing(s: State, p: nat, act: Act, ok: bool)
    requires Enabled(s, Step(p, act, ok)) && Critical(s.procs[p].pc) && !act.Crash?
    requires !ok || (act.ReadFile? && Load(s.file).None?) || (act.Swap? && s.tmp.None?)
    ensures var t := Apply(s, Step(p, act, ok));
            t == s.(tmp := t.tmp, procs := s.procs[p := s.procs[p].(pc := CheckOwner)])
  {
  }

  /** A reclaim that fails at any call leaves no lock of its own and gives the guard back next. */
  lemma {:induction false} FailedReclaimGivesUp(s: State, p: nat, act: Act)
    requires Enabled(s, Step(p, act, false)) && act in {Stat, RmToken, RmDir, MakeAgain}
    ensures Apply(s, Step(p, act, false)) == s.(procs := s.procs[p := s.procs[p].(pc := DropGuard(false))])
  {
  }

  lemma {:induction false} GuardGivenBack(s: State, p: nat)
    requires Enabled(s, Step(p, RmGuard, true)) && !s.procs[p].pc.won
    ensures Apply(s, Step(p, RmGuard, true)) == At(s, p, s.procs[p].req, Idle, s.lock, false)
  {
  }

  /** No call that fails changes the lock, the guard or the registry file. */
  lemma {:induction false} FailedCallChangesNothing(s: State, p: nat, act: Act)
    requires Enabled(s, Step(p, act, false)) && !act.Acquire?
    ensures var t := Apply(s, Step(p, act, false));
            t.lock == s.lock && t.guard == s.guard && t.file == s.file && t.applied == s.applied && t.now == s.now
  {
  }

  /** A directory with a token in it is not removed, whatever the call. */
  lemma {:induction false} SignedDirectoryStays(s: State, p: nat, act: Act, ok: bool)
    requires Enabled(s, Step(p, act, ok)) && act in {RmDir, RmLock} && s.lock.Some? && s.lock.value.token.Some?
    ensures Apply(s, Step(p, act, ok)).lock == s.lock
  {
  }

  /** Taking the token away makes the lock young again, if there was a token to take. */
  lemma {:induction false} UnlinkIsExact(s: State, p: nat, act: Act)
    requires Enabled(s, Step(p, act, true)) && act in {RmToken, Unlink} && s.lock.Some?
    ensures Apply(s, Step(p, act, true)).lock == if s.lock.value.token.None? then s.lock else Some(Lock(s.now, None))
  {
  }

  /** A lock that somebody else has signed is not released. */
  lemma {:induction false} ForeignLockIsLeft(s: State, p: nat, owner: nat)
    requires Enabled(s, Step(p, ReadOwner, true)) && s.lock.Some? && s.lock.value.token == Some(owner) && owner != p
    ensures Apply(s, Step(p, ReadOwner, true)) == At(s, p, s.procs[p].req, Idle, s.lock, s.guard)
  {
  }

  // ---------------------------------------------------------------------------------------------
  // The registry file over a run
  // ---------------------------------------------------------------------------------------------

  /** What applying the requests one after the other makes of the file. */
  ghost function FileAfter(f: File, reqs: seq<Request>): File {
    if reqs == [] then f
    else
      var n := |reqs| - 1;
      var reg := Load(FileAfter(f, reqs[..n]));
      if reg.None? then Malformed else Present(Commit(reg.value, reqs[n]))
  }

  predicate Installing(pc: Pc) {
    pc.WriteTmp? || pc.Replace?
  }

  /** The data a process is about to install was built from the file as it is now. */
  ghost predicate DataInv(s: State, f: File) {
    && s.file == FileAfter(f, s.applied)
    && forall p :: 0 <= p < |s.procs| && Installing(s.procs[p].pc) ==>
         && Load(s.file).Some?
         && s.procs[p].pc.data == Commit(Load(s.file).value, s.procs[p].req)
         && (s.procs[p].pc.Replace? ==> s.tmp == Some(s.procs[p].pc.data))
  }

  lemma {:induction false} SoleInstaller(s: State, p: nat)
    requires OneHolder(s) && p < |s.procs| && Installing(s.procs[p].pc)
    ensures forall q :: 0 <= q < |s.procs| && q != p ==> !Installing(s.procs[q].pc)
  {
    assert Holding(s.procs[p].pc);
    assert forall q :: 0 <= q < |s.procs| && Installing(s.procs[q].pc) ==> Holding(s.procs[q].pc);
  }

  lemma {:induction false} DataStaged(s: State, e: Event, f: File)
    requires LockInv(s) && DataInv(s, f) && Enabled(s, e) && e.Step? && e.act.Stage?
    ensures DataInv(Apply(s, e), f)
  {
    var s' := Apply(s, e);
    SoleInstaller(s, e.p);
    assert s'.applied == s.applied && s'.file == s.file;
    assert forall q :: 0 <= q < |s.procs| && q != e.p ==> s'.procs[q] == s.procs[q];
  }

  lemma {:induction false} SwapFile(s: State, e: Event, f: File)
    requires DataInv(s, f) && Enabled(s, e) && e.Step? && e.act.Swap?
    ensures Apply(s, e).file == FileAfter(f, Apply(s, e).applied)
  {
    assert (s.applied + [s.procs[e.p].req])[..|s.applied|] == s.applied;
  }

  lemma {:induction false} SwapProcs(s: State, e: Event)
    requires OneHolder(s) && Enabled(s, e) && e.Step? && e.act.Swap?
    ensures forall q :: 0 <= q < |s.procs| ==> !Installing(Apply(s, e).procs[q].pc)
  {
    SoleInstaller(s, e.p);
  }

  lemma {:induction false} DataSwapped(s: State, e: Event, f: File)
    requires LockInv(s) && DataInv(s, f) && Enabled(s, e) && e.Step? && e.act.Swap?
    ensures DataInv(Apply(s, e), f)
  {
    SwapFile(s, e, f);
    SwapProcs(s, e);
    assert |Apply(s, e).procs| == |s.procs|;
  }

  lemma {:induction false} DataRead(s: State, e: Event, f: File)
    requires LockInv(s) && DataInv(s, f) && Enabled(s, e) && e.Step? && e.act.ReadFile?
    ensures DataInv(Apply(s, e), f)
  {
    var s' := Apply(s, e);
    assert s'.file == s.file && s'.tmp == s.tmp && s'.applied == s.applied;
    assert forall q :: 0 <= q < |s.procs| && q != e.p ==> s'.procs[q] == s.procs[q];
  }

  lemma {:induction false} FilesUntouched(s: State, e: Event)
    requires Enabled(s, e) && !(e.Step? && (e.act.ReadFile? || e.act.Stage? || e.act.Swap?))
    ensures Apply(s, e).file == s.file && Apply(s, e).tmp == s.tmp && Apply(s, e).applied == s.applied
  {
  }

  lemma {:induction false} ProcsUntouched(s: State, e: Event)
    requires Enabled(s, e) && !(e.Step? && (e.act.ReadFile? || e.act.Stage? || e.act.Swap?))
    ensures |Apply(s, e).procs| == |s.procs|
    ensures forall q :: 0 <= q < |s.procs| && !(e.Step? && e.p == q) ==> Apply(s, e).procs[q] == s.procs[q]
    ensures e.Step? ==> !Installing(Apply(s, e).procs[e.p].pc)
  {
  }

  lemma {:induction false} DataUntouched(s: State, e: Event, f: File)
    requires DataInv(s, f) && Enabled(s, e) && !(e.Step? && (e.act.ReadFile? || e.act.Stage? || e.act.Swap?))
    ensures DataInv(Apply(s, e), f)
  {
    FilesUntouched(s, e);
    ProcsUntouched(s, e);
  }

  lemma {:induction false} DataStep(s: State, e: Event, f: File)
    requires LockInv(s) && DataInv(s, f) && Enabled(s, e)
    ensures DataInv(Apply(s, e), f)
  {
    if e.Step? && e.act.ReadFile? {
      DataRead(s, e, f);
    } else if e.Step? && e.act.Stage? {
      DataStaged(s, e, f);
    } else if e.Step? && e.act.Swap? {
      DataSwapped(s, e, f);
    } else {
      DataUntouched(s, e, f);
    }
  }

  lemma {:induction false} DataRun(s: State, es: seq<Event>, f: File)
    requires LockInv(s) && DataInv(s, f) && Valid(s, es) && Admissible(s, es)
    ensures DataInv(Exec(s, es), f)
    decreases |es|
  {
    if es != [] {
      DataStep(s, es[0], f);
      LockStep(s, es[0]);
      DataRun(Apply(s, es[0]), es[1..], f);
    }
  }

  /** The last of the requests that names this skill, if any. */
  ghost function LastApply(reqs: seq<Request>, name: string): Option<Skill> {
    if reqs == [] then None
    else if reqs[|reqs| - 1].name == name then Some(reqs[|reqs| - 1].skill)
    else LastApply(reqs[..|reqs| - 1], name)
  }

  ghost predicate Records(h: HistoryEntry, version: int, req: Request) {
    h == HistoryEntry(version, req.name, req.skill.sha256, req.skill.reason, req.skill.updated)
  }

  /** `reg` is `base` with all of `reqs` applied and none lost. */
  ghost predicate CarriesAll(base: Registry, reqs: seq<Request>, reg: Registry) {
    && reg.version == base.version + |reqs|
    && |reg.history| == |base.history| + |reqs|
    && reg.history[..|base.history|] == base.history
    && (forall i :: 0 <= i < |reqs| ==> Records(reg.history[|base.history| + i], base.version + i + 1, reqs[i]))
    && (forall name :: name in reg.skills <==> name in base.skills || LastApply(reqs, name).Some?)
    && (forall name :: name in reg.skills ==>
          reg.skills[name] == match LastApply(reqs, name) case Some(k) => k case None => base.skills[name])
  }

  lemma {:induction false} HistoryGrows(base: Registry, reqs: seq<Request>, mid: Registry, req: Request, i: nat)
    requires CarriesAll(base, reqs, mid) && i <= |reqs|
    ensures Records(Commit(mid, req).history[|base.history| + i], base.version + i + 1, (reqs + [req])[i])
  {
    if i < |reqs| {
      assert Commit(mid, req).history[|base.history| + i] == mid.history[|base.history| + i];
    }
  }

  lemma {:induction false} LastApplyGrows(reqs: seq<Request>, req: Request, name: string)
    ensures LastApply(reqs + [req], name) == if name == req.name then Some(req.skill) else LastApply(reqs, name)
  {
    assert (reqs + [req])[..|reqs|] == reqs;
  }

  /** One more commit loses nothing. */
  lemma {:induction false} OneMoreCarried(base: Registry, reqs: seq<Request>, mid: Registry, req: Request)
    requires CarriesAll(base, reqs, mid)
    ensures CarriesAll(base, reqs + [req], Commit(mid, req))
  {
    var reg := Commit(mid, req);
    assert reg.history[..|base.history|] == mid.history[..|base.history|];
    forall i | 0 <= i < |reqs + [req]|
      ensures Records(reg.history[|base.history| + i], base.version + i + 1, (reqs + [req])[i])
    {
      HistoryGrows(base, reqs, mid, req, i);
    }
    forall name
      ensures LastApply(reqs + [req], name) == if name == req.name then Some(req.skill) else LastApply(reqs, name)
    {
      LastApplyGrows(reqs, req, name);
    }
  }

  lemma {:induction false} FileCarriesAll(f: File, reqs: seq<Request>)
    requires Load(f).Some?
    ensures Load(FileAfter(f, reqs)).Some?
    ensures CarriesAll(Load(f).value, reqs, Load(FileAfter(f, reqs)).value)
  {
    if reqs != [] {
      var n := |reqs| - 1;
      FileCarriesAll(f, reqs[..n]);
      OneMoreCarried(Load(f).value, reqs[..n], Load(FileAfter(f, reqs[..n])).value, reqs[n]);
      assert reqs[..n] + [reqs[n]] == reqs;
    }
  }

  /** The file at the end of a run holds the applies completed in it, on top of what it held before. */
  ghost predicate NothingLost(before: File, t: State) {
    match Load(before)
    case Some(base) => Load(t.file).Some? && CarriesAll(base, t.applied, Load(t.file).value)
    case None => t.file == Malformed
  }

  /** No lost update: after every admissible run the file holds exactly the completed applies, in the
      order of their replaces, on top of what was there at the start.  The version counts the replaces,
      the new history entries are numbered consecutively, and a skill is the one its latest apply
      installed.  A registry that was malformed at the start is never written. */
  lemma {:induction false} NoLostUpdate(s: State, es: seq<Event>)
    requires Initial(s) && Valid(s, es) && Admissible(s, es)
    ensures NothingLost(s.file, Exec(s, es))
  {
    var t := Exec(s, es);
    DataRun(s, es, s.file);
    if Load(s.file).Some? {
      FileCarriesAll(s.file, t.applied);
    } else {
      MalformedStays(t.applied);
    }
  }

  /** A run that keeps every documented premise and loses an update. */
  lemma {:induction false} LostUpdateRace(hold: real) returns (s: State, es: seq<Event>)
    requires hold > LOCK_STALE_SEC
    ensures PromptRun(s, es, hold) && AlwaysTokenlessFree(s, es)
    ensures Load(s.file) == Some(EMPTY) && |Exec(s, es).applied| == 2
    ensures Load(Exec(s, es).file).Some? && Load(Exec(s, es).file).value.version == 1
    ensures !NothingLost(s.file, Exec(s, es))
  {
    s, es := SlowOwnerRace(hold, Loss);
  }

  /** The exact condition: no run whose live processes keep the lock for at most `hold` seconds loses an
      update if and only if `hold` does not exceed the staleness age. */
  lemma {:induction false} NoLostUpdateIffPrompt(hold: real)
    ensures hold <= LOCK_STALE_SEC <==> forall s, es :: PromptRun(s, es, hold) ==> NothingLost(s.file, Exec(s, es))
  {
    if hold <= LOCK_STALE_SEC {
      forall s, es | PromptRun(s, es, hold)
        ensures NothingLost(s.file, Exec(s, es))
      {
        PromptIsAdmissible(s, es, hold);
        NoLostUpdate(s, es);
      }
    } else {
      var s, es := LostUpdateRace(hold);
      assert PromptRun(s, es, hold);
    }
  }

  lemma {:induction false} MalformedStays(reqs: seq<Request>)
    ensures FileAfter(Malformed, reqs) == Malformed
  {
    if reqs != [] {
      MalformedStays(reqs[..|reqs| - 1]);
    }
  }
}
