/** The work-stealing scheduler of src/work.rs together with the producers of src/runtime.rs,
    as a step system: one step per atomic operation, any number of workers and producers.

    Threads `0..workers` run `work_loop`; the others only produce. The idle flag, the parker
    token and the deque of worker `i` are kept in the record of thread `i`. */
module Scheduler {
  import opened Ledger
  import R = Runs

  /** Handles are numbered from 1 in the order they are pushed; 0 stands for "no handle". */
  type Handle = nat

  /** Where `find_work` is looking: own deque, injector, or the deque of worker `victim`. */
  datatype Phase = Local | Inject | Steal(victim: nat)

  /** Why `clear_idle` is called. */
  datatype Cause = AfterScan | AfterFinal | AfterPark | OnStop

  datatype Pc =
    | External                          // not a worker
    | Scan(again: bool, phase: Phase)   // `find_work`, first call or the one made while idle
    | Got                               // holds a handle, about to drop its token if it has one
    | Running                           // inside `handle.run`
    | CheckStop(again: bool)
    | SetFlag | SetCount                // `set_idle`
    | ClearFlag(cause: Cause)           // `clear_idle`: the exchange on the flag
    | ClearCount(cause: Cause)          // `clear_idle`: the decrement
    | Absorb                            // the flag was claimed: take the token back
    | Release | FinalScan               // stop speculating, then look at the injector once more
    | Park
    | CheckParked(claimed: bool)
    | Leave(leak: bool)                 // on the way out: give back the speculation token
    | Exited(leak: bool)

  /** Progress of a call to `unpark_one` (`Load(false)`) or `unpark` (`Load(true)`) made for handle `h`. */
  datatype Call =
    | NoCall
    | Load(forced: bool, h: Handle)
    | Cas(h: Handle)
    | Add(h: Handle)
    | Wake(i: nat, h: Handle)           // `wake_idle`, looking at flag `i`; holds a token
    | Dec(i: nat, h: Handle)            // claimed worker `i`, `idle_count` not yet debited
    | Unpark(i: nat, h: Handle)

  /** How a wake call returned. */
  datatype Answer =
    | NobodyIdle
    | ElidedSeenTo        // some worker was awake or claimed, or some producer had flags left to look at
    | ElidedUnseen        // every token was with a producer past the last flag, and every worker asleep
    | Woke
    | NobodyFound

  datatype Thread = Thread(
    pc: Pc, flag: bool, token: bool, spec: bool, call: Call, deque: seq<Handle>, hand: seq<Handle>)

  datatype State = State(
    workers: nat,
    ts: seq<Thread>,
    injector: seq<Handle>,
    idleCount: int,
    speculation: int,
    stopping: bool,
    next: Handle,
    ran: seq<Handle>,               // handles whose `run` has been entered, in order
    forced: set<Handle>,            // handles pushed by `add_io_handle`
    answers: map<Handle, Answer>,   // how the wake call made for a handle returned
    unseen: bool,                   // since the last push, an elided wake left nobody to see to the injector
    told: set<int>)                 // workers unparked by `stop_threads`

  datatype Action =
    | Tick(k: nat)            // the next atomic operation of thread `k`
    | PushForced(k: nat)      // `add_io_handle`
    | PushDeferred(k: nat)    // `defer_handle`, and `add_handle` outside a worker
    | PushLocal(k: nat)       // `add_handle` on a worker
    | Finish(k: nat)          // `handle.run` returns
    | Stop                    // `stop_threads`: the store
    | StopUnpark(i: nat)      // `stop_threads`: one unpark

  // ---- initial states ----

  function Fresh(pc: Pc): Thread {
    Thread(pc, false, false, false, NoCall, [], [])
  }

  function Init(workers: nat, producers: nat): State {
    State(workers,
          seq(workers + producers, i => Fresh(if i < workers then Scan(false, Local) else External)),
          [], 0, 0, false, 1, [], {}, map[], false, {})
  }

  // ---- steps ----

  predicate Idle(pc: Pc) {
    // between the store of the own flag and the own exchange that takes it down
    pc.SetCount? || (pc.Scan? && pc.again) || pc == CheckStop(true) || pc.Release? || pc.FinalScan?
    || pc.Park? || pc.ClearFlag?
  }

  /** May thread `k` enter the runtime to push a handle? */
  predicate Free(t: Thread) {
    t.call.NoCall? && (t.pc.External? || t.pc.Running?)
  }

  predicate Enabled(s: State, a: Action) {
    match a
    case Tick(k) =>
      k < |s.ts| && (s.ts[k].call.NoCall? ==>
        var t := s.ts[k];
        !t.pc.External? && !t.pc.Running? && !t.pc.Exited? && (t.pc.Park? ==> t.token))
    case PushForced(k) => k < |s.ts| && Free(s.ts[k])
    case PushDeferred(k) => k < |s.ts| && Free(s.ts[k])
    case PushLocal(k) => k < |s.ts| && Free(s.ts[k]) && s.ts[k].pc.Running?
    case Finish(k) => k < |s.ts| && s.ts[k].call.NoCall? && s.ts[k].pc.Running?
    case Stop => true
    case StopUnpark(i) => s.stopping && i < s.workers && i < |s.ts|
  }

  function Step(s: State, a: Action): State
    requires Enabled(s, a)
  {
    match a
    case Tick(k) => Apply(s, k, Other(s, k), Move(s, k, s.ts[k], s.ts[Other(s, k)]))
    case PushForced(k) =>
      s.(injector := s.injector + [s.next], next := s.next + 1, forced := s.forced + {s.next}, unseen := false,
         ts := s.ts[k := s.ts[k].(call := Load(true, s.next))])
    case PushDeferred(k) =>
      s.(injector := s.injector + [s.next], next := s.next + 1, unseen := false,
         ts := s.ts[k := s.ts[k].(call := Load(false, s.next))])
    case PushLocal(k) =>
      s.(next := s.next + 1, unseen := false,
         ts := s.ts[k := s.ts[k].(deque := s.ts[k].deque + [s.next], call := Load(false, s.next))])
    case Finish(k) => s.(ts := s.ts[k := s.ts[k].(pc := Scan(false, Local))])
    case Stop => s.(stopping := true)
    case StopUnpark(i) => s.(ts := s.ts[i := s.ts[i].(token := true)], told := s.told + {i})
  }

  /** The other thread whose flag, token or deque thread `k` is about to touch; `k` itself if none. */
  function Other(s: State, k: nat): (j: nat)
    requires k < |s.ts|
    ensures j < |s.ts|
  {
    var t := s.ts[k];
    var j := match t.call
      case Wake(i, _) => i
      case Unpark(i, _) => i
      case NoCall => if t.pc.Scan? && t.pc.phase.Steal? then t.pc.phase.victim else k
      case _ => k;
    if j < s.workers && j < |s.ts| then j else k
  }

  /** What one atomic operation does: the acting thread, the thread it touched, and the changes to
      the counters, to the injector (`take`: its front was popped) and to the histories. */
  datatype Effect = Effect(
    me: Thread, them: Thread, idle: int, spec: int, take: bool, start: seq<Handle>, reply: seq<(Handle, Answer)>)

  function Apply(s: State, k: nat, j: nat, e: Effect): State
    requires k < |s.ts| && j < |s.ts|
  {
    s.(ts := s.ts[j := e.them][k := e.me],
       idleCount := s.idleCount + e.idle,
       speculation := s.speculation + e.spec,
       injector := Taken(s.injector, e.take),
       ran := s.ran + e.start,
       answers := if e.reply == [] then s.answers else s.answers[e.reply[0].0 := e.reply[0].1],
       unseen := s.unseen || LeavesUnseen(s, k))
  }

  function Taken(q: seq<Handle>, take: bool): seq<Handle> {
    if take && q != [] then q[1..] else q
  }

  function Move(s: State, k: nat, t: Thread, p: Thread): Effect {
    if t.call.NoCall? then WorkerMove(s, k, t, p) else CallMove(s, t, p)
  }

  /** One atomic operation of `unpark_one`, `unpark` or `wake_idle`; `p` is the worker looked at. */
  function CallMove(s: State, t: Thread, p: Thread): Effect {
    Effect(t.(call := NextCall(s, t.call, p.flag)),
           p.(flag := p.flag && !(t.call.Wake? && t.call.i < s.workers), token := p.token || t.call.Unpark?),
           if t.call.Dec? then -1 else 0,
           CallTokens(s, t.call),
           false, [], Reply(s, t.call))
  }

  function NextCall(s: State, c: Call, flagged: bool): Call {
    match c
    case NoCall => NoCall
    case Load(forced, h) => if s.idleCount == 0 then NoCall else if forced then Add(h) else Cas(h)
    case Cas(h) => if s.speculation != 0 then NoCall else Wake(0, h)
    case Add(h) => Wake(0, h)
    case Wake(i, h) => if i >= s.workers then NoCall else if flagged then Dec(i, h) else Wake(i + 1, h)
    case Dec(i, h) => Unpark(i, h)
    case Unpark(i, h) => NoCall
  }

  /** What the operation adds to `speculation`. */
  function CallTokens(s: State, c: Call): int {
    match c
    case Cas(_) => if s.speculation != 0 then 0 else 1
    case Add(_) => 1
    case Wake(i, _) => if i >= s.workers then -1 else 0
    case _ => 0
  }

  /** The return, if the operation is the last one. */
  function Reply(s: State, c: Call): seq<(Handle, Answer)> {
    match c
    case Load(_, h) => if s.idleCount == 0 then [(h, NobodyIdle)] else []
    case Cas(h) =>
      if s.speculation == 0 then []
      else [(h, if s.speculation > Exhausted(s) || !AllAsleep(s) then ElidedSeenTo else ElidedUnseen)]
    case Wake(i, h) => if i >= s.workers then [(h, NobodyFound)] else []
    case Unpark(_, h) => [(h, Woke)]
    case _ => []
  }

  /** One atomic operation of `work_loop`; `p` is the worker stolen from, if any. */
  function WorkerMove(s: State, k: nat, t: Thread, p: Thread): Effect {
    if t.pc.Scan? then ScanMove(s, k, t, p) else LoopMove(s, t, p)
  }

  /** One queue operation of `find_work`: own deque from the back, the others from the front. */
  function ScanMove(s: State, k: nat, t: Thread, p: Thread): Effect
    requires t.pc.Scan?
  {
    var found := ScanFinds(s, k, t, p);
    var phase := t.pc.phase;
    Effect(t.(pc := NextScan(s, t.pc, found != []),
              hand := found,
              deque := if phase.Local? && found != [] then t.deque[..|t.deque| - 1] else t.deque),
           p.(deque := if phase.Steal? && found != [] then p.deque[1..] else p.deque),
           0, 0, phase.Inject?, [], [])
  }

  function ScanFinds(s: State, k: nat, t: Thread, p: Thread): (found: seq<Handle>)
    requires t.pc.Scan?
    ensures found != [] && t.pc.phase.Local? ==> t.deque != []
    ensures found != [] && t.pc.phase.Steal? ==> p.deque != [] && t.pc.phase.victim != k
  {
    match t.pc.phase
    case Local => if t.deque == [] then [] else [t.deque[|t.deque| - 1]]
    case Inject => if s.injector == [] then [] else [s.injector[0]]
    case Steal(v) => if v >= s.workers || v == k || p.deque == [] then [] else [p.deque[0]]
  }

  function NextScan(s: State, pc: Pc, found: bool): Pc
    requires pc.Scan?
  {
    if found then (if pc.again then ClearFlag(AfterScan) else Got)
    else match pc.phase
      case Local => Scan(pc.again, Inject)
      case Inject => Scan(pc.again, Steal(0))
      case Steal(v) => if v >= s.workers then CheckStop(pc.again) else Scan(pc.again, Steal(v + 1))
  }

  /** One operation of the loop around `find_work`, field by field. */
  function LoopMove(s: State, t: Thread, p: Thread): Effect {
    Effect(t.(pc := NextPc(s, t.pc, t.flag, t.spec),
              flag := t.pc.SetFlag? || (t.flag && !t.pc.ClearFlag?),
              token := t.token && !t.pc.Park?,
              spec := NextSpec(s, t.pc, t.spec),
              hand := if t.pc.Got? then [] else if t.pc.FinalScan? && s.injector != [] then [s.injector[0]] else t.hand,
              call := if t.pc.Got? && t.spec && s.speculation == 1 then Load(false, 0) else t.call),
           p,
           if t.pc.SetCount? then 1 else if t.pc.ClearCount? then -1 else 0,
           LoopTokens(t.pc, t.spec),
           t.pc.FinalScan?,
           if t.pc.Got? then t.hand else [],
           [])
  }

  function NextPc(s: State, pc: Pc, flag: bool, spec: bool): Pc {
    match pc
    case Got => Running
    case CheckStop(again) =>
      if s.stopping then (if again then ClearFlag(OnStop) else Leave(false))
      else if !again then SetFlag
      else if spec then Release else Park
    case SetFlag => SetCount
    case SetCount => Scan(true, Local)
    case Release => FinalScan
    case FinalScan => if s.injector != [] then ClearFlag(AfterFinal) else Park
    case Park => ClearFlag(AfterPark)
    case ClearFlag(cause) =>
      if flag then ClearCount(cause)
      else if cause.AfterPark? then CheckParked(true)
      else if cause.OnStop? then Leave(true)
      else Absorb
    case ClearCount(cause) =>
      if cause.AfterPark? then CheckParked(false) else if cause.OnStop? then Leave(false) else Got
    case Absorb => Got
    case CheckParked(claimed) => if s.stopping then Exited(claimed) else Scan(false, Local)
    case Leave(leak) => Exited(leak)
    case _ => pc
  }

  function NextSpec(s: State, pc: Pc, spec: bool): bool {
    match pc
    case CheckParked(claimed) => if s.stopping then spec else claimed
    case Got => false
    case Release => false
    case Leave(_) => false
    case _ => spec
  }

  /** What the operation adds to `speculation`. */
  function LoopTokens(pc: Pc, spec: bool): int {
    match pc
    case Got => if spec then -1 else 0
    case Leave(_) => if spec then -1 else 0
    case Release => -1
    case Absorb => -1
    case _ => 0
  }

  // ---- runs ----

  ghost predicate Initial(s: State) {
    exists workers: nat, producers: nat :: workers > 0 && s == Init(workers, producers)
  }

  ghost predicate Next(s: State, s': State) { exists a :: Enabled(s, a) && s' == Step(s, a) }

  ghost predicate Reachable(s: State) { R.Reachable(Initial, Next, s) }

  // ---- the quantities of the ledgers ----

  /** Tokens carried by a thread: a producer still scanning flags, a speculating worker, a claimed
      worker that has not noticed, a worker about to absorb, or one that left with its token. */
  function Tokens(t: Thread): int {
    ScanTokens(t) + WorkerTokens(t)
  }

  function ScanTokens(t: Thread): int { B(t.call.Wake?) }

  function WorkerTokens(t: Thread): int { B(t.spec) + PcTokens(t.pc, t.flag) }

  function PcTokens(pc: Pc, flag: bool): int {
    match pc
    case Absorb => 1
    case CheckParked(claimed) => B(claimed)
    case Leave(leak) => B(leak)
    case Exited(leak) => B(leak)
    case _ => B(Idle(pc) && !flag)
  }

  /** Set flags, minus workers inside `set_idle`, plus threads that took a flag down and have not
      yet debited the counter. */
  function IdleShare(t: Thread): int { PcIdle(t.pc, t.flag) + B(t.call.Dec?) }

  function PcIdle(pc: Pc, flag: bool): int {
    match pc
    case SetCount => B(flag) - 1
    case ClearCount(_) => B(flag) + 1
    case _ => B(flag)
  }

  /** Held by a producer that has looked at every flag and found nobody to give it to. */
  function SpentTokens(workers: nat): Thread -> int { (t: Thread) => B(t.call.Wake? && t.call.i >= workers) }

  /** Held by a producer that has flags left to look at. */
  function SearchTokens(workers: nat): Thread -> int { (t: Thread) => B(Searches(t.call, workers)) }

  predicate Searches(c: Call, workers: nat) { c.Wake? && c.i < workers }

  /** Idle, and past the last look at the injector that it owes. */
  predicate PastScan(pc: Pc) {
    (pc.Scan? && pc.again && pc.phase.Steal?) || pc == CheckStop(true) || pc.Park?
  }

  /** Every worker has its flag up, is past its scan and has no park token. */
  predicate AllAsleep(s: State) {
    forall i :: 0 <= i < s.workers && i < |s.ts| ==> s.ts[i].flag && PastScan(s.ts[i].pc) && !s.ts[i].token
  }

  /** A wake call that will still look at a flag or deliver a token: all but one past the last flag. */
  predicate Acts(c: Call, workers: nat) { !c.NoCall? && !(c.Wake? && c.i >= workers) }

  /** Thread `k` gives up on its wake with every token beyond the last flag, every worker asleep, and no other wake
      call left that will do anything. */
  predicate LeavesUnseen(s: State, k: nat) {
    && k < |s.ts| && s.ts[k].call.Cas? && 0 != s.speculation <= Exhausted(s) && AllAsleep(s)
    && forall i :: 0 <= i < |s.ts| && i != k ==> !Acts(s.ts[i].call, s.workers)
  }

  function Exhausted(s: State): int { Sum(s.ts, SpentTokens(s.workers)) }
}
