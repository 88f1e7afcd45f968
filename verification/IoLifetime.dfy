/** Lifetime of the entries behind poll tokens: `io_register`, `io_deregister` and the phases of `poll` in
    src/runtime.rs. A token is the address of its entry, and addresses are reused once freed. */
module IoLifetime {
  import R = Runs

  type Addr = nat
  type Fd = nat

  datatype Op =
    // io_register, after the insertion into the map
    | KernelAdd(a: Addr) | Rollback(a: Addr)
    // io_deregister
    | Remove(a: Addr) | KernelDel(a: Addr) | Shutdown(a: Addr) | Park(a: Addr) | Flag
    | Finished

  /** A token of a batch; `stale` if it came by a descriptor that lingers in the kernel. */
  datatype Token = Token(a: Addr, stale: bool)

  datatype Poller = Swap | Release | Poll | Dispatch(next: nat)

  datatype State = State(
    regs: set<Addr>,        // io_registrations
    pending: set<Addr>,     // io_pending_release
    needs: bool,            // io_needs_release
    fds: map<Addr, Fd>,     // the descriptor of each entry
    kernel: map<Fd, Addr>,  // descriptors known to the kernel, with their tokens
    lingering: set<Fd>,     // history: descriptors the kernel has because it refused to forget them
    held: set<Addr>,        // entries whose `Arc` a descriptor object holds
    batch: seq<Token>,      // tokens of the poll being dispatched
    poller: Poller,
    ops: seq<Op>,
    polled: seq<Token>,     // history: all tokens returned by polls
    handled: seq<Token>)    // history: those dispatched

  datatype Action =
    | Register(a: Addr, fd: Fd)   // allocate at `a` and insert
    | Registered(i: nat)          // the kernel accepts
    | Rejected(i: nat)            // the kernel refuses
    | Drop(a: Addr)               // a descriptor object goes away
    | Deregister(a: Addr)         // it calls `io_deregister`
    | OpStep(i: nat)
    | DelFails(i: nat)            // the deregistration with the kernel fails, or is skipped; the error is ignored
    | Close(fd: Fd)               // the descriptor is closed, and the kernel forgets it
    | Polled(fds: seq<Fd>)        // the poll returns an event for each of these descriptors
    | PollerStep

  function Init(): State { State({}, {}, false, map[], map[], {}, {}, [], Swap, [], [], []) }

  predicate Initial(s: State) { s == Init() }

  /** The entry is in the hands of a deregistration in progress. */
  predicate Leaving(o: Op, a: Addr) { (o.KernelDel? || o.Shutdown? || o.Park?) && o.a == a }

  predicate Uses(o: Op, a: Addr) { !o.Flag? && !o.Finished? && o.a == a }

  /** The runtime still owns the entry at `a`. */
  ghost predicate Kept(s: State, a: Addr) {
    a in s.regs || a in s.pending || exists i :: 0 <= i < |s.ops| && Leaving(s.ops[i], a)
  }

  /** The allocator may hand out `a`. */
  ghost predicate Unused(s: State, a: Addr) {
    a !in s.regs && a !in s.pending && a !in s.held && forall i :: 0 <= i < |s.ops| ==> !Uses(s.ops[i], a)
  }

  ghost predicate Enabled(s: State, a: Action) {
    match a
    case Register(x, _) => Unused(s, x)
    case Registered(i) => i < |s.ops| && s.ops[i].KernelAdd? && FdOf(s, s.ops[i].a) !in s.kernel
    case Rejected(i) => i < |s.ops| && s.ops[i].KernelAdd?
    case Drop(x) => x in s.held
    case Deregister(x) => x in s.held
    case OpStep(i) => i < |s.ops| && !s.ops[i].KernelAdd? && !s.ops[i].Finished?
    case DelFails(i) => i < |s.ops| && s.ops[i].KernelDel?
    case Close(_) => true
    case Polled(fds) => s.poller.Poll? && forall i :: 0 <= i < |fds| ==> fds[i] in s.kernel
    case PollerStep => !s.poller.Poll?
  }

  ghost function Step(s: State, a: Action): State
    requires Enabled(s, a)
  {
    match a
    case Register(x, fd) => s.(regs := s.regs + {x}, fds := s.fds[x := fd], ops := s.ops + [KernelAdd(x)])
    case Registered(i) =>
      var x := s.ops[i].a;
      s.(kernel := s.kernel[FdOf(s, x) := x], held := s.held + {x}, ops := s.ops[i := Finished])
    case Rejected(i) => s.(ops := s.ops[i := Rollback(s.ops[i].a)])
    case Drop(x) => s.(held := s.held - {x})
    case Deregister(x) => s.(ops := s.ops + [Remove(x)])
    case OpStep(i) => OpMove(s, i)
    case DelFails(i) =>
      var x := s.ops[i].a;
      s.(ops := s.ops[i := Shutdown(x)], lingering := s.lingering + set fd | fd in s.kernel && s.kernel[fd] == x)
    case Close(fd) => s.(kernel := s.kernel - {fd}, lingering := s.lingering - {fd})
    case Polled(fds) => s.(batch := Batch(s, fds), poller := Dispatch(0), polled := s.polled + Batch(s, fds))
    case PollerStep =>
      match s.poller {
        case Swap => s.(needs := false, poller := if s.needs then Release else Poll)
        case Release => s.(pending := {}, poller := Poll)
        case Dispatch(n) =>
          if n < |s.batch| then s.(poller := Dispatch(n + 1), handled := s.handled + [s.batch[n]])
          else s.(batch := [], poller := Swap)
        case Poll => s
      }
  }

  function Batch(s: State, fds: seq<Fd>): seq<Token>
    requires forall i :: 0 <= i < |fds| ==> fds[i] in s.kernel
  {
    seq(|fds|, i requires 0 <= i < |fds| => Token(s.kernel[fds[i]], fds[i] in s.lingering))
  }

  function FdOf(s: State, a: Addr): Fd { if a in s.fds then s.fds[a] else 0 }

  function OpMove(s: State, i: nat): State
    requires i < |s.ops|
  {
    match s.ops[i]
    case Rollback(a) => s.(regs := s.regs - {a}, ops := s.ops[i := Finished])
    case Remove(a) => s.(regs := s.regs - {a}, ops := s.ops[i := if a in s.regs then KernelDel(a) else Finished])
    case KernelDel(a) =>
      s.(kernel := s.kernel - {FdOf(s, a)}, lingering := s.lingering - {FdOf(s, a)}, ops := s.ops[i := Shutdown(a)])
    case Shutdown(a) => s.(ops := s.ops[i := Park(a)])
    case Park(a) => s.(pending := s.pending + {a}, ops := s.ops[i := Flag])
    case Flag => s.(needs := true, ops := s.ops[i := Finished])
    case _ => s
  }

  ghost predicate Next(s: State, s': State) { exists a :: Enabled(s, a) && s' == Step(s, a) }

  ghost predicate Reachable(s: State) { R.Reachable(Initial, Next, s) }

  // ---- invariant ----

  /** The kernel has the entry by a descriptor that does not linger. */
  predicate Known(s: State, a: Addr) { exists fd :: fd in s.kernel && fd !in s.lingering && s.kernel[fd] == a }

  /** Every token of the batch for `a` is stale. */
  predicate Unbatched(s: State, a: Addr) {
    forall n :: 0 <= n < |s.batch| ==> s.batch[n].a != a || s.batch[n].stale
  }

  /** An entry being registered is in the map and unknown to the kernel, to any batch, to any descriptor and
      to any other operation; one being deregistered is out of the map. */
  ghost predicate OpFits(s: State, i: int)
    requires 0 <= i < |s.ops|
  {
    var o := s.ops[i];
    && (o.KernelAdd? || o.Rollback? ==>
          && o.a in s.regs && o.a !in s.held && !Known(s, o.a) && Unbatched(s, o.a)
          && forall j :: 0 <= j < |s.ops| && j != i ==> !Uses(s.ops[j], o.a))
    && (o.KernelDel? || o.Shutdown? || o.Park? ==>
          && o.a !in s.regs && o.a !in s.pending
          && (o.KernelDel? || !Known(s, o.a))
          && forall j :: 0 <= j < |s.ops| && j != i ==> !Leaving(s.ops[j], o.a))
  }

  ghost predicate OpsFit(s: State) { forall i :: 0 <= i < |s.ops| ==> OpFits(s, i) }

  ghost predicate KernelCovered(s: State) {
    forall a :: Known(s, a) ==> a in s.regs || KernelDel(a) in s.ops
  }

  /** A descriptor that does not linger is the one of its entry. */
  predicate Keyed(s: State) {
    && (forall fd :: fd in s.kernel && fd !in s.lingering ==> FdOf(s, s.kernel[fd]) == fd)
    && (forall fd :: fd in s.lingering ==> fd in s.kernel)
  }

  ghost predicate BatchKept(s: State) {
    && (!s.poller.Dispatch? ==> s.batch == [])
    && (forall n :: 0 <= n < |s.batch| ==> s.batch[n].stale || Kept(s, s.batch[n].a))
  }

  /** Entries waiting to be released have a flag to say so, set or about to be set or being acted upon. */
  predicate ReleaseComes(s: State) { s.pending != {} ==> s.needs || s.poller.Release? || Flag in s.ops }

  ghost predicate Inv(s: State) {
    && OpsFit(s) && KernelCovered(s) && Keyed(s) && BatchKept(s) && ReleaseComes(s)
    && s.pending !! s.regs
  }

  lemma RemoveFits(s: State, i: nat)
    requires Inv(s) && i < |s.ops| && s.ops[i].Remove?
    ensures OpsFit(OpMove(s, i))
  {
    var s', x := OpMove(s, i), s.ops[i].a;
    forall m | 0 <= m < |s.ops| ensures x in s.regs ==> !Leaving(s.ops[m], x) {
      assert OpFits(s, m);
    }
    forall j | 0 <= j < |s'.ops| ensures OpFits(s', j) {
      assert OpFits(s, j);
      assert j != i && (s.ops[j].KernelAdd? || s.ops[j].Rollback?) ==> !Uses(s.ops[i], s.ops[j].a);
    }
  }

  lemma KernelDelFits(s: State, i: nat)
    requires Inv(s) && i < |s.ops| && s.ops[i].KernelDel?
    ensures OpsFit(OpMove(s, i))
  {
    var s' := OpMove(s, i);
    assert OpFits(s, i);
    Forgotten(s, i);
    forall j | 0 <= j < |s'.ops| ensures OpFits(s', j) {
      assert OpFits(s, j);
      if !s.ops[j].Flag? && !s.ops[j].Finished? && Known(s', s.ops[j].a) { KnownBefore(s, OpStep(i), s.ops[j].a); }
    }
  }

  lemma OpMoveFits(s: State, i: nat)
    requires Inv(s) && Enabled(s, OpStep(i))
    ensures OpsFit(OpMove(s, i)) && OpMove(s, i).pending !! OpMove(s, i).regs
  {
    var s', o := OpMove(s, i), s.ops[i];
    assert OpFits(s, i);
    if o.Remove? {
      RemoveFits(s, i);
    } else if o.KernelDel? {
      KernelDelFits(s, i);
    } else {
      RestFits(s, i);
    }
  }

  lemma RestFits(s: State, i: nat)
    requires Inv(s) && Enabled(s, OpStep(i)) && !s.ops[i].Remove? && !s.ops[i].KernelDel?
    ensures OpsFit(OpMove(s, i))
  {
    var s' := OpMove(s, i);
    assert OpFits(s, i);
    forall j | 0 <= j < |s'.ops| ensures OpFits(s', j) {
      assert OpFits(s, j);
    }
  }

  /** The kernel answers. */
  lemma AnswerFits(s: State, a: Action)
    requires Inv(s) && Enabled(s, a) && (a.Registered? || a.Rejected? || a.DelFails?)
    ensures OpsFit(Step(s, a))
  {
    var s' := Step(s, a);
    assert OpFits(s, a.i);
    forall i | 0 <= i < |s'.ops| ensures OpFits(s', i) {
      assert OpFits(s, i);
    }
  }

  lemma RegisterFits(s: State, x: Addr, fd: Fd)
    requires Inv(s) && Enabled(s, Register(x, fd))
    ensures OpsFit(Step(s, Register(x, fd)))
  {
    var s' := Step(s, Register(x, fd));
    UnusedUnknown(s, x);
    forall i | 0 <= i < |s'.ops| ensures OpFits(s', i) {
      if i < |s.ops| {
        assert OpFits(s, i) && !Uses(s.ops[i], x);
      }
    }
  }

  lemma OpsFitKept(s: State, a: Action)
    requires Inv(s) && Enabled(s, a)
    ensures OpsFit(Step(s, a)) && Step(s, a).pending !! Step(s, a).regs
  {
    if a.OpStep? {
      OpMoveFits(s, a.i);
    } else if a.Register? {
      RegisterFits(s, a.a, a.fd);
    } else if a.Registered? || a.Rejected? || a.DelFails? {
      AnswerFits(s, a);
    } else {
      OthersFit(s, a);
    }
  }

  lemma OthersFit(s: State, a: Action)
    requires Inv(s) && Enabled(s, a) && (a.Drop? || a.Deregister? || a.Close? || a.Polled? || a.PollerStep?)
    ensures OpsFit(Step(s, a))
  {
    var s' := Step(s, a);
    forall i | 0 <= i < |s'.ops| ensures OpFits(s', i) {
      if i < |s.ops| {
        assert OpFits(s, i);
        if a.Polled? && (s.ops[i].KernelAdd? || s.ops[i].Rollback?) { PolledUnbatched(s, a.fds, s.ops[i].a); }
      }
    }
  }

  lemma PolledUnbatched(s: State, fds: seq<Fd>, x: Addr)
    requires Enabled(s, Polled(fds)) && !Known(s, x)
    ensures Unbatched(Step(s, Polled(fds)), x)
  {
  }

  /** Once the kernel has been told to forget its descriptor, an entry is not known by another. */
  lemma Forgotten(s: State, i: nat)
    requires Keyed(s) && i < |s.ops| && s.ops[i].KernelDel?
    ensures !Known(OpMove(s, i), s.ops[i].a)
  {
  }

  /** The kernel comes to know nothing but what is being registered. */
  lemma KnownBefore(s: State, a: Action, x: Addr)
    requires Enabled(s, a) && Known(Step(s, a), x) && Keyed(s)
    ensures Known(s, x) || (a.Registered? && s.ops[a.i].a == x)
  {
    var s' := Step(s, a);
    var fd :| fd in s'.kernel && fd !in s'.lingering && s'.kernel[fd] == x;
    if !(a.Registered? && s.ops[a.i].a == x) {
      assert fd in s.kernel && fd !in s.lingering && s.kernel[fd] == x;
    }
  }

  /** An address the allocator may hand out is in no batch and unknown to the kernel, save for what is stale. */
  lemma UnusedUnknown(s: State, x: Addr)
    requires Inv(s) && Unused(s, x)
    ensures !Known(s, x) && Unbatched(s, x)
  {
    forall i | 0 <= i < |s.ops| ensures s.ops[i] != KernelDel(x) && !Leaving(s.ops[i], x) {
      assert !Uses(s.ops[i], x);
    }
  }

  lemma KeyedKept(s: State, a: Action)
    requires Inv(s) && Enabled(s, a)
    ensures Keyed(Step(s, a))
  {
    if a.Register? {
      UnusedUnknown(s, a.a);
    }
  }

  lemma KernelCoveredKept(s: State, a: Action)
    requires Inv(s) && Enabled(s, a)
    ensures KernelCovered(Step(s, a))
  {
    var s' := Step(s, a);
    if a.OpStep? || a.Registered? || a.Rejected? || a.DelFails? {
      assert OpFits(s, a.i);
      assert s'.ops[a.i] in s'.ops;
    }
    forall x | Known(s', x) ensures x in s'.regs || KernelDel(x) in s'.ops {
      KnownBefore(s, a, x);
      if KernelDel(x) in s.ops {
        var i :| 0 <= i < |s.ops| && s.ops[i] == KernelDel(x);
        if a == OpStep(i) { Forgotten(s, i); }
        assert s'.ops[i] == KernelDel(x);
      }
    }
  }

  /** An entry the runtime owns stays owned, except by the release phase and a failed registration. */
  lemma KeptKept(s: State, a: Action, x: Addr)
    requires Inv(s) && Enabled(s, a) && Kept(s, x)
    requires !(a.PollerStep? && s.poller.Release?) && !(a.OpStep? && s.ops[a.i] == Rollback(x))
    ensures Kept(Step(s, a), x)
  {
    var s' := Step(s, a);
    if x !in s.regs && x !in s.pending {
      var i :| 0 <= i < |s.ops| && Leaving(s.ops[i], x);
      assert Leaving(s'.ops[i], x) || x in s'.pending;
    } else if a.OpStep? && s.ops[a.i] == Remove(x) {
      assert x in s'.pending || Leaving(s'.ops[a.i], x);
    }
  }

  lemma BatchKeptKept(s: State, a: Action)
    requires Inv(s) && Enabled(s, a)
    ensures BatchKept(Step(s, a))
  {
    var s' := Step(s, a);
    forall n | 0 <= n < |s'.batch| && !s'.batch[n].stale ensures Kept(s', s'.batch[n].a) {
      var x := s'.batch[n].a;
      if a.Polled? {
        assert s.kernel[a.fds[n]] == x;
        assert Known(s, x);
        if x !in s.regs {
          var i :| 0 <= i < |s.ops| && s.ops[i] == KernelDel(x);
          assert Leaving(s'.ops[i], x);
        }
      } else {
        if a.OpStep? { assert OpFits(s, a.i); }
        KeptKept(s, a, x);
      }
    }
  }

  lemma ReleaseComesKept(s: State, a: Action)
    requires Inv(s) && Enabled(s, a)
    ensures ReleaseComes(Step(s, a))
  {
    var s' := Step(s, a);
    if Flag in s.ops {
      var i :| 0 <= i < |s.ops| && s.ops[i] == Flag;
      assert s'.ops[i] == Flag || s'.needs;
    }
    if a.OpStep? {
      assert s'.ops[a.i] in s'.ops;
    }
  }

  lemma InvKept(s: State, a: Action)
    requires Inv(s) && Enabled(s, a)
    ensures Inv(Step(s, a))
  {
    OpsFitKept(s, a);
    KernelCoveredKept(s, a);
    KeyedKept(s, a);
    BatchKeptKept(s, a);
    ReleaseComesKept(s, a);
  }

  lemma ReachableInv(s: State)
    requires Reachable(s)
    ensures Inv(s)
  {
    forall r, r' | Inv(r) && Next(r, r') ensures Inv(r') {
      var a :| Enabled(r, a) && r' == Step(r, a);
      InvKept(r, a);
    }
    R.Always(Initial, Next, Inv, s);
  }

  // ---- whose a descriptor is ----

  predicate InProgress(s: State, x: Addr) { KernelAdd(x) in s.ops || Rollback(x) in s.ops }

  /** The descriptor, known to the kernel, belongs to the entry it names: one that is registered under it, or whose
      deregistration has not come to the kernel. */
  predicate Owned(s: State, fd: Fd) {
    && fd in s.kernel && FdOf(s, s.kernel[fd]) == fd
    && ((s.kernel[fd] in s.regs && !InProgress(s, s.kernel[fd])) || KernelDel(s.kernel[fd]) in s.ops)
  }

  ghost predicate LingersUnowned(s: State) { forall fd :: fd in s.lingering ==> !Owned(s, fd) }

  /** A deregistration that comes to the kernel is of an entry that was registered. */
  lemma DelBefore(s: State, a: Action, x: Addr)
    requires Inv(s) && Enabled(s, a) && KernelDel(x) in Step(s, a).ops
    ensures KernelDel(x) in s.ops || (x in s.regs && !InProgress(s, x) && a.OpStep?)
  {
    var i :| 0 <= i < |Step(s, a).ops| && Step(s, a).ops[i] == KernelDel(x);
    if KernelDel(x) !in s.ops {
      NewDel(s, a, i, x);
      RemovedWasOwned(s, i, x);
    }
  }

  lemma NewDel(s: State, a: Action, i: nat, x: Addr)
    requires Enabled(s, a) && i < |Step(s, a).ops| && Step(s, a).ops[i] == KernelDel(x) && KernelDel(x) !in s.ops
    ensures a == OpStep(i) && s.ops[i] == Remove(x) && x in s.regs
  {
  }

  /** An entry becomes registered when the kernel accepts it. */
  lemma RegBefore(s: State, a: Action, x: Addr)
    requires Inv(s) && Enabled(s, a) && x in Step(s, a).regs && !InProgress(Step(s, a), x)
    ensures x in s.regs && (!InProgress(s, x) || (a.Registered? && s.ops[a.i].a == x)) && !(a.Register? && a.a == x)
  {
    if a.Register? { assert Step(s, a).ops[|s.ops|] == KernelAdd(a.a); }
    if InProgress(s, x) { ProgressKept(s, a, x); }
  }

  lemma UnusedNotLeaving(s: State, x: Addr)
    requires Unused(s, x)
    ensures KernelDel(x) !in s.ops
  {
    forall i | 0 <= i < |s.ops| ensures s.ops[i] != KernelDel(x) {
      assert !Uses(s.ops[i], x);
    }
  }

  /** No step gives a descriptor that lingers before and after it an owner. */
  lemma OwnedBefore(s: State, a: Action, fd: Fd)
    requires Keyed(s) && Inv(s) && Enabled(s, a) && fd in s.lingering && fd in Step(s, a).lingering
    requires Owned(Step(s, a), fd)
    ensures Owned(s, fd)
  {
    var s', x := Step(s, a), s.kernel[fd];
    assert s'.kernel[fd] == x;
    if a.Register? { UnusedNotLeaving(s, a.a); }
    if KernelDel(x) in s'.ops { DelBefore(s, a, x); } else { RegBefore(s, a, x); }
  }

  /** A registration is in progress until the kernel has accepted it or it is rolled back. */
  lemma ProgressKept(s: State, a: Action, x: Addr)
    requires Inv(s) && Enabled(s, a) && InProgress(s, x)
    ensures InProgress(Step(s, a), x) || (a.Registered? && s.ops[a.i].a == x) || x !in Step(s, a).regs
  {
    var i :| 0 <= i < |s.ops| && (s.ops[i] == KernelAdd(x) || s.ops[i] == Rollback(x));
    assert Step(s, a).ops[i] in Step(s, a).ops;
  }

  lemma RemovedWasOwned(s: State, i: nat, x: Addr)
    requires Inv(s) && i < |s.ops| && s.ops[i] == Remove(x)
    ensures !InProgress(s, x)
  {
    if InProgress(s, x) {
      var j :| 0 <= j < |s.ops| && (s.ops[j] == KernelAdd(x) || s.ops[j] == Rollback(x));
      assert OpFits(s, j) && Uses(s.ops[i], x);
    }
  }

  /** A descriptor that begins to linger has lost its owner. */
  lemma FailedIsUnowned(s: State, i: nat, fd: Fd)
    requires Inv(s) && Enabled(s, DelFails(i)) && fd in s.kernel && s.kernel[fd] == s.ops[i].a
    ensures !Owned(Step(s, DelFails(i)), fd)
  {
    var x := s.ops[i].a;
    assert OpFits(s, i);
    forall j | 0 <= j < |s.ops| ensures Step(s, DelFails(i)).ops[j] != KernelDel(x) {
      assert j != i ==> !Leaving(s.ops[j], x);
    }
  }

  lemma LingersUnownedKept(s: State, a: Action)
    requires Inv(s) && Enabled(s, a) && LingersUnowned(s)
    ensures LingersUnowned(Step(s, a))
  {
    forall fd | fd in Step(s, a).lingering ensures !Owned(Step(s, a), fd) {
      if fd !in s.lingering {
        FailedIsUnowned(s, a.i, fd);
      } else if Owned(Step(s, a), fd) {
        OwnedBefore(s, a, fd);
      }
    }
  }

  ghost predicate InvUnowned(s: State) { Inv(s) && LingersUnowned(s) }

  // ---- theorems ----

  /** Every token of the batch, dispatched or not, is the address of an entry that the registration map, the
      pending-release list or a deregistration in progress still owns, unless it came by a descriptor that the
      kernel had refused to forget. */
  lemma TokensNeverDangle(s: State, n: nat)
    requires Reachable(s) && s.poller.Dispatch? && n < |s.batch|
    ensures s.batch[n].stale || Kept(s, s.batch[n].a)
  {
    ReachableInv(s);
  }

  ghost predicate DispatchInOrder(s: State) {
    match s.poller
    case Dispatch(n) => n <= |s.batch| && s.polled == s.handled + s.batch[n..]
    case _ => s.polled == s.handled
  }

  lemma DispatchKept(s: State, a: Action)
    requires Enabled(s, a) && DispatchInOrder(s)
    ensures DispatchInOrder(Step(s, a))
  {
  }

  /** Every token that a poll returns is dispatched, once and in order, before the next release. */
  lemma EveryTokenDispatched(s: State)
    requires Reachable(s)
    ensures s.handled <= s.polled
    ensures !s.poller.Dispatch? ==> s.handled == s.polled
  {
    forall r, r' | DispatchInOrder(r) && Next(r, r') ensures DispatchInOrder(r') {
      var a :| Enabled(r, a) && r' == Step(r, a);
      DispatchKept(r, a);
    }
    R.Always(Initial, Next, DispatchInOrder, s);
  }

  /** A descriptor that the kernel knows names an entry that is registered under it, or on its way out but not yet
      past the kernel, if and only if it does not linger: the kernel has not refused to forget it. */
  lemma LingersExactly(s: State, fd: Fd)
    requires Reachable(s) && fd in s.kernel
    ensures Owned(s, fd) <==> fd !in s.lingering
  {
    ReachableInv(s);
    forall r, r' | InvUnowned(r) && Next(r, r') ensures InvUnowned(r') {
      var a :| Enabled(r, a) && r' == Step(r, a);
      InvKept(r, a);
      LingersUnownedKept(r, a);
    }
    R.Always(Initial, Next, InvUnowned, s);
    if fd !in s.lingering {
      assert Known(s, s.kernel[fd]);
      forall i | 0 <= i < |s.ops| ensures s.ops[i] != KernelAdd(s.kernel[fd]) && s.ops[i] != Rollback(s.kernel[fd]) {
        assert OpFits(s, i);
      }
    }
  }

  /** The poller goes through a release exactly if one was flagged since the last time it looked, and then drops every
      entry parked so far. */
  lemma ReleaseExact(s: State)
    ensures s.poller.Swap? ==> (Step(s, PollerStep).poller.Release? <==> s.needs) && !Step(s, PollerStep).needs
    ensures s.poller.Release? ==> Step(s, PollerStep).pending == {} && Step(s, PollerStep).poller.Poll?
  {
  }

  /** An entry parked for release is known to the kernel by lingering descriptors only; entries are released with no
      batch in hand; and no entry is parked for good: a release is flagged, about to be flagged, or under way. */
  lemma ReleaseIsSafeAndComes(s: State)
    requires Reachable(s)
    ensures forall x :: x in s.pending ==> !Known(s, x)
    ensures s.poller.Release? ==> s.batch == []
    ensures s.pending != {} ==> s.needs || s.poller.Release? || Flag in s.ops
  {
    ReachableInv(s);
    forall i | 0 <= i < |s.ops| && s.ops[i].KernelDel? ensures s.ops[i].a !in s.pending {
      assert OpFits(s, i);
    }
  }

  // ---- one call, left alone ----

  /** A deregistration left alone takes the entry out of the map, its descriptor out of the kernel, and parks it with
      its release flagged; of an entry that is not in the map it does nothing. */
  lemma DeregisterAlone(s: State, i: nat)
    requires i < |s.ops| && s.ops[i].Remove?
    ensures var x := s.ops[i].a; var s1 := OpMove(s, i);
      if x in s.regs then
        OpMove(OpMove(OpMove(OpMove(s1, i), i), i), i)
          == s.(regs := s.regs - {x}, kernel := s.kernel - {FdOf(s, x)}, lingering := s.lingering - {FdOf(s, x)},
                pending := s.pending + {x}, needs := true, ops := s.ops[i := Finished])
      else s1 == s.(ops := s.ops[i := Finished])
  {
    var x := s.ops[i].a;
    assert x !in s.regs ==> s.regs - {x} == s.regs;
  }

  /** What registers and then deregisters leaves map and kernel as they were. */
  lemma RegisterThenDeregister(s: State, x: Addr, fd: Fd)
    requires Reachable(s) && Unused(s, x) && fd !in s.kernel
    ensures var s1 := Step(s, Register(x, fd)); var s2 := Step(s1, Registered(|s.ops|));
      && s2.kernel == s.kernel[fd := x] && x in s2.regs && x in s2.held
      && var s3 := OpMove(Step(s2, Deregister(x)), |s.ops| + 1); var s4 := OpMove(s3, |s.ops| + 1);
      && s4.regs == s.regs && s4.kernel == s.kernel && s4.lingering == s.lingering
  {
    ReachableInv(s);
    var s1 := Step(s, Register(x, fd));
    var s2 := Step(s1, Registered(|s.ops|));
    assert s2.regs - {x} == s.regs;
    assert s.kernel[fd := x] - {fd} == s.kernel;
    assert s.lingering - {fd} == s.lingering;
  }

  // ---- a token that dangles ----

  lemma Go(s: State, a: Action, s': State)
    requires Reachable(s) && Enabled(s, a) && Step(s, a) == s'
    ensures Reachable(s')
  {
    R.Extend(Initial, Next, s, s');
  }

  /** The entry at 8 for descriptor 3, on its way out, with the descriptor lingering. */
  function Gone(pending: set<Addr>, needs: bool, held: set<Addr>, batch: seq<Token>, poller: Poller, o: Op): State {
    State({}, pending, needs, map[8 := 3], map[3 := 8], {3}, held, batch, poller, [Finished, o], batch, [])
  }

  lemma RegistersAndLeaves()
    ensures Reachable(
      State({}, {}, false, map[8 := 3], map[3 := 8], {}, {8}, [], Swap, [Finished, KernelDel(8)], [], []))
  {
    R.Begin(Initial, Next, Init());
    var s1 := State({8}, {}, false, map[8 := 3], map[], {}, {}, [], Swap, [KernelAdd(8)], [], []);
    Go(Init(), Register(8, 3), s1);
    var s2 := State({8}, {}, false, map[8 := 3], map[3 := 8], {}, {8}, [], Swap, [Finished], [], []);
    Go(s1, Registered(0), s2);
    var s3 := s2.(ops := [Finished, Remove(8)]);
    Go(s2, Deregister(8), s3);
    assert {8} - {8} == {};
    Go(s3, OpStep(1), s3.(regs := {}, ops := [Finished, KernelDel(8)]));
  }

  lemma Fails()
    ensures Reachable(Gone({}, false, {8}, [], Swap, Park(8)))
  {
    RegistersAndLeaves();
    var s0 := State({}, {}, false, map[8 := 3], map[3 := 8], {}, {8}, [], Swap, [Finished, KernelDel(8)], [], []);
    assert (set fd | fd in s0.kernel && s0.kernel[fd] == 8) == {3};
    Go(s0, DelFails(1), Gone({}, false, {8}, [], Swap, Shutdown(8)));
    Go(Gone({}, false, {8}, [], Swap, Shutdown(8)), OpStep(1), Gone({}, false, {8}, [], Swap, Park(8)));
  }

  lemma Parks()
    ensures Reachable(Gone({8}, true, {}, [], Swap, Finished))
  {
    Fails();
    Go(Gone({}, false, {8}, [], Swap, Park(8)), OpStep(1), Gone({8}, false, {8}, [], Swap, Flag));
    Go(Gone({8}, false, {8}, [], Swap, Flag), OpStep(1), Gone({8}, true, {8}, [], Swap, Finished));
    assert {8} - {8} == {};
    Go(Gone({8}, true, {8}, [], Swap, Finished), Drop(8), Gone({8}, true, {}, [], Swap, Finished));
  }

  function Dangling(): State { Gone({}, false, {}, [Token(8, true)], Dispatch(0), Finished) }

  /** A failed deregistration of a descriptor that the kernel still has: the entry is released, and then its token
      comes in. */
  lemma FailedDeregistrationDangles()
    ensures Reachable(Dangling()) && Dangling().batch[0].a == 8 && !Kept(Dangling(), 8) && Unused(Dangling(), 8)
  {
    Parks();
    Go(Gone({8}, true, {}, [], Swap, Finished), PollerStep, Gone({8}, false, {}, [], Release, Finished));
    Go(Gone({8}, false, {}, [], Release, Finished), PollerStep, Gone({}, false, {}, [], Poll, Finished));
    var s := Gone({}, false, {}, [], Poll, Finished);
    assert Batch(s, [3]) == [Token(8, true)];
    Go(s, Polled([3]), Dangling());
  }
}
