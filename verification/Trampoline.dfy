/** The generator trampoline of src/handles.rs and src/events.rs: handles step generators one yield at a
    time, and a chain of one-shot suspensions stands in for the call stack. */
module Trampoline {
  import R = Runs

  type Value = int
  const NONE: Value := 0

  /** What a generator is resumed with, and what it ends with: a value or an exception. */
  datatype Outcome = Ok(v: Value) | Err(e: Value)

  /** The local variables of a generator body. */
  type Env = seq<Value>

  /** A generator body: what it does up to its next yield, and how it goes on from there. */
  datatype Gen =
    | Finish(result: Env -> Outcome)                            // return or raise
    | Branch(test: Env -> bool, yes: Gen, no: Gen)
    | Bare(bind: (Env, Value) -> Env, rest: Gen)                // x = yield
    | Call(child: Gen, args: Env -> Env,                        // x = yield child(...)
           bind: (Env, Value) -> Env, rest: Gen,                // on a result
           catch: (Env, Value) -> Env, handler: Gen)            // on an exception

  // ---- direct nested evaluation ----

  /** Everything generators are resumed with, in order, and the outcome. */
  datatype Trace = Trace(inputs: seq<Outcome>, out: Outcome)

  /** `last` is the value of the handle that runs the generator: what a bare yield evaluates to. */
  ghost function Eval(g: Gen, env: Env, last: Value): Trace
    decreases g
  {
    match g
    case Finish(result) => Trace([], result(env))
    case Branch(test, yes, no) => if test(env) then Eval(yes, env, last) else Eval(no, env, last)
    case Bare(bind, rest) => Prefix([Ok(last)], Eval(rest, bind(env, last), last))
    case Call(child, args, bind, rest, catch, handler) =>
      var inner := Prefix([Ok(NONE)], Eval(child, args(env), NONE));
      Prefix(inner.inputs + [inner.out],
        if inner.out.Ok? then Eval(rest, bind(env, inner.out.v), inner.out.v)
        else Eval(handler, catch(env, inner.out.e), NONE))
  }

  ghost function Prefix(inputs: seq<Outcome>, t: Trace): Trace { Trace(inputs + t.inputs, t.out) }

  // ---- generator objects ----

  /** A generator object; `g` is the node it will continue from. */
  datatype Coro = Fresh(g: Gen, env: Env) | AtYield(g: Gen, env: Env) | Ended

  datatype Signal = YieldNone | YieldGen(child: Coro) | Ends(out: Outcome)

  /** Local computation up to the next yield or the end. */
  ghost function Continue(g: Gen, env: Env): (Coro, Signal)
    decreases g
  {
    match g
    case Finish(result) => (Ended, Ends(result(env)))
    case Branch(test, yes, no) => if test(env) then Continue(yes, env) else Continue(no, env)
    case Bare(_, _) => (AtYield(g, env), YieldNone)
    case Call(child, args, _, _, _, _) => (AtYield(g, env), YieldGen(Coro.Fresh(child, args(env))))
  }

  /** `send` or `throw`. */
  ghost function Advance(c: Coro, input: Outcome): (Coro, Signal) {
    match c
    case Fresh(g, env) => Continue(g, env)
    case Ended => (Ended, Ends(input))
    case AtYield(g, env) =>
      match g {
        case Bare(bind, rest) => if input.Ok? then Continue(rest, bind(env, input.v)) else (Ended, Ends(input))
        case Call(_, _, bind, rest, catch, handler) =>
          if input.Ok? then Continue(rest, bind(env, input.v)) else Continue(handler, catch(env, input.e))
        case _ => (Ended, Ends(input))
      }
  }

  // ---- handles and suspensions ----

  datatype Parent = Root | Under(index: nat)

  /** `PyGenSuspension`: the generator to resume and where it came from; one shot. */
  datatype Suspension = Suspension(target: nat, parent: Parent, consumed: bool)

  /** `PyGenHandle` (input `Ok`) or `PyGenThrower` (input `Err`). */
  datatype Handle = Handle(coro: nat, parent: Parent, input: Outcome)

  /** Everything reachable from one spawned generator. */
  datatype Strand = Strand(
    gens: seq<Coro>, susps: seq<Suspension>, pending: seq<Handle>, inputs: seq<Outcome>, result: seq<Outcome>)

  ghost function Spawn(g: Gen, env: Env): Strand {
    Strand([Coro.Fresh(g, env)], [], [Handle(0, Root, Ok(NONE))], [], [])
  }

  /** `PyGenHandle::call` and `PyGenThrower::run`, for the handle at position `i` of the queue. */
  ghost function RunHandle(s: Strand, i: nat): Strand
    requires i < |s.pending| && s.pending[i].coro < |s.gens|
  {
    var h := s.pending[i];
    var (coro, signal) := Advance(s.gens[h.coro], h.input);
    var s' := s.(gens := s.gens[h.coro := coro],
                 pending := s.pending[..i] + s.pending[i + 1..],
                 inputs := s.inputs + [h.input]);
    match signal
    case YieldNone => Push(s', Handle(h.coro, h.parent, if h.input.Ok? then h.input else Ok(NONE)))
    case YieldGen(child) =>
      Push(s'.(gens := s'.gens + [child], susps := s'.susps + [Suspension(h.coro, h.parent, false)]),
           Handle(|s.gens|, Under(|s.susps|), Ok(NONE)))
    case Ends(out) => Resume(s', h.parent, out)
  }

  ghost function Push(s: Strand, h: Handle): Strand { s.(pending := s.pending + [h]) }

  /** `resume` or `error`: only the first gets through. */
  ghost function Resume(s: Strand, p: Parent, out: Outcome): Strand {
    match p
    case Root => s.(result := s.result + [out])
    case Under(i) =>
      if i < |s.susps| && !s.susps[i].consumed then
        Push(s.(susps := s.susps[i := s.susps[i].(consumed := true)]),
             Handle(s.susps[i].target, s.susps[i].parent, out))
      else s
  }

  /** A suspension is one shot: once it has been resumed or thrown into, a second outcome changes nothing. */
  lemma ResumedOnce(s: Strand, i: nat, first: Outcome, second: Outcome)
    requires i < |s.susps|
    ensures var s' := Resume(s, Under(i), first); Resume(s', Under(i), second) == s'
    ensures |Resume(s, Under(i), first).pending| == |s.pending| + if s.susps[i].consumed then 0 else 1
  {
  }

  // ---- what a chain of suspensions still has to do ----

  /** The suspensions from `p` up are live, each waiting in a generator older than the one below. */
  predicate Chain(s: Strand, p: Parent, bound: nat)
    decreases match p case Root => 0 case Under(i) => i + 1
  {
    match p
    case Root => true
    case Under(i) =>
      && i < |s.susps| && !s.susps[i].consumed
      && s.susps[i].target < bound && s.susps[i].target < |s.gens|
      && s.gens[s.susps[i].target].AtYield? && s.gens[s.susps[i].target].g.Call?
      && (s.susps[i].parent.Under? ==> s.susps[i].parent.index < i)
      && Chain(s, s.susps[i].parent, s.susps[i].target)
  }

  /** What follows once a generator object is resumed with `input`. */
  ghost function Rest(c: Coro, input: Outcome): Trace {
    match c
    case Fresh(g, env) => Eval(g, env, NONE)
    case Ended => Trace([], input)
    case AtYield(g, env) =>
      match g {
        case Bare(bind, rest) => if input.Ok? then Eval(rest, bind(env, input.v), input.v) else Trace([], input)
        case Call(_, _, bind, rest, catch, handler) =>
          if input.Ok? then Eval(rest, bind(env, input.v), input.v) else Eval(handler, catch(env, input.e), NONE)
        case _ => Trace([], input)
      }
  }

  /** What follows once `out` is delivered to the suspension `p`. */
  ghost function Deliver(s: Strand, p: Parent, bound: nat, out: Outcome): Trace
    requires Chain(s, p, bound)
    decreases match p case Root => 0 case Under(i) => i + 1
  {
    match p
    case Root => Trace([], out)
    case Under(i) =>
      var mine := Prefix([out], Rest(s.gens[s.susps[i].target], out));
      Prefix(mine.inputs, Deliver(s, s.susps[i].parent, s.susps[i].target, mine.out))
  }

  /** What follows once the handle is run. */
  ghost function Future(s: Strand, h: Handle): Trace
    requires h.coro < |s.gens| && Chain(s, h.parent, h.coro)
  {
    var mine := Prefix([h.input], Rest(s.gens[h.coro], h.input));
    Prefix(mine.inputs, Deliver(s, h.parent, h.coro, mine.out))
  }

  // ---- proof ----

  lemma PrefixTwice(a: seq<Outcome>, b: seq<Outcome>, t: Trace)
    ensures Prefix(a, Prefix(b, t)) == Prefix(a + b, t)
  {
    assert a + (b + t.inputs) == (a + b) + t.inputs;
  }

  /** A child, from its first `send` to its end. */
  ghost function Child(c: Coro): Trace { Prefix([Ok(NONE)], Rest(c, Ok(NONE))) }

  /** Resuming a generator with `input` up to its next yield splits what follows. */
  ghost predicate Splits(whole: Trace, c: Coro, signal: Signal, last: Value) {
    match signal
    case Ends(out) => whole == Trace([], out)
    case YieldNone => c.AtYield? && c.g.Bare? && whole == Prefix([Ok(last)], Rest(c, Ok(last)))
    case YieldGen(child) =>
      && c.AtYield? && c.g.Call? && child.Fresh?
      && whole == Prefix(Child(child).inputs + [Child(child).out], Rest(c, Child(child).out))
  }

  lemma {:induction false} ContinueSplits(g: Gen, env: Env, last: Value)
    ensures Splits(Eval(g, env, last), Continue(g, env).0, Continue(g, env).1, last)
    decreases g
  {
    match g
    case Branch(test, yes, no) =>
      if test(env) { ContinueSplits(yes, env, last); } else { ContinueSplits(no, env, last); }
    case _ =>
  }

  function LastOf(input: Outcome): Value { if input.Ok? then input.v else NONE }

  /** Inputs that can reach a generator object. */
  predicate Fits(c: Coro, input: Outcome) {
    && (c.Fresh? ==> input == Ok(NONE))
    && (c.AtYield? && c.g.Bare? ==> input.Ok?)
  }

  lemma AdvanceSplits(c: Coro, input: Outcome)
    requires Fits(c, input)
    ensures Splits(Rest(c, input), Advance(c, input).0, Advance(c, input).1, LastOf(input))
  {
    match c
    case Fresh(g, env) => ContinueSplits(g, env, NONE);
    case Ended =>
    case AtYield(g, env) =>
      match g {
        case Bare(bind, rest) => ContinueSplits(rest, bind(env, input.v), input.v);
        case Call(_, _, bind, rest, catch, handler) =>
          if input.Ok? {
            ContinueSplits(rest, bind(env, input.v), input.v);
          } else {
            ContinueSplits(handler, catch(env, input.e), NONE);
          }
        case _ =>
      }
  }

  /** A chain sees only the generators below its bound and its own suspensions. */
  lemma {:induction false} ChainFrame(s: Strand, s': Strand, p: Parent, bound: nat, out: Outcome)
    requires Chain(s, p, bound) && bound <= |s.gens| && bound <= |s'.gens|
    requires forall g :: 0 <= g < bound ==> s'.gens[g] == s.gens[g]
    requires p.Under? ==> p.index < |s'.susps| && forall i :: 0 <= i <= p.index ==> s'.susps[i] == s.susps[i]
    ensures Chain(s', p, bound) && Deliver(s', p, bound, out) == Deliver(s, p, bound, out)
    decreases match p case Root => 0 case Under(i) => i + 1
  {
    if p.Under? {
      var i := p.index;
      var mine := Prefix([out], Rest(s.gens[s.susps[i].target], out));
      ChainFrame(s, s', s.susps[i].parent, s.susps[i].target, mine.out);
    }
  }

  /** The single pending handle of an unfinished strand. */
  ghost predicate Pending(s: Strand, h: Handle) {
    && s.pending == [h] && s.result == []
    && h.coro < |s.gens| && Chain(s, h.parent, h.coro)
    && Fits(s.gens[h.coro], h.input)
  }

  lemma YieldNoneKept(s: Strand)
    requires |s.pending| == 1 && Pending(s, s.pending[0])
    requires Advance(s.gens[s.pending[0].coro], s.pending[0].input).1.YieldNone?
    ensures var s' := RunHandle(s, 0);
      && |s'.pending| == 1 && Pending(s', s'.pending[0])
      && Future(s, s.pending[0]) == Prefix([s.pending[0].input], Future(s', s'.pending[0]))
  {
    var h, s' := s.pending[0], RunHandle(s, 0);
    var h' := Handle(h.coro, h.parent, Ok(LastOf(h.input)));
    assert s'.pending == [h'];
    AdvanceSplits(s.gens[h.coro], h.input);
    var mine := Prefix([h.input], Rest(s.gens[h.coro], h.input));
    var mine' := Prefix([h'.input], Rest(s'.gens[h.coro], h'.input));
    assert mine == Prefix([h.input], mine');
    ChainFrame(s, s', h.parent, h.coro, mine.out);
    PrefixTwice([h.input], mine'.inputs, Deliver(s', h.parent, h.coro, mine.out));
  }

  lemma YieldGenKept(s: Strand)
    requires |s.pending| == 1 && Pending(s, s.pending[0])
    requires Advance(s.gens[s.pending[0].coro], s.pending[0].input).1.YieldGen?
    ensures var s' := RunHandle(s, 0);
      && |s'.pending| == 1 && Pending(s', s'.pending[0])
      && Future(s, s.pending[0]) == Prefix([s.pending[0].input], Future(s', s'.pending[0]))
  {
    var h, s' := s.pending[0], RunHandle(s, 0);
    var h' := Handle(|s.gens|, Under(|s.susps|), Ok(NONE));
    assert s'.pending == [h'];
    AdvanceSplits(s.gens[h.coro], h.input);
    var c := s'.gens[h.coro];
    var inner := Child(s'.gens[h'.coro]);
    var after := Prefix([inner.out], Rest(c, inner.out));
    var mine := Prefix([h.input], Rest(s.gens[h.coro], h.input));
    ChainFrame(s, s', h.parent, h.coro, mine.out);
    var up := Deliver(s', h.parent, h.coro, mine.out);
    assert mine.out == after.out;
    assert Deliver(s', h'.parent, h'.coro, inner.out) == Prefix(after.inputs, up);
    assert mine.inputs == [h.input] + inner.inputs + after.inputs;
    assert Future(s', h') == Prefix(inner.inputs, Prefix(after.inputs, up));
    PrefixTwice(inner.inputs, after.inputs, up);
    PrefixTwice([h.input], inner.inputs + after.inputs, up);
    assert [h.input] + (inner.inputs + after.inputs) == mine.inputs;
  }

  lemma EndsKept(s: Strand)
    requires |s.pending| == 1 && Pending(s, s.pending[0]) && s.pending[0].parent.Under?
    requires Advance(s.gens[s.pending[0].coro], s.pending[0].input).1.Ends?
    ensures var s' := RunHandle(s, 0);
      && |s'.pending| == 1 && Pending(s', s'.pending[0])
      && Future(s, s.pending[0]) == Prefix([s.pending[0].input], Future(s', s'.pending[0]))
  {
    var h, s' := s.pending[0], RunHandle(s, 0);
    var i := h.parent.index;
    AdvanceSplits(s.gens[h.coro], h.input);
    var out := Advance(s.gens[h.coro], h.input).1.out;
    var h' := Handle(s.susps[i].target, s.susps[i].parent, out);
    assert s'.pending == [h'];
    var mine := Prefix([out], Rest(s.gens[h'.coro], out));
    ChainFrame(s, s', h'.parent, h'.coro, mine.out);
  }

  /** A strand of the generator whose direct evaluation is `all`: what it was resumed with so far, followed
      by what its pending handle leads to, is the direct evaluation. */
  ghost predicate Faithful(s: Strand, all: Trace) {
    if s.result == [] then
      |s.pending| == 1 && Pending(s, s.pending[0]) && Prefix(s.inputs, Future(s, s.pending[0])) == all
    else
      s.pending == [] && s.result == [all.out] && s.inputs == all.inputs
  }

  lemma FaithfulKept(s: Strand, all: Trace)
    requires Faithful(s, all) && |s.pending| > 0
    ensures Faithful(RunHandle(s, 0), all)
  {
    var h, s' := s.pending[0], RunHandle(s, 0);
    var signal := Advance(s.gens[h.coro], h.input).1;
    if signal.Ends? && h.parent.Root? {
      AdvanceSplits(s.gens[h.coro], h.input);
    } else {
      match signal {
        case YieldNone => YieldNoneKept(s);
        case YieldGen(_) => YieldGenKept(s);
        case Ends(_) => EndsKept(s);
      }
      PrefixTwice(s.inputs, [h.input], Future(s', s'.pending[0]));
    }
  }

  // ---- many strands, in any interleaving ----

  datatype Program = Program(g: Gen, env: Env)

  datatype System = System(programs: seq<Program>, strands: seq<Strand>)

  /** Direct nested evaluation of a spawned generator. */
  ghost function Direct(p: Program): Trace { Prefix([Ok(NONE)], Eval(p.g, p.env, NONE)) }

  ghost predicate Initial(s: System) {
    |s.strands| == |s.programs|
    && forall r :: 0 <= r < |s.strands| ==> s.strands[r] == Spawn(s.programs[r].g, s.programs[r].env)
  }

  /** Some worker runs some pending handle of some strand. */
  ghost predicate Runs(s: System, s': System, r: nat, i: nat) {
    && r < |s.strands| && i < |s.strands[r].pending| && s.strands[r].pending[i].coro < |s.strands[r].gens|
    && s' == s.(strands := s.strands[r := RunHandle(s.strands[r], i)])
  }

  ghost predicate Next(s: System, s': System) { exists r: nat, i: nat :: Runs(s, s', r, i) }

  ghost predicate Reachable(s: System) { R.Reachable(Initial, Next, s) }

  ghost predicate AllFaithful(s: System) {
    |s.strands| == |s.programs|
    && forall r :: 0 <= r < |s.strands| ==> Faithful(s.strands[r], Direct(s.programs[r]))
  }

  lemma AllFaithfulKept(s: System, s': System, r: nat, i: nat)
    requires AllFaithful(s) && Runs(s, s', r, i)
    ensures AllFaithful(s')
  {
    assert Faithful(s.strands[r], Direct(s.programs[r]));
    FaithfulKept(s.strands[r], Direct(s.programs[r]));
  }

  lemma ReachableFaithful(s: System)
    requires Reachable(s)
    ensures AllFaithful(s)
  {
    forall q | Initial(q) ensures AllFaithful(q) {
      forall r | 0 <= r < |q.strands| ensures Faithful(q.strands[r], Direct(q.programs[r])) {
        assert q.strands[r].inputs == [];
      }
    }
    forall q, q' | AllFaithful(q) && Next(q, q') ensures AllFaithful(q') {
      var r: nat, i: nat :| Runs(q, q', r, i);
      AllFaithfulKept(q, q', r, i);
    }
    R.Always(Initial, Next, AllFaithful, s);
  }

  /** Whatever the interleaving, every generator is resumed with the values and exceptions of direct nested
      evaluation, in that order; a finished strand has its result or exception; an unfinished one has
      exactly one pending handle and is on its way. */
  lemma TrampolinePreservesMeaning(s: System, r: nat)
    requires Reachable(s) && r < |s.strands|
    ensures r < |s.programs| && |s.strands[r].pending| <= 1
    ensures var strand, direct := s.strands[r], Direct(s.programs[r]);
      && strand.inputs <= direct.inputs
      && (strand.result != [] <==> strand.pending == [])
      && (strand.result != [] <==> strand.inputs == direct.inputs)
      && (strand.result != [] ==> strand.result == [direct.out])
  {
    ReachableFaithful(s);
    assert Faithful(s.strands[r], Direct(s.programs[r]));
  }
}
