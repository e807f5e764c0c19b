/**
 The unit of work (app/infrastructure/persistence/sql_unit_of_work.py): nested
 `async with` blocks share one session, and every raising block rolls it back.
 */
module UnitOfWork {
  import opened Wrappers

  /** durable: committed state. session: the open session's view of it, if there is one. */
  datatype View<S> = View(durable: S, session: Option<S>, depth: int, sessionsOpened: nat, sessionsClosed: nat)

  function Entered<S>(v: View<S>): View<S> {
    if v.depth == 0 then v.(session := Some(v.durable), sessionsOpened := v.sessionsOpened + 1, depth := 1)
    else v.(depth := v.depth + 1)
  }

  /** Work in a session; without one the repositories raise and nothing happens. */
  function Staged<S>(v: View<S>, s: S): View<S> {
    if v.session.Some? then v.(session := Some(s)) else v
  }

  function Committed<S>(v: View<S>): View<S> {
    if v.session.Some? then v.(durable := v.session.value) else v
  }

  function RolledBack<S>(v: View<S>): View<S> {
    if v.session.Some? then v.(session := Some(v.durable)) else v
  }

  function Exited<S>(v: View<S>, raised: bool): View<S> {
    var w := if raised then RolledBack(v.(depth := v.depth - 1)) else v.(depth := v.depth - 1);
    if w.depth == 0 && w.session.Some? then w.(session := None, sessionsClosed := w.sessionsClosed + 1) else w
  }

  class SqlUnitOfWork<S> {
    var durable: S
    var session: Option<S>
    var depth: int
    var sessionsOpened: nat
    var sessionsClosed: nat

    ghost function State(): View<S>
      reads this
    {
      View(durable, session, depth, sessionsOpened, sessionsClosed)
    }

    constructor (initial: S)
      ensures State() == View(initial, None, 0, 0, 0)
    {
      durable, session, depth, sessionsOpened, sessionsClosed := initial, None, 0, 0, 0;
    }

    method Enter()
      modifies this
      ensures State() == Entered(old(State()))
    {
      if depth == 0 {
        session := Some(durable);
        sessionsOpened := sessionsOpened + 1;
      }
      depth := depth + 1;
    }

    /** Replaces the session's view of the data by s. */
    method Stage(s: S) returns (ok: bool)
      modifies this
      ensures State() == Staged(old(State()), s)
      ensures ok == old(session).Some?
    {
      ok := session.Some?;
      if ok {
        session := Some(s);
      }
    }

    method Commit() returns (ok: bool)
      modifies this
      ensures State() == Committed(old(State()))
      ensures ok == old(session).Some?
    {
      ok := session.Some?;
      if ok {
        durable := session.value;
      }
    }

    method Rollback() returns (ok: bool)
      modifies this
      ensures State() == RolledBack(old(State()))
      ensures ok == old(session).Some?
    {
      ok := session.Some?;
      if ok {
        session := Some(durable);
      }
    }

    method Exit(raised: bool)
      modifies this
      ensures State() == Exited(old(State()), raised)
    {
      depth := depth - 1;
      if raised {
        var ok := Rollback();
      }
      if depth == 0 && session.Some? {
        sessionsClosed := sessionsClosed + 1;
        session := None;
      }
    }
  }

  // ---------- Scripts ----------

  datatype Op<W> = Enter | Write(w: W) | Commit | Rollback | Exit(raised: bool)

  /** One operation on a store that is the log of its writes. */
  function Exec<W>(v: View<seq<W>>, op: Op<W>): View<seq<W>> {
    match op
    case Enter => Entered(v)
    case Write(w) => if v.session.Some? then Staged(v, v.session.value + [w]) else v
    case Commit => Committed(v)
    case Rollback => RolledBack(v)
    case Exit(raised) => Exited(v, raised)
  }

  function Play<W>(ops: seq<Op<W>>): View<seq<W>> {
    if ops == [] then View([], None, 0, 0, 0)
    else Exec(Play(ops[..|ops| - 1]), ops[|ops| - 1])
  }

  function Depth<W>(ops: seq<Op<W>>): int {
    if ops == [] then 0
    else
      var d := Depth(ops[..|ops| - 1]);
      match ops[|ops| - 1]
      case Enter => d + 1
      case Exit(_) => d - 1
      case _ => d
  }

  /** Everything but an entry happens inside a block. Blocks may still be open at the end. */
  predicate WellNested<W>(ops: seq<Op<W>>) {
    ops == [] || (
      && WellNested(ops[..|ops| - 1])
      && (ops[|ops| - 1].Enter? || Depth(ops[..|ops| - 1]) > 0))
  }

  function Outermost<W>(ops: seq<Op<W>>): nat {
    if ops == [] then 0
    else Outermost(ops[..|ops| - 1]) + (if ops[|ops| - 1].Enter? && Depth(ops[..|ops| - 1]) == 0 then 1 else 0)
  }

  /** There is a session iff some block is open, and one session per outermost block. */
  lemma {:induction false} SessionIffInside<W>(ops: seq<Op<W>>)
    requires WellNested(ops)
    ensures var v := Play(ops);
      && v.depth == Depth(ops) >= 0
      && (v.session.Some? <==> v.depth > 0)
      && v.sessionsOpened == Outermost(ops)
      && v.sessionsOpened == v.sessionsClosed + (if v.depth > 0 then 1 else 0)
  {
    if ops != [] {
      SessionIffInside(ops[..|ops| - 1]);
    }
  }

  // ---------- What becomes durable ----------

  /** The operation at m throws uncommitted writes away. */
  predicate Discards<W>(ops: seq<Op<W>>, m: nat)
    requires m < |ops|
  {
    match ops[m]
    case Rollback => true
    case Exit(raised) => raised || Depth(ops[..m]) == 1
    case _ => false
  }

  ghost predicate Unbroken<W>(ops: seq<Op<W>>, i: nat, end: nat)
    requires end <= |ops|
  {
    && i < end && ops[i].Write?
    && forall m :: i < m < end ==> !Discards(ops, m)
  }

  /** The write at i reaches a commit with nothing in between that throws it away. */
  ghost predicate Survives<W>(ops: seq<Op<W>>, i: nat) {
    exists c :: i < c < |ops| && ops[c].Commit? && Unbroken(ops, i, c)
  }

  function Picked<W>(ops: seq<Op<W>>, keep: set<nat>): seq<W> {
    if ops == [] then []
    else
      var n := |ops| - 1;
      Picked(ops[..n], keep) + (if n in keep && ops[n].Write? then [ops[n].w] else [])
  }

  ghost function Survivors<W>(ops: seq<Op<W>>): set<nat> {
    set i: nat | i < |ops| && Survives(ops, i)
  }

  ghost function Waiting<W>(ops: seq<Op<W>>): set<nat> {
    set i: nat | i < |ops| && Unbroken(ops, i, |ops|)
  }

  lemma PickedAgrees<W>(ops: seq<Op<W>>, a: set<nat>, b: set<nat>)
    requires forall i: nat :: i < |ops| ==> (i in a <==> i in b)
    ensures Picked(ops, a) == Picked(ops, b)
  {
    if ops != [] {
      PickedAgrees(ops[..|ops| - 1], a, b);
    }
  }

  lemma UnbrokenExtends<W>(ops: seq<Op<W>>, op: Op<W>, i: nat, end: nat)
    requires end <= |ops|
    ensures Unbroken(ops + [op], i, end) <==> Unbroken(ops, i, end)
  {
    var more := ops + [op];
    forall m: nat | m < |ops|
      ensures Discards(more, m) <==> Discards(ops, m)
    {
      assert more[..m] == ops[..m];
    }
  }

  lemma SurvivorsStep<W>(ops: seq<Op<W>>, op: Op<W>)
    ensures Survivors(ops + [op]) == Survivors(ops) + (if op.Commit? then Waiting(ops) else {})
  {
    var more := ops + [op];
    forall i: nat | i < |more|
      ensures Survives(more, i) <==> Survives(ops, i) || (op.Commit? && i < |ops| && Unbroken(ops, i, |ops|))
    {
      if Survives(more, i) {
        var c :| i < c < |more| && more[c].Commit? && Unbroken(more, i, c);
        UnbrokenExtends(ops, op, i, c);
      }
      if Survives(ops, i) {
        var c :| i < c < |ops| && ops[c].Commit? && Unbroken(ops, i, c);
        UnbrokenExtends(ops, op, i, c);
        assert more[c].Commit?;
      }
      if op.Commit? && i < |ops| && Unbroken(ops, i, |ops|) {
        UnbrokenExtends(ops, op, i, |ops|);
        assert more[|ops|].Commit?;
      }
    }
  }

  lemma WaitingStep<W>(ops: seq<Op<W>>, op: Op<W>)
    ensures Waiting(ops + [op]) ==
      (if op.Write? then {|ops|} else {}) + (if Discards(ops + [op], |ops|) then {} else Waiting(ops))
  {
    var more := ops + [op];
    forall i: nat | i < |more|
      ensures Unbroken(more, i, |more|) <==>
        (i == |ops| && op.Write?) || (i < |ops| && Unbroken(ops, i, |ops|) && !Discards(more, |ops|))
    {
      UnbrokenExtends(ops, op, i, |ops|);
    }
  }

  /** Between blocks nothing waits for a commit. */
  lemma NothingWaitsOutside<W>(ops: seq<Op<W>>)
    requires WellNested(ops) && Depth(ops) == 0
    ensures Waiting(ops) == {}
  {
    if ops != [] {
      var front, op := ops[..|ops| - 1], ops[|ops| - 1];
      assert front + [op] == ops;
      SessionIffInside(front);
      WaitingStep(front, op);
    }
  }

  lemma PickedStep<W>(ops: seq<Op<W>>, op: Op<W>, keep: set<nat>)
    ensures Picked(ops + [op], keep) == Picked(ops, keep) + (if |ops| in keep && op.Write? then [op.w] else [])
  {
    assert (ops + [op])[..|ops|] == ops;
  }

  ghost predicate HoldsWrites<W>(ops: seq<Op<W>>, v: View<seq<W>>) {
    && v.durable == Picked(ops, Survivors(ops))
    && (v.session.Some? ==> v.session.value == Picked(ops, Survivors(ops) + Waiting(ops)))
  }

  /**
   However deep the blocks nest, the durable writes are, in order, those that reach a commit
   before a rollback, a raising exit or the end of the outermost block.
   */
  lemma {:induction false} DurableAreTheSurvivors<W>(ops: seq<Op<W>>)
    requires WellNested(ops)
    ensures HoldsWrites(ops, Play(ops))
  {
    if ops != [] {
      var front, op := ops[..|ops| - 1], ops[|ops| - 1];
      DurableAreTheSurvivors(front);
      SessionIffInside(front);
      assert front + [op] == ops;
      OneOp(front, op, Play(front));
    }
  }

  lemma OneOp<W>(front: seq<Op<W>>, op: Op<W>, v: View<seq<W>>)
    requires WellNested(front + [op]) && WellNested(front) && HoldsWrites(front, v)
    requires v.depth == Depth(front) && (v.session.Some? <==> v.depth > 0)
    requires op.Enter? || Depth(front) > 0
    ensures HoldsWrites(front + [op], Exec(v, op))
  {
    hide Survives, Unbroken;
    var ops := front + [op];
    assert ops[..|front|] == front;
    SurvivorsStep(front, op);
    WaitingStep(front, op);
    PickedStep(front, op, Survivors(ops));
    PickedStep(front, op, Survivors(ops) + Waiting(ops));
    PickedAgrees(front, Survivors(ops), if op.Commit? then Survivors(front) + Waiting(front) else Survivors(front));
    if v.depth == 0 {
      NothingWaitsOutside(front);
    }
    PickedAgrees(front, Survivors(ops) + Waiting(ops),
                 if Discards(ops, |front|) then Survivors(front) else Survivors(front) + Waiting(front));
  }

  // ---------- Nesting is transparent ----------

  /** The script with its inner blocks taken apart: only the outermost entries and exits stay. */
  function FlatOp<W>(depth: int, op: Op<W>): seq<Op<W>> {
    match op
    case Enter => if depth == 0 then [op] else []
    case Exit(raised) => if depth == 1 then [op] else if raised then [Rollback] else []
    case _ => [op]
  }

  function Flattened<W>(ops: seq<Op<W>>): seq<Op<W>> {
    if ops == [] then []
    else Flattened(ops[..|ops| - 1]) + FlatOp(Depth(ops[..|ops| - 1]), ops[|ops| - 1])
  }

  function Shallow<W>(v: View<seq<W>>): View<seq<W>> {
    if v.depth > 1 then v.(depth := 1) else v
  }

  lemma PlayAppend<W>(ops: seq<Op<W>>, op: Op<W>)
    ensures Play(ops + [op]) == Exec(Play(ops), op)
  {
    assert (ops + [op])[..|ops|] == ops;
  }

  /** One operation seen from the outermost block. */
  lemma FlatStep<W>(v: View<seq<W>>, op: Op<W>)
    requires v.depth >= 0 && (v.session.Some? <==> v.depth > 0) && (op.Enter? || v.depth > 0)
    ensures var flat := FlatOp(v.depth, op);
      |flat| <= 1 && Shallow(Exec(v, op)) == if flat == [] then Shallow(v) else Exec(Shallow(v), flat[0])
  {
  }

  /** A nested script and its flat form end with the same durable writes, the same session and as many sessions used. */
  lemma {:induction false} NestingIsTransparent<W>(ops: seq<Op<W>>)
    requires WellNested(ops)
    ensures Play(Flattened(ops)) == Shallow(Play(ops))
  {
    if ops != [] {
      hide Exec, Shallow, FlatOp;
      var front, op := ops[..|ops| - 1], ops[|ops| - 1];
      NestingIsTransparent(front);
      SessionIffInside(front);
      FlatStep(Play(front), op);
      var flat := FlatOp(Depth(front), op);
      if flat == [] {
        assert Flattened(front) + [] == Flattened(front);
      } else {
        PlayAppend(Flattened(front), flat[0]);
        assert flat == [flat[0]];
      }
    }
  }
}
