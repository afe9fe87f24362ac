/**
 * The target descriptors (numba_dppy/descriptor.py): which typing and
 * target context a compilation sees.
 *
 * `_NestedContext` holds an override pair that a `with nested(...)` block
 * installs and restores on the way out; `DPPYCpuTarget` answers with the
 * override when one is installed and with its lazily built top-level
 * contexts otherwise; `DPPYTarget` always answers with its top-level ones.
 */
module Descriptor {
  import opened Wrappers

  /** Typing contexts: numba's `typing.Context()`, `DPPYTypingContext()`, or one a caller supplies. */
  datatype TypingCtx = NumbaTyping | DppyTyping | SuppliedTyping(id: nat)

  /** Target contexts: `DPPYCpuTargetContext(t)`, `DPPYTargetContext(t)`, or one a caller supplies. */
  datatype TargetCtx =
    | DppyCpuTargetCtx(typing: TypingCtx)
    | DppyTargetCtx(typing: TypingCtx)
    | SuppliedTarget(id: nat)

  /** The pair of override slots; `None` means no override. */
  datatype Slots = Slots(typing: Option<TypingCtx>, target: Option<TargetCtx>)

  /** The override when there is one, the top-level value otherwise. */
  function Select<T>(override: Option<T>, toplevel: T): (r: T)
    ensures override.Some? ==> r == override.value
    ensures override.None? ==> r == toplevel
  {
    override.GetOr(toplevel)
  }

  // ---------------------------------------------------------------------
  // _NestedContext
  // ---------------------------------------------------------------------

  /** `_NestedContext`: the two override slots, both `None` initially. */
  class NestedContext {
    var typing: Option<TypingCtx>
    var target: Option<TargetCtx>

    /** The pair `(_typing_context, _target_context)`. */
    function Current(): Slots
      reads this
    {
      Slots(typing, target)
    }

    constructor ()
      ensures Current() == Slots(None, None)
    {
      typing := None;
      target := None;
    }

    /**
     * Entering `nested(typing_context, target_context)`: the old pair is
     * saved (the generator's local `old_nested`) and the new pair installed.
     */
    method Enter(t: Option<TypingCtx>, g: Option<TargetCtx>) returns (saved: Slots)
      modifies this
      ensures saved == old(Current())
      ensures Current() == Slots(t, g)
    {
      saved := Current();
      typing := t;
      target := g;
    }

    /**
     * Leaving `nested(...)`, by normal completion or by an exception: the
     * `finally` clause puts the saved pair back. It does not depend on how
     * the block ended.
     */
    method Exit(saved: Slots)
      modifies this
      ensures Current() == saved
    {
      typing, target := saved.typing, saved.target;
    }
  }

  /**
   * A `with nested(t, g):` block: the pair it installs, the blocks nested
   * directly inside it, in order, and whether its body ends by raising.
   */
  datatype Scope = Scope(slots: Slots, body: seq<Scope>, fails: bool)

  /** Runs a `with` block on `n`: enter, run the inner blocks, leave. */
  method WithNested(n: NestedContext, s: Scope)
    modifies n
    ensures n.Current() == old(n.Current())
    decreases s, 1
  {
    var saved := n.Enter(s.slots.typing, s.slots.target);
    WithNestedAll(n, s.body, s.slots);
    n.Exit(saved);
  }

  /** Runs the blocks `ss` one after the other inside a block that installed `outer`. */
  method WithNestedAll(n: NestedContext, ss: seq<Scope>, outer: Slots)
    requires n.Current() == outer
    modifies n
    ensures n.Current() == outer
    decreases ss, 0
  {
    if ss != [] {
      WithNested(n, ss[0]);
      WithNestedAll(n, ss[1..], outer);
    }
  }

  // ---------------------------------------------------------------------
  // The same blocks as a transition system
  // ---------------------------------------------------------------------

  /** What a `with` statement does to the slots: enter a block, or leave the innermost one. */
  datatype Event = EnterBlock(slots: Slots) | LeaveBlock(fails: bool)

  /** The slots and the pairs saved by the blocks still open, innermost last. */
  datatype Machine = Machine(current: Slots, saved: seq<Slots>)

  /** One event; leaving when no block is open is impossible in Python and yields `None`. */
  function Step(m: Machine, e: Event): (r: Option<Machine>)
    ensures e.EnterBlock? ==> r == Some(Machine(e.slots, m.saved + [m.current]))
    ensures e.LeaveBlock? ==> (r.Some? <==> m.saved != [])
    ensures e.LeaveBlock? && r.Some? ==>
              r.value.current == m.saved[|m.saved| - 1] && r.value.saved + [r.value.current] == m.saved
  {
    match e
    case EnterBlock(p) => Some(Machine(p, m.saved + [m.current]))
    case LeaveBlock(_) =>
      if m.saved == [] then None
      else Some(Machine(m.saved[|m.saved| - 1], m.saved[..|m.saved| - 1]))
  }

  /** Runs a sequence of events, stopping at the first impossible one. */
  function Run(m: Machine, es: seq<Event>): Option<Machine>
    decreases |es|
  {
    if es == [] then Some(m)
    else match Step(m, es[0])
      case None => None
      case Some(m') => Run(m', es[1..])
  }

  /** The events of one block. */
  function Events(s: Scope): seq<Event>
    decreases s, 1
  {
    [EnterBlock(s.slots)] + AllEvents(s.body) + [LeaveBlock(s.fails)]
  }

  /** The events of several blocks run one after the other. */
  function AllEvents(ss: seq<Scope>): seq<Event>
    decreases ss, 0
  {
    if ss == [] then [] else Events(ss[0]) + AllEvents(ss[1..])
  }

  /** Running two event sequences is running the first, then the second from where it ended. */
  lemma {:induction false} RunAppend(m: Machine, a: seq<Event>, b: seq<Event>)
    ensures Run(m, a + b) == if Run(m, a).None? then None else Run(Run(m, a).value, b)
    decreases |a|
  {
    if a == [] {
      assert a + b == b;
    } else {
      assert (a + b)[0] == a[0];
      assert (a + b)[1..] == a[1..] + b;
      match Step(m, a[0])
      case None =>
      case Some(m') => RunAppend(m', a[1..], b);
    }
  }

  /** Whether a block ends normally or raises, leaving it does the same. */
  lemma LeaveIgnoresFailure(m: Machine)
    ensures Step(m, LeaveBlock(true)) == Step(m, LeaveBlock(false))
  {
  }

  /** A whole block, however deep its nesting and however it ends, restores the slots and the saved pairs. */
  lemma {:induction false} BlockRestores(m: Machine, s: Scope)
    ensures Run(m, Events(s)) == Some(m)
    decreases s, 1
  {
    var inner := Machine(s.slots, m.saved + [m.current]);
    assert Run(m, [EnterBlock(s.slots)]) == Some(inner);
    AllBlocksRestore(inner, s.body);
    RunAppend(m, [EnterBlock(s.slots)], AllEvents(s.body));
    RunAppend(m, [EnterBlock(s.slots)] + AllEvents(s.body), [LeaveBlock(s.fails)]);
    assert (m.saved + [m.current])[..|m.saved|] == m.saved;
  }

  /** Blocks run one after the other restore the slots after each of them. */
  lemma {:induction false} AllBlocksRestore(m: Machine, ss: seq<Scope>)
    ensures Run(m, AllEvents(ss)) == Some(m)
    decreases ss, 0
  {
    if ss != [] {
      BlockRestores(m, ss[0]);
      AllBlocksRestore(m, ss[1..]);
      RunAppend(m, Events(ss[0]), AllEvents(ss[1..]));
    }
  }

  /**
   * Last in, first out: inside a block, before its first inner block and
   * after each inner block has been left, the slots hold this block's own
   * pair, not the pair from before it nor the top-level `None` pair.
   */
  lemma InnerBlocksReinstateOuter(m: Machine, s: Scope, k: nat)
    requires k <= |s.body|
    ensures Run(m, [EnterBlock(s.slots)] + AllEvents(s.body[..k]))
         == Some(Machine(s.slots, m.saved + [m.current]))
  {
    AllBlocksRestore(Machine(s.slots, m.saved + [m.current]), s.body[..k]);
    RunAppend(m, [EnterBlock(s.slots)], AllEvents(s.body[..k]));
  }

  // ---------------------------------------------------------------------
  // DPPYCpuTarget
  // ---------------------------------------------------------------------

  /**
   * `DPPYCpuTarget`. The class attribute `_nested` is one `NestedContext`
   * shared by every instance: each constructor is handed that object.
   * The two caches are the `cached_property` slots of `_toplevel_*`.
   */
  class DppyCpuTarget {
    const nested: NestedContext
    var toplevelTyping: Option<TypingCtx>
    var toplevelTarget: Option<TargetCtx>
    ghost var typingBuilds: nat
    ghost var targetBuilds: nat

    /** Each top-level context has been built once if it is cached, and never otherwise. */
    ghost predicate Valid()
      reads this
    {
      && typingBuilds == (if toplevelTyping.Some? then 1 else 0)
      && targetBuilds == (if toplevelTarget.Some? then 1 else 0)
    }

    constructor (shared: NestedContext)
      ensures Valid() && nested == shared
      ensures toplevelTyping.None? && toplevelTarget.None?
    {
      nested := shared;
      toplevelTyping, toplevelTarget := None, None;
      typingBuilds, targetBuilds := 0, 0;
    }

    /** `_toplevel_typing_context`: built as `typing.Context()` on first use, the cached value afterwards. */
    method ToplevelTypingContext() returns (t: TypingCtx)
      requires Valid()
      modifies this`toplevelTyping, this`typingBuilds
      ensures Valid() && typingBuilds <= 1
      ensures t == old(toplevelTyping).GetOr(NumbaTyping)
      ensures toplevelTyping == Some(t)
    {
      if toplevelTyping.None? {
        toplevelTyping := Some(NumbaTyping);
        typingBuilds := typingBuilds + 1;
      }
      t := toplevelTyping.value;
    }

    /**
     * `typing_context`: the nested typing slot when it is set, otherwise the
     * top-level typing context (built if needed). The target slot plays no part.
     */
    method TypingContext() returns (t: TypingCtx)
      requires Valid()
      modifies this`toplevelTyping, this`typingBuilds
      ensures Valid()
      ensures t == Select(nested.typing, old(toplevelTyping).GetOr(NumbaTyping))
      ensures nested.typing.Some? ==> toplevelTyping == old(toplevelTyping)
      ensures nested.typing.None? ==> toplevelTyping == Some(t)
    {
      var n := nested.typing;
      if n.Some? {
        t := n.value;
      } else {
        t := ToplevelTypingContext();
      }
    }

    /**
     * `_toplevel_target_context`: on first use built as
     * `DPPYCpuTargetContext(self.typing_context)`, from the typing context
     * selected at that moment (a nested one if set); cached afterwards.
     */
    method ToplevelTargetContext() returns (g: TargetCtx)
      requires Valid()
      modifies this`toplevelTarget, this`targetBuilds, this`toplevelTyping, this`typingBuilds
      ensures Valid() && targetBuilds <= 1
      ensures old(toplevelTarget).Some? ==> g == old(toplevelTarget).value && unchanged(this)
      ensures old(toplevelTarget).None? ==>
                g == DppyCpuTargetCtx(Select(nested.typing, old(toplevelTyping).GetOr(NumbaTyping)))
      ensures old(toplevelTarget).None? ==>
                toplevelTyping == (if nested.typing.Some? then old(toplevelTyping)
                                   else Some(old(toplevelTyping).GetOr(NumbaTyping)))
      ensures toplevelTarget == Some(g)
    {
      if toplevelTarget.None? {
        var t := TypingContext();
        toplevelTarget := Some(DppyCpuTargetCtx(t));
        targetBuilds := targetBuilds + 1;
      }
      g := toplevelTarget.value;
    }

    /**
     * `target_context`: the nested target slot when it is set, otherwise the
     * top-level target context (built if needed). The typing slot is consulted
     * only when the top-level target is built.
     */
    method TargetContext() returns (g: TargetCtx)
      requires Valid()
      modifies this`toplevelTarget, this`targetBuilds, this`toplevelTyping, this`typingBuilds
      ensures Valid()
      ensures nested.target.Some? ==> g == nested.target.value && unchanged(this)
      ensures nested.target.None? && old(toplevelTarget).Some? ==> g == old(toplevelTarget).value && unchanged(this)
      ensures nested.target.None? ==> toplevelTarget == Some(g)
      ensures nested.target.None? && old(toplevelTarget).None? ==>
                g == DppyCpuTargetCtx(Select(nested.typing, old(toplevelTyping).GetOr(NumbaTyping)))
      ensures nested.target.None? && old(toplevelTarget).None? ==>
                toplevelTyping == (if nested.typing.Some? then old(toplevelTyping)
                                   else Some(old(toplevelTyping).GetOr(NumbaTyping)))
    {
      var n := nested.target;
      if n.Some? {
        g := n.value;
      } else {
        g := ToplevelTargetContext();
      }
    }

    /** `nested_context`: enters a `nested` block of the one shared `NestedContext`. */
    method NestedContextEnter(t: Option<TypingCtx>, g: Option<TargetCtx>) returns (saved: Slots)
      modifies nested
      ensures saved == old(nested.Current())
      ensures nested.Current() == Slots(t, g)
    {
      saved := nested.Enter(t, g);
    }
  }

  /**
   * The override slots are shared: a block entered through one
   * `DppyCpuTarget` decides what every other one answers.
   */
  method NestingIsShared(a: DppyCpuTarget, b: DppyCpuTarget, t: TypingCtx, g: TargetCtx)
    returns (seenTyping: TypingCtx, seenTarget: TargetCtx)
    requires a.nested == b.nested && b.Valid()
    modifies a.nested, b
    ensures seenTyping == t && seenTarget == g
    ensures a.nested.Current() == old(a.nested.Current())
  {
    var saved := a.NestedContextEnter(Some(t), Some(g));
    seenTyping := b.TypingContext();
    seenTarget := b.TargetContext();
    a.nested.Exit(saved);
  }

  // ---------------------------------------------------------------------
  // DPPYTarget
  // ---------------------------------------------------------------------

  /** `DPPYTarget`: top-level contexts only; it has no override slots to consult. */
  class DppyTarget {
    var toplevelTyping: Option<TypingCtx>
    var toplevelTarget: Option<TargetCtx>
    ghost var typingBuilds: nat
    ghost var targetBuilds: nat

    /** Each top-level context has been built once if it is cached, and never otherwise. */
    ghost predicate Valid()
      reads this
    {
      && typingBuilds == (if toplevelTyping.Some? then 1 else 0)
      && targetBuilds == (if toplevelTarget.Some? then 1 else 0)
      && (toplevelTarget.Some? ==> toplevelTyping.Some? && toplevelTarget.value == DppyTargetCtx(toplevelTyping.value))
    }

    constructor ()
      ensures Valid() && toplevelTyping.None? && toplevelTarget.None?
    {
      toplevelTyping, toplevelTarget := None, None;
      typingBuilds, targetBuilds := 0, 0;
    }

    /** `typing_context` (`_toplevel_typing_context`): `DPPYTypingContext()`, built once. */
    method TypingContext() returns (t: TypingCtx)
      requires Valid()
      modifies this`toplevelTyping, this`typingBuilds
      ensures Valid() && typingBuilds <= 1
      ensures t == old(toplevelTyping).GetOr(DppyTyping)
      ensures toplevelTyping == Some(t)
    {
      if toplevelTyping.None? {
        toplevelTyping := Some(DppyTyping);
        typingBuilds := typingBuilds + 1;
      }
      t := toplevelTyping.value;
    }

    /**
     * `target_context` (`_toplevel_target_context`):
     * `DPPYTargetContext(self.typing_context)`, built once; it is always
     * built on this target's own top-level typing context.
     */
    method TargetContext() returns (g: TargetCtx)
      requires Valid()
      modifies this
      ensures Valid() && targetBuilds <= 1
      ensures old(toplevelTarget).Some? ==> g == old(toplevelTarget).value && unchanged(this)
      ensures toplevelTarget == Some(g) && toplevelTyping.Some?
      ensures g == DppyTargetCtx(toplevelTyping.value)
      ensures g.typing == old(toplevelTyping).GetOr(DppyTyping)
    {
      if toplevelTarget.None? {
        var t := TypingContext();
        toplevelTarget := Some(DppyTargetCtx(t));
        targetBuilds := targetBuilds + 1;
      }
      g := toplevelTarget.value;
    }
  }
}
