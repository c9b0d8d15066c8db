/** The thread tamer: runtime threads are pinned to one CPU, and no pin leaks to
the threads they create.

Every thread is followed in two worlds: as it is, and with the mask it would have
had if there were no tamer. An affinity mask is the set of its CPUs.
*/
module Tamer {
  import opened Common
  import opened PolicyText

  type Mask = set<int>

  const CPU_SETSIZE := 1024

  // ---- choosing the core ----

  /** The CPU an environment setting names: digits only, and within an int. */
  function Requested(env: Option<string>): (r: Option<nat>) {
    if env.Some? && env.value != "" && (forall i :: 0 <= i < |env.value| ==> Digit(env.value[i])) &&
        Value(env.value) <= INT_MAX
    then Some(Value(env.value)) else None
  }

  /** A setting names the CPU its digits spell, and nothing if it is empty, has another
      character, or does not fit an int. */
  lemma RequestedIs(n: nat, other: string)
    ensures Requested(Some(PrintNat(n))) == if n <= INT_MAX then Some(n) else None
    ensures (exists i :: 0 <= i < |other| && !Digit(other[i])) || other == "" ==> Requested(Some(other)).None?
    ensures Requested(None).None?
  {
    ValueOfPrint(n);
    hide PrintNat, Value;
  }

  ghost predicate Highest(mask: Mask, cpu: int) { cpu in mask && forall m :: m in mask ==> m <= cpu }

  /** Nothing to pin to with fewer than two CPUs; a setting that names an allotted
      CPU wins; otherwise the highest. */
  ghost predicate Chosen(mask: Mask, env: Option<string>, core: int) {
    if |mask| < 2 then core == -1
    else if Requested(env).Some? && Requested(env).value in mask then core == Requested(env).value
    else Highest(mask, core)
  }

  method ChooseMaskCore(mask: Mask, env: Option<string>) returns (core: int)
    requires forall m :: m in mask ==> 0 <= m < CPU_SETSIZE
    ensures Chosen(mask, env, core)
  {
    var highest := -1;
    var cpu := CPU_SETSIZE - 1;
    while cpu >= 0
      invariant -1 <= cpu < CPU_SETSIZE
      invariant highest == -1 && forall m :: m in mask ==> m <= cpu
    {
      if cpu in mask {
        highest := cpu;
        break;
      }
      cpu := cpu - 1;
    }
    if |mask| < 2 {
      return -1;
    }
    ghost var m := Element(mask);
    var requested := Requested(env);
    if requested.Some? && requested.value in mask {
      return requested.value;
    }
    core := highest;
  }

  // ---- creating threads ----

  /** A thread's real mask, its pin (-1: not tamed), and the mask saved before it. */
  datatype Thread = Thread(mask: Mask, pin: int, saved: Mask)

  datatype Inherited = Inherited(cpu: int, mask: Mask)

  /** The tamer's process-wide settings: its core (-1: none) and the allotment. */
  datatype Process = Process(core: int, allotted: Mask)

  /** What the system grants one creation: memory for the box, the pin, the restore. */
  datatype Luck = Luck(box: bool, pins: bool, restores: bool)

  predicate OnlyInheritedPin(inherited: Inherited, own: Mask) {
    inherited.cpu >= 0 && own == {inherited.cpu} && inherited.mask != {}
  }

  function Capture(creator: Thread): Inherited {
    if creator.pin < 0 then Inherited(-1, {}) else Inherited(creator.pin, creator.saved)
  }

  function Restore(mask: Mask, inherited: Inherited, restores: bool): Mask {
    if OnlyInheritedPin(inherited, mask) && restores then inherited.mask else mask
  }

  /** The CPU to pin to: the core if the thread may use it, else its highest
      allotted CPU, else none. */
  ghost predicate Target(p: Process, own: Mask, cpu: int) {
    if p.core in own then cpu == p.core
    else if own * p.allotted != {} then Highest(own * p.allotted, cpu)
    else cpu == -1
  }

  method FindTarget(p: Process, own: Mask) returns (target: int)
    requires forall m :: m in own ==> 0 <= m < CPU_SETSIZE
    ensures Target(p, own, target)
  {
    if p.core in own {
      return p.core;
    }
    var cpu := CPU_SETSIZE - 1;
    while cpu >= 0
      invariant -1 <= cpu < CPU_SETSIZE
      invariant forall m :: m in own * p.allotted ==> m <= cpu
    {
      if cpu in own && cpu in p.allotted {
        assert cpu in own * p.allotted;
        return cpu;
      }
      cpu := cpu - 1;
    }
    if own * p.allotted != {} { var m := Element(own * p.allotted); }
    target := -1;
  }

  /** The mask a new thread counts as its own: not its creator's pin. */
  function Own(mask: Mask, inherited: Inherited): Mask {
    if OnlyInheritedPin(inherited, mask) then inherited.mask else mask
  }

  function Tame(mask: Mask, inherited: Inherited, target: int, luck: Luck): Thread {
    if target >= 0 && luck.pins then Thread({target}, target, Own(mask, inherited))
    else Thread(Restore(mask, inherited, luck.restores), -1, {})
  }

  /** pthread_create with the interposer, and the trampoline of the new thread. */
  function Create(p: Process, creator: Thread, attr: Option<Mask>, rocr: bool, target: int, luck: Luck): Thread {
    var mask := if attr.Some? then attr.value else creator.mask;
    var inherited := Capture(creator);
    var core := if rocr then p.core else -1;
    if (core < 0 && inherited.cpu < 0) || !luck.box then Thread(mask, -1, {})
    else if core >= 0 then Tame(mask, inherited, target, luck)
    else Thread(Restore(mask, inherited, luck.restores), -1, {})
  }

  /** The mask without the tamer. */
  function Untamed(creator: Mask, attr: Option<Mask>): Mask { if attr.Some? then attr.value else creator }

  /** An unpinned thread has its untamed mask; a tamed one is pinned to one
      allotted CPU of its untamed mask, which it saved. */
  predicate Transparent(p: Process, t: Thread, untamed: Mask) {
    if t.pin < 0 then t.mask == untamed
    else t.mask == {t.pin} && t.pin in untamed && t.pin in p.allotted && t.saved == untamed
  }

  predicate Configured(p: Process) {
    (p.core >= 0 ==> p.core in p.allotted) && forall cpu :: cpu in p.allotted ==> cpu >= 0
  }

  /** The attribute names exactly the pinned creator's CPU, which cannot be told
      from an inherited pin; harmless only if that was its whole mask anyway. */
  predicate Ambiguous(creator: Thread, attr: Option<Mask>) {
    creator.pin >= 0 && attr == Some({creator.pin}) && creator.saved != {creator.pin}
  }

  /** With memory for the box and affinity calls that succeed, a creation is
      transparent if and only if its attribute is not ambiguous. */
  lemma CreationIsTransparentIffUnambiguous(p: Process, creator: Thread, untamed: Mask, attr: Option<Mask>, rocr: bool,
      target: int, luck: Luck)
    requires Configured(p) && Transparent(p, creator, untamed) && luck.box && luck.restores
    requires Target(p, Own(if attr.Some? then attr.value else creator.mask, Capture(creator)), target)
    ensures Transparent(p, Create(p, creator, attr, rocr, target, luck), Untamed(untamed, attr)) <==>
        !Ambiguous(creator, attr)
  {
  }

  /** Without memory for the box the pin leaks, if and only if the creator is
      pinned, no attribute overrides the mask, and the pin was not its whole mask. */
  lemma WithoutABoxThePinLeaks(p: Process, creator: Thread, untamed: Mask, attr: Option<Mask>, rocr: bool, target: int,
      luck: Luck)
    requires Configured(p) && Transparent(p, creator, untamed) && !luck.box
    ensures Transparent(p, Create(p, creator, attr, rocr, target, luck), Untamed(untamed, attr)) <==>
            !(creator.pin >= 0 && attr.None? && creator.saved != {creator.pin})
  {
  }

  // ---- trees of threads ----

  /** A thread in both worlds. */
  datatype Node = Node(thread: Thread, untamed: Mask)

  datatype Creation = Creation(parent: nat, attr: Option<Mask>, rocr: bool, target: int, luck: Luck)

  function Child(p: Process, parent: Node, c: Creation): Node {
    Node(Create(p, parent.thread, c.attr, c.rocr, c.target, c.luck), Untamed(parent.untamed, c.attr))
  }

  /** The creation happens in an existing thread, aims where the tamer aims, and is
      not one of those that lose transparency. */
  ghost predicate Sound(p: Process, nodes: seq<Node>, c: Creation) {
    && c.parent < |nodes|
    && var creator := nodes[c.parent].thread;
    && Target(p, Own(if c.attr.Some? then c.attr.value else creator.mask, Capture(creator)), c.target)
    && (if c.luck.box then c.luck.restores && !Ambiguous(creator, c.attr)
        else !(creator.pin >= 0 && c.attr.None? && creator.saved != {creator.pin}))
  }

  ghost predicate AllSound(p: Process, nodes: seq<Node>, creations: seq<Creation>)
    decreases |creations|
  {
    creations != [] ==>
        Sound(p, nodes, creations[0]) &&
        AllSound(p, nodes + [Child(p, nodes[creations[0].parent], creations[0])], creations[1..])
  }

  ghost function Grown(p: Process, nodes: seq<Node>, creations: seq<Creation>): (r: seq<Node>)
    requires AllSound(p, nodes, creations)
    decreases |creations|
  {
    if creations == [] then nodes
    else Grown(p, nodes + [Child(p, nodes[creations[0].parent], creations[0])], creations[1..])
  }

  ghost predicate AllTransparent(p: Process, nodes: seq<Node>) {
    forall i :: 0 <= i < |nodes| ==> Transparent(p, nodes[i].thread, nodes[i].untamed)
  }

  /** Over any tree of sound creations, every thread has the mask it would have had
      without the tamer, or is pinned inside it. */
  lemma {:induction false} TreesAreTransparent(p: Process, nodes: seq<Node>, creations: seq<Creation>)
    requires Configured(p) && AllTransparent(p, nodes) && AllSound(p, nodes, creations)
    ensures AllTransparent(p, Grown(p, nodes, creations))
    decreases |creations|
  {
    if creations != [] {
      var c := creations[0];
      var parent := nodes[c.parent];
      if c.luck.box {
        CreationIsTransparentIffUnambiguous(p, parent.thread, parent.untamed, c.attr, c.rocr, c.target, c.luck);
      } else {
        WithoutABoxThePinLeaks(p, parent.thread, parent.untamed, c.attr, c.rocr, c.target, c.luck);
      }
      TreesAreTransparent(p, nodes + [Child(p, parent, c)], creations[1..]);
    }
  }

  /** A runtime thread that can be pinned is pinned: to the core whenever its
      untamed mask allows it. */
  lemma RuntimeThreadsArePinned(p: Process, nodes: seq<Node>, c: Creation)
    requires Configured(p) && AllTransparent(p, nodes) && Sound(p, nodes, c) && c.rocr && p.core >= 0 && c.luck.box &&
        c.luck.pins
    ensures var child := Child(p, nodes[c.parent], c);
            && (p.core in child.untamed ==> child.thread.pin == p.core)
            && (child.untamed * p.allotted != {} ==>
                child.thread.pin in child.untamed && child.thread.pin in p.allotted)
  {
    CreationIsTransparentIffUnambiguous(p, nodes[c.parent].thread, nodes[c.parent].untamed, c.attr, c.rocr, c.target,
        c.luck);
  }

  /** Where a thread with this untamed mask is pinned: the core if it may use it,
      else its highest allotted CPU. */
  ghost predicate PinnedRight(p: Process, n: Node) {
    if p.core in n.untamed then n.thread.pin == p.core else Highest(n.untamed * p.allotted, n.thread.pin)
  }

  /** Exactly the runtime threads are pinned: those created by the runtime while
      there is a core, with an allotted CPU of their own, when the system grants it.
      Every other thread has its untamed mask. */
  lemma PinnedIff(p: Process, nodes: seq<Node>, c: Creation)
    requires Configured(p) && AllTransparent(p, nodes) && Sound(p, nodes, c)
    ensures var child := Child(p, nodes[c.parent], c);
            && (child.thread.pin >= 0 <==>
                  c.rocr && p.core >= 0 && c.luck.box && c.luck.pins && child.untamed * p.allotted != {})
            && (if child.thread.pin >= 0 then PinnedRight(p, child)
                else child.thread.pin == -1 && child.thread.mask == child.untamed)
  {
    var child := Child(p, nodes[c.parent], c);
    if c.luck.box {
      CreationIsTransparentIffUnambiguous(p, nodes[c.parent].thread, nodes[c.parent].untamed, c.attr, c.rocr, c.target,
          c.luck);
    } else {
      WithoutABoxThePinLeaks(p, nodes[c.parent].thread, nodes[c.parent].untamed, c.attr, c.rocr, c.target, c.luck);
    }
    assert p.core >= 0 && p.core in child.untamed ==> p.core in child.untamed * p.allotted;
  }

  /** Over any tree of sound creations: one node per creation, with the mask it asked
      for or its creator's; pinned, and pinned right, exactly if it is a runtime
      thread that can be, and otherwise on its untamed mask. */
  lemma {:induction false} TreesPinRuntimeThreadsOnly(p: Process, nodes: seq<Node>, creations: seq<Creation>, k: nat)
    requires Configured(p) && AllTransparent(p, nodes) && AllSound(p, nodes, creations) && k < |creations|
    ensures var grown := Grown(p, nodes, creations);
            && |grown| == |nodes| + |creations| && grown[..|nodes|] == nodes
            && var n, c := grown[|nodes| + k], creations[k];
            && c.parent < |nodes| + k
            && n.untamed == (if c.attr.Some? then c.attr.value else grown[c.parent].untamed)
            && (n.thread.pin >= 0 <==>
                  c.rocr && p.core >= 0 && c.luck.box && c.luck.pins && n.untamed * p.allotted != {})
            && (if n.thread.pin >= 0 then PinnedRight(p, n) else n.thread.pin == -1 && n.thread.mask == n.untamed)
    decreases |creations|
  {
    var c, rest := creations[0], creations[1..];
    var child := Child(p, nodes[c.parent], c);
    var more := nodes + [child];
    TreesAreTransparent(p, nodes, [c]);
    assert AllSound(p, nodes, [c]) && Grown(p, nodes, [c]) == more;
    PinnedIff(p, nodes, c);
    hide Child, Transparent, Sound, PinnedRight;
    if rest == [] {
      assert Grown(p, nodes, creations) == more;
    } else {
      TreesPinRuntimeThreadsOnly(p, more, rest, if k > 0 then k - 1 else 0);
      assert more[..|nodes|] == nodes;
      var grown := Grown(p, nodes, creations);
      assert grown[..|nodes|] == grown[..|more|][..|nodes|];
    }
  }

  /** An attribute cloned from the pin: the child is widened to its creator's mask. */
  lemma ACloneOfThePinIsWidened()
    ensures var p := Process(3, {2, 3});
            var creator := Thread({3}, 3, {2, 3});
            var child := Create(p, creator, Some({3}), false, -1, Luck(true, true, true));
            Transparent(p, creator, {2, 3}) && child.mask == {2, 3} && Untamed({2, 3}, Some({3})) == {3} &&
                !Transparent(p, child, {3})
  {
    assert 2 in {2, 3} && 2 !in {3};
  }
}
