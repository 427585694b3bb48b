/** sniff_options (sphinxcontrib_trio/__init__.py:240-276): walk an object's
    `__wrapped__` / `__func__` chain and collect the behavioural tags its
    links reveal. */
module Sniffing {
  import opened Wrappers
  import opened Options

  /** Identity of a code object; CM_CODES is a set of these. */
  type CodeId = nat

  /** One object on the chain, seen through the probes sniff_options
      applies to it. The introspection primitives themselves are foreign;
      each probe is the boolean it returns for this object. `wrapped` is
      `__wrapped__` and `func` is `__func__`, when the object has them.
      Being an inductive datatype, a chain is finite and acyclic. */
  datatype Node = Node(
    isAbstract: bool,                  // getattr(obj, "__isabstractmethod__", False)
    isClassMethod: bool,               // isinstance(obj, classmethod)
    isStaticMethod: bool,              // isinstance(obj, staticmethod)
    isCoroutineFunction: bool,         // inspect.iscoroutinefunction(obj)
    isGeneratorFunction: bool,         // inspect.isgeneratorfunction(obj)
    isAsyncGenFunction: bool,          // isasyncgenfunction(obj)
    code: Option<CodeId>,              // getattr(obj, "__code__", None)
    returnsContextManager: bool,       // getattr(obj, "__returns_contextmanager__", False)
    returnsAsyncContextManager: bool,  // getattr(obj, "__returns_acontextmanager__", False)
    wrapped: Option<Node>,
    func: Option<Node>)

  /** The object the walk moves to: `__wrapped__` in preference to
      `__func__`. */
  function Next(n: Node): Option<Node>
  {
    if n.wrapped.Some? then n.wrapped else n.func
  }

  /** The objects the walk visits, in order, starting with `n`. */
  function Walk(n: Node): (r: seq<Node>)
    ensures |r| >= 1 && r[0] == n
    decreases n
  {
    if n.wrapped.Some? then [n] + Walk(n.wrapped.value)
    else if n.func.Some? then [n] + Walk(n.func.value)
    else [n]
  }

  /** The walk follows the links: each visited object is the `Next` of the
      one before, and it stops at the first object with neither link. */
  lemma {:induction false} WalkFollowsLinks(n: Node)
    ensures forall i {:trigger Walk(n)[i]} :: 0 <= i < |Walk(n)| - 1 ==> Next(Walk(n)[i]) == Some(Walk(n)[i + 1])
    ensures Next(Walk(n)[|Walk(n)| - 1]) == None
    decreases n
  {
    match Next(n)
    case None =>
    case Some(m) =>
      WalkFollowsLinks(m);
      assert Walk(n) == [n] + Walk(m);
      forall i | 1 <= i < |Walk(n)| - 1
        ensures Next(Walk(n)[i]) == Some(Walk(n)[i + 1])
      {
        assert Walk(n)[i] == Walk(m)[i - 1];
      }
  }

  /** The ungated tags one object carries. */
  function Marks(n: Node): set<Tag>
  {
    (if n.isAbstract then {AbstractMethod} else {})
    + (if n.isClassMethod then {ClassMethod} else {})
    + (if n.isStaticMethod then {StaticMethod} else {})
  }

  /** Whether one object carries the ungated tag `t`. */
  predicate HasMark(n: Node, t: Tag)
  {
    match t
    case AbstractMethod => n.isAbstract
    case ClassMethod => n.isClassMethod
    case StaticMethod => n.isStaticMethod
    case _ => false
  }

  /** The gated tags the probes of one object report, when the gate is
      open. The coroutine test shadows the generator test (`elif`); all the
      other probes are independent, so one object may report several. */
  function Detect(n: Node, cmCodes: set<CodeId>): (r: set<Tag>)
    ensures r <= Exclusive
    ensures Async in r ==> For !in r
    ensures r == {} <==>
              !n.isCoroutineFunction && !n.isGeneratorFunction && !n.isAsyncGenFunction
              && !(n.code.Some? && n.code.value in cmCodes)
              && !n.returnsContextManager && !n.returnsAsyncContextManager
  {
    (if n.isCoroutineFunction then {Async} else if n.isGeneratorFunction then {For} else {})
    + (if n.isAsyncGenFunction then {AsyncFor} else {})
    + (if n.code.Some? && n.code.value in cmCodes then {With} else {})
    + (if n.returnsContextManager then {With} else {})
    + (if n.returnsAsyncContextManager then {AsyncWith} else {})
  }

  /** Adding the ungated tags of `n` one by one, in the order of the loop,
      adds exactly its marks. */
  lemma MarkedBySteps(n: Node, before: set<Tag>, m1: set<Tag>, m2: set<Tag>, after: set<Tag>)
    requires m1 == if n.isAbstract then before + {AbstractMethod} else before
    requires m2 == if n.isClassMethod then m1 + {ClassMethod} else m1
    requires after == if n.isStaticMethod then m2 + {StaticMethod} else m2
    ensures after == before + Marks(n)
  {
  }

  /** Applying the gated probes of `n` one by one, in the order of the
      loop, adds exactly what it detects. */
  lemma DetectedBySteps(n: Node, cmCodes: set<CodeId>, before: set<Tag>,
                        s1: set<Tag>, s2: set<Tag>, s3: set<Tag>, s4: set<Tag>, after: set<Tag>)
    requires s1 == if n.isCoroutineFunction then before + {Async}
                   else if n.isGeneratorFunction then before + {For}
                   else before
    requires s2 == if n.isAsyncGenFunction then s1 + {AsyncFor} else s1
    requires s3 == if n.code.Some? && n.code.value in cmCodes then s2 + {With} else s2
    requires s4 == if n.returnsContextManager then s3 + {With} else s3
    requires after == if n.returnsAsyncContextManager then s4 + {AsyncWith} else s4
    ensures after == before + Detect(n, cmCodes)
  {
  }

  /** One iteration of the loop: the ungated tags, then the gated ones if
      no gated tag has been seen yet. */
  function Step(n: Node, cmCodes: set<CodeId>, acc: set<Tag>): set<Tag>
  {
    var seen := acc + Marks(n);
    if seen * Exclusive == {} then seen + Detect(n, cmCodes) else seen
  }

  /** The tags collected by visiting `nodes` in order, starting from `acc`. */
  function SniffFrom(nodes: seq<Node>, cmCodes: set<CodeId>, acc: set<Tag>): set<Tag>
    decreases |nodes|
  {
    if nodes == [] then acc else SniffFrom(nodes[1..], cmCodes, Step(nodes[0], cmCodes, acc))
  }

  /** What sniff_options returns for `obj`. */
  function Sniff(obj: Node, cmCodes: set<CodeId>): set<Tag>
  {
    SniffFrom(Walk(obj), cmCodes, {})
  }

  /** sniff_options itself: the `while True` loop that moves a cursor along
      the chain and adds to the set in place. */
  method SniffOptions(obj: Node, cmCodes: set<CodeId>) returns (options: set<Tag>)
    ensures options == Sniff(obj, cmCodes)
  {
    options := {};
    var cur := obj;
    while true
      invariant SniffFrom(Walk(cur), cmCodes, options) == Sniff(obj, cmCodes)
      decreases cur
    {
      ghost var before := options;
      if cur.isAbstract {
        options := options + {AbstractMethod};
      }
      ghost var m1 := options;
      if cur.isClassMethod {
        options := options + {ClassMethod};
      }
      ghost var m2 := options;
      if cur.isStaticMethod {
        options := options + {StaticMethod};
      }
      MarkedBySteps(cur, before, m1, m2, options);
      // The gated probes, only while no exclusive tag is held
      if options * Exclusive == {} {
        ghost var seen := options;
        if cur.isCoroutineFunction {
          options := options + {Async};
        } else if cur.isGeneratorFunction {
          options := options + {For};
        }
        ghost var s1 := options;
        if cur.isAsyncGenFunction {
          options := options + {AsyncFor};
        }
        ghost var s2 := options;
        // Context-manager factories: a contextmanager helper's code, or a marker attribute
        if cur.code.Some? && cur.code.value in cmCodes {
          options := options + {With};
        }
        ghost var s3 := options;
        if cur.returnsContextManager {
          options := options + {With};
        }
        ghost var s4 := options;
        if cur.returnsAsyncContextManager {
          options := options + {AsyncWith};
        }
        DetectedBySteps(cur, cmCodes, seen, s1, s2, s3, s4, options);
      }
      assert options == Step(cur, cmCodes, before);
      SniffFromWalk(cur, cmCodes, before);
      if cur.wrapped.Some? {
        cur := cur.wrapped.value;
      } else if cur.func.Some? {
        cur := cur.func.value;
      } else {
        break;
      }
    }
  }

  /** One turn of the loop visits the cursor, then the rest of its walk. */
  lemma SniffFromWalk(n: Node, cmCodes: set<CodeId>, acc: set<Tag>)
    ensures SniffFrom(Walk(n), cmCodes, acc) ==
              match Next(n)
              case Some(m) => SniffFrom(Walk(m), cmCodes, Step(n, cmCodes, acc))
              case None => Step(n, cmCodes, acc)
  {
    var w := Walk(n);
    assert w[1..] == if Next(n).Some? then Walk(Next(n).value) else [];
  }

  // ---------------------------------------------------------------------
  // Properties of the walk

  /** Visiting a concatenation visits the first part, then the second. */
  lemma {:induction false} SniffFromAppend(a: seq<Node>, b: seq<Node>, cmCodes: set<CodeId>, acc: set<Tag>)
    ensures SniffFrom(a + b, cmCodes, acc) == SniffFrom(b, cmCodes, SniffFrom(a, cmCodes, acc))
    decreases |a|
  {
    if a == [] {
      assert a + b == b;
    } else {
      assert (a + b)[1..] == a[1..] + b;
      SniffFromAppend(a[1..], b, cmCodes, Step(a[0], cmCodes, acc));
    }
  }

  /** Tags are only ever added. */
  lemma {:induction false} SniffFromGrows(nodes: seq<Node>, cmCodes: set<CodeId>, acc: set<Tag>)
    ensures acc <= SniffFrom(nodes, cmCodes, acc)
    decreases |nodes|
  {
    if nodes != [] {
      SniffFromGrows(nodes[1..], cmCodes, Step(nodes[0], cmCodes, acc));
    }
  }

  /** An object on which no probe fires. */
  predicate Unmarked(n: Node, cmCodes: set<CodeId>)
  {
    Marks(n) == {} && Detect(n, cmCodes) == {}
  }

  lemma {:induction false} SniffFromUnmarked(nodes: seq<Node>, cmCodes: set<CodeId>, acc: set<Tag>)
    ensures (forall i :: 0 <= i < |nodes| ==> Unmarked(nodes[i], cmCodes)) ==> SniffFrom(nodes, cmCodes, acc) == acc
    ensures SniffFrom(nodes, cmCodes, acc) == {} ==> forall i :: 0 <= i < |nodes| ==> Unmarked(nodes[i], cmCodes)
    decreases |nodes|
  {
    if nodes != [] {
      var next := Step(nodes[0], cmCodes, acc);
      SniffFromUnmarked(nodes[1..], cmCodes, next);
      SniffFromGrows(nodes[1..], cmCodes, next);
      assert forall i :: 1 <= i < |nodes| ==> nodes[i] == nodes[1..][i - 1];
    }
  }

  /** A chain with no marker anywhere yields the empty set, and only such a
      chain does. */
  lemma {:induction false} EmptyExactlyWhenUnmarked(obj: Node, cmCodes: set<CodeId>)
    ensures (forall i :: 0 <= i < |Walk(obj)| ==> Unmarked(Walk(obj)[i], cmCodes)) ==> Sniff(obj, cmCodes) == {}
    ensures Sniff(obj, cmCodes) == {} ==> forall i :: 0 <= i < |Walk(obj)| ==> Unmarked(Walk(obj)[i], cmCodes)
  {
    SniffFromUnmarked(Walk(obj), cmCodes, {});
  }

  lemma {:induction false} SniffFromModifier(nodes: seq<Node>, cmCodes: set<CodeId>, acc: set<Tag>, t: Tag)
    requires t in Modifiers
    ensures t in SniffFrom(nodes, cmCodes, acc) <==>
              t in acc || exists i :: 0 <= i < |nodes| && HasMark(nodes[i], t)
    decreases |nodes|
  {
    if nodes != [] {
      var next := Step(nodes[0], cmCodes, acc);
      SniffFromModifier(nodes[1..], cmCodes, next, t);
      assert t in next <==> t in acc || HasMark(nodes[0], t);
      if exists i :: 0 <= i < |nodes| && HasMark(nodes[i], t) {
        var i :| 0 <= i < |nodes| && HasMark(nodes[i], t);
        if i > 0 {
          assert HasMark(nodes[1..][i - 1], t);
        }
      }
      if exists i :: 0 <= i < |nodes[1..]| && HasMark(nodes[1..][i], t) {
        var i :| 0 <= i < |nodes[1..]| && HasMark(nodes[1..][i], t);
        assert HasMark(nodes[i + 1], t);
      }
    }
  }

  /** abstractmethod, classmethod and staticmethod are not gated: each is
      reported exactly when some object on the walked chain carries it. */
  lemma {:induction false} ModifiersAreNotGated(obj: Node, cmCodes: set<CodeId>, t: Tag)
    requires t in Modifiers
    ensures t in Sniff(obj, cmCodes) ==> exists i :: 0 <= i < |Walk(obj)| && HasMark(Walk(obj)[i], t)
    ensures (exists i :: 0 <= i < |Walk(obj)| && HasMark(Walk(obj)[i], t)) ==> t in Sniff(obj, cmCodes)
  {
    SniffFromModifier(Walk(obj), cmCodes, {}, t);
  }

  /** Once a gated tag has been seen, no later object adds one. */
  lemma {:induction false} GateStaysClosed(nodes: seq<Node>, cmCodes: set<CodeId>, acc: set<Tag>)
    requires acc * Exclusive != {}
    ensures SniffFrom(nodes, cmCodes, acc) * Exclusive == acc * Exclusive
    decreases |nodes|
  {
    if nodes != [] {
      var next := Step(nodes[0], cmCodes, acc);
      assert next * Exclusive == acc * Exclusive;
      GateStaysClosed(nodes[1..], cmCodes, next);
    }
  }

  /** The gated tags reported by the first object on which a gated probe
      fires; nothing if there is no such object. */
  function FirstDetection(nodes: seq<Node>, cmCodes: set<CodeId>): (r: set<Tag>)
    ensures r == {} <==> forall i :: 0 <= i < |nodes| ==> Detect(nodes[i], cmCodes) == {}
    ensures r != {} ==> exists k :: 0 <= k < |nodes| && r == Detect(nodes[k], cmCodes)
                          && forall j :: 0 <= j < k ==> Detect(nodes[j], cmCodes) == {}
    decreases |nodes|
  {
    if nodes == [] then {}
    else if Detect(nodes[0], cmCodes) != {} then Detect(nodes[0], cmCodes)
    else
      var r := FirstDetection(nodes[1..], cmCodes);
      assert forall i :: 1 <= i < |nodes| ==> nodes[i] == nodes[1..][i - 1];
      r
  }

  lemma {:induction false} SniffFromExclusive(nodes: seq<Node>, cmCodes: set<CodeId>, acc: set<Tag>)
    ensures SniffFrom(nodes, cmCodes, acc) * Exclusive ==
              if acc * Exclusive != {} then acc * Exclusive else FirstDetection(nodes, cmCodes)
    decreases |nodes|
  {
    if acc * Exclusive != {} {
      GateStaysClosed(nodes, cmCodes, acc);
    } else if nodes != [] {
      var next := Step(nodes[0], cmCodes, acc);
      assert next * Exclusive == Detect(nodes[0], cmCodes);
      SniffFromExclusive(nodes[1..], cmCodes, next);
    }
  }

  /** All gated tags in the result come from the first object on the chain
      on which any gated probe fires. */
  lemma ExclusiveTagsFromFirstFiringNode(obj: Node, cmCodes: set<CodeId>)
    ensures Sniff(obj, cmCodes) * Exclusive == FirstDetection(Walk(obj), cmCodes)
  {
    SniffFromExclusive(Walk(obj), cmCodes, {});
  }

  /** In terms of the loop's successive states: after the first `i`
      objects have been visited with a gated tag among the results, every
      later state holds the same gated tags. */
  lemma LaterNodesAddNoExclusive(nodes: seq<Node>, cmCodes: set<CodeId>, i: nat, j: nat)
    requires i <= j <= |nodes|
    requires SniffFrom(nodes[..i], cmCodes, {}) * Exclusive != {}
    ensures SniffFrom(nodes[..j], cmCodes, {}) * Exclusive == SniffFrom(nodes[..i], cmCodes, {}) * Exclusive
  {
    assert nodes[..j] == nodes[..i] + nodes[i..j];
    SniffFromAppend(nodes[..i], nodes[i..j], cmCodes, {});
    GateStaysClosed(nodes[i..j], cmCodes, SniffFrom(nodes[..i], cmCodes, {}));
  }

  /** `for` and `async` are never reported together. */
  lemma NeverAsyncAndFor(obj: Node, cmCodes: set<CodeId>)
    ensures !(Async in Sniff(obj, cmCodes) && For in Sniff(obj, cmCodes))
  {
    ExclusiveTagsFromFirstFiringNode(obj, cmCodes);
    var r := FirstDetection(Walk(obj), cmCodes);
    if r != {} {
      var k :| 0 <= k < |Walk(obj)| && r == Detect(Walk(obj)[k], cmCodes);
    }
    assert Async in Sniff(obj, cmCodes) ==> Async in r;
  }
}
