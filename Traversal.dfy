/**
 * The descending traversal of a class-file object graph.
 *
 * The graph is a tree of nodes, one constructor per shape of node: a leaf that
 * holds no children the traversal visits, a node with exactly one child array,
 * and the five nodes whose children come in several groups (a code attribute,
 * a constant pool, a class, a module attribute and a stack-map entry).
 * The traversal keeps the chain of ancestors of the node it is visiting on an
 * explicit stack; the piggy-backed visitor is modelled by a log that records,
 * for every call made to it, the node and the stack at that moment.
 */
module Traversal {
  import opened Wrappers

  /** Kinds of node whose visit pushes the node, calls back and pops, and descends into nothing. */
  datatype LeafKind =
    | AnnotationDefault | AnnotationEntry | BootstrapMethods | CodeException
    | ConstantClass | ConstantDouble | ConstantDynamic | ConstantFieldref | ConstantFloat
    | ConstantInteger | ConstantInterfaceMethodref | ConstantInvokeDynamic | ConstantLong
    | ConstantMethodHandle | ConstantMethodref | ConstantMethodType | ConstantModule
    | ConstantNameAndType | ConstantPackage | ConstantString | ConstantUtf8 | ConstantValue
    | Deprecated | EnclosingMethod | ExceptionTable | InnerClass | LineNumber | LocalVariable
    | LocalVariableTypeTable | MethodParameter | ModuleExports | ModuleMainClass | ModuleOpens
    | ModulePackages | ModuleProvides | ModuleRequires | NestHost | NestMembers
    | ParameterAnnotation | ParameterAnnotationEntry | RecordComponent | Signature
    | SourceFile | StackMapType | Synthetic | Unknown

  /**
   * Kinds of node whose visit descends into exactly one child array:
   * the entries of an annotations attribute, the attributes of a field or a method,
   * the inner classes, the line numbers, the local variables, the method parameters,
   * the record components and the stack-map entries.
   */
  datatype ListKind =
    | Annotations | Field | InnerClasses | LineNumberTable | LocalVariableTable
    | Method | MethodParameters | Record | StackMap

  /**
   * A node of the class-file object graph. `id` stands for the node's identity and
   * for the contents the traversal does not inspect. A constant-pool slot may be
   * empty (the Java array holds null there).
   */
  datatype Node =
    | Leaf(kind: LeafKind, id: nat)
    | Listing(listKind: ListKind, id: nat, items: seq<Node>)
    | Code(id: nat, exceptionTable: seq<Node>, attributes: seq<Node>)
    | ConstantPool(id: nat, constants: seq<Option<Node>>)
    | JavaClass(id: nat, fields: seq<Node>, methods: seq<Node>, attributes: seq<Node>, constantPool: Node)
    | Module(id: nat, requiresTable: seq<Node>, exportsTable: seq<Node>, opensTable: seq<Node>, providesTable: seq<Node>)
    | StackMapEntry(id: nat, typesOfLocals: seq<Node>, typesOfStackItems: seq<Node>)

  /** One call to the piggy-backed visitor: the node it was handed and the ancestor stack at that moment. */
  datatype Callback = Callback(node: Node, stack: seq<Node>)

  /** The number of nodes in a tree, counting only the occupied constant-pool slots. */
  function Size(n: Node): (r: nat)
    decreases n
    ensures r >= 1
  {
    match n
    case Leaf(_, _) => 1
    case Listing(_, _, items) => 1 + SizeAll(items)
    case Code(_, et, at) => 1 + SizeAll(et) + SizeAll(at)
    case ConstantPool(_, cs) => 1 + SizeOpts(cs)
    case JavaClass(_, f, m, a, p) => 1 + SizeAll(f) + SizeAll(m) + SizeAll(a) + Size(p)
    case Module(_, rq, ex, op, pr) => 1 + SizeAll(rq) + SizeAll(ex) + SizeAll(op) + SizeAll(pr)
    case StackMapEntry(_, l, s) => 1 + SizeAll(l) + SizeAll(s)
  }

  function SizeAll(ns: seq<Node>): nat
    decreases ns
  {
    if ns == [] then 0 else Size(ns[0]) + SizeAll(ns[1..])
  }

  function SizeOpts(cs: seq<Option<Node>>): nat
    decreases cs
  {
    if cs == [] then 0 else SizeSlot(cs[0]) + SizeOpts(cs[1..])
  }

  function SizeSlot(c: Option<Node>): nat
    decreases c
  {
    match c
    case None => 0
    case Some(x) => Size(x)
  }

  /** The occupied slots of a constant pool, in pool order (the null entries filtered out). */
  function NonNull(cs: seq<Option<Node>>): (r: seq<Node>)
    ensures |r| <= |cs|
    ensures forall x :: x in r <==> Some(x) in cs
  {
    if cs == [] then []
    else (if cs[0].Some? then [cs[0].value] else []) + NonNull(cs[1..])
  }

  /**
   * The children a node's visit descends into, in the order the visit declares:
   * a class's fields, then its methods, then its attributes, then its constant pool;
   * a code attribute's exception table, then its attributes; a module's requires,
   * exports, opens and provides tables; a stack-map entry's local types, then its
   * stack-item types; the occupied slots of a constant pool.
   */
  function Children(n: Node): (r: seq<Node>)
    ensures SizeAll(r) == Size(n) - 1
  {
    match n
    case Leaf(_, _) => []
    case Listing(_, _, items) => items
    case Code(_, et, at) =>
      SizeAllAppend(et, at);
      et + at
    case ConstantPool(_, cs) =>
      SizeOptsNonNull(cs);
      NonNull(cs)
    case JavaClass(_, f, m, a, p) =>
      SizeAllAppend(f, m);
      SizeAllAppend(f + m, a);
      SizeAllAppend(f + m + a, [p]);
      f + m + a + [p]
    case Module(_, rq, ex, op, pr) =>
      SizeAllAppend(rq, ex);
      SizeAllAppend(rq + ex, op);
      SizeAllAppend(rq + ex + op, pr);
      rq + ex + op + pr
    case StackMapEntry(_, l, s) =>
      SizeAllAppend(l, s);
      l + s
  }

  /**
   * The calls a descending traversal of `n` makes to the piggy-backed visitor when it
   * starts with the ancestor stack `s`: `n` itself with `n` pushed, then each child's
   * traversal, in declared order, with `n` still on the stack.
   */
  function Trace(n: Node, s: seq<Node>): (r: seq<Callback>)
    decreases Size(n), 0
    ensures |r| == Size(n)
    ensures r[0] == Callback(n, s + [n])
  {
    [Callback(n, s + [n])] + TraceAll(Children(n), s + [n])
  }

  /** The calls made by traversing each node of `ns` in turn, all from the stack `s`. */
  function TraceAll(ns: seq<Node>, s: seq<Node>): (r: seq<Callback>)
    decreases SizeAll(ns), 1
    ensures |r| == SizeAll(ns)
  {
    if ns == [] then [] else Trace(ns[0], s) + TraceAll(ns[1..], s)
  }

  // ---------------------------------------------------------------------------
  // Queries on the ancestor stack (the traversal's `stack` field).
  // ---------------------------------------------------------------------------

  /** The node being visited: the top of the stack. */
  function Current(stack: seq<Node>): (r: Node)
    requires |stack| > 0
    ensures r in stack
  {
    stack[|stack| - 1]
  }

  /**
   * The ancestor `level` steps above the immediate container of the current node
   * (0 is the immediate container). Absent when the stack holds fewer than two
   * nodes or the level is negative; a level that reaches below the bottom of the
   * stack makes `Stack.elementAt` throw and is excluded here.
   */
  function Predecessor(stack: seq<Node>, level: int): (r: Option<Node>)
    requires level < 0 || |stack| < 2 || level <= |stack| - 2
    ensures r.None? <==> (|stack| < 2 || level < 0)
    ensures r.Some? ==> r.value == stack[|stack| - (level + 2)]
  {
    if |stack| < 2 || level < 0 then None
    else Some(stack[|stack| - (level + 2)])
  }

  /** The immediate container of the current node. */
  function ImmediatePredecessor(stack: seq<Node>): (r: Option<Node>)
    ensures r == Predecessor(stack, 0)
    ensures r.Some? <==> |stack| >= 2
    ensures r.Some? ==> Current(stack[..|stack| - 1]) == r.value
  {
    Predecessor(stack, 0)
  }

  /**
   * Pushing a node shifts every ancestor up one level: the old current node becomes
   * the immediate predecessor, and the old level `k` becomes level `k + 1`.
   */
  lemma PredecessorAfterPush(s: seq<Node>, x: Node, level: int)
    requires |s| >= 1 && 0 <= level <= |s| - 1
    ensures Predecessor(s + [x], level) == if level == 0 then Some(Current(s)) else Predecessor(s, level - 1)
  {
  }

  // ---------------------------------------------------------------------------
  // Facts about the specification functions.
  // ---------------------------------------------------------------------------

  lemma {:induction false} SizeAllAppend(a: seq<Node>, b: seq<Node>)
    ensures SizeAll(a + b) == SizeAll(a) + SizeAll(b)
    decreases |a|
  {
    if a == [] {
      assert a + b == b;
    } else {
      assert (a + b)[0] == a[0];
      assert (a + b)[1..] == a[1..] + b;
      SizeAllAppend(a[1..], b);
    }
  }

  /**
   * Filtering keeps pool order: the occupied slots of two consecutive runs of slots are
   * those of the first run followed by those of the second.
   */
  lemma {:induction false} NonNullAppend(a: seq<Option<Node>>, b: seq<Option<Node>>)
    ensures NonNull(a + b) == NonNull(a) + NonNull(b)
    decreases |a|
  {
    if a == [] {
      assert a + b == b;
    } else {
      assert (a + b)[0] == a[0];
      assert (a + b)[1..] == a[1..] + b;
      NonNullAppend(a[1..], b);
    }
  }

  lemma {:induction false} SizeOptsNonNull(cs: seq<Option<Node>>)
    ensures SizeAll(NonNull(cs)) == SizeOpts(cs)
    decreases |cs|
  {
    if cs != [] {
      SizeOptsNonNull(cs[1..]);
      var head := if cs[0].Some? then [cs[0].value] else [];
      SizeAllAppend(head, NonNull(cs[1..]));
    }
  }

  lemma {:induction false} SizeAllAt(ns: seq<Node>, i: nat)
    requires i < |ns|
    ensures Size(ns[i]) <= SizeAll(ns)
    decreases i
  {
    if i > 0 {
      SizeAllAt(ns[1..], i - 1);
    }
  }

  lemma {:induction false} TraceAllAppend(a: seq<Node>, b: seq<Node>, s: seq<Node>)
    ensures TraceAll(a + b, s) == TraceAll(a, s) + TraceAll(b, s)
    decreases |a|
  {
    if a == [] {
      assert a + b == b;
    } else {
      assert (a + b)[0] == a[0];
      assert (a + b)[1..] == a[1..] + b;
      TraceAllAppend(a[1..], b, s);
    }
  }

  lemma TraceAllSingle(x: Node, s: seq<Node>)
    ensures TraceAll([x], s) == Trace(x, s)
  {
    assert [x][1..] == [];
  }

  /** Traversing one more element of an array extends the calls by that element's traversal. */
  lemma TraceAllPrefix(ns: seq<Node>, i: nat, s: seq<Node>)
    requires i < |ns|
    ensures TraceAll(ns[..i + 1], s) == TraceAll(ns[..i], s) + Trace(ns[i], s)
  {
    assert ns[..i + 1] == ns[..i] + [ns[i]];
    TraceAllAppend(ns[..i], [ns[i]], s);
    TraceAllSingle(ns[i], s);
  }

  // The order in which each kind of node is reported and descended into.

  /** A leaf is reported once and nothing beneath it is visited. */
  lemma LeafOrder(n: Node, s: seq<Node>)
    requires n.Leaf?
    ensures Trace(n, s) == [Callback(n, s + [n])]
  {
  }

  /** A node with one child array is reported, then its array is traversed in array order. */
  lemma ListingOrder(n: Node, s: seq<Node>)
    requires n.Listing?
    ensures Trace(n, s) == [Callback(n, s + [n])] + TraceAll(n.items, s + [n])
  {
  }

  /** A code attribute is reported, then its exception table, then its attributes. */
  lemma CodeOrder(n: Node, s: seq<Node>)
    requires n.Code?
    ensures Trace(n, s) == [Callback(n, s + [n])]
                           + TraceAll(n.exceptionTable, s + [n])
                           + TraceAll(n.attributes, s + [n])
  {
    TraceAllAppend(n.exceptionTable, n.attributes, s + [n]);
  }

  /** A constant pool is reported, then its occupied slots in pool order. */
  lemma ConstantPoolOrder(n: Node, s: seq<Node>)
    requires n.ConstantPool?
    ensures Trace(n, s) == [Callback(n, s + [n])] + TraceAll(NonNull(n.constants), s + [n])
  {
  }

  /** A class is reported, then its fields, methods and attributes, then its constant pool. */
  lemma JavaClassOrder(n: Node, s: seq<Node>)
    requires n.JavaClass?
    ensures Trace(n, s) == [Callback(n, s + [n])]
                           + TraceAll(n.fields, s + [n])
                           + TraceAll(n.methods, s + [n])
                           + TraceAll(n.attributes, s + [n])
                           + Trace(n.constantPool, s + [n])
  {
    var t := s + [n];
    var f, m, a, p := n.fields, n.methods, n.attributes, n.constantPool;
    assert Children(n) == f + m + a + [p];
    calc {
      TraceAll(f + m + a + [p], t);
    == { TraceAllAppend(f + m + a, [p], t); TraceAllSingle(p, t); }
      TraceAll(f + m + a, t) + Trace(p, t);
    == { TraceAllAppend(f + m, a, t); }
      TraceAll(f + m, t) + TraceAll(a, t) + Trace(p, t);
    == { TraceAllAppend(f, m, t); }
      TraceAll(f, t) + TraceAll(m, t) + TraceAll(a, t) + Trace(p, t);
    }
    Concat5([Callback(n, t)], TraceAll(f, t), TraceAll(m, t), TraceAll(a, t), Trace(p, t));
  }

  /** A module attribute is reported, then its requires, exports, opens and provides tables. */
  lemma ModuleOrder(n: Node, s: seq<Node>)
    requires n.Module?
    ensures Trace(n, s) == [Callback(n, s + [n])]
                           + TraceAll(n.requiresTable, s + [n])
                           + TraceAll(n.exportsTable, s + [n])
                           + TraceAll(n.opensTable, s + [n])
                           + TraceAll(n.providesTable, s + [n])
  {
    var t := s + [n];
    var rq, ex, op, pr := n.requiresTable, n.exportsTable, n.opensTable, n.providesTable;
    assert Children(n) == rq + ex + op + pr;
    calc {
      TraceAll(rq + ex + op + pr, t);
    == { TraceAllAppend(rq + ex + op, pr, t); }
      TraceAll(rq + ex + op, t) + TraceAll(pr, t);
    == { TraceAllAppend(rq + ex, op, t); }
      TraceAll(rq + ex, t) + TraceAll(op, t) + TraceAll(pr, t);
    == { TraceAllAppend(rq, ex, t); }
      TraceAll(rq, t) + TraceAll(ex, t) + TraceAll(op, t) + TraceAll(pr, t);
    }
    Concat5([Callback(n, t)], TraceAll(rq, t), TraceAll(ex, t), TraceAll(op, t), TraceAll(pr, t));
  }

  /** A stack-map entry is reported, then the types of its locals, then the types of its stack items. */
  lemma StackMapEntryOrder(n: Node, s: seq<Node>)
    requires n.StackMapEntry?
    ensures Trace(n, s) == [Callback(n, s + [n])]
                           + TraceAll(n.typesOfLocals, s + [n])
                           + TraceAll(n.typesOfStackItems, s + [n])
  {
    TraceAllAppend(n.typesOfLocals, n.typesOfStackItems, s + [n]);
  }

  /** `d` is `n` or lies beneath one of its declared children: the nodes of the tree rooted at `n`. */
  ghost predicate Within(d: Node, n: Node)
    decreases Size(n), 0
  {
    d == n || WithinAll(d, Children(n))
  }

  /** `d` lies in the tree rooted at one of `ns`. */
  ghost predicate WithinAll(d: Node, ns: seq<Node>)
    decreases SizeAll(ns), 1
  {
    ns != [] && (Within(d, ns[0]) || WithinAll(d, ns[1..]))
  }

  /** A node is handed to the piggy-backed visitor exactly when it is in the traversed tree. */
  lemma {:induction false} TraceCovers(d: Node, n: Node, s: seq<Node>)
    ensures Within(d, n) <==> exists c :: c in Trace(n, s) && c.node == d
    decreases Size(n), 0
  {
    var t := s + [n];
    var head := Callback(n, t);
    TraceAllCovers(d, Children(n), t);
    assert Trace(n, s) == [head] + TraceAll(Children(n), t);
    if d == n {
      assert head in Trace(n, s);
    } else if WithinAll(d, Children(n)) {
      var c :| c in TraceAll(Children(n), t) && c.node == d;
      assert c in Trace(n, s);
    } else {
      forall c | c in Trace(n, s)
        ensures c.node != d
      {
        if c != head {
          assert c in TraceAll(Children(n), t);
        }
      }
    }
  }

  lemma {:induction false} TraceAllCovers(d: Node, ns: seq<Node>, s: seq<Node>)
    ensures WithinAll(d, ns) <==> exists c :: c in TraceAll(ns, s) && c.node == d
    decreases SizeAll(ns), 1
  {
    if ns != [] {
      SizeAllAt(ns, 0);
      assert SizeAll(ns[1..]) < SizeAll(ns);
      TraceCovers(d, ns[0], s);
      TraceAllCovers(d, ns[1..], s);
      var a, b := Trace(ns[0], s), TraceAll(ns[1..], s);
      assert TraceAll(ns, s) == a + b;
      if exists c :: c in a && c.node == d {
        var c :| c in a && c.node == d;
        assert c in a + b;
      } else if exists c :: c in b && c.node == d {
        var c :| c in b && c.node == d;
        assert c in a + b;
      } else {
        forall c | c in a + b
          ensures c.node != d
        {
        }
      }
    }
  }

  /** Each node on `st` from position `from` on is a declared child of the node beneath it. */
  ghost predicate ParentChain(st: seq<Node>, from: nat)
  {
    forall i :: from <= i < |st| - 1 ==> st[i + 1] in Children(st[i])
  }

  /**
   * A callback made while traversing one of `roots` from the stack `s`: the stack
   * extends `s` by a root and then by a chain of declared children, and its top is
   * the node handed to the piggy-backed visitor.
   */
  ghost predicate Descends(c: Callback, s: seq<Node>, roots: seq<Node>)
  {
    && |c.stack| > |s|
    && c.stack[..|s|] == s
    && c.stack[|s|] in roots
    && c.stack[|c.stack| - 1] == c.node
    && ParentChain(c.stack, |s|)
  }

  /** Every callback of a traversal sees the starting stack, then the root, then a chain of children ending in the visited node. */
  lemma {:induction false} TraceStacks(n: Node, s: seq<Node>)
    ensures forall c :: c in Trace(n, s) ==> Descends(c, s, [n])
    decreases Size(n), 0
  {
    var t := s + [n];
    TraceAllStacks(Children(n), t);
    forall c | c in Trace(n, s)
      ensures Descends(c, s, [n])
    {
      if c != Callback(n, t) {
        assert c in TraceAll(Children(n), t);
        assert Descends(c, t, Children(n));
        assert c.stack[..|t|] == t;
        assert c.stack[..|s|] == t[..|s|] == s;
        assert c.stack[|s|] == t[|s|] == n;
        assert c.stack[|s| + 1] in Children(c.stack[|s|]);
      }
    }
  }

  lemma {:induction false} TraceAllStacks(ns: seq<Node>, s: seq<Node>)
    ensures forall c :: c in TraceAll(ns, s) ==> Descends(c, s, ns)
    decreases SizeAll(ns), 1
  {
    if ns != [] {
      TraceStacks(ns[0], s);
      TraceAllStacks(ns[1..], s);
      forall c | c in TraceAll(ns, s)
        ensures Descends(c, s, ns)
      {
        if c in Trace(ns[0], s) {
          assert Descends(c, s, [ns[0]]);
        } else {
          assert Descends(c, s, ns[1..]);
        }
      }
    }
  }

  /**
   * While the piggy-backed visitor runs on a node, that node is the current node, and
   * (below the starting node) the immediate predecessor is the node whose declared
   * children include it.
   */
  lemma TraceContext(n: Node, s: seq<Node>)
    ensures forall c :: c in Trace(n, s) ==> |c.stack| > 0 && Current(c.stack) == c.node
    ensures forall c :: c in Trace(n, s) && c.node != n ==>
              ImmediatePredecessor(c.stack).Some? && c.node in Children(ImmediatePredecessor(c.stack).value)
  {
    TraceStacks(n, s);
    forall c | c in Trace(n, s) && c.node != n
      ensures ImmediatePredecessor(c.stack).Some? && c.node in Children(ImmediatePredecessor(c.stack).value)
    {
      assert Descends(c, s, [n]);
      var k := |c.stack| - 1;
      assert k > |s|;
      assert c.stack[k] in Children(c.stack[k - 1]);
    }
  }

  // ---------------------------------------------------------------------------
  // The traversal itself.
  // ---------------------------------------------------------------------------

  /**
   * A traversal of one class. `stack` is the ancestor stack; `log` is what the
   * piggy-backed visitor has been handed so far.
   */
  class DescendingVisitor {
    const clazz: Node
    var stack: seq<Node>
    var log: seq<Callback>

    constructor (clazz: Node)
      requires clazz.JavaClass?
      ensures this.clazz == clazz && stack == [] && log == []
    {
      this.clazz := clazz;
      stack := [];
      log := [];
    }

    /** Starts the traversal at the class. */
    method Visit()
      modifies this
      ensures stack == old(stack)
      ensures log == old(log) + Trace(clazz, old(stack))
    {
      Accept(clazz);
    }

    /** The node's double dispatch to the visit for its kind. */
    method Accept(n: Node)
      modifies this
      decreases Size(n), 2
      ensures stack == old(stack)
      ensures log == old(log) + Trace(n, old(stack))
    {
      match n
      case Leaf(_, _) => VisitLeaf(n);
      case Listing(_, _, _) => VisitListing(n);
      case Code(_, _, _) => VisitCode(n);
      case ConstantPool(_, _) => VisitConstantPool(n);
      case JavaClass(_, _, _, _, _) => VisitJavaClass(n);
      case Module(_, _, _, _, _) => VisitModule(n);
      case StackMapEntry(_, _, _) => VisitStackMapEntry(n);
    }

    /** Accepts each node of a child array, in array order. */
    method AcceptAll(ns: seq<Node>)
      modifies this
      decreases SizeAll(ns), 3
      ensures stack == old(stack)
      ensures log == old(log) + TraceAll(ns, old(stack))
    {
      var i := 0;
      while i < |ns|
        invariant 0 <= i <= |ns|
        invariant stack == old(stack)
        invariant log == old(log) + TraceAll(ns[..i], old(stack))
      {
        SizeAllAt(ns, i);
        Accept(ns[i]);
        TraceAllPrefix(ns, i, old(stack));
        i := i + 1;
      }
      assert ns[..i] == ns;
    }

    /** A node that holds nothing to descend into: push, call back, pop. */
    method VisitLeaf(n: Node)
      requires n.Leaf?
      modifies this
      decreases Size(n), 1
      ensures stack == old(stack)
      ensures log == old(log) + Trace(n, old(stack))
    {
      ghost var s := stack;
      stack := stack + [n];
      log := log + [Callback(n, stack)];
      Pop(s, n);
      LeafOrder(n, s);
    }

    /** A node with one child array: push, call back, accept the array, pop. */
    method VisitListing(n: Node)
      requires n.Listing?
      modifies this
      decreases Size(n), 1
      ensures stack == old(stack)
      ensures log == old(log) + Trace(n, old(stack))
    {
      ghost var s := stack;
      stack := stack + [n];
      log := log + [Callback(n, stack)];
      AcceptAll(n.items);
      Pop(s, n);
      ListingOrder(n, s);
    }

    /** A code attribute: the exception table, then the attributes. */
    method VisitCode(n: Node)
      requires n.Code?
      modifies this
      decreases Size(n), 1
      ensures stack == old(stack)
      ensures log == old(log) + Trace(n, old(stack))
    {
      ghost var s := stack;
      stack := stack + [n];
      log := log + [Callback(n, stack)];
      AcceptAll(n.exceptionTable);
      AcceptAll(n.attributes);
      Pop(s, n);
      CodeOrder(n, s);
      Concat4(old(log), [Callback(n, s + [n])], TraceAll(n.exceptionTable, s + [n]), TraceAll(n.attributes, s + [n]));
    }

    /** A constant pool: the null slots are filtered out, then the others are accepted in pool order. */
    method VisitConstantPool(n: Node)
      requires n.ConstantPool?
      modifies this
      decreases Size(n), 1
      ensures stack == old(stack)
      ensures log == old(log) + Trace(n, old(stack))
    {
      ghost var s := stack;
      stack := stack + [n];
      log := log + [Callback(n, stack)];
      SizeOptsNonNull(n.constants);
      AcceptAll(NonNull(n.constants));
      Pop(s, n);
      ConstantPoolOrder(n, s);
    }

    /** A class: the class itself, then its fields, methods and attributes, then its constant pool. */
    method VisitJavaClass(n: Node)
      requires n.JavaClass?
      modifies this
      decreases Size(n), 1
      ensures stack == old(stack)
      ensures log == old(log) + Trace(n, old(stack))
    {
      ghost var s := stack;
      stack := stack + [n];
      log := log + [Callback(n, stack)];
      AcceptAll(n.fields);
      AcceptAll(n.methods);
      AcceptAll(n.attributes);
      Accept(n.constantPool);
      Pop(s, n);
      JavaClassOrder(n, s);
      Concat6(old(log), [Callback(n, s + [n])], TraceAll(n.fields, s + [n]), TraceAll(n.methods, s + [n]),
              TraceAll(n.attributes, s + [n]), Trace(n.constantPool, s + [n]));
    }

    /** A module attribute: its requires, exports, opens and provides tables, in that order. */
    method VisitModule(n: Node)
      requires n.Module?
      modifies this
      decreases Size(n), 1
      ensures stack == old(stack)
      ensures log == old(log) + Trace(n, old(stack))
    {
      ghost var s := stack;
      stack := stack + [n];
      log := log + [Callback(n, stack)];
      AcceptAll(n.requiresTable);
      AcceptAll(n.exportsTable);
      AcceptAll(n.opensTable);
      AcceptAll(n.providesTable);
      Pop(s, n);
      ModuleOrder(n, s);
      Concat6(old(log), [Callback(n, s + [n])], TraceAll(n.requiresTable, s + [n]), TraceAll(n.exportsTable, s + [n]),
              TraceAll(n.opensTable, s + [n]), TraceAll(n.providesTable, s + [n]));
    }

    /** A stack-map entry: the types of its locals, then the types of its stack items. */
    method VisitStackMapEntry(n: Node)
      requires n.StackMapEntry?
      modifies this
      decreases Size(n), 1
      ensures stack == old(stack)
      ensures log == old(log) + Trace(n, old(stack))
    {
      ghost var s := stack;
      stack := stack + [n];
      log := log + [Callback(n, stack)];
      AcceptAll(n.typesOfLocals);
      AcceptAll(n.typesOfStackItems);
      Pop(s, n);
      StackMapEntryOrder(n, s);
      Concat4(old(log), [Callback(n, s + [n])], TraceAll(n.typesOfLocals, s + [n]), TraceAll(n.typesOfStackItems, s + [n]));
    }

    /** Removes the top of the stack, which the visit pushed on entry. */
    method Pop(ghost s: seq<Node>, ghost n: Node)
      requires stack == s + [n]
      modifies this`stack
      ensures stack == s
    {
      stack := stack[..|stack| - 1];
    }
  }

  // Re-association of a concatenation, named by the number of operands.

  lemma Concat4<T>(a: seq<T>, b: seq<T>, c: seq<T>, d: seq<T>)
    ensures a + b + c + d == a + (b + c + d)
  {
  }

  lemma Concat5<T>(a: seq<T>, b: seq<T>, c: seq<T>, d: seq<T>, e: seq<T>)
    ensures a + (b + c + d + e) == a + b + c + d + e
  {
  }

  lemma Concat6<T>(a: seq<T>, b: seq<T>, c: seq<T>, d: seq<T>, e: seq<T>, f: seq<T>)
    ensures a + b + c + d + e + f == a + (b + c + d + e + f)
  {
  }

}
