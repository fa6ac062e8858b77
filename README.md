# Apache Commons BCEL: descending traversal, object types and Mini identifiers

This project models three parts of Apache Commons BCEL and proves properties of them.

- **`DescendingVisitor`** (module `Traversal`, file `Traversal.dfy`). It walks the object graph of a
  class file depth first. Every node is pushed on an explicit ancestor stack, handed to a
  piggy-backed visitor, its children are walked, and it is popped again. The graph is modelled as
  a tree datatype `Node`. The piggy-backed visitor is modelled as a `log` of `Callback(node, stack)`
  records. The class `DescendingVisitor` has `stack` and `log` fields, and one method per shape of
  `visitX`. Each method is proved against the specification function `Trace`, which lists the
  callbacks of a traversal in order. Lemmas about `Trace` prove three things:
  - the declared child order of each visit;
  - a node is handed to the visitor exactly when it is in the traversed tree, and there are as
    many callbacks as the tree has nodes;
  - the stack a callback sees is the chain of ancestors, so `current()` is the visited node and
    `predecessor()` is its container.
- **`ObjectType`** (module `ObjectTypes`, file `ObjectTypes.dfy`). This is the type descriptor of a
  class reference. It stores the dotted class name and the signature `L<internal name>;`. The model
  covers:
  - the constructor and the `getInstance` factory;
  - `equals`, `hashCode` (Java's `String.hashCode` with 32-bit wrap-around) and `getClassName`;
  - `accessibleTo`, the four `references*` queries and `subclassOf`. These consult a class
    repository, which is passed in as a lookup that can fail with "class not found".
- **Mini's `ASTIdent` and `Variable`** (module `Mini`, file `Mini.dfy`).
  - `ASTIdent` is the identifier node of the Mini example compiler. The model covers name
    resolution in the environment, type unification with the expected type, and the Java-source
    and bytecode back ends.
  - `Variable` is the environment entry of a declared variable. It keeps copies of the
    declaration's name and position, and reads the declaration's type on each access.

`Wrappers.dfy` holds the `Option` and `Result` datatypes used by all three.

## Model

| member | source | states |
|---|---|---|
| Traversal.Current | src/main/java/org/apache/bcel/classfile/DescendingVisitor.java:54-56 | the current object is the top of the stack, so it is one of the stacked nodes |
| Traversal.Predecessor | src/main/java/org/apache/bcel/classfile/DescendingVisitor.java:69-75 | absent exactly when the stack holds fewer than two nodes or the level is negative; otherwise the node `level + 2` from the top |
| Traversal.ImmediatePredecessor | src/main/java/org/apache/bcel/classfile/DescendingVisitor.java:61-63 | is `predecessor(0)`; present exactly when at least two nodes are stacked, and is then the node just below the current one |
| Traversal.PredecessorAfterPush | src/main/java/org/apache/bcel/classfile/DescendingVisitor.java:69-75 | a push shifts the ancestors one level: the old current node becomes level 0, and the old level k becomes level k+1 |
| Traversal.NonNull | src/main/java/org/apache/bcel/classfile/DescendingVisitor.java:263 | the filtered constant pool holds exactly the nodes of the occupied slots, and is no longer than the pool |
| Traversal.LeafOrder | src/main/java/org/apache/bcel/classfile/DescendingVisitor.java:99-103 | a node without children yields exactly one callback, made with the node pushed |
| Traversal.ListingOrder | src/main/java/org/apache/bcel/classfile/DescendingVisitor.java:313-318 | a node with one child array yields its own callback, then the traversal of each array element in order |
| Traversal.CodeOrder | src/main/java/org/apache/bcel/classfile/DescendingVisitor.java:131-137 | a code attribute yields its callback, then the exception table, then the attributes |
| Traversal.ConstantPoolOrder | src/main/java/org/apache/bcel/classfile/DescendingVisitor.java:260-265 | a constant pool yields its callback, then the traversal of the non-null slots only, in pool order |
| Traversal.JavaClassOrder | src/main/java/org/apache/bcel/classfile/DescendingVisitor.java:336-344 | a class yields its callback, then its fields, methods and attributes, and its constant pool last |
| Traversal.ModuleOrder | src/main/java/org/apache/bcel/classfile/DescendingVisitor.java:417-425 | a module attribute yields its callback, then the requires, exports, opens and provides tables in that order |
| Traversal.StackMapEntryOrder | src/main/java/org/apache/bcel/classfile/DescendingVisitor.java:547-553 | a stack-map entry yields its callback, then the local types, then the stack-item types |
| Traversal.Children | src/main/java/org/apache/bcel/classfile/DescendingVisitor.java:313-318 | the children a visit descends into account for all the nodes beneath the node: their sizes add up to the node's size less one |
| Traversal.Trace | src/main/java/org/apache/bcel/classfile/DescendingVisitor.java:88-93 | the calls of a traversal are as many as the tree has nodes, and the first is the node itself with the node pushed |
| Traversal.TraceAll | src/main/java/org/apache/bcel/classfile/DescendingVisitor.java:47-49 | traversing an array makes as many calls as the trees of the array have nodes |
| Traversal.TraceCovers | src/main/java/org/apache/bcel/classfile/DescendingVisitor.java:47-49 | a node is handed to the piggy-backed visitor if and only if it is the root or lies beneath one of its declared children |
| Traversal.TraceAllCovers | src/main/java/org/apache/bcel/classfile/DescendingVisitor.java:47-49 | a node is handed to the visitor while traversing an array if and only if it lies in the tree of one of the array's elements |
| Traversal.TraceStacks | src/main/java/org/apache/bcel/classfile/DescendingVisitor.java:88-93 | every callback sees the starting stack, then the root, then a chain of declared children ending in the visited node |
| Traversal.TraceContext | src/main/java/org/apache/bcel/classfile/DescendingVisitor.java:51-75 | during every callback `current()` is the visited node; below the root, `predecessor()` is present and is the node that declares it as a child |
| Traversal.DescendingVisitor.constructor | src/main/java/org/apache/bcel/classfile/DescendingVisitor.java:42-45 | keeps the class; the stack and the log start empty |
| Traversal.DescendingVisitor.Visit | src/main/java/org/apache/bcel/classfile/DescendingVisitor.java:80-82 | `visit()` appends the whole traversal of the class to the log and leaves the stack as it found it |
| Traversal.DescendingVisitor.Accept | src/main/java/org/apache/bcel/classfile/DescendingVisitor.java:342 | a node's accept appends that node's traversal to the log and restores the stack |
| Traversal.DescendingVisitor.AcceptAll | src/main/java/org/apache/bcel/classfile/DescendingVisitor.java:47-49 | accepting an array appends the elements' traversals in array order and restores the stack |
| Traversal.DescendingVisitor.VisitLeaf | src/main/java/org/apache/bcel/classfile/DescendingVisitor.java:99-103 | push, call back, pop: the log grows by the node's traversal and the stack is restored |
| Traversal.DescendingVisitor.VisitListing | src/main/java/org/apache/bcel/classfile/DescendingVisitor.java:88-93 | push, call back, accept the child array, pop: the log grows by the node's traversal and the stack is restored |
| Traversal.DescendingVisitor.VisitCode | src/main/java/org/apache/bcel/classfile/DescendingVisitor.java:131-137 | the log grows by the code attribute's traversal and the stack is restored |
| Traversal.DescendingVisitor.VisitConstantPool | src/main/java/org/apache/bcel/classfile/DescendingVisitor.java:260-265 | the log grows by the pool's traversal, which skips null slots, and the stack is restored |
| Traversal.DescendingVisitor.VisitJavaClass | src/main/java/org/apache/bcel/classfile/DescendingVisitor.java:336-344 | the log grows by the class's traversal and the stack is restored |
| Traversal.DescendingVisitor.VisitModule | src/main/java/org/apache/bcel/classfile/DescendingVisitor.java:417-425 | the log grows by the module's traversal and the stack is restored |
| Traversal.DescendingVisitor.VisitStackMapEntry | src/main/java/org/apache/bcel/classfile/DescendingVisitor.java:547-553 | the log grows by the entry's traversal and the stack is restored |
| Traversal.DescendingVisitor.Pop | src/main/java/org/apache/bcel/classfile/DescendingVisitor.java:552 | `stack.pop()` removes exactly the node the visit pushed, restoring the stack the visit started from |
| ObjectTypes.PackageToPath | src/main/java/org/apache/bcel/generic/ObjectType.java:50 | the internal form has the same length and contains no `.` |
| ObjectTypes.PathToPackage | src/main/java/org/apache/bcel/generic/ObjectType.java:51 | the dotted form has the same length and contains no `/` |
| ObjectTypes.CanonicalSpellings | src/main/java/org/apache/bcel/generic/ObjectType.java:50-51 | converting to one form forgets the form the name was written in |
| ObjectTypes.FromClassName | src/main/java/org/apache/bcel/generic/ObjectType.java:49-52 | the class name is stored dotted, and the signature is `L`, the slash form, then `;` |
| ObjectTypes.GetInstance | src/main/java/org/apache/bcel/generic/ObjectType.java:38-40 | the factory builds the same object type as the constructor |
| ObjectTypes.GetClassName | src/main/java/org/apache/bcel/generic/ObjectType.java:79-82 | the name has no `/`, and rebuilding an object type from it gives back the same object type |
| ObjectTypes.SignatureRoundTrip | src/main/java/org/apache/bcel/generic/ObjectType.java:49-52 | the signature is a class descriptor that reads back as the stored class name |
| ObjectTypes.EqualsIsEquivalence | src/main/java/org/apache/bcel/generic/ObjectType.java:71-74 | `equals` is reflexive, symmetric and transitive on object types |
| ObjectTypes.Equals | src/main/java/org/apache/bcel/generic/ObjectType.java:71-74 | another value is `equals` exactly when it is the same object type; any other value never is |
| ObjectTypes.EqualsUpToSpelling | src/main/java/org/apache/bcel/generic/ObjectType.java:49-52 | types built from two names are equal exactly when the names agree up to separator spelling |
| ObjectTypes.WrapInt32 | src/main/java/org/apache/bcel/generic/ObjectType.java:88-90 | the result is a Java `int` congruent to the input modulo 2^32 |
| ObjectTypes.StringHash | src/main/java/org/apache/bcel/generic/ObjectType.java:89 | the hash of a string is its hash polynomial `s[0]*31^(n-1) + ... + s[n-1]` reduced to a Java `int` |
| ObjectTypes.HashCode | src/main/java/org/apache/bcel/generic/ObjectType.java:87-90 | the hash code is the hash polynomial of the class name reduced to a Java `int` |
| ObjectTypes.HashCodeAgreesWithEquals | src/main/java/org/apache/bcel/generic/ObjectType.java:87-90 | equal object types have equal hash codes, whichever spelling they were built from |
| ObjectTypes.AccessibleTo | src/main/java/org/apache/bcel/generic/ObjectType.java:59-66 | class not found is an error; a public class is accessible; otherwise the accessor must be found and be in the same package |
| ObjectTypes.AccessibleToItself | src/main/java/org/apache/bcel/generic/ObjectType.java:59-66 | a class that can be found is accessible to itself |
| ObjectTypes.AccessibleToSamePackage | src/main/java/org/apache/bcel/generic/ObjectType.java:64-65 | two found accessors in the same package get the same answer |
| ObjectTypes.ReferencesClassExact | src/main/java/org/apache/bcel/generic/ObjectType.java:107-116 | fails exactly when the class cannot be found, with class-not-found for its name; otherwise true exactly when the repository reports a class rather than an interface |
| ObjectTypes.ReferencesInterfaceExact | src/main/java/org/apache/bcel/generic/ObjectType.java:134-143 | fails exactly when the class cannot be found, with class-not-found for its name; otherwise true exactly when the repository reports an interface rather than a class |
| ObjectTypes.ReferencesClass | src/main/java/org/apache/bcel/generic/ObjectType.java:92-105 | true exactly when the class can be found and the repository reports a class |
| ObjectTypes.ReferencesInterface | src/main/java/org/apache/bcel/generic/ObjectType.java:118-132 | true exactly when the class can be found and the repository reports an interface |
| ObjectTypes.ReferencesQueriesAgree | src/main/java/org/apache/bcel/generic/ObjectType.java:97-143 | the exact queries fail together and otherwise negate each other; the deprecated ones agree with them and are both false on failure |
| ObjectTypes.SubclassOf | src/main/java/org/apache/bcel/generic/ObjectType.java:150-155 | lookup failures are errors in left-to-right order; an interface on either side gives false; two classes give the repository's answer |
| ObjectTypes.SubclassOfTrueMeansClasses | src/main/java/org/apache/bcel/generic/ObjectType.java:150-155 | a true answer means both names are classes and the repository's subclass test said true |
| Mini.Unify | examples/Mini/ASTIdent.java:72-83 | the result is the declared type or the expected one; a known declared type wins; it is unknown exactly when both are |
| Mini.UnifyAllFixedByFirstKnown | examples/Mini/ASTIdent.java:72-85 | over a sequence of uses, a known type never changes, and an unknown one becomes the first known expected type |
| Mini.UnifyIdempotent | examples/Mini/ASTIdent.java:72-85 | repeating a use with the same expected type changes nothing |
| Mini.NatToString | src/examples/Mini/Variable.java:81 | the text is non-empty, all decimal digits, and starts with `0` only for zero (no leading zeros) |
| Mini.IntToString | src/examples/Mini/Variable.java:81 | the text starts with `-` exactly for negative numbers; the rest is decimal digits without leading zeros |
| Mini.NatToStringRoundTrip | src/examples/Mini/Variable.java:81 | the decimal text of a natural number reads back as that number |
| Mini.IntToStringRoundTrip | src/examples/Mini/Variable.java:81 | the signed decimal text of any integer reads back as that integer |
| Mini.SourceOperand | examples/Mini/ASTIdent.java:91-98 | the operand is the name itself exactly when the name is neither TRUE nor FALSE; TRUE gives `1` and FALSE gives `0` |
| Mini.ByteCodeFor | examples/Mini/ASTIdent.java:103-111 | a constant push exactly for TRUE and FALSE, of 1 for TRUE and 0 for FALSE; otherwise a load of the variable's slot |
| Mini.BackEndsAgree | examples/Mini/ASTIdent.java:91-111 | both back ends pick the same case: a push of 1 or 0 exactly where the source text is `1` or `0`, otherwise a load of the variable's slot |
| Mini.ASTIdent.constructor | examples/Mini/ASTIdent.java:30-35 | stores the name, type and position; the reference is unresolved |
| Mini.ASTIdent.SetName | examples/Mini/ASTIdent.java:116-117 | `getName()` returns the name that was set |
| Mini.ASTIdent.SetType | examples/Mini/ASTIdent.java:75 | the node's type cell holds the type that was set |
| Mini.ASTIdent.Traverse | examples/Mini/ASTIdent.java:49-61 | an unbound name and a name bound to a function each add their exact error at the node's position and leave the reference alone; a variable becomes the reference; the node is returned |
| Mini.ASTIdent.Eval | examples/Mini/ASTIdent.java:66-86 | the result is the unification of the declared type with the expected one; the node's type and the declaration's type both become it; the expression is simple |
| Mini.ASTIdent.Code | examples/Mini/ASTIdent.java:91-98 | exactly one operand is pushed: `1` for TRUE, `0` for FALSE, otherwise the name |
| Mini.ASTIdent.ByteCode | examples/Mini/ASTIdent.java:103-113 | exactly one instruction is appended: push 1 or 0 for TRUE and FALSE, otherwise a load of the variable's local slot |
| Mini.Variable.constructor | src/examples/Mini/Variable.java:34-36 | an ordinary (not reserved) entry for the declaration, with no local slot yet |
| Mini.Variable.WithReserved | src/examples/Mini/Variable.java:38-45 | keeps the declaration and the reserved flag, and copies the name, line and column from the declaration |
| Mini.Variable.SetLocalVariable | src/examples/Mini/Variable.java:74-76 | `getLocalVariable()` returns the slot that was set |
| Mini.Variable.ToString | src/examples/Mini/Variable.java:79-84 | the two texts; both start with the hash key, and the text ends in `>` exactly for reserved words |
| Mini.DeclareThenRename | src/examples/Mini/Variable.java:38-72 | the hash key, line and column are snapshots taken at construction, while the entry's type follows the declaration |

## Left out

- The piggy-backed `Visitor` is not modelled as code. Each call to it is recorded in the log as the node and a copy of the ancestor stack.
- The node classes of the class-file object graph are not modelled. The graph is a tree of values: one constructor per shape of visit, with an `id` standing for identity and for contents the traversal does not read. Shared nodes, aliasing and cycles are not modelled; on a cyclic graph the Java traversal would not terminate.
- The element types of each child array are not enforced. For example, a code attribute's exception table may hold any node.
- A `null` child array is treated as empty. That matches the `Streams.of` helper behind `accept(E[])` (DescendingVisitor.java:48). `visitConstantPool` (line 263) and `visitMethodParameters` (line 411) call `java.util.stream.Stream.of` instead, which throws `NullPointerException` on a `null` array; that throw is not modelled. A `null` element of any array other than the constant pool is not modelled either.
- `Traversal.Current`: a precondition excludes the empty stack, where `Stack.peek` throws `EmptyStackException`. The contract states only that the result is one of the stacked nodes; that it is the top element is in the body, not the contract.
- `Traversal.Predecessor`: a precondition excludes a level that reaches below the bottom of the stack, where `Stack.elementAt` throws.
- `Utility.packageToPath` and `Utility.pathToPackage` are not part of this model. They are taken to replace every `.` with `/` and back again.
- `ObjectType` omits the `Type` base class apart from the signature, and `Const.T_REFERENCE`.
- The class repository is not modelled. It is a parameter: a lookup that may fail, and a subclass test that may fail.
- `ObjectTypes.StringHash`, `ObjectTypes.HashCode`: Dafny characters are Unicode scalar values, so a character above U+FFFF is hashed as one value, where `String.hashCode` hashes its two UTF-16 surrogates. The results agree with Java for strings made only of characters up to U+FFFF.
- `Mini.T_UNKNOWN` is 15, the value of `org.apache.bcel.Const.T_UNKNOWN`. That class is not part of this model.
- `MiniC.addError` is modelled as appending to an error list. `Environment` is a map from names to entries.
- `ASTFunDecl.push` is not part of this model, so the back ends record only what they hand over. `Code` records the operand text. `ByteCode` records the instruction, with PUSH as a constant and ILOAD as a slot index; the stack-depth counter is left out.
- The constant-pool and method-generator arguments of `byte_code` are left out.
- The JJTree constructor `ASTIdent(MiniParser, int)` and `jjtCreate` are not modelled: they only build parser nodes. `ASTIdent.toString` is left out because `SimpleNode.toString` is not part of this model.
- The getters `Mini.ASTIdent.GetName`, `Mini.Variable.GetHashKey`, `GetLine`, `GetColumn`, `GetType` and `GetLocalVariable` carry no contract of their own. What they return is stated by the setters, the constructors and `Mini.DeclareThenRename`.
- `Variable.getName()` is modelled by reading the field `name` directly.
- `Mini.ASTIdent.Eval`: it requires the reference to be resolved; `ASTIdent.eval` dereferences it and throws `NullPointerException` when it is `null`.
- `Mini.ASTIdent.ByteCode`: it requires a resolved reference with a local slot for names other than TRUE and FALSE; `ASTIdent.byte_code` dereferences `reference` and the local variable, and throws `NullPointerException` when either is `null`.
- The tests `TestCreator` and `TestArrayAccess03Creator` generate class files with BCEL. They are not modelled.
