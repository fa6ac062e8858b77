/**
 * The type descriptor of a reference to a class or interface.
 *
 * An object type is built from a class name in either spelling (dots or slashes).
 * It keeps the name in the dotted form, and its signature is the field descriptor
 * of section 4.3.2 of the Java Virtual Machine Specification: `L`, the name in the
 * slash-separated internal form of section 4.2.1, then `;`.
 * The queries about the referenced class go to a class repository, passed in as a
 * lookup that may fail.
 */
module ObjectTypes {
  import opened Wrappers

  /** `s` with every occurrence of `a` replaced by `b`. */
  function Replace(s: string, a: char, b: char): (r: string)
    ensures |r| == |s|
    ensures forall i :: 0 <= i < |s| ==> r[i] == (if s[i] == a then b else s[i])
  {
    seq(|s|, i requires 0 <= i < |s| => if s[i] == a then b else s[i])
  }

  /** The internal form of a dotted name: each `.` becomes `/`. */
  function PackageToPath(name: string): (r: string)
    ensures |r| == |name| && '.' !in r
  {
    Replace(name, '.', '/')
  }

  /** The dotted form of an internal name: each `/` becomes `.`. */
  function PathToPackage(name: string): (r: string)
    ensures |r| == |name| && '/' !in r
  {
    Replace(name, '/', '.')
  }

  /**
   * The two spellings of a name are interchangeable: converting to one form forgets
   * which form the name was written in.
   */
  lemma CanonicalSpellings(name: string)
    ensures PathToPackage(PackageToPath(name)) == PathToPackage(name)
    ensures PackageToPath(PathToPackage(name)) == PackageToPath(name)
  {
    var a, b := PathToPackage(PackageToPath(name)), PathToPackage(name);
    assert forall i :: 0 <= i < |a| ==> a[i] == b[i];
    var c, d := PackageToPath(PathToPackage(name)), PackageToPath(name);
    assert forall i :: 0 <= i < |c| ==> c[i] == d[i];
  }

  /** A name with no `/` is already in the dotted form. */
  lemma DottedIsFixed(name: string)
    requires '/' !in name
    ensures PathToPackage(name) == name
  {
    var a := PathToPackage(name);
    assert forall i :: 0 <= i < |a| ==> a[i] == name[i];
  }

  /** The fields of an object type: the dotted class name and the signature. */
  datatype ObjectTypeFields = ObjectTypeFields(className: string, signature: string)

  /** An object type as its constructor leaves it: a dotted name and the matching descriptor. */
  type ObjectType = t: ObjectTypeFields
    | '/' !in t.className && t.signature == "L" + PackageToPath(t.className) + ";"
    witness ObjectTypeFields("", "L;")

  /** The constructor: the signature from the internal form of the name, the class name in dotted form. */
  function FromClassName(className: string): (t: ObjectType)
    ensures t.className == PathToPackage(className)
    ensures t.signature == "L" + PackageToPath(className) + ";"
  {
    CanonicalSpellings(className);
    ObjectTypeFields(PathToPackage(className), "L" + PackageToPath(className) + ";")
  }

  /** The static factory: the same object type the constructor builds. */
  function GetInstance(className: string): (t: ObjectType)
    ensures t == FromClassName(className)
  {
    FromClassName(className)
  }

  /** The name of the referenced class, in dotted form. */
  function GetClassName(t: ObjectType): (r: string)
    ensures '/' !in r
    ensures FromClassName(r) == t
  {
    DottedIsFixed(t.className);
    t.className
  }

  /**
   * Reads a class-type field descriptor back: `L`, an internal name without `;`, then `;`.
   * Gives the dotted class name, or nothing when the text is not such a descriptor.
   */
  function ClassNameOfDescriptor(d: string): Option<string>
  {
    if |d| >= 2 && d[0] == 'L' && d[|d| - 1] == ';' && ';' !in d[1..|d| - 1]
    then Some(PathToPackage(d[1..|d| - 1]))
    else None
  }

  /** The signature of an object type is a class-type descriptor that reads back as its class name. */
  lemma SignatureRoundTrip(className: string)
    requires ';' !in className
    ensures ClassNameOfDescriptor(FromClassName(className).signature) == Some(FromClassName(className).className)
  {
    var t := FromClassName(className);
    var p := PackageToPath(className);
    assert t.signature[1..|t.signature| - 1] == p;
    assert forall i :: 0 <= i < |p| ==> p[i] != ';';
    CanonicalSpellings(className);
  }

  /** Any Java object an object type can be compared with: another object type, or anything else (null included). */
  datatype Value = AnObjectType(objectType: ObjectType) | SomethingElse

  /**
   * `equals`: the other value is an object type naming the same class. Since the
   * signature is determined by the class name, that is the same object type.
   */
  predicate Equals(t: ObjectType, other: Value)
    ensures Equals(t, other) <==> other == AnObjectType(t)
  {
    other.AnObjectType? && other.objectType.className == t.className
  }

  /** `equals` is an equivalence on object types. */
  lemma EqualsIsEquivalence(a: ObjectType, b: ObjectType, c: ObjectType)
    ensures Equals(a, AnObjectType(a))
    ensures Equals(a, AnObjectType(b)) <==> Equals(b, AnObjectType(a))
    ensures Equals(a, AnObjectType(b)) && Equals(b, AnObjectType(c)) ==> Equals(a, AnObjectType(c))
  {
  }

  /** Object types built from two names are equal exactly when the names agree up to the spelling of the separators. */
  lemma EqualsUpToSpelling(x: string, y: string)
    ensures Equals(FromClassName(x), AnObjectType(FromClassName(y))) <==> PathToPackage(x) == PathToPackage(y)
    ensures Equals(FromClassName(x), AnObjectType(FromClassName(PackageToPath(x))))
  {
    CanonicalSpellings(x);
  }

  /** A Java `int`: 32-bit two's complement. */
  newtype Int32 = x: int | -0x8000_0000 <= x < 0x8000_0000

  /** The 32-bit wrap-around of Java `int` arithmetic. */
  function WrapInt32(x: int): (r: Int32)
    ensures (r as int - x) % 0x1_0000_0000 == 0
  {
    var m := x % 0x1_0000_0000;
    if m >= 0x8000_0000 then (m - 0x1_0000_0000) as Int32 else m as Int32
  }

  /** `31` raised to the power `k`. */
  function Pow31(k: nat): (r: int)
    ensures r >= 1
  {
    if k == 0 then 1 else 31 * Pow31(k - 1)
  }

  /**
   * The hash polynomial of `String.hashCode`, without wrap-around:
   * `s[0] * 31^(n-1) + s[1] * 31^(n-2) + ... + s[n-1]` for a string of length `n`.
   */
  function HashPolynomial(s: string): int
  {
    if s == [] then 0 else s[0] as int * Pow31(|s| - 1) + HashPolynomial(s[1..])
  }

  /** Appending a character multiplies the polynomial by 31 and adds the character. */
  lemma {:induction false} HashPolynomialSnoc(s: string, c: char)
    ensures HashPolynomial(s + [c]) == 31 * HashPolynomial(s) + c as int
    decreases |s|
  {
    if s == [] {
      assert [c][1..] == [];
    } else {
      var t := s + [c];
      assert t[0] == s[0] && t[1..] == s[1..] + [c];
      HashPolynomialSnoc(s[1..], c);
      assert Pow31(|t| - 1) == 31 * Pow31(|s| - 1);
      calc {
        HashPolynomial(t);
        s[0] as int * Pow31(|t| - 1) + HashPolynomial(s[1..] + [c]);
        s[0] as int * (31 * Pow31(|s| - 1)) + 31 * HashPolynomial(s[1..]) + c as int;
        { MulAssoc31(s[0] as int, Pow31(|s| - 1)); }
        31 * (s[0] as int * Pow31(|s| - 1)) + 31 * HashPolynomial(s[1..]) + c as int;
        31 * HashPolynomial(s) + c as int;
      }
    }
  }

  lemma MulAssoc31(a: int, b: int)
    ensures a * (31 * b) == 31 * (a * b)
  {
  }

  /** Two integers congruent modulo 2^32 wrap to the same Java `int`. */
  lemma WrapInt32Congruent(x: int, y: int)
    requires (x - y) % 0x1_0000_0000 == 0
    ensures WrapInt32(x) == WrapInt32(y)
  {
    var q := (x - y) / 0x1_0000_0000;
    assert x == y + 0x1_0000_0000 * q;
    ShiftMod(y, q);
  }

  lemma ShiftMod(y: int, q: int)
    ensures (y + 0x1_0000_0000 * q) % 0x1_0000_0000 == y % 0x1_0000_0000
  {
  }

  /**
   * `String.hashCode`: `h = 31 * h + c` over the characters, with `int` wrap-around. It is
   * the hash polynomial of the string reduced to a Java `int`.
   */
  function StringHash(s: string): (r: Int32)
    ensures r == WrapInt32(HashPolynomial(s))
    decreases |s|
  {
    if s == [] then 0
    else
      var init, last := s[..|s| - 1], s[|s| - 1];
      var h := StringHash(init);
      HashPolynomialSnoc(init, last);
      assert init + [last] == s;
      StepCongruent(h, HashPolynomial(init), last);
      WrapInt32(31 * h as int + last as int)
  }

  /** One step of the hash loop keeps the running hash congruent to the polynomial. */
  lemma StepCongruent(h: Int32, p: int, c: char)
    requires h == WrapInt32(p)
    ensures WrapInt32(31 * h as int + c as int) == WrapInt32(31 * p + c as int)
  {
    var d := h as int - p;
    assert d % 0x1_0000_0000 == 0;
    MultipleTimes31(d);
    assert (31 * h as int + c as int) - (31 * p + c as int) == 31 * d;
    WrapInt32Congruent(31 * h as int + c as int, 31 * p + c as int);
  }

  /** Thirty-one times a multiple of 2^32 is a multiple of 2^32. */
  lemma MultipleTimes31(d: int)
    requires d % 0x1_0000_0000 == 0
    ensures (31 * d) % 0x1_0000_0000 == 0
  {
    var q := d / 0x1_0000_0000;
    assert d == 0x1_0000_0000 * q;
    assert 31 * d == 0 + 0x1_0000_0000 * (31 * q);
    ShiftMod(0, 31 * q);
  }

  /** `hashCode`: the hash of the class name. */
  function HashCode(t: ObjectType): (r: Int32)
    ensures r == WrapInt32(HashPolynomial(t.className))
  {
    StringHash(t.className)
  }

  /** Equal object types have equal hash codes, whichever spelling they were built from. */
  lemma HashCodeAgreesWithEquals(a: ObjectType, b: ObjectType, name: string)
    ensures Equals(a, AnObjectType(b)) ==> HashCode(a) == HashCode(b)
    ensures HashCode(FromClassName(name)) == HashCode(FromClassName(PackageToPath(name)))
  {
    CanonicalSpellings(name);
  }

  // ---------------------------------------------------------------------------
  // Queries that consult the class repository.
  // ---------------------------------------------------------------------------

  /** What the repository reports about a class: its visibility, class or interface, and package. */
  datatype ClassInfo = ClassInfo(isPublic: bool, isClass: bool, packageName: string)

  /** The class-not-found exception. */
  datatype LookupError = ClassNotFound(className: string)

  /**
   * The class repository: a lookup by dotted name that fails when the class cannot be
   * found, and the subclass test, which fails when a class it needs cannot be found.
   */
  datatype Repository = Repository(
    lookupClass: string -> Option<ClassInfo>,
    instanceOf: (string, string) -> Result<bool, LookupError>)

  /**
   * Access control of section 5.4.4 of the Java Virtual Machine Specification: the class
   * is accessible when it is public, and otherwise exactly when the accessor is in the
   * same package. A class that cannot be found is an error, not "inaccessible"; the
   * accessor is only looked up when the class is not public.
   */
  function AccessibleTo(t: ObjectType, accessor: ObjectType, repo: Repository): (r: Result<bool, LookupError>)
    ensures repo.lookupClass(t.className).None? ==> r == Failure(ClassNotFound(t.className))
    ensures repo.lookupClass(t.className).Some? && repo.lookupClass(t.className).value.isPublic ==> r == Success(true)
    ensures repo.lookupClass(t.className).Some? && !repo.lookupClass(t.className).value.isPublic ==>
              (repo.lookupClass(accessor.className).None? ==> r == Failure(ClassNotFound(accessor.className))) &&
              (repo.lookupClass(accessor.className).Some? ==>
                 r == Success(repo.lookupClass(accessor.className).value.packageName == repo.lookupClass(t.className).value.packageName))
  {
    match repo.lookupClass(t.className)
    case None => Failure(ClassNotFound(t.className))
    case Some(jc) =>
      if jc.isPublic then Success(true)
      else
        match repo.lookupClass(accessor.className)
        case None => Failure(ClassNotFound(accessor.className))
        case Some(acc) => Success(acc.packageName == jc.packageName)
  }

  /** Every class that can be found is accessible to itself. */
  lemma AccessibleToItself(t: ObjectType, repo: Repository)
    requires repo.lookupClass(t.className).Some?
    ensures AccessibleTo(t, t, repo) == Success(true)
  {
  }

  /** Accessibility depends on the accessor only through its package. */
  lemma AccessibleToSamePackage(t: ObjectType, a: ObjectType, b: ObjectType, repo: Repository)
    requires repo.lookupClass(a.className).Some? && repo.lookupClass(b.className).Some?
    requires repo.lookupClass(a.className).value.packageName == repo.lookupClass(b.className).value.packageName
    ensures AccessibleTo(t, a, repo) == AccessibleTo(t, b, repo)
  {
  }

  /** `referencesClassExact`: whether the type names a class rather than an interface; an error when it cannot be found. */
  function ReferencesClassExact(t: ObjectType, repo: Repository): (r: Result<bool, LookupError>)
    ensures r.Failure? <==> repo.lookupClass(t.className).None?
    ensures r.Failure? ==> r.error == ClassNotFound(t.className)
    ensures r.Success? ==> r.value == repo.lookupClass(t.className).value.isClass
  {
    match repo.lookupClass(t.className)
    case None => Failure(ClassNotFound(t.className))
    case Some(jc) => Success(jc.isClass)
  }

  /** `referencesInterfaceExact`: whether the type names an interface rather than a class; an error when it cannot be found. */
  function ReferencesInterfaceExact(t: ObjectType, repo: Repository): (r: Result<bool, LookupError>)
    ensures r.Failure? <==> repo.lookupClass(t.className).None?
    ensures r.Failure? ==> r.error == ClassNotFound(t.className)
    ensures r.Success? ==> r.value == !repo.lookupClass(t.className).value.isClass
  {
    match repo.lookupClass(t.className)
    case None => Failure(ClassNotFound(t.className))
    case Some(jc) => Success(!jc.isClass)
  }

  /** The deprecated `referencesClass`: as the exact query, but false when the class cannot be found. */
  function ReferencesClass(t: ObjectType, repo: Repository): (r: bool)
    ensures r <==> repo.lookupClass(t.className).Some? && repo.lookupClass(t.className).value.isClass
  {
    match repo.lookupClass(t.className)
    case None => false
    case Some(jc) => jc.isClass
  }

  /** The deprecated `referencesInterface`: as the exact query, but false when the class cannot be found. */
  function ReferencesInterface(t: ObjectType, repo: Repository): (r: bool)
    ensures r <==> repo.lookupClass(t.className).Some? && !repo.lookupClass(t.className).value.isClass
  {
    match repo.lookupClass(t.className)
    case None => false
    case Some(jc) => !jc.isClass
  }

  /**
   * The exact queries fail together, and otherwise one is the negation of the other;
   * the deprecated ones agree with them where they succeed and are both false where they fail.
   */
  lemma ReferencesQueriesAgree(t: ObjectType, repo: Repository)
    ensures ReferencesClassExact(t, repo).Failure? <==> ReferencesInterfaceExact(t, repo).Failure?
    ensures ReferencesClassExact(t, repo).Failure? ==>
              ReferencesClassExact(t, repo) == Failure(ClassNotFound(t.className)) &&
              !ReferencesClass(t, repo) && !ReferencesInterface(t, repo)
    ensures ReferencesClassExact(t, repo).Success? ==>
              ReferencesInterfaceExact(t, repo) == Success(!ReferencesClassExact(t, repo).value) &&
              ReferencesClass(t, repo) == ReferencesClassExact(t, repo).value &&
              ReferencesInterface(t, repo) == ReferencesInterfaceExact(t, repo).value
    ensures !(ReferencesClass(t, repo) && ReferencesInterface(t, repo))
  {
  }

  /**
   * `subclassOf`: false when this type names an interface (whatever the other type is), or
   * when it names a class and the other names an interface; otherwise the repository's
   * subclass test. Lookups happen left to right and the first that fails is the error.
   */
  function SubclassOf(t: ObjectType, superclass: ObjectType, repo: Repository): (r: Result<bool, LookupError>)
    ensures repo.lookupClass(t.className).None? ==> r == Failure(ClassNotFound(t.className))
    ensures repo.lookupClass(t.className).Some? && !repo.lookupClass(t.className).value.isClass ==> r == Success(false)
    ensures repo.lookupClass(t.className).Some? && repo.lookupClass(t.className).value.isClass ==>
              (repo.lookupClass(superclass.className).None? ==> r == Failure(ClassNotFound(superclass.className))) &&
              (repo.lookupClass(superclass.className).Some? && !repo.lookupClass(superclass.className).value.isClass ==> r == Success(false)) &&
              (repo.lookupClass(superclass.className).Some? && repo.lookupClass(superclass.className).value.isClass ==>
                 r == repo.instanceOf(t.className, superclass.className))
  {
    var thisIsInterface :- ReferencesInterfaceExact(t, repo);
    if thisIsInterface then Success(false)
    else
      var superIsInterface :- ReferencesInterfaceExact(superclass, repo);
      if superIsInterface then Success(false)
      else repo.instanceOf(t.className, superclass.className)
  }

  /** A positive subclass answer means both names were found, both are classes, and the repository's test said so. */
  lemma SubclassOfTrueMeansClasses(t: ObjectType, superclass: ObjectType, repo: Repository)
    requires SubclassOf(t, superclass, repo) == Success(true)
    ensures ReferencesClassExact(t, repo) == Success(true)
    ensures ReferencesClassExact(superclass, repo) == Success(true)
    ensures repo.instanceOf(t.className, superclass.className) == Success(true)
  {
  }
}
