/**
 * Comparator resolution (`Comparators`): how two runtime values of arbitrary registered types
 * are compared.
 *
 * Comparators are registered for a pair of classes. To compare two values the registry looks
 * for a comparator for the pair of their classes, in four phases: a registered comparator whose
 * classes accept the pair (or the swapped pair, through an inverse wrapper); the equality
 * comparator when both classes are the same class other than `Object`; a registered comparator
 * reached by converting one operand; one reached by converting both. The answer, found or not,
 * is memoised per class pair and never invalidated.
 *
 * Java reflection and the converter registry are not part of this model: a `World` gives the
 * assignability relation between classes, the converter lookup, the converters' and the
 * registered comparators' behaviour, and each value's class.
 */
module Comparisons {
  import opened Wrappers

  /** A Java class, by identity. */
  type ClassId = nat

  /** `Object.class`. */
  const ObjectClass: ClassId := 0

  /** A non-null runtime value. */
  type Value = nat

  /** A comparator function supplied at registration. */
  type ComparatorId = nat

  /** A converter function returned by the converter registry. */
  type ConverterId = nat

  datatype Relation = Equal | NotEqual | Smaller | Greater

  /** `Relation.get(boolean)`: the equality-only reading of a boolean. */
  function RelationOf(b: bool): (r: Relation)
    ensures r == Equal <==> b
    ensures r == NotEqual <==> !b
  {
    if b then Equal else NotEqual
  }

  /**
   * What the resolution consults but does not define.
   * - `assignable(a, b)`: `a.isAssignableFrom(b)`;
   * - `converter(from, to)`: `Converters.getConverter(from, to)`, None for null;
   * - `convert(k, v)`: what converter `k` returns for `v`, None for null;
   * - `compare(id, a, b)` and `ordering(id)`: a registered comparator's `apply` and `supportsOrdering`;
   * - `invert(r)`: how an inverse comparator turns the wrapped comparator's answer around;
   * - `classOf(v)`: `v.getClass()`.
   */
  datatype World = World(
    assignable: (ClassId, ClassId) -> bool,
    converter: (ClassId, ClassId) -> Option<ConverterId>,
    convert: (ConverterId, Value) -> Option<Value>,
    compare: (ComparatorId, Value, Value) -> Relation,
    ordering: ComparatorId -> bool,
    invert: Relation -> Relation,
    classOf: Value -> ClassId)

  datatype ComparatorInfo = ComparatorInfo(first: ClassId, second: ClassId, comparator: ComparatorId)
  {
    /** `getType(first)`. */
    function TypeAt(isFirst: bool): ClassId
    {
      if isFirst then first else second
    }
  }

  /** A resolved comparator: a registered one, the equality fallback, or a wrapper. */
  datatype Comparator =
    | Registered(id: ComparatorId)
    | EqualsComparator
    | Inverse(inner: Comparator)
    | Converted(c1: Option<ConverterId>, base: Comparator, c2: Option<ConverterId>)

  /** `apply` of a resolved comparator. An inverse comparator asks the wrapped one with the
      operands swapped and inverts the answer; a converted comparator converts each operand
      that has a converter and answers NotEqual as soon as a conversion yields null. */
  function Apply(w: World, c: Comparator, o1: Value, o2: Value): Relation
    decreases c
  {
    match c
    case Registered(id) => w.compare(id, o1, o2)
    case EqualsComparator => RelationOf(o1 == o2)
    case Inverse(inner) => w.invert(Apply(w, inner, o2, o1))
    case Converted(c1, base, c2) =>
      var t1 := if c1.None? then Some(o1) else w.convert(c1.value, o1);
      if t1.None? then NotEqual
      else
        var t2 := if c2.None? then Some(o2) else w.convert(c2.value, o2);
        if t2.None? then NotEqual
        else Apply(w, base, t1.value, t2.value)
  }

  /** `supportsOrdering`: wrappers ask the comparator they wrap; the equality fallback never
      orders. */
  function SupportsOrdering(w: World, c: Comparator): bool
    decreases c
  {
    match c
    case Registered(id) => w.ordering(id)
    case EqualsComparator => false
    case Inverse(inner) => SupportsOrdering(w, inner)
    case Converted(_, base, _) => SupportsOrdering(w, base)
  }

  /** The comparator a resolved comparator ultimately calls. */
  function BaseOf(c: Comparator): (b: Comparator)
    ensures b.Registered? || b.EqualsComparator?
    decreases c
  {
    match c
    case Inverse(inner) => BaseOf(inner)
    case Converted(_, base, _) => BaseOf(base)
    case _ => c
  }

  /** The three phases that scan the registered comparators. */
  datatype Phase = PerfectMatch | SingleConversion | DoubleConversion

  /** What one registered comparator offers for the class pair (f, s) in a phase, trying its
      orientations in the order the source does. */
  function Candidate(w: World, phase: Phase, info: ComparatorInfo, f: ClassId, s: ClassId): Option<Comparator>
  {
    var comp := Registered(info.comparator);
    match phase
    case PerfectMatch =>
      if w.assignable(info.first, f) && w.assignable(info.second, s) then Some(comp)
      else if w.assignable(info.first, s) && w.assignable(info.second, f) then Some(Inverse(comp))
      else None
    case SingleConversion =>
      // first = true: f fits the first class and s is converted to the second, or s fits the
      // first class and f is converted to the second
      if w.assignable(info.first, f) && w.converter(s, info.second).Some? then
        Some(Converted(None, comp, w.converter(s, info.second)))
      else if w.assignable(info.first, s) && w.converter(f, info.second).Some? then
        Some(Inverse(Converted(None, comp, w.converter(f, info.second))))
      // first = false: the same with the classes swapped
      else if w.assignable(info.second, f) && w.converter(s, info.first).Some? then
        Some(Inverse(Converted(w.converter(s, info.first), comp, None)))
      else if w.assignable(info.second, s) && w.converter(f, info.first).Some? then
        Some(Converted(w.converter(f, info.first), comp, None))
      else None
    case DoubleConversion =>
      if w.converter(f, info.first).Some? && w.converter(s, info.second).Some? then
        Some(Converted(w.converter(f, info.first), comp, w.converter(s, info.second)))
      else if w.converter(f, info.second).Some? && w.converter(s, info.first).Some? then
        Some(Inverse(Converted(w.converter(s, info.first), comp, w.converter(f, info.second))))
      else None
  }

  /** The first candidate of a phase among the registered comparators from index i on. */
  function Search(w: World, phase: Phase, infos: seq<ComparatorInfo>, f: ClassId, s: ClassId, i: nat): Option<Comparator>
    requires i <= |infos|
    decreases |infos| - i
  {
    if i == |infos| then None
    else if Candidate(w, phase, infos[i], f, s).Some? then Candidate(w, phase, infos[i], f, s)
    else Search(w, phase, infos, f, s, i + 1)
  }

  /** `getComparator_i`: the four phases in order; None when all fail. */
  function Resolve(w: World, infos: seq<ComparatorInfo>, f: ClassId, s: ClassId): Option<Comparator>
  {
    if Search(w, PerfectMatch, infos, f, s, 0).Some? then Search(w, PerfectMatch, infos, f, s, 0)
    else if s == f && f != ObjectClass then Some(EqualsComparator)
    else if Search(w, SingleConversion, infos, f, s, 0).Some? then Search(w, SingleConversion, infos, f, s, 0)
    else Search(w, DoubleConversion, infos, f, s, 0)
  }

  /** `compare` against a registry whose cache agrees with resolution: null operands and
      unresolvable pairs are NotEqual, never an error. */
  function CompareValues(w: World, infos: seq<ComparatorInfo>, o1: Option<Value>, o2: Option<Value>): Relation
  {
    if o1.None? || o2.None? then NotEqual
    else
      match Resolve(w, infos, w.classOf(o1.value), w.classOf(o2.value))
      case None => NotEqual
      case Some(c) => Apply(w, c, o1.value, o2.value)
  }

  /** The exceptions of the registry. */
  datatype ComparisonError = ComparatorForObjects

  /** `getComparator_i` as the source runs it: three scans with early returns around the
      same-class fallback. */
  method ResolveComparator(w: World, infos: seq<ComparatorInfo>, f: ClassId, s: ClassId) returns (r: Option<Comparator>)
    ensures r == Resolve(w, infos, f, s)
  {
    // perfect match
    for i := 0 to |infos|
      invariant Search(w, PerfectMatch, infos, f, s, 0) == Search(w, PerfectMatch, infos, f, s, i)
    {
      var info := infos[i];
      if w.assignable(info.first, f) && w.assignable(info.second, s) {
        return Some(Registered(info.comparator));
      } else if w.assignable(info.first, s) && w.assignable(info.second, f) {
        return Some(Inverse(Registered(info.comparator)));
      }
    }
    // same class but no comparator
    if s == f && f != ObjectClass && s != ObjectClass {
      return Some(EqualsComparator);
    }
    var trueFalse := [true, false];
    // single conversion
    for i := 0 to |infos|
      invariant Search(w, SingleConversion, infos, f, s, 0) == Search(w, SingleConversion, infos, f, s, i)
    {
      var info := infos[i];
      for k := 0 to 2
        invariant k > 0 ==> !(w.assignable(info.first, f) && w.converter(s, info.second).Some?)
        invariant k > 0 ==> !(w.assignable(info.first, s) && w.converter(f, info.second).Some?)
        invariant k > 1 ==> !(w.assignable(info.second, f) && w.converter(s, info.first).Some?)
        invariant k > 1 ==> !(w.assignable(info.second, s) && w.converter(f, info.first).Some?)
      {
        var first := trueFalse[k];
        if w.assignable(info.TypeAt(first), f) {
          var c2 := w.converter(s, info.TypeAt(!first));
          if c2.Some? {
            var comp := Registered(info.comparator);
            return if first then Some(Converted(None, comp, c2)) else Some(Inverse(Converted(c2, comp, None)));
          }
        }
        if w.assignable(info.TypeAt(first), s) {
          var c1 := w.converter(f, info.TypeAt(!first));
          if c1.Some? {
            var comp := Registered(info.comparator);
            return if !first then Some(Converted(c1, comp, None)) else Some(Inverse(Converted(None, comp, c1)));
          }
        }
      }
    }
    // double conversion
    for i := 0 to |infos|
      invariant Search(w, DoubleConversion, infos, f, s, 0) == Search(w, DoubleConversion, infos, f, s, i)
    {
      var info := infos[i];
      for k := 0 to 2
        invariant k > 0 ==> !(w.converter(f, info.first).Some? && w.converter(s, info.second).Some?)
        invariant k > 1 ==> !(w.converter(f, info.second).Some? && w.converter(s, info.first).Some?)
      {
        var first := trueFalse[k];
        var c1 := w.converter(f, info.TypeAt(first));
        var c2 := w.converter(s, info.TypeAt(!first));
        if c1.Some? && c2.Some? {
          var comp := Registered(info.comparator);
          return if first then Some(Converted(c1, comp, c2)) else Some(Inverse(Converted(c2, comp, c1)));
        }
      }
    }
    return None;
  }

  /** The registry: the registered comparators and the memo of resolved class pairs. */
  class ComparatorRegistry {
    var comparators: seq<ComparatorInfo>
    var quickAccess: map<(ClassId, ClassId), Option<Comparator>>

    constructor ()
      ensures comparators == [] && quickAccess == map[]
    {
      comparators, quickAccess := [], map[];
    }

    /** Every memoised answer is what resolution gives against the current registrations. */
    ghost predicate CacheAgrees(w: World)
      reads this
    {
      forall p :: p in quickAccess ==> quickAccess[p] == Resolve(w, comparators, p.0, p.1)
    }

    /** What `getComparator` answers for (f, s) now: the memoised answer, else a fresh one. */
    ghost function Lookup(w: World, f: ClassId, s: ClassId): Option<Comparator>
      reads this
    {
      if (f, s) in quickAccess then quickAccess[(f, s)] else Resolve(w, comparators, f, s)
    }

    /** `registerComparator`: refuses a comparator between two `Object`s, otherwise appends one
        entry. The memo is left as it is, even where the new entry would change an answer. */
    method RegisterComparator(t1: ClassId, t2: ClassId, c: ComparatorId) returns (r: Outcome<ComparisonError>)
      modifies this`comparators
      ensures t1 == ObjectClass && t2 == ObjectClass ==> r == Fail(ComparatorForObjects) && comparators == old(comparators)
      ensures !(t1 == ObjectClass && t2 == ObjectClass) ==>
                r == Pass && comparators == old(comparators) + [ComparatorInfo(t1, t2, c)]
    {
      if t1 == ObjectClass && t2 == ObjectClass {
        return Fail(ComparatorForObjects);
      }
      comparators := comparators + [ComparatorInfo(t1, t2, c)];
      return Pass;
    }

    /** `getComparator`: a memoised pair is answered from the memo, including a memoised
        "none", without searching; otherwise the search's answer is memoised. */
    method GetComparator(w: World, f: ClassId, s: ClassId) returns (r: Option<Comparator>)
      modifies this`quickAccess
      ensures r == old(Lookup(w, f, s))
      ensures (f, s) in old(quickAccess) ==> quickAccess == old(quickAccess)
      ensures quickAccess == old(quickAccess)[(f, s) := r]
      ensures old(CacheAgrees(w)) ==> CacheAgrees(w) && r == Resolve(w, comparators, f, s)
    {
      if (f, s) in quickAccess {
        return quickAccess[(f, s)];
      }
      r := ResolveComparator(w, comparators, f, s);
      quickAccess := quickAccess[(f, s) := r];
    }

    /** `compare`: null operands and pairs without a comparator are NotEqual; otherwise the
        resolved comparator's answer. */
    method Compare(w: World, o1: Option<Value>, o2: Option<Value>) returns (r: Relation)
      modifies this`quickAccess
      ensures o1.None? || o2.None? ==> r == NotEqual && quickAccess == old(quickAccess)
      ensures o1.Some? && o2.Some? ==>
                var c := old(Lookup(w, w.classOf(o1.value), w.classOf(o2.value)));
                r == (if c.None? then NotEqual else Apply(w, c.value, o1.value, o2.value))
      ensures o1.Some? && o2.Some? ==>
                quickAccess == old(quickAccess)[(w.classOf(o1.value), w.classOf(o2.value)) :=
                                                 old(Lookup(w, w.classOf(o1.value), w.classOf(o2.value)))]
      ensures old(CacheAgrees(w)) ==> CacheAgrees(w) && r == CompareValues(w, comparators, o1, o2)
    {
      if o1.None? || o2.None? {
        return NotEqual;
      }
      var c := GetComparator(w, w.classOf(o1.value), w.classOf(o2.value));
      if c.None? {
        return NotEqual;
      }
      return Apply(w, c.value, o1.value, o2.value);
    }
  }

  /** A phase's search returns the candidate of the first registered comparator that offers one,
      in registration order, and nothing only when none offers one. */
  lemma {:induction false} SearchIsFirstCandidate(w: World, phase: Phase, infos: seq<ComparatorInfo>, f: ClassId, s: ClassId, i: nat)
    requires i <= |infos|
    ensures Search(w, phase, infos, f, s, i).None? <==>
              forall j :: i <= j < |infos| ==> Candidate(w, phase, infos[j], f, s).None?
    ensures Search(w, phase, infos, f, s, i).Some? ==>
              exists j :: i <= j < |infos| && Search(w, phase, infos, f, s, i) == Candidate(w, phase, infos[j], f, s)
                          && forall k :: i <= k < j ==> Candidate(w, phase, infos[k], f, s).None?
    decreases |infos| - i
  {
    if i < |infos| && Candidate(w, phase, infos[i], f, s).None? {
      SearchIsFirstCandidate(w, phase, infos, f, s, i + 1);
    }
  }

  /** The phases are tried strictly in order: the first perfect match wins even over the
      same-class fallback, the fallback wins over conversions, and resolution fails only when
      no registered comparator offers anything in any phase and the classes differ (or are
      both `Object`). */
  lemma ResolvePhaseOrder(w: World, infos: seq<ComparatorInfo>, f: ClassId, s: ClassId)
    ensures forall j :: 0 <= j < |infos| && Candidate(w, PerfectMatch, infos[j], f, s).Some? &&
                        (forall k :: 0 <= k < j ==> Candidate(w, PerfectMatch, infos[k], f, s).None?) ==>
              Resolve(w, infos, f, s) == Candidate(w, PerfectMatch, infos[j], f, s)
    ensures (forall j :: 0 <= j < |infos| ==> Candidate(w, PerfectMatch, infos[j], f, s).None?) &&
            f == s && f != ObjectClass ==>
              Resolve(w, infos, f, s) == Some(EqualsComparator)
    ensures Resolve(w, infos, f, s).None? <==>
              && !(f == s && f != ObjectClass)
              && forall j, phase :: 0 <= j < |infos| ==> Candidate(w, phase, infos[j], f, s).None?
  {
    SearchIsFirstCandidate(w, PerfectMatch, infos, f, s, 0);
    SearchIsFirstCandidate(w, SingleConversion, infos, f, s, 0);
    SearchIsFirstCandidate(w, DoubleConversion, infos, f, s, 0);
    forall j | 0 <= j < |infos| && Candidate(w, PerfectMatch, infos[j], f, s).Some? &&
               (forall k :: 0 <= k < j ==> Candidate(w, PerfectMatch, infos[k], f, s).None?)
      ensures Resolve(w, infos, f, s) == Candidate(w, PerfectMatch, infos[j], f, s)
    {
      var j' :| 0 <= j' < |infos| && Search(w, PerfectMatch, infos, f, s, 0) == Candidate(w, PerfectMatch, infos[j'], f, s)
                && forall k :: 0 <= k < j' ==> Candidate(w, PerfectMatch, infos[k], f, s).None?;
      assert j' == j;
    }
    if Resolve(w, infos, f, s).None? {
      forall j, phase | 0 <= j < |infos|
        ensures Candidate(w, phase, infos[j], f, s).None?
      {
        match phase
        case PerfectMatch =>
        case SingleConversion =>
        case DoubleConversion =>
      }
    }
  }

  /** Two values of one class other than `Object`, for which no registered comparator matches
      in either order, compare Equal exactly when they are equal and NotEqual otherwise, through
      a comparator that does not order. */
  lemma SameClassWithoutComparator(w: World, infos: seq<ComparatorInfo>, x: Value, y: Value)
    requires w.classOf(x) == w.classOf(y) != ObjectClass
    requires forall j :: 0 <= j < |infos| ==>
               Candidate(w, PerfectMatch, infos[j], w.classOf(x), w.classOf(x)).None?
    ensures Resolve(w, infos, w.classOf(x), w.classOf(y)) == Some(EqualsComparator)
    ensures !SupportsOrdering(w, EqualsComparator)
    ensures CompareValues(w, infos, Some(x), Some(y)) == Equal <==> x == y
    ensures CompareValues(w, infos, Some(x), Some(y)) == NotEqual <==> x != y
  {
    SearchIsFirstCandidate(w, PerfectMatch, infos, w.classOf(x), w.classOf(x), 0);
  }

  /** A missing operand is never equal to anything, and never ordered. */
  lemma NullOperandIsNotEqual(w: World, infos: seq<ComparatorInfo>, o: Option<Value>)
    ensures CompareValues(w, infos, None, o) == NotEqual
    ensures CompareValues(w, infos, o, None) == NotEqual
  {
  }

  /** Wrapping never grants or removes ordering: a resolved comparator orders exactly when the
      comparator it ultimately calls does. */
  lemma {:induction false} OrderingComesFromBase(w: World, c: Comparator)
    ensures SupportsOrdering(w, c) == SupportsOrdering(w, BaseOf(c))
    decreases c
  {
    match c
    case Inverse(inner) => OrderingComesFromBase(w, inner);
    case Converted(_, base, _) => OrderingComesFromBase(w, base);
    case _ =>
  }

  /** Every resolved comparator ends in a registered comparator or, for a pair of one class
      other than `Object`, in the equality fallback. */
  lemma ResolvedBase(w: World, infos: seq<ComparatorInfo>, f: ClassId, s: ClassId)
    requires Resolve(w, infos, f, s).Some?
    ensures var b := BaseOf(Resolve(w, infos, f, s).value);
            || (b == EqualsComparator && f == s && f != ObjectClass)
            || exists j :: 0 <= j < |infos| && b == Registered(infos[j].comparator)
    ensures SupportsOrdering(w, Resolve(w, infos, f, s).value) ==
              SupportsOrdering(w, BaseOf(Resolve(w, infos, f, s).value))
  {
    OrderingComesFromBase(w, Resolve(w, infos, f, s).value);
    if !(Search(w, PerfectMatch, infos, f, s, 0).None? && s == f && f != ObjectClass) {
      var phase := if Search(w, PerfectMatch, infos, f, s, 0).Some? then PerfectMatch
                   else if Search(w, SingleConversion, infos, f, s, 0).Some? then SingleConversion
                   else DoubleConversion;
      assert Resolve(w, infos, f, s) == Search(w, phase, infos, f, s, 0);
      SearchIsFirstCandidate(w, phase, infos, f, s, 0);
      var j :| 0 <= j < |infos| && Search(w, phase, infos, f, s, 0) == Candidate(w, phase, infos[j], f, s);
      CandidateBase(w, phase, infos[j], f, s);
    }
  }

  /** Whatever a registered comparator offers in a phase ends in that comparator. */
  lemma CandidateBase(w: World, phase: Phase, info: ComparatorInfo, f: ClassId, s: ClassId)
    requires Candidate(w, phase, info, f, s).Some?
    ensures BaseOf(Candidate(w, phase, info, f, s).value) == Registered(info.comparator)
  {
    var c := Candidate(w, phase, info, f, s).value;
    if c.Inverse? {
      assert BaseOf(c) == BaseOf(c.inner);
      if c.inner.Converted? {
        assert c.inner.base == Registered(info.comparator);
        assert BaseOf(c.inner) == BaseOf(c.inner.base);
      }
    }
  }

  /** A converted comparator answers NotEqual as soon as a present conversion yields null, and
      otherwise what its base answers for the converted operands. */
  lemma ConvertedApply(w: World, c1: Option<ConverterId>, base: Comparator, c2: Option<ConverterId>, o1: Value, o2: Value)
    ensures c1.Some? && w.convert(c1.value, o1).None? ==> Apply(w, Converted(c1, base, c2), o1, o2) == NotEqual
    ensures c2.Some? && w.convert(c2.value, o2).None? ==> Apply(w, Converted(c1, base, c2), o1, o2) == NotEqual
    ensures (c1.None? || w.convert(c1.value, o1).Some?) && (c2.None? || w.convert(c2.value, o2).Some?) ==>
              Apply(w, Converted(c1, base, c2), o1, o2) ==
                Apply(w, base, if c1.None? then o1 else w.convert(c1.value, o1).value,
                               if c2.None? then o2 else w.convert(c2.value, o2).value)
  {
  }

  const NumberClass: ClassId := 1
  const TextClass: ClassId := 2

  /** A world with two classes: numbers are the values below 100, texts the others, and the one
      converter turns the number n into the text n + 100 (its digits). */
  function NumberTextWorld(): World
  {
    World(
      (a: ClassId, b: ClassId) => a == b || a == ObjectClass,
      (from: ClassId, to: ClassId) => if from == NumberClass && to == TextClass then Some(0) else None,
      (k: ConverterId, v: Value) => if v < 100 then Some(v + 100) else None,
      (id: ComparatorId, a: Value, b: Value) => RelationOf(a == b),
      (id: ComparatorId) => false,
      (r: Relation) => match r case Smaller => Greater case Greater => Smaller case _ => r,
      (v: Value) => if v < 100 then NumberClass else TextClass)
  }

  /** With a text comparator and a number-to-text converter, the number 5 and the text "5"
      resolve through a single conversion of the number and compare Equal. */
  lemma NumberTextExample()
    ensures var w := NumberTextWorld();
            var infos := [ComparatorInfo(TextClass, TextClass, 0)];
            && Resolve(w, infos, NumberClass, TextClass) == Some(Inverse(Converted(None, Registered(0), Some(0))))
            && CompareValues(w, infos, Some(5), Some(105)) == Equal
  {
    var w := NumberTextWorld();
    var infos := [ComparatorInfo(TextClass, TextClass, 0)];
    assert Search(w, PerfectMatch, infos, NumberClass, TextClass, 1).None?;
    assert Search(w, PerfectMatch, infos, NumberClass, TextClass, 0).None?;
    assert w.converter(NumberClass, TextClass) == Some(0);
    assert Candidate(w, SingleConversion, infos[0], NumberClass, TextClass) ==
      Some(Inverse(Converted(None, Registered(0), Some(0))));
    assert Resolve(w, infos, w.classOf(5), w.classOf(105)) == Some(Inverse(Converted(None, Registered(0), Some(0))));
    assert w.convert(0, 5) == Some(105);
    assert Apply(w, Converted(None, Registered(0), Some(0)), 105, 5) == Apply(w, Registered(0), 105, 105);
    assert RelationOf(105 == 105) == Equal;
    assert w.compare(0, 105, 105) == Equal;
    assert w.invert(Equal) == Equal;
  }
}
