/**
 * The per-addon registration builder (`SkriptRegistration`) and its registrars.
 *
 * An addon creates one registration, asks it for registrars (one per declared type, expression,
 * effect, section or event), configures them and calls `register` on each: the registrar
 * compiles its pattern strings, settles the priority and appends one entry to the
 * registration's per-category list. The Java registrar subclasses become one class whose
 * `kind` records which subclass it is.
 *
 * Collaborators that are not part of this model are parameters: the pattern parser is a
 * function from a pattern string to an optional tree, and the type manager's two lookups are a
 * `TypeManagerView`. Function objects handed over by an addon (literal parsers, converters,
 * changers, context functions) are opaque `Handle`s.
 */
module Registration {
  import opened Wrappers
  import opened Patterns

  /** A Java class, by identity. */
  type ClassId = nat

  /** An opaque function object supplied by an addon, or the addon itself. */
  type Handle = nat

  /** The exceptions the registration methods throw. */
  datatype RegistrationError =
    | NegativePriority        // `setPriority` with a negative value
    | OptionalGroupAsPattern  // `findAppropriatePriority` reached a bare optional group
    | NoSuchType              // `getByClass(...).orElseThrow()` found no type
    | DuplicateContext        // `Set.of` given the same context class twice

  /** The two lookups of the type manager: `getByClassExact` (is a type registered for exactly
      this class?) and `getByClass` (the class of the type that serves this class, if any). */
  datatype TypeManagerView = TypeManagerView(hasExact: ClassId -> bool, byClass: ClassId -> Option<ClassId>)

  /** The parser of pattern strings: a tree, or None when the string is malformed. */
  type PatternParser = string -> Option<PatternElement>

  datatype ExpressionInfo =
    | ExpressionInfo(c: ClassId, patterns: seq<PatternElement>, registerer: Handle, returnType: ClassId,
                     isSingle: bool, priority: int)
    | PropertyExpressionInfo(c: ClassId, patterns: seq<PatternElement>, registerer: Handle, returnType: ClassId,
                             property: string, priority: int)

  datatype SyntaxInfo = SyntaxInfo(c: ClassId, patterns: seq<PatternElement>, priority: int, registerer: Handle)

  datatype EventInfo = EventInfo(c: ClassId, handledContexts: set<ClassId>, patterns: seq<PatternElement>,
                                 priority: int, registerer: Handle)

  /** The display function of a type: the default `Objects.toString(o, NULL_REPRESENTATION)`, or
      an addon's function wrapped so that null shows as the null representation. */
  datatype ToStringFunction = DefaultToString | NullSafe(display: Handle)

  datatype TypeInfo = TypeInfo(c: ClassId, baseName: string, pattern: string, literalParser: Option<Handle>,
                               toStringFunction: ToStringFunction, defaultChanger: Option<Handle>,
                               arithmetic: Option<Handle>)

  /** A converter; `options` is None for the overload that leaves the converter's default flags. */
  datatype ConverterInfo = ConverterInfo(from: ClassId, to: ClassId, converter: Handle, options: Option<int>)

  datatype TagInfo = TagInfo(c: ClassId, priority: int)

  datatype ContextValueState = Past | Present | Future

  /** A context value declared by an event; `state` is None for the overload that leaves the
      state to the context value's own default, and `excluded` records a leading `*`. */
  datatype ContextValueInfo = ContextValueInfo(context: ClassId, returnType: ClassId, isSingle: bool,
                                               pattern: string, contextFunction: Handle,
                                               state: Option<ContextValueState>, excluded: bool)

  /** Which registrar subclass a syntax registrar is. */
  datatype SyntaxKind =
    | ExpressionSyntax(returnType: ClassId, isSingle: bool)
    | PropertyExpressionSyntax(returnType: ClassId, property: string)
    | EffectSyntax
    | SectionSyntax
    | EventSyntax

  const DefaultTagPriority := 5

  predicate StartsWithStar(s: string)
  {
    |s| > 0 && s[0] == '*'
  }

  /** `removePrefix`: drops one leading `*`. */
  function RemovePrefix(s: string): string
  {
    if StartsWithStar(s) then s[1..] else s
  }

  /** `adaptPropertyPrefix`: a `*`-marked owner is literal text, any other owner a `%type%` slot. */
  function AdaptPropertyPrefix(s: string): string
  {
    if StartsWithStar(s) then s[1..] else "%" + s + "%"
  }

  /** The two patterns a property expression gets from its owner and property. */
  function PropertyPatterns(owner: string, property: string): seq<string>
  {
    [AdaptPropertyPrefix(owner) + "'[s] " + property, "[the] " + property + " of " + AdaptPropertyPrefix(owner)]
  }

  /** `MultiMap.putOne`: appends a value to the list kept under a key. */
  function PutOne(m: map<ClassId, seq<ExpressionInfo>>, k: ClassId, v: ExpressionInfo): map<ClassId, seq<ExpressionInfo>>
  {
    m[k := (if k in m then m[k] else []) + [v]]
  }

  /** The trees of the pattern strings that parse, in order; malformed ones are dropped. */
  function ParsedPatterns(parse: PatternParser, patterns: seq<string>): seq<PatternElement>
    decreases |patterns|
  {
    if patterns == [] then []
    else
      var last := parse(patterns[|patterns| - 1]);
      ParsedPatterns(parse, patterns[..|patterns| - 1]) + (if last.Some? then [last.value] else [])
  }

  /** Where priority inference ends: with a priority, or with the priority reached when
      `findAppropriatePriority` threw. */
  datatype Inference = Inferred(priority: int) | Thrown(priority: int)

  /** The running minimum `parsePatterns` keeps when it infers: it starts at 5 and lowers the
      priority to each kept tree's rank in turn. */
  function InferPriority(trees: seq<PatternElement>): Inference
    decreases |trees|
  {
    if trees == [] then Inferred(5)
    else
      match InferPriority(trees[..|trees| - 1])
      case Thrown(p) => Thrown(p)
      case Inferred(p) =>
        match Priority(trees[|trees| - 1])
        case None => Thrown(p)
        case Some(q) => Inferred(Min(p, q))
  }

  /** What `parsePatterns` leaves in `priority`: inference only when the field holds -1. */
  function PriorityAfterParse(priority: int, trees: seq<PatternElement>): Inference
  {
    if priority == -1 then InferPriority(trees) else Inferred(priority)
  }

  /** Whether `parsePatterns` gets as far as parsing the string at index `j`: always when it
      does not infer, and while inferring as long as no earlier tree made
      `findAppropriatePriority` throw. */
  predicate Reached(priority: int, parse: PatternParser, patterns: seq<string>, j: nat)
    requires j <= |patterns|
  {
    priority == -1 ==> InferPriority(ParsedPatterns(parse, patterns[..j])).Inferred?
  }

  /** Whether one of the first `n` strings is malformed and reached. */
  predicate DiagnosedWithin(priority: int, parse: PatternParser, patterns: seq<string>, n: nat)
    requires n <= |patterns|
  {
    exists j :: 0 <= j < n && parse(patterns[j]).None? && Reached(priority, parse, patterns, j)
  }

  /** Whether parsing the patterns makes the parser log a diagnostic: some string it gets to is
      malformed. */
  predicate ParseDiagnosed(priority: int, parse: PatternParser, patterns: seq<string>)
  {
    DiagnosedWithin(priority, parse, patterns, |patterns|)
  }

  class SkriptRegistration {
    const registerer: Handle
    var expressions: map<ClassId, seq<ExpressionInfo>>
    var effects: seq<SyntaxInfo>
    var sections: seq<SyntaxInfo>
    var events: seq<EventInfo>
    var types: seq<TypeInfo>
    var converters: seq<ConverterInfo>
    var contextValues: seq<ContextValueInfo>
    var tags: seq<TagInfo>
    var newTypes: bool
    /** How many times `typeCheck` has handed this registration to the type manager. */
    var typeManagerFlushes: nat
    /** Whether the registration's logger has recorded an error: a missing return type, or a
        diagnostic of the pattern parser, which logs to the same logger. */
    var errorLogged: bool

    constructor (registerer: Handle)
      ensures this.registerer == registerer
      ensures expressions == map[] && effects == [] && sections == [] && events == []
      ensures types == [] && converters == [] && contextValues == [] && tags == []
      ensures !newTypes && typeManagerFlushes == 0 && !errorLogged
    {
      this.registerer := registerer;
      expressions, effects, sections, events := map[], [], [], [];
      types, converters, contextValues, tags := [], [], [], [];
      newTypes, typeManagerFlushes, errorLogged := false, 0, false;
    }

    method AddConverter(from: ClassId, to: ClassId, converter: Handle)
      modifies this`converters
      ensures converters == old(converters) + [ConverterInfo(from, to, converter, None)]
    {
      converters := converters + [ConverterInfo(from, to, converter, None)];
    }

    method AddConverterWithOptions(from: ClassId, to: ClassId, converter: Handle, options: int)
      modifies this`converters
      ensures converters == old(converters) + [ConverterInfo(from, to, converter, Some(options))]
    {
      converters := converters + [ConverterInfo(from, to, converter, Some(options))];
    }

    /** A tag registered without a priority gets the default priority 5. */
    method AddTag(c: ClassId)
      modifies this`tags
      ensures tags == old(tags) + [TagInfo(c, DefaultTagPriority)]
    {
      tags := tags + [TagInfo(c, DefaultTagPriority)];
    }

    /** The priority of a tag is not checked. */
    method AddTagWithPriority(c: ClassId, priority: int)
      modifies this`tags
      ensures tags == old(tags) + [TagInfo(c, priority)]
    {
      tags := tags + [TagInfo(c, priority)];
    }

    /** `typeCheck`: if a type was declared since the last check, hand the registration to the
        type manager once and clear the flag. */
    method TypeCheck()
      modifies this`newTypes, this`typeManagerFlushes
      ensures !newTypes
      ensures typeManagerFlushes == old(typeManagerFlushes) + (if old(newTypes) then 1 else 0)
    {
      if newTypes {
        typeManagerFlushes := typeManagerFlushes + 1;
        newTypes := false;
      }
    }
  }

  class TypeRegistrar {
    const registration: SkriptRegistration
    const c: ClassId
    const baseName: string
    const pattern: string
    var literalParser: Option<Handle>
    var toStringFunction: ToStringFunction
    var defaultChanger: Option<Handle>
    var arithmetic: Option<Handle>

    constructor (registration: SkriptRegistration, c: ClassId, baseName: string, pattern: string)
      ensures this.registration == registration && this.c == c
      ensures this.baseName == baseName && this.pattern == pattern
      ensures literalParser == None && toStringFunction == DefaultToString
      ensures defaultChanger == None && arithmetic == None
    {
      this.registration, this.c, this.baseName, this.pattern := registration, c, baseName, pattern;
      literalParser, toStringFunction, defaultChanger, arithmetic := None, DefaultToString, None, None;
    }

    method LiteralParser(f: Handle)
      modifies this`literalParser
      ensures literalParser == Some(f)
    {
      literalParser := Some(f);
    }

    /** The given function is wrapped so that null is shown as the null representation. */
    method ToStringFunction(f: Handle)
      modifies this`toStringFunction
      ensures toStringFunction == NullSafe(f)
    {
      toStringFunction := NullSafe(f);
    }

    method DefaultChanger(f: Handle)
      modifies this`defaultChanger
      ensures defaultChanger == Some(f)
    {
      defaultChanger := Some(f);
    }

    method Arithmetic(f: Handle)
      modifies this`arithmetic
      ensures arithmetic == Some(f)
    {
      arithmetic := Some(f);
    }

    /** Appends the type and flags the registration as holding new types. */
    method Register()
      modifies registration`newTypes, registration`types
      ensures registration.newTypes
      ensures registration.types ==
        old(registration.types) + [TypeInfo(c, baseName, pattern, literalParser, toStringFunction, defaultChanger, arithmetic)]
    {
      registration.newTypes := true;
      registration.types := registration.types +
        [TypeInfo(c, baseName, pattern, literalParser, toStringFunction, defaultChanger, arithmetic)];
    }
  }

  class SyntaxRegistrar {
    const registration: SkriptRegistration
    const kind: SyntaxKind
    const c: ClassId
    var patterns: seq<string>
    var priority: int
    var handledContexts: set<ClassId>

    /** A registrar as `newExpression`, `newEffect`, `newSection` and `newEvent` make it: the
        priority field starts at 0, and the constructors run `typeCheck` (expression, section
        and event registrars a second time, which finds the flag already cleared). */
    constructor (registration: SkriptRegistration, kind: SyntaxKind, c: ClassId, patterns: seq<string>)
      requires !kind.PropertyExpressionSyntax?
      modifies registration`newTypes, registration`typeManagerFlushes
      ensures this.registration == registration && this.kind == kind && this.c == c
      ensures this.patterns == patterns && priority == 0 && handledContexts == {}
      ensures !registration.newTypes
      ensures registration.typeManagerFlushes ==
        old(registration.typeManagerFlushes) + (if old(registration.newTypes) then 1 else 0)
    {
      this.registration, this.kind, this.c := registration, kind, c;
      this.patterns, priority, handledContexts := patterns, 0, {};
      new;
      registration.TypeCheck();
      if !kind.EffectSyntax? {
        registration.TypeCheck();
      }
    }

    /** `newPropertyExpression`: the two patterns are synthesised from the owner and property. */
    constructor Property(registration: SkriptRegistration, c: ClassId, returnType: ClassId, owner: string, property: string)
      modifies registration`newTypes, registration`typeManagerFlushes
      ensures this.registration == registration && this.c == c
      ensures kind == PropertyExpressionSyntax(returnType, property)
      ensures patterns == PropertyPatterns(owner, property)
      ensures priority == 0 && handledContexts == {}
      ensures !registration.newTypes
      ensures registration.typeManagerFlushes ==
        old(registration.typeManagerFlushes) + (if old(registration.newTypes) then 1 else 0)
    {
      this.registration, kind, this.c := registration, PropertyExpressionSyntax(returnType, property), c;
      patterns, priority, handledContexts := PropertyPatterns(owner, property), 0, {};
      new;
      registration.TypeCheck();
      registration.TypeCheck();
    }

    method AddPatterns(more: seq<string>)
      modifies this`patterns
      ensures patterns == old(patterns) + more
    {
      patterns := patterns + more;
    }

    /** `setPriority`: a negative priority throws and leaves the field alone. */
    method SetPriority(p: int) returns (r: Outcome<RegistrationError>)
      modifies this`priority
      ensures p < 0 ==> r == Fail(NegativePriority) && priority == old(priority)
      ensures p >= 0 ==> r == Pass && priority == p
    {
      if p < 0 {
        return Fail(NegativePriority);
      }
      priority := p;
      return Pass;
    }

    /**
     * `parsePatterns`: parses every pattern string, drops the malformed ones and keeps the rest
     * in order. Only a priority field holding -1 asks for inference; since the field starts at 0
     * and `setPriority` refuses negatives, a registrar made through this API never infers.
     * Each malformed string the parser gets to logs an error on the registration's logger.
     */
    method ParsePatterns(parse: PatternParser) returns (r: Result<seq<PatternElement>, RegistrationError>)
      modifies this`priority, registration`errorLogged
      ensures registration.errorLogged ==
                (old(registration.errorLogged) || ParseDiagnosed(old(priority), parse, patterns))
      ensures priority == PriorityAfterParse(old(priority), ParsedPatterns(parse, patterns)).priority
      ensures r == if PriorityAfterParse(old(priority), ParsedPatterns(parse, patterns)).Inferred?
                   then Ok(ParsedPatterns(parse, patterns)) else Err(OptionalGroupAsPattern)
      ensures old(priority) >= 0 ==> priority == old(priority) && r == Ok(ParsedPatterns(parse, patterns))
    {
      var computePriority := priority == -1;
      priority := if computePriority then 5 else priority;
      var kept := [];
      var i := 0;
      while i < |patterns|
        invariant 0 <= i <= |patterns|
        invariant kept == ParsedPatterns(parse, patterns[..i])
        invariant computePriority ==> InferPriority(kept) == Inferred(priority)
        invariant !computePriority ==> priority == old(priority)
        invariant computePriority <==> old(priority) == -1
        invariant registration.errorLogged ==
                    (old(registration.errorLogged) || DiagnosedWithin(old(priority), parse, patterns, i))
      {
        assert patterns[..i + 1][..i] == patterns[..i];
        var tree := parse(patterns[i]);
        if tree.Some? {
          if computePriority {
            var rank := ComputePriority(tree.value);
            if rank.None? {
              assert InferPriority(kept + [tree.value]) == Thrown(priority) by {
                assert (kept + [tree.value])[..|kept|] == kept;
              }
              assert InferPriority(ParsedPatterns(parse, patterns)) == Thrown(priority) by {
                InferPriorityThrownSticks(ParsedPatterns(parse, patterns[..i + 1]), parse, patterns, i + 1);
              }
              DiagnosticsStopAtThrow(old(priority), parse, patterns, i);
              return Err(OptionalGroupAsPattern);
            }
            PriorityInRange(tree.value);
            var _ := SetPriority(Min(priority, rank.value));
            assert (kept + [tree.value])[..|kept|] == kept;
          }
          kept := kept + [tree.value];
        } else {
          assert Reached(old(priority), parse, patterns, i);
          registration.errorLogged := true;
        }
        DiagnosedStep(old(priority), parse, patterns, i);
        i := i + 1;
      }
      assert patterns[..i] == patterns;
      return Ok(kept);
    }

    /**
     * `register`: an expression whose return type has no exact type only logs an error;
     * otherwise the patterns are parsed and one entry, carrying the priority as it stands after
     * parsing, is appended to the registrar's category. An exception in parsing appends nothing.
     */
    method Register(parse: PatternParser, typeManager: TypeManagerView) returns (r: Outcome<RegistrationError>)
      modifies this`priority, registration`expressions, registration`effects, registration`sections
      modifies registration`events, registration`errorLogged
      ensures var missingType := (kind.ExpressionSyntax? || kind.PropertyExpressionSyntax?) &&
                                 !typeManager.hasExact(kind.returnType);
              var trees := ParsedPatterns(parse, patterns);
              var outcome := PriorityAfterParse(old(priority), trees);
              var added := !missingType && outcome.Inferred?;
              && registration.errorLogged ==
                   (old(registration.errorLogged) || missingType || ParseDiagnosed(old(priority), parse, patterns))
              && r == (if missingType || outcome.Inferred? then Pass else Fail(OptionalGroupAsPattern))
              && priority == (if missingType then old(priority) else outcome.priority)
              && registration.expressions ==
                   (if added && kind.ExpressionSyntax? then
                      PutOne(old(registration.expressions), c,
                             ExpressionInfo(c, trees, registration.registerer, kind.returnType, kind.isSingle, priority))
                    else if added && kind.PropertyExpressionSyntax? then
                      PutOne(old(registration.expressions), c,
                             PropertyExpressionInfo(c, trees, registration.registerer, kind.returnType, kind.property, priority))
                    else old(registration.expressions))
              && registration.effects == old(registration.effects) +
                   (if added && kind.EffectSyntax? then [SyntaxInfo(c, trees, priority, registration.registerer)] else [])
              && registration.sections == old(registration.sections) +
                   (if added && kind.SectionSyntax? then [SyntaxInfo(c, trees, priority, registration.registerer)] else [])
              && registration.events == old(registration.events) +
                   (if added && kind.EventSyntax? then [EventInfo(c, handledContexts, trees, priority, registration.registerer)] else [])
    {
      if (kind.ExpressionSyntax? || kind.PropertyExpressionSyntax?) && !typeManager.hasExact(kind.returnType) {
        registration.errorLogged := true;
        return Pass;
      }
      var trees := ParsePatterns(parse);
      if trees.Err? {
        return Fail(trees.error);
      }
      match kind {
        case ExpressionSyntax(returnType, isSingle) =>
          registration.expressions := PutOne(registration.expressions, c,
            ExpressionInfo(c, trees.value, registration.registerer, returnType, isSingle, priority));
        case PropertyExpressionSyntax(returnType, property) =>
          registration.expressions := PutOne(registration.expressions, c,
            PropertyExpressionInfo(c, trees.value, registration.registerer, returnType, property, priority));
        case EffectSyntax =>
          registration.effects := registration.effects + [SyntaxInfo(c, trees.value, priority, registration.registerer)];
        case SectionSyntax =>
          registration.sections := registration.sections + [SyntaxInfo(c, trees.value, priority, registration.registerer)];
        case EventSyntax =>
          registration.events := registration.events +
            [EventInfo(c, handledContexts, trees.value, priority, registration.registerer)];
      }
      return Pass;
    }

    /** `setHandledContexts`: `Set.of` refuses a context class given twice. */
    method SetHandledContexts(contexts: seq<ClassId>) returns (r: Outcome<RegistrationError>)
      requires kind.EventSyntax?
      modifies this`handledContexts
      ensures (forall i, j :: 0 <= i < j < |contexts| ==> contexts[i] != contexts[j]) ==>
                r == Pass && handledContexts == set x | x in contexts
      ensures !(forall i, j :: 0 <= i < j < |contexts| ==> contexts[i] != contexts[j]) ==>
                r == Fail(DuplicateContext) && handledContexts == old(handledContexts)
    {
      if exists i, j | 0 <= i < j < |contexts| :: contexts[i] == contexts[j] {
        return Fail(DuplicateContext);
      }
      handledContexts := set x | x in contexts;
      return Pass;
    }

    /** `addContextValue`: the return type must have a type (the lookup throws otherwise); the
        pattern is the name without its `*`, which marks the value as excluded. */
    method AddContextValue(context: ClassId, returnType: ClassId, isSingle: bool, name: string,
                           contextFunction: Handle, state: Option<ContextValueState>,
                           typeManager: TypeManagerView) returns (r: Outcome<RegistrationError>)
      requires kind.EventSyntax?
      modifies registration`contextValues
      ensures typeManager.byClass(returnType).None? ==>
                r == Fail(NoSuchType) && registration.contextValues == old(registration.contextValues)
      ensures typeManager.byClass(returnType).Some? ==>
                && r == Pass
                && registration.contextValues == old(registration.contextValues) +
                     [ContextValueInfo(context, typeManager.byClass(returnType).value, isSingle, RemovePrefix(name),
                                       contextFunction, state, StartsWithStar(name))]
    {
      var t := typeManager.byClass(returnType);
      if t.None? {
        return Fail(NoSuchType);
      }
      registration.contextValues := registration.contextValues +
        [ContextValueInfo(context, t.value, isSingle, RemovePrefix(name), contextFunction, state, StartsWithStar(name))];
      return Pass;
    }
  }

  /** Once inference has thrown, later trees do not change where it ended. */
  lemma {:induction false} InferPriorityThrownSticks(prefix: seq<PatternElement>, parse: PatternParser, patterns: seq<string>, i: nat)
    requires i <= |patterns| && prefix == ParsedPatterns(parse, patterns[..i])
    requires InferPriority(prefix).Thrown?
    ensures InferPriority(ParsedPatterns(parse, patterns)) == InferPriority(prefix)
    decreases |patterns| - i
  {
    if i == |patterns| {
      assert patterns[..i] == patterns;
    } else {
      var next := ParsedPatterns(parse, patterns[..i + 1]);
      assert patterns[..i + 1][..i] == patterns[..i];
      if parse(patterns[i]).Some? {
        assert next == prefix + [parse(patterns[i]).value];
        assert next[..|next| - 1] == prefix;
      } else {
        assert next == prefix;
      }
      InferPriorityThrownSticks(next, parse, patterns, i + 1);
    }
  }

  /** Parsing distributes over concatenation of pattern lists: the kept trees keep the order of
      their strings. */
  /** One more string: it adds a diagnostic exactly when it is malformed and reached. */
  lemma DiagnosedStep(priority: int, parse: PatternParser, patterns: seq<string>, i: nat)
    requires i < |patterns|
    ensures DiagnosedWithin(priority, parse, patterns, i + 1) <==>
              DiagnosedWithin(priority, parse, patterns, i) ||
              (parse(patterns[i]).None? && Reached(priority, parse, patterns, i))
  {
  }

  /** Once the tree of the string at `i` makes inference throw, no later string is parsed. */
  lemma DiagnosticsStopAtThrow(priority: int, parse: PatternParser, patterns: seq<string>, i: nat)
    requires i < |patterns| && parse(patterns[i]).Some?
    requires priority == -1 && InferPriority(ParsedPatterns(parse, patterns[..i + 1])).Thrown?
    ensures ParseDiagnosed(priority, parse, patterns) == DiagnosedWithin(priority, parse, patterns, i)
  {
    forall j | i < j < |patterns|
      ensures !Reached(priority, parse, patterns, j)
    {
      assert patterns[..j][..i + 1] == patterns[..i + 1];
      InferPriorityThrownSticks(ParsedPatterns(parse, patterns[..i + 1]), parse, patterns[..j], i + 1);
    }
  }

  /** Without inference every string is parsed: a diagnostic is logged exactly when some
      pattern string is malformed. */
  lemma DiagnosedWithoutInference(priority: int, parse: PatternParser, patterns: seq<string>)
    requires priority != -1
    ensures ParseDiagnosed(priority, parse, patterns) <==>
              exists j :: 0 <= j < |patterns| && parse(patterns[j]).None?
  {
  }

  lemma {:induction false} ParsedPatternsAppend(parse: PatternParser, a: seq<string>, b: seq<string>)
    ensures ParsedPatterns(parse, a + b) == ParsedPatterns(parse, a) + ParsedPatterns(parse, b)
    decreases |b|
  {
    if b == [] {
      assert a + b == a;
    } else {
      var b' := b[..|b| - 1];
      assert (a + b)[..|a + b| - 1] == a + b';
      assert (a + b)[|a + b| - 1] == b[|b| - 1];
      ParsedPatternsAppend(parse, a, b');
    }
  }

  /** A tree is kept exactly when some pattern string parses to it; none is invented. */
  lemma {:induction false} ParsedPatternsMembers(parse: PatternParser, patterns: seq<string>)
    ensures |ParsedPatterns(parse, patterns)| <= |patterns|
    ensures forall t :: t in ParsedPatterns(parse, patterns) <==>
              exists i :: 0 <= i < |patterns| && parse(patterns[i]) == Some(t)
    decreases |patterns|
  {
    if patterns != [] {
      var init := patterns[..|patterns| - 1];
      var lastParse := parse(patterns[|patterns| - 1]);
      ParsedPatternsMembers(parse, init);
      assert forall i :: 0 <= i < |init| ==> init[i] == patterns[i];
      forall t | t in ParsedPatterns(parse, patterns)
        ensures exists i :: 0 <= i < |patterns| && parse(patterns[i]) == Some(t)
      {
        if t !in ParsedPatterns(parse, init) {
          assert lastParse == Some(t);
        }
      }
      forall t | exists i :: 0 <= i < |patterns| && parse(patterns[i]) == Some(t)
        ensures t in ParsedPatterns(parse, patterns)
      {
        var i :| 0 <= i < |patterns| && parse(patterns[i]) == Some(t);
        if i < |init| {
          assert parse(init[i]) == Some(t);
        }
      }
    }
  }

  /** When every string parses, the kept trees are the strings' parses one for one. */
  lemma {:induction false} ParsedPatternsAllParse(parse: PatternParser, patterns: seq<string>)
    requires forall i :: 0 <= i < |patterns| ==> parse(patterns[i]).Some?
    ensures |ParsedPatterns(parse, patterns)| == |patterns|
    ensures forall i :: 0 <= i < |patterns| ==> ParsedPatterns(parse, patterns)[i] == parse(patterns[i]).value
    decreases |patterns|
  {
    if patterns != [] {
      var init := patterns[..|patterns| - 1];
      assert forall i :: 0 <= i < |init| ==> init[i] == patterns[i];
      ParsedPatternsAllParse(parse, init);
    }
  }

  /** Inference ends at the lowest rank among the kept trees, never above 5 nor below 1, and it
      throws exactly when some kept tree cannot be ranked. */
  lemma {:induction false} InferPriorityIsMinimum(trees: seq<PatternElement>)
    ensures InferPriority(trees).Thrown? <==> exists i :: 0 <= i < |trees| && Priority(trees[i]).None?
    ensures InferPriority(trees).Inferred? ==>
      var p := InferPriority(trees).priority;
      && 1 <= p <= 5
      && (forall i :: 0 <= i < |trees| ==> p <= Priority(trees[i]).value)
      && (p == 5 || exists i :: 0 <= i < |trees| && Priority(trees[i]) == Some(p))
    decreases |trees|
  {
    if trees != [] {
      var init := trees[..|trees| - 1];
      var last := trees[|trees| - 1];
      InferPriorityIsMinimum(init);
      PriorityInRange(last);
      assert forall i :: 0 <= i < |init| ==> init[i] == trees[i];
      if InferPriority(init).Inferred? && Priority(last).Some? {
        var p := InferPriority(init).priority;
        if p != 5 && p <= Priority(last).value {
          var i :| 0 <= i < |init| && Priority(init[i]) == Some(p);
          assert Priority(trees[i]) == Some(p);
        }
      }
    }
  }

  /** A leading `*` marks literal text: both helpers strip exactly that one character, and an
      owner without it becomes a `%type%` slot. */
  lemma PrefixHelpers(x: string, s: string)
    ensures RemovePrefix("*" + x) == x && AdaptPropertyPrefix("*" + x) == x
    ensures !StartsWithStar(s) ==> RemovePrefix(s) == s && AdaptPropertyPrefix(s) == "%" + s + "%"
    ensures |s| - |RemovePrefix(s)| == (if StartsWithStar(s) then 1 else 0)
    ensures RemovePrefix(s) == s[|s| - |RemovePrefix(s)|..]
  {
  }

  /** The synthesised property patterns: `owner'[s] property` and `[the] property of owner`,
      where a `%type%` owner is an expression slot. */
  lemma PropertyPatternsShape(owner: string, property: string)
    requires !StartsWithStar(owner)
    ensures PropertyPatterns(owner, property) ==
      [("%" + owner + "%") + "'[s] " + property, "[the] " + property + " of " + ("%" + owner + "%")]
    ensures PropertyPatterns("*" + owner, property) ==
      [owner + "'[s] " + property, "[the] " + property + " of " + owner]
  {
    assert ("*" + owner)[1..] == owner;
  }
}
