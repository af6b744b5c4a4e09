# skript-parser core, modelled in Dafny

skript-parser is a parser for the Skript scripting language. Add-ons declare syntax (expressions,
effects, sections, events), types, converters, comparators and context values through a
registration object; the parser then matches script text against the registered patterns, trying
higher-priority syntax first, and compares runtime values through registered comparators.

This project models five parts of that core and proves properties of them:

- `patterns.dfy` (module `Patterns`): pattern trees and the priority heuristic
  `findAppropriatePriority`, as a function and as the loop-and-break method the source runs.
- `registration.dfy` (module `Registration`): `SkriptRegistration` and its registrars as classes
  whose methods append declarations to per-category lists; priority validation and inference in
  `parsePatterns`; the property-expression pattern synthesis and the `*` prefix helpers.
- `comparators.dfy` (module `Comparisons`): the comparator registry with its memo cache, the
  four-phase resolution `getComparator_i` (specified by a function and run by a loop method),
  the equality fallback and the converted and inverse wrappers.
- `dates.dfy` (module `Dates`): `SkriptDate`, a mutable `long` timestamp, with Java's `long`
  wrap-around written out.
- `context_values.dfy` (module `ContextValues`): `ContextValueManager` and its `ContextValue`
  entries (lower-cased names, timelines normalised to their sign, matching).
- `eff_continue.dfy` (module `Effects`): the `continue` effect, which picks the innermost
  enclosing loop when parsed and hands control to it when run.
- `wrappers.dfy` (module `Wrappers`): `Option`, `Result` and `Outcome`, which stand for `null`,
  `Optional` and thrown exceptions.

Everything the core calls but does not define is a parameter: the pattern parser (a function
from strings to optional trees), the type manager's lookups, class assignability, the converter
lookup and the converters' results, the registered comparators' answers, the time-zone offset,
the loop section's `walk`, and the logger (only "an error was recorded" or the logged entries).
The pattern parser is taken to log an error on the registration's logger for every string it
refuses, so a malformed pattern sets the registration's error flag.

Where the code and its documentation disagree the model follows the code: `setPriority`'s
comment says the default priority is 5, but the field starts at 0, and `parsePatterns` infers a
priority only when the field holds -1, which `setPriority` never allows. The model keeps that
behaviour: through this API a registrar never infers a priority.

## Model

| member | source | states |
|---|---|---|
| Patterns.ComputePriority | src/main/java/io/github/syst3ms/skriptparser/registration/SkriptRegistration.java:726-753 | the loop-and-break computation returns exactly the heuristic rank `Priority(el)`, None where the source throws on an optional group |
| Patterns.PriorityInRange | src/main/java/io/github/syst3ms/skriptparser/registration/SkriptRegistration.java:726-753 | every computed rank lies in 1..5; every tree without an optional group in a throwing position gets a rank; a bare optional group never does |
| Patterns.ChoiceIsMinimum | src/main/java/io/github/syst3ms/skriptparser/registration/SkriptRegistration.java:731-736 | a choice group's rank is min(5, rank of each alternative): it is at most 5 and each alternative's rank, and is 5 or some alternative's rank; it fails exactly when an alternative fails |
| Patterns.LaterChildrenIgnored | src/main/java/io/github/syst3ms/skriptparser/registration/SkriptRegistration.java:741-749 | once a compound holds a child that is neither optional nor blank text, appending children (without regex groups) never changes its rank |
| Patterns.RegexCapsCompound | src/main/java/io/github/syst3ms/skriptparser/registration/SkriptRegistration.java:750-751 | a compound with a regex group as a direct child ranks at most 3 |
| Patterns.ExamplePriorities | skript-parser-java-impl/src/main/java/io/github/syst3ms/skriptparser/expressions/ExprWhether.java:26-29 | the `whether %~boolean%` compound ranks 5, a bare regex group 1, and `[hello] <regex>` 1 |
| Registration.InferPriorityIsMinimum | src/main/java/io/github/syst3ms/skriptparser/registration/SkriptRegistration.java:548-559 | inference over the kept trees ends at min(5, each tree's rank), in 1..5, and throws exactly when some kept tree cannot be ranked |
| Registration.InferPriorityThrownSticks | src/main/java/io/github/syst3ms/skriptparser/registration/SkriptRegistration.java:553-557 | once ranking a kept tree has thrown, the later patterns do not change where inference stopped |
| Registration.ParsedPatternsMembers | src/main/java/io/github/syst3ms/skriptparser/registration/SkriptRegistration.java:551-553 | a tree is kept exactly when some pattern string parses to it, and no more trees are kept than strings given |
| Registration.ParsedPatternsAllParse | src/main/java/io/github/syst3ms/skriptparser/registration/SkriptRegistration.java:551-553 | when every string parses, the kept trees are the strings' parses one for one, in order |
| Registration.ParsedPatternsAppend | src/main/java/io/github/syst3ms/skriptparser/registration/SkriptRegistration.java:551-558 | parsing a concatenation of pattern lists keeps the trees of the first list before those of the second |
| Registration.PrefixHelpers | src/main/java/io/github/syst3ms/skriptparser/registration/SkriptRegistration.java:718-724 | `removePrefix` and `adaptPropertyPrefix` strip exactly one leading `*`; without it `removePrefix` is the identity and `adaptPropertyPrefix` wraps the text in `%` |
| Registration.PropertyPatternsShape | src/main/java/io/github/syst3ms/skriptparser/registration/SkriptRegistration.java:591-595 | the two synthesised patterns are `%owner%'[s] property` and `[the] property of %owner%`, or with the literal owner when it is `*`-marked |
| Registration.SkriptRegistration.constructor | src/main/java/io/github/syst3ms/skriptparser/registration/SkriptRegistration.java:59-76 | a new registration holds its registerer and empty declaration lists, with no new types pending |
| Registration.SkriptRegistration.AddConverter | src/main/java/io/github/syst3ms/skriptparser/registration/SkriptRegistration.java:396-398 | appends exactly one converter declaration without options |
| Registration.SkriptRegistration.AddConverterWithOptions | src/main/java/io/github/syst3ms/skriptparser/registration/SkriptRegistration.java:409-411 | appends exactly one converter declaration carrying the options |
| Registration.SkriptRegistration.AddTag | src/main/java/io/github/syst3ms/skriptparser/registration/SkriptRegistration.java:417-419 | appends one tag with the default priority 5 |
| Registration.SkriptRegistration.AddTagWithPriority | src/main/java/io/github/syst3ms/skriptparser/registration/SkriptRegistration.java:426-428 | appends one tag with the given priority, unchecked |
| Registration.SkriptRegistration.TypeCheck | src/main/java/io/github/syst3ms/skriptparser/registration/SkriptRegistration.java:711-716 | hands the registration to the type manager once exactly when new types are pending, and clears the flag |
| Registration.TypeRegistrar.constructor | src/main/java/io/github/syst3ms/skriptparser/registration/SkriptRegistration.java:451-471 | a type registrar starts with no literal parser, changer or arithmetic and the null-safe default display |
| Registration.TypeRegistrar.LiteralParser | src/main/java/io/github/syst3ms/skriptparser/registration/SkriptRegistration.java:473-476 | sets the literal parser and nothing else |
| Registration.TypeRegistrar.ToStringFunction | src/main/java/io/github/syst3ms/skriptparser/registration/SkriptRegistration.java:482-485 | stores the display function wrapped so that null shows as the null representation |
| Registration.TypeRegistrar.DefaultChanger | src/main/java/io/github/syst3ms/skriptparser/registration/SkriptRegistration.java:491-494 | sets the default changer and nothing else |
| Registration.TypeRegistrar.Arithmetic | src/main/java/io/github/syst3ms/skriptparser/registration/SkriptRegistration.java:500-503 | sets the arithmetic and nothing else |
| Registration.TypeRegistrar.Register | src/main/java/io/github/syst3ms/skriptparser/registration/SkriptRegistration.java:509-512 | appends one type with everything the registrar collected and marks new types as pending |
| Registration.SyntaxRegistrar.constructor | src/main/java/io/github/syst3ms/skriptparser/registration/SkriptRegistration.java:520-524 | a registrar keeps its patterns, starts at priority 0 with no handled contexts, and flushes pending types |
| Registration.SyntaxRegistrar.Property | src/main/java/io/github/syst3ms/skriptparser/registration/SkriptRegistration.java:591-600 | a property-expression registrar gets exactly the two synthesised patterns, priority 0, and flushes pending types |
| Registration.SyntaxRegistrar.AddPatterns | src/main/java/io/github/syst3ms/skriptparser/registration/SkriptRegistration.java:531-534 | appends the patterns in order |
| Registration.SyntaxRegistrar.SetPriority | src/main/java/io/github/syst3ms/skriptparser/registration/SkriptRegistration.java:541-545 | a negative priority throws and leaves the priority unchanged; any other value is stored exactly |
| Registration.SyntaxRegistrar.ParsePatterns | src/main/java/io/github/syst3ms/skriptparser/registration/SkriptRegistration.java:548-559 | returns the parsing trees in order; the priority becomes min(5, each kept tree's rank) only when it was -1, and any priority of 0 or more is left unchanged; the error flag is set exactly when a string the stream gets to (all of them, or those up to the tree that makes inference throw) is malformed |
| Registration.DiagnosticsStopAtThrow | src/main/java/io/github/syst3ms/skriptparser/registration/SkriptRegistration.java:548-559 | once a tree makes priority inference throw, no later string is parsed, so no later malformed string is reported |
| Registration.DiagnosedWithoutInference | src/main/java/io/github/syst3ms/skriptparser/registration/SkriptRegistration.java:548-559 | without inference every string is parsed: the error flag is set exactly when some pattern string is malformed |
| Registration.SyntaxRegistrar.Register | src/main/java/io/github/syst3ms/skriptparser/registration/SkriptRegistration.java:577-584 | an expression whose return type has no exact type only logs an error; otherwise the error flag also records malformed patterns, and exactly one entry with the parsed trees and the resulting priority is appended to the registrar's own category, and no other list changes |
| Registration.SyntaxRegistrar.SetHandledContexts | src/main/java/io/github/syst3ms/skriptparser/registration/SkriptRegistration.java:668-671 | the handled contexts become the given classes; a class given twice throws and changes nothing |
| Registration.SyntaxRegistrar.AddContextValue | src/main/java/io/github/syst3ms/skriptparser/registration/SkriptRegistration.java:684-708 | a return type without a type throws and adds nothing; otherwise one context value is appended whose name has its `*` removed and which is excluded exactly when the name had one |
| Comparisons.RelationOf | skript-parser-java-impl/src/main/java/io/github/syst3ms/skriptparser/types/comparisons/Comparators.java:14-18 | the equality comparator answers Equal exactly for equal operands and NotEqual otherwise |
| Comparisons.ResolveComparator | skript-parser-java-impl/src/main/java/io/github/syst3ms/skriptparser/types/comparisons/Comparators.java:74-128 | the three scans with their early returns yield exactly the four-phase resolution `Resolve` |
| Comparisons.SearchIsFirstCandidate | skript-parser-java-impl/src/main/java/io/github/syst3ms/skriptparser/types/comparisons/Comparators.java:77-83 | a phase scans the registrations in order and returns the first one that offers a comparator, and nothing only when none does |
| Comparisons.ResolvePhaseOrder | skript-parser-java-impl/src/main/java/io/github/syst3ms/skriptparser/types/comparisons/Comparators.java:76-127 | the first perfect (or reversed) match wins; with none, a class compared with itself (not `Object`) gets the equality comparator; resolution fails exactly when every registration fails every phase and that fallback does not apply |
| Comparisons.SameClassWithoutComparator | skript-parser-java-impl/src/main/java/io/github/syst3ms/skriptparser/types/comparisons/Comparators.java:14-24 | two values of one class without a matching comparator compare Equal exactly when equal, through a comparator that does not order |
| Comparisons.NullOperandIsNotEqual | skript-parser-java-impl/src/main/java/io/github/syst3ms/skriptparser/types/comparisons/Comparators.java:45-47 | a null operand on either side compares NotEqual |
| Comparisons.OrderingComesFromBase | skript-parser-java-impl/src/main/java/io/github/syst3ms/skriptparser/types/comparisons/Comparators.java:169-172 | a converted comparator supports ordering exactly when the comparator it wraps does; for an inverse comparator the same holds by the model's assumption about `InverseComparator`, whose source is not part of this model |
| Comparisons.ResolvedBase | skript-parser-java-impl/src/main/java/io/github/syst3ms/skriptparser/types/comparisons/Comparators.java:76-127 | every resolved comparator ultimately calls a registered comparator, or the equality comparator for a pair of one class other than `Object` |
| Comparisons.CandidateBase | skript-parser-java-impl/src/main/java/io/github/syst3ms/skriptparser/types/comparisons/Comparators.java:95-125 | every wrapper a phase builds from a registration wraps that registration's comparator |
| Comparisons.ConvertedApply | skript-parser-java-impl/src/main/java/io/github/syst3ms/skriptparser/types/comparisons/Comparators.java:157-167 | a converted comparator answers NotEqual as soon as a present conversion yields null, and otherwise its base's answer on the converted operands |
| Comparisons.NumberTextExample | skript-parser-java-impl/src/main/java/io/github/syst3ms/skriptparser/types/comparisons/Comparators.java:94-113 | with only a text comparator and a number-to-text converter, a number and a text resolve through an inverse single conversion and compare Equal when the number's text is the text |
| Comparisons.ComparatorRegistry.constructor | skript-parser-java-impl/src/main/java/io/github/syst3ms/skriptparser/types/comparisons/Comparators.java:28-61 | the registry starts with no comparators and an empty cache |
| Comparisons.ComparatorRegistry.RegisterComparator | skript-parser-java-impl/src/main/java/io/github/syst3ms/skriptparser/types/comparisons/Comparators.java:38-42 | an `Object`/`Object` comparator throws and changes nothing; any other appends exactly one entry and leaves the cache as it is |
| Comparisons.ComparatorRegistry.GetComparator | skript-parser-java-impl/src/main/java/io/github/syst3ms/skriptparser/types/comparisons/Comparators.java:64-71 | a cached pair (even a cached "none") is answered from the cache unchanged; otherwise the resolution is cached; the pair is cached afterwards; a cache that agreed with resolution still agrees and the answer is the resolution |
| Comparisons.ComparatorRegistry.Compare | skript-parser-java-impl/src/main/java/io/github/syst3ms/skriptparser/types/comparisons/Comparators.java:45-53 | null operands and unresolved pairs give NotEqual, never an error, and null operands leave the cache alone; otherwise the resolved comparator's answer, which equals `CompareValues` while the cache agrees, and the cache gains the looked-up entry for the operands' classes |
| Dates.Shifted | src/main/java/io/github/syst3ms/skriptparser/util/SkriptDate.java:22-24 | the stored timestamp is the given instant minus the zone's offset at that instant (exact unless the `long` overflows) |
| Dates.CompareAsWrittenNotAntisymmetric | src/main/java/io/github/syst3ms/skriptparser/util/SkriptDate.java:124-127 | `compareTo` as written calls `Long.MIN_VALUE` smaller than 0 and 0 smaller than `Long.MIN_VALUE` |
| Dates.CompareAsWrittenZero | src/main/java/io/github/syst3ms/skriptparser/util/SkriptDate.java:124-127 | `compareTo` as written answers 0 exactly for equal timestamps, overflow or not |
| Dates.CompareIsTotalOrder | src/main/java/io/github/syst3ms/skriptparser/util/SkriptDate.java:124-127 | the corrected comparison is antisymmetric and transitive |
| Dates.DistanceSymmetric | src/main/java/io/github/syst3ms/skriptparser/util/SkriptDate.java:77-79 | the difference of two dates is the same in both directions, even when the subtraction overflows |
| Dates.AddThenSubtract | src/main/java/io/github/syst3ms/skriptparser/util/SkriptDate.java:85-95 | adding a span and subtracting it restores the timestamp, with or without overflow |
| Dates.XorBound | src/main/java/io/github/syst3ms/skriptparser/util/SkriptDate.java:137 | the exclusive or of two 32-bit halves fits in 32 bits, so the folded value is an `int` |
| Dates.HashOf | src/main/java/io/github/syst3ms/skriptparser/util/SkriptDate.java:134-139 | a timestamp t with 0 <= t <= 2^31 - 32 hashes to t + 31 |
| Dates.SkriptDate.constructor | src/main/java/io/github/syst3ms/skriptparser/util/SkriptDate.java:22-24 | the new date stores the instant shifted by the zone's offset |
| Dates.SkriptDate.Of | src/main/java/io/github/syst3ms/skriptparser/util/SkriptDate.java:34-40 | `of` builds a fresh date through the constructor |
| Dates.SkriptDate.Add | src/main/java/io/github/syst3ms/skriptparser/util/SkriptDate.java:85-87 | moves the timestamp forward by the span, wrapping like a `long`, and changes nothing else |
| Dates.SkriptDate.Subtract | src/main/java/io/github/syst3ms/skriptparser/util/SkriptDate.java:93-95 | moves the timestamp backward by the span, wrapping like a `long`, and changes nothing else |
| Dates.SkriptDate.Plus | src/main/java/io/github/syst3ms/skriptparser/util/SkriptDate.java:102-104 | returns a fresh date built through `of` from the moved timestamp, so the zone offset is subtracted again; the receiver is unchanged |
| Dates.SkriptDate.Minus | src/main/java/io/github/syst3ms/skriptparser/util/SkriptDate.java:111-113 | as `plus`, backward |
| Dates.SkriptDate.Difference | src/main/java/io/github/syst3ms/skriptparser/util/SkriptDate.java:77-79 | non-negative, symmetric, and the exact distance whenever the subtraction does not overflow |
| Dates.SkriptDate.CompareTo | src/main/java/io/github/syst3ms/skriptparser/util/SkriptDate.java:124-127 | as written: -1, 0 or 1, the sign of the wrapped difference; 0 exactly for equal timestamps; the order of the timestamps (`Dates.Compare`) whenever the subtraction does not overflow; against null, the sign of the own timestamp |
| Dates.SkriptDate.Equals | src/main/java/io/github/syst3ms/skriptparser/util/SkriptDate.java:142-146 | equal exactly to a date with the same timestamp, never to a non-date or null, and exactly when `compareTo` as written answers 0 |
| Dates.SkriptDate.HashCode | src/main/java/io/github/syst3ms/skriptparser/util/SkriptDate.java:134-139 | for a timestamp that fits in an `int` with room for 31, the timestamp plus 31 |
| Dates.AddThenSubtractRestores | src/main/java/io/github/syst3ms/skriptparser/util/SkriptDate.java:85-95 | `add` then `subtract` of one span leaves the date as it was |
| ContextValues.ToLower | src/main/java/io/github/syst3ms/skriptparser/registration/ContextValueManager.java:60 | lower-casing keeps the length, maps each character to its lower-case form, and leaves no upper-case letter |
| ContextValues.NormalTimeline | src/main/java/io/github/syst3ms/skriptparser/registration/ContextValueManager.java:106-108 | the normalised timeline is -1, 0 or 1 with the sign of the argument |
| ContextValues.NewContextValue | src/main/java/io/github/syst3ms/skriptparser/registration/ContextValueManager.java:57-63 | the stored name is the lower-cased name and the timeline its sign; the other fields are kept |
| ContextValues.NewPresentContextValue | src/main/java/io/github/syst3ms/skriptparser/registration/ContextValueManager.java:45-47 | the four-argument constructor gives timeline PRESENT (0) |
| ContextValues.Matches | src/main/java/io/github/syst3ms/skriptparser/registration/ContextValueManager.java:100-104 | for a constructed value: the same context class, exactly the stored name, and timelines of the same sign |
| ContextValues.MatchesConstructed | src/main/java/io/github/syst3ms/skriptparser/registration/ContextValueManager.java:57-108 | a constructed value matches exactly the requests naming its class, its lower-cased name, and a timeline of the sign it was built with |
| ContextValues.MatchesOnlySign | src/main/java/io/github/syst3ms/skriptparser/registration/ContextValueManager.java:100-108 | matching with a timeline t is matching with the sign of t |
| ContextValues.UpperCaseNeverMatches | src/main/java/io/github/syst3ms/skriptparser/registration/ContextValueManager.java:57-104 | a requested name holding an upper-case letter never matches |
| ContextValues.ContextValueManager.Register | src/main/java/io/github/syst3ms/skriptparser/registration/ContextValueManager.java:13-15 | appends the given values in order after the existing ones, which stay untouched |
| Effects.LoopsAppend | src/main/java/io/github/syst3ms/skriptparser/effects/EffContinue.java:36-41 | collecting loops over a concatenation keeps the loops of the first part before those of the second |
| Effects.FirstLoopIsInnermost | src/main/java/io/github/syst3ms/skriptparser/effects/EffContinue.java:36-47 | no loop is chosen exactly when no current section is a loop; otherwise the chosen loop is the first loop section, with no loop before it |
| Effects.NonLoopsIgnored | src/main/java/io/github/syst3ms/skriptparser/effects/EffContinue.java:37-40 | inserting a section that is not a loop anywhere never changes the chosen loop |
| Effects.EffContinue.Init | src/main/java/io/github/syst3ms/skriptparser/effects/EffContinue.java:35-51 | succeeds exactly when some current section is a loop and then keeps the innermost one; otherwise logs one semantic error, keeps the old loop and fails |
| Effects.EffContinue.Execute | src/main/java/io/github/syst3ms/skriptparser/effects/EffContinue.java:54-56 | always throws `UnsupportedOperationException` |
| Effects.EffContinue.Walk | src/main/java/io/github/syst3ms/skriptparser/effects/EffContinue.java:59-62 | calls the chosen loop's `walk` once with the context and the next-iteration flag set, and returns no next statement |

## Left out

- The pattern parser (`PatternParser.parsePattern`), `TypeManager`, `SyntaxManager`, `TagManager`, `Converters` and `SkriptAddon` are not part of this model; they are parameters (a parse function, type lookups, a converter lookup) or left out.
- `SkriptRegistration.register()`, which publishes the declarations to those managers and closes the logger, is left out: everything it does happens in code outside the model.
- `EventRegistrar.register` also calls `addHandledEvent` on the add-on; that call is not modelled.
- The convenience wrappers `addExpression`, `addEffect`, `addSection`, `addEvent`, `addType`, `addExecutableExpression`, `addPropertyExpression` and the `new*` factories only build a registrar (with the constructors modelled here), optionally call `setPriority` and, for `addEvent`, `setHandledContexts`, and call `register`; they are not modelled separately. `addPropertyConditional` builds patterns through `PropertyConditional.composePatterns`, which is outside the model.
- Registration.SyntaxRegistrar.Register: `MultiMap.putOne` is taken to append the value to the list kept under the key.
- Registration.SyntaxRegistrar.AddContextValue: it records the newer `contextvalues.ContextValue` fields (the state and the exclusion flag), not the older `ContextValueManager.ContextValue`; `ContextValueManager.register` is modelled as appending whatever list it is given.
- Registration.SyntaxRegistrar.constructor: the abstract registrar cannot be built on its own; the model's constructor stands for the concrete registrars, whose extra `typeCheck` calls are folded in.
- Error messages and the logger's entries are modelled only as an error flag, except for the `continue` effect, whose single message is kept.
- Comparisons: `InverseComparator` and `Relation` are not part of this model; an inverse comparator is taken to ask its wrapped comparator with the operands swapped and to transform the answer with a given function `invert`, about which nothing is assumed, and to support ordering exactly when its wrapped comparator does.
- Comparisons.SameClassWithoutComparator: `Objects.equals` is modelled as identity of the abstract values; a class's own `equals` is not modelled.
- Comparisons.ComparatorRegistry: the registry and its cache are static and shared in the source; the model makes them fields of one object and does not model concurrent access. `getJavaComparator` is not modelled.
- Dates: `now`, `today`, `toString`, `toLocalDateTime` and `getTimeZone` depend on the clock, locale, `SimpleDateFormat` and the time-zone library and are left out; the default time zone is passed in wherever `of(long)` reads it.
- Dates: a `Duration` is its millisecond count as a `long`; `Duration.toMillis` overflow and `Duration`'s own range are not modelled, and `difference` returns the millisecond count of the resulting duration.
- Dates.SkriptDate.HashCode: only the value for timestamps that fit in an `int` is stated; the general value is the definition `HashOf`.
- ContextValues.ToLower: `String.toLowerCase` is modelled for Latin-1 upper-case letters only and without the default locale's special cases; other scripts are left unchanged.
- ContextValues: the context function and the value type are opaque handles.
- Effects.EffContinue.Walk: requires that `init` chose a loop; `walk` on an effect whose `init` never succeeded throws a `NullPointerException` in the source, which is not modelled.
- Effects: `SecLoop.walk` is not part of this model; a loop records the calls it receives. `toString` and the static registration of the effect are not modelled.

## Findings

| source | as written | input that shows it | evidently intended | confidence | as-written member | corrected member |
|---|---|---|---|---|---|---|
| src/main/java/io/github/syst3ms/skriptparser/util/SkriptDate.java:124-127 | `compareTo` takes the sign of `timestamp - other.timestamp`, which overflows a `long` | this timestamp `Long.MIN_VALUE`, other 0: answers -1; swapped, 0 - `Long.MIN_VALUE` wraps to `Long.MIN_VALUE` and also answers -1 | the sign of the exact difference (`Long.compare`), a total order | not executed | Dates.CompareAsWrittenNotAntisymmetric | Dates.CompareIsTotalOrder |
