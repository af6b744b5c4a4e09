/**
 * Pattern trees and the priority heuristic of `SkriptRegistration.findAppropriatePriority`.
 *
 * A grammar string is compiled (by a pattern parser that is not part of this model) into a tree
 * of pattern elements. When a registrant asks for the priority to be inferred, the registration
 * ranks the tree with a structural heuristic whose result lies in 1..5 (5 is tried first).
 */
module Patterns {
  import opened Wrappers

  /** How an expression slot accepts its argument (`%~type%` restricts it to expressions). */
  datatype Acceptance = ExpressionsOnly | LiteralsAndExpressions

  /** The closed set of pattern element kinds the heuristic distinguishes with `instanceof`. */
  datatype PatternElement =
    | TextElement(text: string)
    | RegexGroup(regex: string)
    | ChoiceGroup(choices: seq<PatternElement>)
    | ExpressionElement(types: seq<string>, acceptance: Acceptance, literalOnly: bool)
    | OptionalGroup(element: PatternElement)
    | CompoundElement(elements: seq<PatternElement>)

  /** `Character.isWhitespace`: the space separators except the non-breaking ones, line and
      paragraph separators, and the control characters U+0009..U+000D and U+001C..U+001F. */
  predicate IsWhitespace(c: char)
  {
    || c == ' ' || ('\t' <= c <= '\r') || ('\U{1C}' <= c <= '\U{1F}')
    || c == '\U{1680}' || ('\U{2000}' <= c <= '\U{200A}' && c != '\U{2007}')
    || c == '\U{2028}' || c == '\U{2029}' || c == '\U{205F}' || c == '\U{3000}'
  }

  /** `String.isBlank`: empty, or white space only. */
  predicate IsBlank(s: string)
  {
    forall i :: 0 <= i < |s| ==> IsWhitespace(s[i])
  }

  /** The element the heuristic inspects for a compound child: an optional group's content,
      any other child itself. */
  function Unwrap(el: PatternElement): (e: PatternElement)
    ensures el.OptionalGroup? ==> e == el.element
    ensures !el.OptionalGroup? ==> e == el
  {
    if el.OptionalGroup? then el.element else el
  }

  /** A compound child that lets the scan go on: an optional group, or blank text. */
  predicate IsFree(el: PatternElement)
  {
    el.OptionalGroup? || (el.TextElement? && IsBlank(el.text))
  }

  /** Whether some direct child of a compound is a regex group. */
  predicate ContainsRegex(elements: seq<PatternElement>)
  {
    exists i :: 0 <= i < |elements| && elements[i].RegexGroup?
  }

  /**
   * The priority `findAppropriatePriority` computes, or None where it throws: an optional group
   * handed to it directly (a bare optional pattern, an optional alternative of a choice, or an
   * optional group directly inside another) fails the cast to a compound element.
   */
  function Priority(el: PatternElement): Option<int>
    decreases el, 1
  {
    match el
    case TextElement(_) => Some(5)
    case RegexGroup(_) => Some(1)
    case ChoiceGroup(choices) => ChoiceMin(el, 5, 0)
    case ExpressionElement(_, _, _) => Some(2)
    case OptionalGroup(_) => None
    case CompoundElement(elements) =>
      match LeadingMin(el, 5, 0)
      case None => None
      case Some(p) => Some(if ContainsRegex(elements) then Min(p, 3) else p)
  }

  /** The running minimum over the alternatives `i..` of a choice group, starting from `acc`. */
  function ChoiceMin(group: PatternElement, acc: int, i: nat): Option<int>
    requires group.ChoiceGroup? && i <= |group.choices|
    decreases group, 0, |group.choices| - i
  {
    if i == |group.choices| then Some(acc)
    else
      match Priority(group.choices[i])
      case None => None
      case Some(q) => ChoiceMin(group, Min(acc, q), i + 1)
  }

  /** The running minimum over the children `i..` of a compound, starting from `acc`, that stops
      after the first child that is not free. */
  function LeadingMin(compound: PatternElement, acc: int, i: nat): Option<int>
    requires compound.CompoundElement? && i <= |compound.elements|
    decreases compound, 0, |compound.elements| - i
  {
    if i == |compound.elements| then Some(acc)
    else
      var child := compound.elements[i];
      var e := if child.OptionalGroup? then child.element else child;
      match Priority(e)
      case None => None
      case Some(q) =>
        if IsFree(child) then LeadingMin(compound, Min(acc, q), i + 1) else Some(Min(acc, q))
  }

  /** `findAppropriatePriority` as the source runs it: recursion, running minima and an early
      `break` out of the compound scan; an exception becomes None. */
  method ComputePriority(el: PatternElement) returns (r: Option<int>)
    ensures r == Priority(el)
    decreases el
  {
    match el {
      case TextElement(_) =>
        return Some(5);
      case RegexGroup(_) =>
        return Some(1);
      case ChoiceGroup(choices) =>
        var priority := 5;
        var i := 0;
        while i < |choices|
          invariant 0 <= i <= |choices|
          invariant ChoiceMin(el, 5, 0) == ChoiceMin(el, priority, i)
        {
          var q := ComputePriority(choices[i]);
          if q.None? {
            return None;
          }
          priority := Min(priority, q.value);
          i := i + 1;
        }
        return Some(priority);
      case ExpressionElement(_, _, _) =>
        return Some(2);
      case OptionalGroup(_) =>
        return None;
      case CompoundElement(elements) =>
        var priority := 5;
        var i := 0;
        while i < |elements|
          invariant 0 <= i <= |elements|
          invariant LeadingMin(el, 5, 0) == LeadingMin(el, priority, i)
        {
          var element := elements[i];
          var e := if element.OptionalGroup? then element.element else element;
          var q := ComputePriority(e);
          if q.None? {
            return None;
          }
          priority := Min(priority, q.value);
          if !IsFree(element) {
            break;
          }
          i := i + 1;
        }
        var containsRegex := exists k | 0 <= k < |elements| :: elements[k].RegexGroup?;
        return Some(if containsRegex then Min(priority, 3) else priority);
    }
  }

  /** Trees whose every optional group sits directly inside a compound: the only ones the
      heuristic never hands an optional group to. */
  predicate Rankable(el: PatternElement)
    decreases el
  {
    match el
    case OptionalGroup(_) => false
    case ChoiceGroup(choices) => forall i :: 0 <= i < |choices| ==> Rankable(choices[i])
    case CompoundElement(elements) =>
      forall i :: 0 <= i < |elements| ==>
        if elements[i].OptionalGroup? then Rankable(elements[i].element) else Rankable(elements[i])
    case _ => true
  }

  /** Every priority the heuristic returns lies in 1..5; it returns one for every rankable tree
      and throws for a bare optional group. */
  lemma {:induction false} PriorityInRange(el: PatternElement)
    ensures Priority(el).Some? ==> 1 <= Priority(el).value <= 5
    ensures Rankable(el) ==> Priority(el).Some?
    ensures el.OptionalGroup? ==> Priority(el).None?
    decreases el, 1
  {
    match el
    case ChoiceGroup(_) => ChoiceMinInRange(el, 5, 0);
    case CompoundElement(_) => LeadingMinInRange(el, 5, 0);
    case _ =>
  }

  lemma {:induction false} ChoiceMinInRange(group: PatternElement, acc: int, i: nat)
    requires group.ChoiceGroup? && i <= |group.choices| && 1 <= acc <= 5
    ensures ChoiceMin(group, acc, i).Some? ==> 1 <= ChoiceMin(group, acc, i).value <= 5
    ensures Rankable(group) ==> ChoiceMin(group, acc, i).Some?
    decreases group, 0, |group.choices| - i
  {
    if i < |group.choices| {
      PriorityInRange(group.choices[i]);
      var q := Priority(group.choices[i]);
      if q.Some? {
        ChoiceMinInRange(group, Min(acc, q.value), i + 1);
      }
    }
  }

  lemma {:induction false} LeadingMinInRange(compound: PatternElement, acc: int, i: nat)
    requires compound.CompoundElement? && i <= |compound.elements| && 1 <= acc <= 5
    ensures LeadingMin(compound, acc, i).Some? ==> 1 <= LeadingMin(compound, acc, i).value <= 5
    ensures Rankable(compound) ==> LeadingMin(compound, acc, i).Some?
    decreases compound, 0, |compound.elements| - i
  {
    if i < |compound.elements| {
      var child := compound.elements[i];
      var e := if child.OptionalGroup? then child.element else child;
      PriorityInRange(e);
      var q := Priority(e);
      if q.Some? && IsFree(child) {
        LeadingMinInRange(compound, Min(acc, q.value), i + 1);
      }
    }
  }

  /** A choice group is as low as its lowest alternative, and never above 5; it is defined
      exactly when every alternative is. */
  lemma ChoiceIsMinimum(group: PatternElement)
    requires group.ChoiceGroup?
    ensures Priority(group).Some? <==>
      forall i :: 0 <= i < |group.choices| ==> Priority(group.choices[i]).Some?
    ensures Priority(group).Some? ==>
      && Priority(group).value <= 5
      && (forall i :: 0 <= i < |group.choices| ==>
            Priority(group).value <= Priority(group.choices[i]).value)
      && (Priority(group).value == 5 ||
          exists i :: 0 <= i < |group.choices| && Priority(group.choices[i]) == Priority(group))
  {
    ChoiceMinIsMinimum(group, 5, 0);
  }

  lemma {:induction false} ChoiceMinIsMinimum(group: PatternElement, acc: int, i: nat)
    requires group.ChoiceGroup? && i <= |group.choices|
    ensures ChoiceMin(group, acc, i).Some? <==>
      forall j :: i <= j < |group.choices| ==> Priority(group.choices[j]).Some?
    ensures ChoiceMin(group, acc, i).Some? ==>
      && ChoiceMin(group, acc, i).value <= acc
      && (forall j :: i <= j < |group.choices| ==>
            ChoiceMin(group, acc, i).value <= Priority(group.choices[j]).value)
      && (ChoiceMin(group, acc, i).value == acc ||
          exists j :: i <= j < |group.choices| && Priority(group.choices[j]) == ChoiceMin(group, acc, i))
    decreases |group.choices| - i
  {
    if i < |group.choices| {
      var q := Priority(group.choices[i]);
      if q.Some? {
        ChoiceMinIsMinimum(group, Min(acc, q.value), i + 1);
      }
    }
  }

  /** Once a compound has a child that is neither optional nor blank text, children after it
      that are not regex groups change nothing: only the leading run and the child that ends it
      are ranked. */
  lemma LaterChildrenIgnored(elements: seq<PatternElement>, tail: seq<PatternElement>)
    requires exists k :: 0 <= k < |elements| && !IsFree(elements[k])
    requires !ContainsRegex(tail)
    ensures Priority(CompoundElement(elements + tail)) == Priority(CompoundElement(elements))
  {
    LeadingMinPrefix(elements, tail, 5, 0);
    if ContainsRegex(elements + tail) {
      var k :| 0 <= k < |elements + tail| && (elements + tail)[k].RegexGroup?;
      if k < |elements| {
        assert elements[k].RegexGroup?;
      } else {
        assert false;
      }
    }
    if ContainsRegex(elements) {
      var k :| 0 <= k < |elements| && elements[k].RegexGroup?;
      assert (elements + tail)[k].RegexGroup?;
    }
  }

  lemma {:induction false} LeadingMinPrefix(elements: seq<PatternElement>, tail: seq<PatternElement>, acc: int, i: nat)
    requires i <= |elements|
    requires exists k :: i <= k < |elements| && !IsFree(elements[k])
    ensures LeadingMin(CompoundElement(elements + tail), acc, i) == LeadingMin(CompoundElement(elements), acc, i)
    decreases |elements| - i
  {
    var child := elements[i];
    assert (elements + tail)[i] == child;
    var e := if child.OptionalGroup? then child.element else child;
    if Priority(e).Some? && IsFree(child) {
      LeadingMinPrefix(elements, tail, Min(acc, Priority(e).value), i + 1);
    }
  }

  /** A regex group anywhere among a compound's children caps its priority at 3. */
  lemma RegexCapsCompound(elements: seq<PatternElement>)
    requires ContainsRegex(elements)
    ensures Priority(CompoundElement(elements)).Some? ==> Priority(CompoundElement(elements)).value <= 3
  {
  }

  /** The hand-built pattern of the `whether %~boolean%` expression ranks 5, a bare regex 1, and
      `[hello] <world>` (an optional word, a space, a regex group) 1. */
  lemma ExamplePriorities()
    ensures Priority(CompoundElement([TextElement("whether "),
                                      ExpressionElement(["boolean"], ExpressionsOnly, false)])) == Some(5)
    ensures Priority(RegexGroup("[0-9]+")) == Some(1)
    ensures Priority(CompoundElement([OptionalGroup(TextElement("hello")), TextElement(" "),
                                      RegexGroup("world")])) == Some(1)
  {
    var whether := CompoundElement([TextElement("whether "),
                                    ExpressionElement(["boolean"], ExpressionsOnly, false)]);
    assert whether.elements[0].text[0] == 'w';
    assert !IsFree(whether.elements[0]);
    assert !ContainsRegex(whether.elements);
    var hello := CompoundElement([OptionalGroup(TextElement("hello")), TextElement(" "),
                                  RegexGroup("world")]);
    assert IsFree(hello.elements[1]);
    assert hello.elements[2].RegexGroup?;
  }
}
