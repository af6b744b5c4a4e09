/**
 * Context values (`ContextValueManager`): named values an event's trigger context exposes, such
 * as `context-test`, each tied to a trigger-context class and to a point on a timeline (past,
 * present or future), and the global list they are registered into.
 *
 * Classes are ids and the function that extracts the value from a context is an opaque handle.
 */
module ContextValues {

  type ClassId = nat
  type Handle = nat

  /** A Java `int`. */
  type Int32 = x: int | -0x8000_0000 <= x <= 0x7FFF_FFFF

  const Past: int := -1
  const Present: int := 0
  const Future: int := 1

  /** `ContextValue`: the name is stored lower-cased and the timeline as its sign. */
  datatype ContextValue = ContextValue(context: ClassId, valueType: ClassId, name: string,
                                       contextFunction: Handle, timeline: int)

  /** Characters `String.toLowerCase` maps to a different character, within Latin-1. */
  predicate IsUpper(c: char)
  {
    ('A' <= c <= 'Z') || ('\U{C0}' <= c <= '\U{DE}' && c != '\U{D7}')
  }

  function LowerChar(c: char): (r: char)
    ensures !IsUpper(r)
    ensures !IsUpper(c) ==> r == c
  {
    if IsUpper(c) then (c as int + 32) as char else c
  }

  /** `String.toLowerCase` on Latin-1 text: each upper-case letter becomes its lower-case form. */
  function ToLower(s: string): (r: string)
    ensures |r| == |s|
    ensures forall i :: 0 <= i < |s| ==> r[i] == LowerChar(s[i])
    ensures forall i :: 0 <= i < |r| ==> !IsUpper(r[i])
  {
    if s == [] then [] else [LowerChar(s[0])] + ToLower(s[1..])
  }

  /** Lower-casing twice is lower-casing once, and text without upper-case letters is already
      lower case. */
  lemma ToLowerIdempotent(s: string)
    ensures ToLower(ToLower(s)) == ToLower(s)
    ensures (forall i :: 0 <= i < |s| ==> !IsUpper(s[i])) ==> ToLower(s) == s
  {
  }

  /** `normalTimeline` (`Integer.compare(timeline, 0)`): -1, 0 or 1 after the sign of the
      timeline. */
  function NormalTimeline(timeline: int): (r: int)
    ensures r == Past || r == Present || r == Future
    ensures r < 0 <==> timeline < 0
    ensures r == 0 <==> timeline == 0
  {
    if timeline < 0 then -1 else if timeline == 0 then 0 else 1
  }

  /** What every constructed context value satisfies. */
  predicate Normalised(cv: ContextValue)
  {
    && cv.name == ToLower(cv.name)
    && cv.timeline == NormalTimeline(cv.timeline)
  }

  /** The five-argument constructor. */
  function NewContextValue(context: ClassId, valueType: ClassId, name: string, contextFunction: Handle,
                           timeline: Int32): (cv: ContextValue)
    ensures Normalised(cv)
    ensures cv.name == ToLower(name) && cv.timeline == NormalTimeline(timeline)
    ensures cv.context == context && cv.valueType == valueType && cv.contextFunction == contextFunction
  {
    ToLowerIdempotent(name);
    ContextValue(context, valueType, ToLower(name), contextFunction, NormalTimeline(timeline))
  }

  /** The four-argument constructor: a value of the present. */
  function NewPresentContextValue(context: ClassId, valueType: ClassId, name: string,
                                  contextFunction: Handle): (cv: ContextValue)
    ensures Normalised(cv)
    ensures cv.timeline == Present
    ensures cv.name == ToLower(name)
  {
    NewContextValue(context, valueType, name, contextFunction, 0)
  }

  /** `matches`: the same context class, exactly the stored name, and the same normalised
      timeline. */
  function Matches(cv: ContextValue, handledContext: ClassId, name: string, timeline: Int32): (r: bool)
    ensures Normalised(cv) ==>
              (r <==> handledContext == cv.context && name == cv.name
                      && NormalTimeline(cv.timeline) == NormalTimeline(timeline))
  {
    handledContext == cv.context && cv.name == name && cv.timeline == NormalTimeline(timeline)
  }

  /** A constructed value matches a request exactly when the request names its context class,
      the lower-cased name it was built with, and a timeline of the same sign. */
  lemma MatchesConstructed(context: ClassId, valueType: ClassId, name: string, f: Handle, timeline: Int32,
                           handledContext: ClassId, requested: string, t: Int32)
    ensures Matches(NewContextValue(context, valueType, name, f, timeline), handledContext, requested, t) <==>
              handledContext == context && requested == ToLower(name)
              && (t < 0 <==> timeline < 0) && (t == 0 <==> timeline == 0)
  {
  }

  /** Only the sign of the requested timeline matters. */
  lemma MatchesOnlySign(cv: ContextValue, handledContext: ClassId, name: string, t: Int32)
    ensures Matches(cv, handledContext, name, t) == Matches(cv, handledContext, name, NormalTimeline(t))
  {
  }

  /** A requested name holding an upper-case letter never matches a constructed value. */
  lemma UpperCaseNeverMatches(cv: ContextValue, handledContext: ClassId, name: string, t: Int32, i: nat)
    requires Normalised(cv)
    requires i < |name| && IsUpper(name[i])
    ensures !Matches(cv, handledContext, name, t)
  {
    if i < |cv.name| {
      assert !IsUpper(ToLower(cv.name)[i]);
    }
  }

  /** The global list of registered context values. */
  class ContextValueManager {
    var contextValues: seq<ContextValue>

    constructor ()
      ensures contextValues == []
    {
      contextValues := [];
    }

    /** `register(reg)`: appends the registration's context values, in order, after the ones
        already registered. */
    method Register(registered: seq<ContextValue>)
      modifies this
      ensures contextValues == old(contextValues) + registered
      ensures contextValues[..|old(contextValues)|] == old(contextValues)
    {
      contextValues := contextValues + registered;
    }
  }
}
