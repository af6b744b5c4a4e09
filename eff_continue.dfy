/**
 * The `continue` effect (`EffContinue`): skips to the next iteration of the innermost enclosing
 * loop.
 *
 * When the effect is parsed it finds that loop among the sections currently open around it,
 * innermost first, and fails with a semantic error when there is none. When run it hands control
 * to the loop with the "next iteration" flag set. The loop section's own `walk` is not part of
 * this model: a `SecLoop` here records the calls it receives.
 */
module Effects {
  import opened Wrappers

  /** A trigger context, by identity. */
  type TriggerContext = nat

  /** A loop section; only the calls to its `walk` are observable. */
  class SecLoop {
    var walks: seq<(TriggerContext, bool)>

    constructor ()
      ensures walks == []
    {
      walks := [];
    }

    /** `SecLoop.walk(ctx, nextIteration)`. */
    method Walk(ctx: TriggerContext, nextIteration: bool)
      modifies this
      ensures walks == old(walks) + [(ctx, nextIteration)]
    {
      walks := walks + [(ctx, nextIteration)];
    }
  }

  /** A section currently open around the statement being parsed. */
  datatype CodeSection = LoopSection(loop: SecLoop) | OtherSection(kind: nat)

  datatype ErrorType = SemanticError

  datatype LogEntry = LogEntry(message: string, errorType: ErrorType)

  const NotInLoopMessage: string := "You can only use the 'continue' in a loop!"

  /** The parse logger; only the errors it receives are modelled. */
  class Logger {
    var errors: seq<LogEntry>

    constructor ()
      ensures errors == []
    {
      errors := [];
    }

    method Error(message: string, errorType: ErrorType)
      modifies this
      ensures errors == old(errors) + [LogEntry(message, errorType)]
    {
      errors := errors + [LogEntry(message, errorType)];
    }
  }

  /** The loops among the sections, in the same order. */
  function Loops(sections: seq<CodeSection>): (r: seq<SecLoop>)
    ensures |r| <= |sections|
    ensures forall i :: 0 <= i < |r| ==> LoopSection(r[i]) in sections
  {
    if sections == [] then []
    else (if sections[0].LoopSection? then [sections[0].loop] else []) + Loops(sections[1..])
  }

  /** The innermost loop: the first loop section in the list, innermost first. */
  function FirstLoop(sections: seq<CodeSection>): Option<SecLoop>
  {
    if Loops(sections) == [] then None else Some(Loops(sections)[0])
  }

  lemma {:induction false} LoopsAppend(a: seq<CodeSection>, b: seq<CodeSection>)
    ensures Loops(a + b) == Loops(a) + Loops(b)
    decreases |a|
  {
    if a != [] {
      var head := if a[0].LoopSection? then [a[0].loop] else [];
      assert (a + b)[0] == a[0];
      assert (a + b)[1..] == a[1..] + b;
      LoopsAppend(a[1..], b);
      assert Loops(a + b) == head + (Loops(a[1..]) + Loops(b));
      assert Loops(a) == head + Loops(a[1..]);
    } else {
      assert a + b == b;
    }
  }

  /** The loop chosen is the section at some index i, and no section before i is a loop. */
  lemma {:induction false} FirstLoopIsInnermost(sections: seq<CodeSection>)
    ensures FirstLoop(sections).None? <==> forall i :: 0 <= i < |sections| ==> !sections[i].LoopSection?
    ensures FirstLoop(sections).Some? ==>
              exists i :: 0 <= i < |sections| && sections[i] == LoopSection(FirstLoop(sections).value)
                          && forall j :: 0 <= j < i ==> !sections[j].LoopSection?
    decreases |sections|
  {
    if sections != [] {
      FirstLoopIsInnermost(sections[1..]);
      if !sections[0].LoopSection? {
        assert Loops(sections) == Loops(sections[1..]);
        if FirstLoop(sections).Some? {
          var i :| 0 <= i < |sections[1..]| && sections[1..][i] == LoopSection(FirstLoop(sections).value)
                   && forall j :: 0 <= j < i ==> !sections[1..][j].LoopSection?;
          assert sections[i + 1] == LoopSection(FirstLoop(sections).value);
        }
      } else {
        assert sections[0] == LoopSection(FirstLoop(sections).value);
      }
      if forall i :: 0 <= i < |sections[1..]| ==> !sections[1..][i].LoopSection? {
        if !sections[0].LoopSection? {
          assert forall i :: 0 <= i < |sections| ==> !sections[i].LoopSection? by {
            forall i | 0 <= i < |sections|
              ensures !sections[i].LoopSection?
            {
              if i > 0 {
                assert sections[i] == sections[1..][i - 1];
              }
            }
          }
        }
      }
    }
  }

  /** Sections that are not loops never change which loop is chosen. */
  lemma NonLoopsIgnored(before: seq<CodeSection>, other: CodeSection, after: seq<CodeSection>)
    requires !other.LoopSection?
    ensures FirstLoop(before + [other] + after) == FirstLoop(before + after)
  {
    LoopsAppend(before + [other], after);
    LoopsAppend(before, [other]);
    LoopsAppend(before, after);
    assert Loops([other]) == [];
  }

  datatype ExecuteError = UnsupportedOperation

  class EffContinue {
    var loop: SecLoop?

    constructor ()
      ensures loop == null
    {
      loop := null;
    }

    /** `init`: collects the loops among the current sections and keeps the first, or logs a
        semantic error and fails when there is none. */
    method Init(currentSections: seq<CodeSection>, logger: Logger) returns (ok: bool)
      modifies this, logger
      ensures ok <==> FirstLoop(currentSections).Some?
      ensures ok ==> loop == FirstLoop(currentSections).value && logger.errors == old(logger.errors)
      ensures !ok ==> loop == old(loop) &&
                      logger.errors == old(logger.errors) + [LogEntry(NotInLoopMessage, SemanticError)]
    {
      var loops: seq<SecLoop> := [];
      for i := 0 to |currentSections|
        invariant loops == Loops(currentSections[..i])
        invariant loop == old(loop) && logger.errors == old(logger.errors)
      {
        LoopsAppend(currentSections[..i], [currentSections[i]]);
        assert currentSections[..i + 1] == currentSections[..i] + [currentSections[i]];
        if currentSections[i].LoopSection? {
          loops := loops + [currentSections[i].loop];
        }
      }
      assert currentSections[..|currentSections|] == currentSections;
      if |loops| == 0 {
        logger.Error(NotInLoopMessage, SemanticError);
        return false;
      }
      loop := loops[0];
      return true;
    }

    /** `execute`: a `continue` is never executed directly; it always throws. */
    method Execute(ctx: TriggerContext) returns (r: Outcome<ExecuteError>)
      ensures r == Fail(UnsupportedOperation)
    {
      return Fail(UnsupportedOperation);
    }

    /** `walk`: asks the chosen loop to go on with its next iteration, and leaves the next
        statement to it. */
    method Walk(ctx: TriggerContext) returns (next: Option<nat>)
      requires loop != null
      modifies loop
      ensures loop.walks == old(loop.walks) + [(ctx, true)]
      ensures next == None
    {
      loop.Walk(ctx, true);
      return None;
    }
  }
}
