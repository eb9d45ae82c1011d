/**
 * The inspection that flags `@Inject` handlers targeting a constructor at an
 * instruction other than `return`.
 *
 * Target resolution and instruction resolution belong to the injector
 * handler and are given here as their results: every resolved target carries
 * the instructions resolved in it.
 */
module InjectIntoConstructor {
  import opened Wrappers

  /** The JVM `return` instruction (opcode 177, section 6.5 of the JVM Specification SE). */
  const RETURN: int := 177
  /** Two other opcodes of the same section, used by the examples below. */
  const ALOAD: int := 25
  const INVOKESPECIAL: int := 183

  datatype Instruction = Instruction(opcode: int)

  /** A resolved target: a method (whether it is a constructor, and its resolved instructions), or another member. */
  datatype Target =
    | MethodTarget(isConstructor: bool, instructions: seq<Instruction>)
    | OtherTarget

  /** An `@Inject` annotation: its name reference element, if any, and the targets it resolves to. */
  datatype InjectAnnotation = InjectAnnotation(nameReference: Option<string>, targets: seq<Target>)

  /** A visited method, with its `@Inject` annotation if it has one. */
  datatype Method = Method(inject: Option<InjectAnnotation>)

  /** A registered problem: the element it is reported on and its description. */
  datatype Problem = Problem(element: string, description: string)

  const ProblemMessage := "Cannot inject into constructors at non-return instructions"

  /** The module of the inspected file: none, one without a Minecraft facet, or one with a facet of the given kind. */
  datatype FileModule = NoModule | NoMinecraftFacet | WithMinecraftFacet(isFabric: bool)

  /** The file belongs to a module whose Minecraft facet is of the Fabric type; no module or no facet means not Fabric. */
  predicate IsFabric(m: FileModule)
  {
    m.WithMinecraftFacet? && m.isFabric
  }

  /** Some resolved instruction has an opcode other than `return`. */
  predicate AnyNonReturn(instructions: seq<Instruction>)
  {
    exists k :: 0 <= k < |instructions| && instructions[k].opcode != RETURN
  }

  /** A target that makes the inspection report: a constructor with a resolved instruction other than `return`. */
  predicate Offends(t: Target)
  {
    t.MethodTarget? && t.isConstructor && AnyNonReturn(t.instructions)
  }

  /** The problems one visit of `m` registers, as a specification. */
  function ProblemsFor(m: Method, handlerRegistered: bool): seq<Problem>
  {
    if m.inject.Some? && m.inject.value.nameReference.Some? && handlerRegistered &&
       exists i :: 0 <= i < |m.inject.value.targets| && Offends(m.inject.value.targets[i])
    then [Problem(m.inject.value.nameReference.value, ProblemMessage)]
    else []
  }

  /** The problems registered so far for one file. */
  class ProblemsHolder {
    var problems: seq<Problem>

    constructor ()
      ensures problems == []
    {
      problems := [];
    }

    method RegisterProblem(element: string, description: string)
      modifies this
      ensures problems == old(problems) + [Problem(element, description)]
    {
      problems := problems + [Problem(element, description)];
    }
  }

  /** The visitor `buildVisitor` returns: the host's empty visitor, or the inspection's own, reporting to `holder`. */
  datatype Visitor = EmptyVisitor | InjectVisitor(holder: ProblemsHolder)

  class InjectIntoConstructorInspection {
    /** The "Allow @Inject into constructors in Fabric" option. */
    var allowOnFabric: bool

    constructor ()
      ensures allowOnFabric
    {
      allowOnFabric := true;
    }

    /** The inspection is switched off exactly on Fabric modules while the option is set. */
    method BuildVisitor(holder: ProblemsHolder, fileModule: FileModule) returns (v: Visitor)
      ensures v == EmptyVisitor <==> IsFabric(fileModule) && allowOnFabric
      ensures v.InjectVisitor? ==> v.holder == holder
    {
      var isFabric := IsFabric(fileModule);
      if isFabric && allowOnFabric {
        return EmptyVisitor;
      }
      v := InjectVisitor(holder);
    }
  }

  /**
   * `visitMethod`: scans the resolved targets of the method's `@Inject` and
   * registers one problem at the first constructor target that has an
   * instruction other than `return`. `handlerRegistered` says whether the
   * `@Inject` handler is an injector handler.
   */
  method VisitMethod(v: Visitor, m: Method, handlerRegistered: bool)
    modifies if v.InjectVisitor? then {v.holder} else {}
    ensures v.InjectVisitor? ==> v.holder.problems == old(v.holder.problems) + ProblemsFor(m, handlerRegistered)
  {
    if v.EmptyVisitor? {
      return;
    }
    var holder := v.holder;
    if m.inject.None? {
      return;
    }
    var injectAnnotation := m.inject.value;
    if injectAnnotation.nameReference.None? {
      return;
    }
    var problemElement := injectAnnotation.nameReference.value;
    if !handlerRegistered {
      return;
    }
    var targets := injectAnnotation.targets;
    var i := 0;
    while i < |targets|
      invariant 0 <= i <= |targets|
      invariant forall j :: 0 <= j < i ==> !Offends(targets[j])
      invariant holder.problems == old(holder.problems)
    {
      var target := targets[i];
      if !target.MethodTarget? || !target.isConstructor {
        i := i + 1;
        continue;
      }
      var instructions := target.instructions;
      if AnyNonReturn(instructions) {
        holder.RegisterProblem(problemElement, ProblemMessage);
        return;
      }
      i := i + 1;
    }
  }

  /** A visit registers at most one problem, and always the same message on the annotation's name. */
  lemma AtMostOneProblemPerMethod(m: Method, handlerRegistered: bool)
    ensures |ProblemsFor(m, handlerRegistered)| <= 1
    ensures forall p :: p in ProblemsFor(m, handlerRegistered) ==>
      p.description == ProblemMessage && m.inject.Some? && Some(p.element) == m.inject.value.nameReference
  {
  }

  /** A method without `@Inject` gets no problem. */
  lemma NoProblemWithoutInject(m: Method, handlerRegistered: bool)
    requires m.inject.None?
    ensures ProblemsFor(m, handlerRegistered) == []
  {
  }

  /** Targets that are not constructors never cause a problem: adding them changes nothing. */
  lemma {:induction false} NonConstructorTargetsIgnored(a: InjectAnnotation, extra: seq<Target>, handlerRegistered: bool)
    requires forall k :: 0 <= k < |extra| ==> !extra[k].MethodTarget? || !extra[k].isConstructor
    ensures ProblemsFor(Method(Some(a.(targets := a.targets + extra))), handlerRegistered) ==
            ProblemsFor(Method(Some(a)), handlerRegistered)
  {
    var all := a.targets + extra;
    if exists i :: 0 <= i < |all| && Offends(all[i]) {
      var i :| 0 <= i < |all| && Offends(all[i]);
      assert i < |a.targets|;
      assert a.targets[i] == all[i];
    }
    if exists i :: 0 <= i < |a.targets| && Offends(a.targets[i]) {
      var i :| 0 <= i < |a.targets| && Offends(a.targets[i]);
      assert all[i] == a.targets[i];
    }
  }

  /** A constructor target is flagged exactly when some instruction is not `return`; empty or all-`return` lists pass. */
  lemma ConstructorTargetFlaggedIff(name: string, instructions: seq<Instruction>)
    ensures ProblemsFor(Method(Some(InjectAnnotation(Some(name), [MethodTarget(true, instructions)]))), true) != []
        <==> exists k :: 0 <= k < |instructions| && instructions[k].opcode != RETURN
  {
    var t := MethodTarget(true, instructions);
    assert [t][0] == t;
  }

  /** `[ALOAD, INVOKESPECIAL, RETURN]` in a constructor is flagged; `[RETURN]` alone is not. */
  lemma ConstructorExamples(name: string)
    ensures ProblemsFor(Method(Some(InjectAnnotation(Some(name),
      [MethodTarget(true, [Instruction(ALOAD), Instruction(INVOKESPECIAL), Instruction(RETURN)])]))), true)
      == [Problem(name, ProblemMessage)]
    ensures ProblemsFor(Method(Some(InjectAnnotation(Some(name),
      [MethodTarget(true, [Instruction(RETURN)])]))), true) == []
  {
    ConstructorTargetFlaggedIff(name, [Instruction(ALOAD), Instruction(INVOKESPECIAL), Instruction(RETURN)]);
    assert [Instruction(ALOAD), Instruction(INVOKESPECIAL), Instruction(RETURN)][0].opcode != RETURN;
    ConstructorTargetFlaggedIff(name, [Instruction(RETURN)]);
  }
}
