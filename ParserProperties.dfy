/**
 * What a module parse does with each kind of declared method, stated for a
 * method `m` met after the methods `before` (which threw nothing) and
 * followed by the methods `after`, and what a whole parse adds.
 */
module ParserProperties {
  import opened Wrappers
  import opened Bindings
  import opened ReflectiveModuleParser

  /** The effect of `m` in the middle of a parse. */
  lemma RunAround(before: seq<MethodDescriptor>, m: MethodDescriptor, after: seq<MethodDescriptor>,
                  instance: Option<ModuleInstance>)
    requires Run(before, instance).error == None
    ensures var r, d := Run(before, instance), Decide(m, instance);
            Run(before + [m] + after, instance) ==
              if d.Reject? then ParseOutcome(r.adds, Some(d.error))
              else ParseOutcome(r.adds + Added(d) + Run(after, instance).adds, Run(after, instance).error)
  {
    RunSnoc(before, m, instance);
    RunAppend(before + [m], after, instance);
  }

  /** Leaving a method out of a parse: the parse around it. */
  lemma RunWithout(before: seq<MethodDescriptor>, after: seq<MethodDescriptor>,
                   instance: Option<ModuleInstance>)
    requires Run(before, instance).error == None
    ensures Run(before + after, instance) ==
              ParseOutcome(Run(before, instance).adds + Run(after, instance).adds, Run(after, instance).error)
  {
    RunAppend(before, after, instance);
  }

  /**
   * A private method stops the parse with IllegalArgument whatever else it
   * carries; nothing is added for it and the earlier adds stay.
   */
  lemma PrivateMethodRejected(before: seq<MethodDescriptor>, m: MethodDescriptor,
                              after: seq<MethodDescriptor>, instance: Option<ModuleInstance>)
    requires Run(before, instance).error == None
    requires m.modifiers.isPrivate
    ensures Run(before + [m] + after, instance) ==
              ParseOutcome(Run(before, instance).adds, Some(IllegalArgument))
  {
    RunAround(before, m, after, instance);
  }

  /** An abstract method without `@Binds` or `@BindsOptionalOf` is skipped: the parse is as if it were absent. */
  lemma AbstractMethodWithoutBindsSkipped(before: seq<MethodDescriptor>, m: MethodDescriptor,
                                          after: seq<MethodDescriptor>, instance: Option<ModuleInstance>)
    requires Run(before, instance).error == None
    requires !m.modifiers.isPrivate && m.modifiers.isAbstract
    requires !m.annotations.hasBinds && !m.annotations.hasBindsOptionalOf
    ensures Run(before + [m] + after, instance) == Run(before + after, instance)
  {
    RunAround(before, m, after, instance);
    RunWithout(before, after, instance);
  }

  /**
   * An abstract `@Binds` method with no multibinding or scope annotation
   * adds a binds binding under its qualifier and declared return type, even
   * when it is also `@BindsOptionalOf`.
   */
  lemma BindsTakesPrecedence(before: seq<MethodDescriptor>, m: MethodDescriptor,
                             after: seq<MethodDescriptor>, instance: Option<ModuleInstance>)
    requires Run(before, instance).error == None
    requires !m.modifiers.isPrivate && m.modifiers.isAbstract && m.annotations.hasBinds
    requires !HasMultibinding(m) && m.scope.None?
    ensures Run(before + [m] + after, instance) ==
              ParseOutcome(Run(before, instance).adds + [(Key(m.qualifier, m.returnType), BindsBinding(m))]
                             + Run(after, instance).adds,
                           Run(after, instance).error)
  {
    RunAround(before, m, after, instance);
  }

  /**
   * An abstract `@BindsOptionalOf` method (without `@Binds`) with no
   * multibinding or scope annotation adds an optional binding under its
   * qualifier and `Optional<R>`, R its declared return type.
   */
  lemma BindsOptionalOfKeyIsOptional(before: seq<MethodDescriptor>, m: MethodDescriptor,
                                     after: seq<MethodDescriptor>, instance: Option<ModuleInstance>)
    requires Run(before, instance).error == None
    requires !m.modifiers.isPrivate && m.modifiers.isAbstract
    requires !m.annotations.hasBinds && m.annotations.hasBindsOptionalOf
    requires !HasMultibinding(m) && m.scope.None?
    ensures Run(before + [m] + after, instance) ==
              ParseOutcome(Run(before, instance).adds
                             + [(Key(m.qualifier, OptionalType(m.returnType)), OptionalBinding(m))]
                             + Run(after, instance).adds,
                           Run(after, instance).error)
  {
    RunAround(before, m, after, instance);
  }

  /**
   * A concrete instance method with no module instance stops the parse with
   * IllegalState, whether or not it is `@Provides`.
   */
  lemma MissingInstanceRejected(before: seq<MethodDescriptor>, m: MethodDescriptor,
                                after: seq<MethodDescriptor>, instance: Option<ModuleInstance>)
    requires Run(before, instance).error == None
    requires !m.modifiers.isPrivate && !m.modifiers.isAbstract && !m.modifiers.isStatic
    requires instance == None
    ensures Run(before + [m] + after, instance) ==
              ParseOutcome(Run(before, instance).adds, Some(IllegalState))
  {
    RunAround(before, m, after, instance);
  }

  /**
   * A callable concrete `@Provides` method with no multibinding or scope
   * annotation adds a provides binding that carries the given instance.
   */
  lemma ProvidesMethodRegistered(before: seq<MethodDescriptor>, m: MethodDescriptor,
                                 after: seq<MethodDescriptor>, instance: Option<ModuleInstance>)
    requires Run(before, instance).error == None
    requires !m.modifiers.isPrivate && !m.modifiers.isAbstract
    requires m.modifiers.isStatic || instance.Some?
    requires m.annotations.hasProvides && !HasMultibinding(m) && m.scope.None?
    ensures Run(before + [m] + after, instance) ==
              ParseOutcome(Run(before, instance).adds
                             + [(Key(m.qualifier, m.returnType), ProvidesBinding(instance, m))]
                             + Run(after, instance).adds,
                           Run(after, instance).error)
  {
    RunAround(before, m, after, instance);
  }

  /** A callable concrete method without `@Provides` is skipped. */
  lemma NonProvidesMethodSkipped(before: seq<MethodDescriptor>, m: MethodDescriptor,
                                 after: seq<MethodDescriptor>, instance: Option<ModuleInstance>)
    requires Run(before, instance).error == None
    requires !m.modifiers.isPrivate && !m.modifiers.isAbstract
    requires m.modifiers.isStatic || instance.Some?
    requires !m.annotations.hasProvides
    ensures Run(before + [m] + after, instance) == Run(before + after, instance)
  {
    RunAround(before, m, after, instance);
    RunWithout(before, after, instance);
  }

  /**
   * A method that is not skipped and carries `@IntoSet`, `@ElementsIntoSet`
   * or `@IntoMap` stops the parse with a not-implemented error tagged with
   * the first of them in that order, whatever its scope; nothing is added.
   */
  lemma MultibindingNotImplemented(before: seq<MethodDescriptor>, m: MethodDescriptor,
                                   after: seq<MethodDescriptor>, instance: Option<ModuleInstance>)
    requires Run(before, instance).error == None
    requires Selected(m, instance) && HasMultibinding(m)
    ensures Run(before + [m] + after, instance) ==
              ParseOutcome(Run(before, instance).adds,
                           Some(NotImplemented(if m.annotations.hasIntoSet then "@IntoSet"
                                               else if m.annotations.hasElementsIntoSet then "@ElementsIntoSet"
                                               else "@IntoMap")))
  {
    RunAround(before, m, after, instance);
  }

  /**
   * A method that is not skipped, has no multibinding annotation and has a
   * scope stops the parse with the "Scoped bindings" not-implemented error.
   */
  lemma ScopedBindingNotImplemented(before: seq<MethodDescriptor>, m: MethodDescriptor,
                                    after: seq<MethodDescriptor>, instance: Option<ModuleInstance>)
    requires Run(before, instance).error == None
    requires Selected(m, instance) && !HasMultibinding(m) && m.scope.Some?
    ensures Run(before + [m] + after, instance) ==
              ParseOutcome(Run(before, instance).adds, Some(NotImplemented("Scoped bindings")))
  {
    RunAround(before, m, after, instance);
  }

  /** No method is rejected. */
  predicate NoReject(methods: seq<MethodDescriptor>, instance: Option<ModuleInstance>)
  {
    forall k :: 0 <= k < |methods| ==> !Decide(methods[k], instance).Reject?
  }

  /** The methods a parse does not skip, in walk order. */
  function NonSkipped(methods: seq<MethodDescriptor>, instance: Option<ModuleInstance>): (r: seq<MethodDescriptor>)
    ensures |r| <= |methods|
  {
    if methods == [] then []
    else (if Decide(methods[0], instance) == Skip then [] else [methods[0]]) + NonSkipped(methods[1..], instance)
  }

  /** A parse completes exactly when no method is rejected. */
  lemma {:induction false} ParseCompletesIffNoReject(methods: seq<MethodDescriptor>,
                                                     instance: Option<ModuleInstance>)
    ensures Run(methods, instance).error == None <==> NoReject(methods, instance)
  {
    if methods != [] {
      ParseCompletesIffNoReject(methods[1..], instance);
      if !Decide(methods[0], instance).Reject? && NoReject(methods[1..], instance) {
        forall k | 0 <= k < |methods| ensures !Decide(methods[k], instance).Reject? {
          if k > 0 {
            assert methods[k] == methods[1..][k - 1];
          }
        }
      }
      if NoReject(methods, instance) {
        forall k | 0 <= k < |methods| - 1 ensures !Decide(methods[1..][k], instance).Reject? {
          assert methods[1..][k] == methods[k + 1];
        }
      }
    }
  }

  /**
   * A completed parse adds exactly one entry per method it does not skip,
   * in walk order: entry j is the key and binding decided for the j-th
   * non-skipped method.
   */
  lemma {:induction false} OneAddPerNonSkippedMethod(methods: seq<MethodDescriptor>,
                                                     instance: Option<ModuleInstance>)
    requires Run(methods, instance).error == None
    ensures |Run(methods, instance).adds| == |NonSkipped(methods, instance)|
    ensures forall j :: 0 <= j < |NonSkipped(methods, instance)| ==>
              Decide(NonSkipped(methods, instance)[j], instance) ==
                Register(Run(methods, instance).adds[j].0, Run(methods, instance).adds[j].1)
  {
    if methods != [] {
      var d := Decide(methods[0], instance);
      OneAddPerNonSkippedMethod(methods[1..], instance);
      var rest, ns := Run(methods[1..], instance), NonSkipped(methods[1..], instance);
      if d.Register? {
        assert Run(methods, instance).adds == [(d.key, d.binding)] + rest.adds;
        assert NonSkipped(methods, instance) == [methods[0]] + ns;
        forall j | 0 <= j < |NonSkipped(methods, instance)|
          ensures Decide(NonSkipped(methods, instance)[j], instance) ==
                    Register(Run(methods, instance).adds[j].0, Run(methods, instance).adds[j].1)
        {
          if j > 0 {
            assert NonSkipped(methods, instance)[j] == ns[j - 1];
            assert Run(methods, instance).adds[j] == rest.adds[j - 1];
          }
        }
      } else {
        assert NonSkipped(methods, instance) == ns;
      }
    }
  }

  /**
   * A parse that throws does so at the first rejected method, with that
   * method's error, and keeps exactly the adds of the methods before it.
   */
  lemma {:induction false} FailFastKeepsEarlierAdds(methods: seq<MethodDescriptor>,
                                                    instance: Option<ModuleInstance>)
    requires Run(methods, instance).error.Some?
    ensures exists k :: 0 <= k < |methods|
              && Decide(methods[k], instance) == Reject(Run(methods, instance).error.value)
              && Run(methods[..k], instance).error == None
              && Run(methods, instance).adds == Run(methods[..k], instance).adds
  {
    var d := Decide(methods[0], instance);
    if d.Reject? {
      assert methods[..0] == [];
      assert Decide(methods[0], instance) == Reject(Run(methods, instance).error.value);
    } else {
      FailFastKeepsEarlierAdds(methods[1..], instance);
      var k' :| 0 <= k' < |methods[1..]|
              && Decide(methods[1..][k'], instance) == Reject(Run(methods[1..], instance).error.value)
              && Run(methods[1..][..k'], instance).error == None
              && Run(methods[1..], instance).adds == Run(methods[1..][..k'], instance).adds;
      var k := k' + 1;
      var prefix := methods[..k];
      assert prefix[0] == methods[0];
      assert prefix[1..] == methods[1..][..k'];
      assert methods[k] == methods[1..][k'];
      assert Run(prefix, instance).error == None;
    }
  }

  /**
   * A whole parse of a module adds at most one entry per declared method of
   * its type hierarchy, and on completion exactly one per non-skipped method.
   */
  lemma ParseAddsBounded(hierarchy: seq<seq<MethodDescriptor>>, instance: Option<ModuleInstance>)
    ensures |Run(Flatten(hierarchy), instance).adds| <= MethodCount(hierarchy)
    ensures Run(Flatten(hierarchy), instance).error == None ==>
              |Run(Flatten(hierarchy), instance).adds| == |NonSkipped(Flatten(hierarchy), instance)|
  {
    if Run(Flatten(hierarchy), instance).error == None {
      OneAddPerNonSkippedMethod(Flatten(hierarchy), instance);
    }
  }
}
