/**
 * The module parser: walks a module's type hierarchy and, for every declared
 * method, rejects it, skips it, fails because the feature is not
 * implemented, or appends exactly one key and binding to a builder.
 *
 * `Decide` is the per-method decision, `Run` the specification of a whole
 * parse over the methods in walk order, and `Parse` the loop that mutates the
 * builder step by step and is proved to agree with `Run`.
 */
module ReflectiveModuleParser {
  import opened Wrappers
  import opened Bindings

  /** The exceptions the parser throws. */
  datatype Error =
    | IllegalArgument            // a private module method
    | IllegalState               // an instance method, but no module instance
    | NotImplemented(feature: string)

  /** How the declared return type is wrapped to form the key's type. */
  datatype TypeWrapper = WrapNone | WrapSet | WrapMap | WrapOptional

  /** The enum constant's name, which the unimplemented-wrapper error carries. */
  function WrapperName(w: TypeWrapper): string
  {
    match w
    case WrapNone => "NONE"
    case WrapSet => "SET"
    case WrapMap => "MAP"
    case WrapOptional => "OPTIONAL"
  }

  /**
   * The methods the parser does not skip and does not reject before choosing
   * a binding: non-private, and either abstract with `@Binds` or
   * `@BindsOptionalOf`, or concrete with `@Provides` and callable (static, or
   * a module instance was given).
   */
  predicate Selected(m: MethodDescriptor, instance: Option<ModuleInstance>)
  {
    && !m.modifiers.isPrivate
    && if m.modifiers.isAbstract then
         m.annotations.hasBinds || m.annotations.hasBindsOptionalOf
       else
         (m.modifiers.isStatic || instance.Some?) && m.annotations.hasProvides
  }

  predicate HasMultibinding(m: MethodDescriptor)
  {
    m.annotations.hasIntoSet || m.annotations.hasElementsIntoSet || m.annotations.hasIntoMap
  }

  /** What the first half of a method's processing yields. */
  datatype Selection =
    | Thrown(error: Error)
    | Skipped
    | Chosen(binding: Binding, wrapper: TypeWrapper)

  /**
   * The modifier and binding-annotation tests: private is rejected, an
   * abstract method takes `@Binds` before `@BindsOptionalOf`, a concrete
   * instance method needs a module instance whether or not it is `@Provides`.
   */
  function SelectBinding(m: MethodDescriptor, instance: Option<ModuleInstance>): (r: Selection)
    ensures r.Chosen? <==> Selected(m, instance)
    ensures r.Chosen? ==> r.binding.decl == m
    ensures r.Chosen? ==> (r.wrapper == WrapOptional <==> r.binding.OptionalBinding?)
    ensures r.Chosen? ==> r.wrapper == WrapNone || r.wrapper == WrapOptional
    ensures r.Chosen? && m.modifiers.isAbstract ==>
              r.binding == (if m.annotations.hasBinds then BindsBinding(m) else OptionalBinding(m))
    ensures r.Chosen? && !m.modifiers.isAbstract ==> r.binding == ProvidesBinding(instance, m)
    ensures r.Thrown? <==>
              (m.modifiers.isPrivate || (!m.modifiers.isAbstract && !m.modifiers.isStatic && instance.None?))
    ensures r.Thrown? ==> r.error == (if m.modifiers.isPrivate then IllegalArgument else IllegalState)
  {
    if m.modifiers.isPrivate then Thrown(IllegalArgument)
    else if m.modifiers.isAbstract then
      if m.annotations.hasBinds then Chosen(BindsBinding(m), WrapNone)
      else if m.annotations.hasBindsOptionalOf then Chosen(OptionalBinding(m), WrapOptional)
      else Skipped
    else if !m.modifiers.isStatic && instance.None? then Thrown(IllegalState)
    else if m.annotations.hasProvides then Chosen(ProvidesBinding(instance, m), WrapNone)
    else Skipped
  }

  /** The tag of the first multibinding annotation, tested in source order. */
  function MultibindingTag(m: MethodDescriptor): (r: Option<string>)
    ensures r.Some? <==> HasMultibinding(m)
    ensures m.annotations.hasIntoSet ==> r == Some("@IntoSet")
    ensures !m.annotations.hasIntoSet && m.annotations.hasElementsIntoSet ==> r == Some("@ElementsIntoSet")
    ensures !m.annotations.hasIntoSet && !m.annotations.hasElementsIntoSet && m.annotations.hasIntoMap
            ==> r == Some("@IntoMap")
  {
    if m.annotations.hasIntoSet then Some("@IntoSet")
    else if m.annotations.hasElementsIntoSet then Some("@ElementsIntoSet")
    else if m.annotations.hasIntoMap then Some("@IntoMap")
    else None
  }

  /** The key's type for a wrapper; None for the wrappers the switch does not handle. */
  function WrappedType(w: TypeWrapper, t: TypeTerm): (r: Option<TypeTerm>)
    ensures r.Some? <==> w == WrapNone || w == WrapOptional
    ensures w == WrapNone ==> r == Some(t)
    ensures w == WrapOptional ==> r == Some(OptionalType(t)) && r.value != t
  {
    match w
    case WrapNone => Some(t)
    case WrapOptional => Some(OptionalType(t))
    case _ => None
  }

  /** What processing one declared method does. */
  datatype Decision =
    | Reject(error: Error)
    | Skip
    | Register(key: Key, binding: Binding)

  /**
   * The decision for one declared method, in the order the source tests
   * things. The contract fixes when a method is registered and under which
   * key; the outcome for each kind of method (which are skipped, and which
   * error each rejected kind carries) is stated in module ParserProperties.
   */
  function Decide(m: MethodDescriptor, instance: Option<ModuleInstance>): (r: Decision)
    ensures r.Register? <==> Selected(m, instance) && !HasMultibinding(m) && m.scope.None?
    ensures r.Register? ==> r.binding.decl == m
    ensures r.Register? ==>
              r.key == Key(m.qualifier, if r.binding.OptionalBinding? then OptionalType(m.returnType)
                                        else m.returnType)
    ensures r.Reject? ==>
              r.error != NotImplemented(WrapperName(WrapSet)) && r.error != NotImplemented(WrapperName(WrapMap))
  {
    match SelectBinding(m, instance)
    case Thrown(e) => Reject(e)
    case Skipped => Skip
    case Chosen(binding, wrapper) =>
      match MultibindingTag(m)
      case Some(tag) => Reject(NotImplemented(tag))
      case None =>
        match WrappedType(wrapper, m.returnType)
        case None => Reject(NotImplemented(WrapperName(wrapper)))
        case Some(t) =>
          if m.scope.Some? then Reject(NotImplemented("Scoped bindings"))
          else Register(Key(m.qualifier, t), binding)
  }

  /** What a parse leaves behind: the adds made, and the exception thrown if any. */
  datatype ParseOutcome = ParseOutcome(adds: seq<(Key, Binding)>, error: Option<Error>)

  /**
   * A parse of methods in walk order: every registered method adds one entry,
   * the first rejected method stops the parse and keeps the adds before it.
   */
  function Run(methods: seq<MethodDescriptor>, instance: Option<ModuleInstance>): (r: ParseOutcome)
    ensures |r.adds| <= |methods|
    decreases |methods|
  {
    if methods == [] then ParseOutcome([], None)
    else
      match Decide(methods[0], instance)
      case Reject(e) => ParseOutcome([], Some(e))
      case Skip => Run(methods[1..], instance)
      case Register(key, binding) =>
        var rest := Run(methods[1..], instance);
        ParseOutcome([(key, binding)] + rest.adds, rest.error)
  }

  /** The number of declared methods over all types of a hierarchy. */
  function MethodCount(hierarchy: seq<seq<MethodDescriptor>>): nat
  {
    if hierarchy == [] then 0 else |hierarchy[0]| + MethodCount(hierarchy[1..])
  }

  /**
   * The declared methods in walk order: hierarchy order, then each type's
   * methods in the order reflection reports them (an order the platform does
   * not fix, and which decides which of two rejectable methods throws).
   */
  function Flatten(hierarchy: seq<seq<MethodDescriptor>>): (r: seq<MethodDescriptor>)
    ensures |r| == MethodCount(hierarchy)
  {
    if hierarchy == [] then [] else hierarchy[0] + Flatten(hierarchy[1..])
  }

  /** Parsing a concatenation parses the first part, then the second if no exception. */
  lemma {:induction false} RunAppend(a: seq<MethodDescriptor>, b: seq<MethodDescriptor>,
                                     instance: Option<ModuleInstance>)
    ensures Run(a + b, instance) ==
              if Run(a, instance).error.Some? then Run(a, instance)
              else ParseOutcome(Run(a, instance).adds + Run(b, instance).adds, Run(b, instance).error)
  {
    if a == [] {
      assert a + b == b;
    } else {
      assert (a + b)[0] == a[0];
      assert (a + b)[1..] == a[1..] + b;
      RunAppend(a[1..], b, instance);
      match Decide(a[0], instance)
      case Reject(e) =>
      case Skip =>
      case Register(key, binding) =>
        var ra, rb := Run(a[1..], instance), Run(b, instance);
        assert [(key, binding)] + (ra.adds + rb.adds) == ([(key, binding)] + ra.adds) + rb.adds;
    }
  }

  lemma {:induction false} FlattenAppend(a: seq<seq<MethodDescriptor>>, b: seq<seq<MethodDescriptor>>)
    ensures Flatten(a + b) == Flatten(a) + Flatten(b)
  {
    if a == [] {
      assert a + b == b;
    } else {
      assert (a + b)[0] == a[0];
      assert (a + b)[1..] == a[1..] + b;
      FlattenAppend(a[1..], b);
    }
  }

  /** The walk order splits at method `i` of type `t`. */
  lemma FlattenAround(hierarchy: seq<seq<MethodDescriptor>>, t: nat, i: nat)
    requires t < |hierarchy| && i < |hierarchy[t]|
    ensures Flatten(hierarchy) ==
              (Flatten(hierarchy[..t]) + hierarchy[t][..i + 1])
              + (hierarchy[t][i + 1..] + Flatten(hierarchy[t + 1..]))
  {
    assert hierarchy == hierarchy[..t] + [hierarchy[t]] + hierarchy[t + 1..];
    FlattenAppend(hierarchy[..t] + [hierarchy[t]], hierarchy[t + 1..]);
    FlattenAppend(hierarchy[..t], [hierarchy[t]]);
    assert Flatten([hierarchy[t]]) == hierarchy[t];
    assert hierarchy[t] == hierarchy[t][..i + 1] + hierarchy[t][i + 1..];
  }

  /** Method `i` of type `t` sits in the walk order after all methods of the earlier types. */
  lemma FlattenAt(hierarchy: seq<seq<MethodDescriptor>>, t: nat, i: nat)
    requires t < |hierarchy| && i < |hierarchy[t]|
    ensures |Flatten(hierarchy[..t])| + i < |Flatten(hierarchy)|
    ensures Flatten(hierarchy)[|Flatten(hierarchy[..t])| + i] == hierarchy[t][i]
  {
    FlattenAround(hierarchy, t, i);
    assert hierarchy[t][..i + 1][i] == hierarchy[t][i];
  }

  lemma FlattenSnoc(hierarchy: seq<seq<MethodDescriptor>>, t: nat)
    requires t < |hierarchy|
    ensures Flatten(hierarchy[..t + 1]) == Flatten(hierarchy[..t]) + hierarchy[t]
  {
    assert hierarchy[..t + 1] == hierarchy[..t] + [hierarchy[t]];
    FlattenAppend(hierarchy[..t], [hierarchy[t]]);
    assert Flatten([hierarchy[t]]) == hierarchy[t];
  }

  /** An exception at method `i` of type `t` is the outcome of the whole parse. */
  lemma ParseStopsAt(hierarchy: seq<seq<MethodDescriptor>>, t: nat, i: nat,
                     instance: Option<ModuleInstance>)
    requires t < |hierarchy| && i < |hierarchy[t]|
    ensures var done := Flatten(hierarchy[..t]) + hierarchy[t][..i + 1];
            Run(done, instance).error.Some? ==> Run(Flatten(hierarchy), instance) == Run(done, instance)
  {
    FlattenAround(hierarchy, t, i);
    RunAppend(Flatten(hierarchy[..t]) + hierarchy[t][..i + 1],
              hierarchy[t][i + 1..] + Flatten(hierarchy[t + 1..]), instance);
  }

  /** The entries one decision adds to the builder. */
  function Added(d: Decision): seq<(Key, Binding)>
  {
    if d.Register? then [(d.key, d.binding)] else []
  }

  /** The exception one decision throws, if any. */
  function ThrownBy(d: Decision): Option<Error>
  {
    if d.Reject? then Some(d.error) else None
  }

  /** Parsing one more method after a parse that threw nothing. */
  lemma RunSnoc(done: seq<MethodDescriptor>, m: MethodDescriptor, instance: Option<ModuleInstance>)
    requires Run(done, instance).error == None
    ensures Run(done + [m], instance) ==
              ParseOutcome(Run(done, instance).adds + Added(Decide(m, instance)), ThrownBy(Decide(m, instance)))
  {
    RunAppend(done, [m], instance);
    assert [m][1..] == [];
  }

  /**
   * The body of the parse loop for one declared method `m`: the modifier,
   * annotation, wrapper and scope tests in source order, each exit being an
   * exception (the returned error), a `continue` (nothing added) or the one
   * `add` to `builder`.
   */
  method ParseMethod(m: MethodDescriptor, instance: Option<ModuleInstance>, builder: BindingMapBuilder)
    returns (thrown: Option<Error>)
    modifies builder
    ensures builder.entries == old(builder.entries) + Added(Decide(m, instance))
    ensures thrown == ThrownBy(Decide(m, instance))
  {
    if m.modifiers.isPrivate {
      return Some(IllegalArgument);
    }

    var binding: Binding;
    var wrapper := WrapNone;
    if m.modifiers.isAbstract {
      if m.annotations.hasBinds {
        binding := BindsBinding(m);
      } else if m.annotations.hasBindsOptionalOf {
        wrapper := WrapOptional;
        binding := OptionalBinding(m);
      } else {
        return None;
      }
    } else {
      if !m.modifiers.isStatic && instance.None? {
        return Some(IllegalState);
      }
      if m.annotations.hasProvides {
        binding := ProvidesBinding(instance, m);
      } else {
        return None;
      }
    }

    if m.annotations.hasIntoSet {
      return Some(NotImplemented("@IntoSet"));
    }
    if m.annotations.hasElementsIntoSet {
      return Some(NotImplemented("@ElementsIntoSet"));
    }
    if m.annotations.hasIntoMap {
      return Some(NotImplemented("@IntoMap"));
    }

    var returnType: TypeTerm;
    match wrapper {
      case WrapNone =>
        returnType := m.returnType;
      case WrapOptional =>
        returnType := OptionalType(m.returnType);
      case _ =>
        return Some(NotImplemented(WrapperName(wrapper)));
    }
    var key := Key(m.qualifier, returnType);

    if m.scope.Some? {
      return Some(NotImplemented("Scoped bindings"));
    }

    builder.Add(key, binding);
    return None;
  }

  /**
   * Parses a module given its type hierarchy (each type's declared methods)
   * and the module instance, if any. Every registered method is added to
   * `builder` in walk order; the returned error stands for the exception the
   * source throws, which leaves the adds already made in the builder.
   */
  method Parse(hierarchy: seq<seq<MethodDescriptor>>, instance: Option<ModuleInstance>,
               builder: BindingMapBuilder)
    returns (thrown: Option<Error>)
    modifies builder
    ensures builder.entries == old(builder.entries) + Run(Flatten(hierarchy), instance).adds
    ensures thrown == Run(Flatten(hierarchy), instance).error
  {
    ghost var start := builder.entries;
    var t := 0;
    while t < |hierarchy|
      invariant 0 <= t <= |hierarchy|
      invariant Run(Flatten(hierarchy[..t]), instance).error == None
      invariant builder.entries == start + Run(Flatten(hierarchy[..t]), instance).adds
    {
      var methods := hierarchy[t];
      var i := 0;
      assert Flatten(hierarchy[..t]) + methods[..i] == Flatten(hierarchy[..t]);
      while i < |methods|
        invariant 0 <= i <= |methods|
        invariant Run(Flatten(hierarchy[..t]) + methods[..i], instance).error == None
        invariant builder.entries == start + Run(Flatten(hierarchy[..t]) + methods[..i], instance).adds
      {
        ghost var done := Flatten(hierarchy[..t]) + methods[..i];
        assert Flatten(hierarchy[..t]) + methods[..i + 1] == done + [methods[i]];
        RunSnoc(done, methods[i], instance);
        ParseStopsAt(hierarchy, t, i, instance);

        thrown := ParseMethod(methods[i], instance, builder);
        if thrown.Some? {
          return;
        }
        i := i + 1;
      }
      assert methods[..i] == methods;
      FlattenSnoc(hierarchy, t);
      t := t + 1;
    }
    assert hierarchy[..t] == hierarchy;
    thrown := None;
  }
}
