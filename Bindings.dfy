/**
 * The entities the module parser reads and writes: the descriptor of a
 * declared module method (what reflection reports about it), binding keys,
 * unlinked bindings, and the binding-map builder the parser appends to.
 */
module Bindings {
  import opened Wrappers

  /** A type as the parser sees it: a plain class, or a parameterized type. */
  datatype TypeTerm =
    | ClassType(name: string)
    | ParameterizedType(owner: Option<TypeTerm>, raw: string, args: seq<TypeTerm>)

  /** The type `Optional<t>`: no owner type, raw type `java.util.Optional`, one argument. */
  function OptionalType(t: TypeTerm): (r: TypeTerm)
    ensures r.ParameterizedType? && r.args == [t]
    ensures r != t
  {
    var r := ParameterizedType(None, "java.util.Optional", [t]);
    assert t in r.args;
    r
  }

  /** A qualifier annotation (such as `@Named("x")`), identified by its text. */
  datatype Qualifier = Qualifier(annotation: string)

  /** A scope annotation (such as `@Singleton`), identified by its type name. */
  datatype Scope = Scope(annotation: string)

  /** The identity of an injectable value: an optional qualifier and a type. */
  datatype Key = Key(qualifier: Option<Qualifier>, keyType: TypeTerm)

  /** The modifier bits of a declared method that the parser tests. */
  datatype Modifiers = Modifiers(isPrivate: bool, isAbstract: bool, isStatic: bool)

  /** Which of the recognised annotations a declared method carries. */
  datatype Annotations = Annotations(
    hasBinds: bool,
    hasBindsOptionalOf: bool,
    hasProvides: bool,
    hasIntoSet: bool,
    hasElementsIntoSet: bool,
    hasIntoMap: bool)

  /** What reflection reports about one declared method of a module type. */
  datatype MethodDescriptor = MethodDescriptor(
    name: string,
    modifiers: Modifiers,
    annotations: Annotations,
    qualifier: Option<Qualifier>,
    scope: Option<Scope>,
    returnType: TypeTerm)

  /** A module object supplied by the caller; the parser only tests whether one was given. */
  datatype ModuleInstance = ModuleInstance(id: nat)

  /** The unlinked bindings a module method can produce; each remembers its method. */
  datatype Binding =
    | BindsBinding(decl: MethodDescriptor)
    | OptionalBinding(decl: MethodDescriptor)
    | ProvidesBinding(instance: Option<ModuleInstance>, decl: MethodDescriptor)

  /**
   * The builder of a binding map, as far as the parser uses it: `Add` appends
   * one key and binding. Duplicate and override policies are not modelled.
   */
  class BindingMapBuilder {
    var entries: seq<(Key, Binding)>

    constructor ()
      ensures entries == []
    {
      entries := [];
    }

    method Add(key: Key, binding: Binding)
      modifies this
      ensures entries == old(entries) + [(key, binding)]
    {
      entries := entries + [(key, binding)];
    }
  }
}
