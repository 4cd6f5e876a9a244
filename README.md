# Module parser of a reflective dependency-injection runtime

This project models, in Dafny, how the runtime dependency-injection resolver
reads a module: `ReflectiveModuleParser.parse` walks the module's type
hierarchy and, for each declared method, either rejects it
(`IllegalArgumentException` for a private method, `IllegalStateException` for
an instance method without a module instance), skips it, fails because the
feature is not implemented (multibinding annotations, scoped bindings), or adds
exactly one key and unlinked binding to a `BindingMap.Builder`.

What reflection reports is input data: a hierarchy is a sequence of types,
each a sequence of `MethodDescriptor`s (modifier flags, annotation flags,
optional qualifier, optional scope, return type). The builder is a class whose
`entries` sequence `Add` appends to. A thrown exception is the returned
`Option<Error>`; the builder keeps whatever was added before it.

Files:

- `Wrappers.dfy`: the `Option` type standing for nullable values.
- `Bindings.dfy`: types, keys, method descriptors, unlinked bindings, the builder.
- `ReflectiveModuleParser.dfy`: the per-method decision (`Decide`), the
  specification of a whole parse (`Run` over the methods in walk order,
  `Flatten` of the hierarchy), and the imperative `Parse` loop with its
  per-method body `ParseMethod`, proved to agree with them.
- `ParserProperties.dfy`: what each kind of method does in the middle of a
  parse, and what a whole parse adds.

## Model

| member | source | states |
|---|---|---|
| Bindings.OptionalType | reflect/src/main/java/dagger/reflect/ReflectiveModuleParser.java:74-76 | its definition builds `Optional<R>` with no owner type and raw type `java.util.Optional`; the contract states that the result is parameterized with R as its one argument and differs from R |
| Bindings.BindingMapBuilder.Add | reflect/src/main/java/dagger/reflect/ReflectiveModuleParser.java:89 | `add` appends exactly the given key and binding to the builder's entries |
| ReflectiveModuleParser.SelectBinding | reflect/src/main/java/dagger/reflect/ReflectiveModuleParser.java:27-52 | a binding is chosen exactly for the selected (`Selected`) methods; an exception is thrown exactly for private methods (IllegalArgument) and concrete instance methods without an instance (IllegalState); an abstract method's binding is a binds binding when it has `@Binds` and an optional binding otherwise, a concrete method's binding is a provides binding carrying the given instance; the wrapper is NONE or OPTIONAL, OPTIONAL exactly for the optional binding |
| ReflectiveModuleParser.MultibindingTag | reflect/src/main/java/dagger/reflect/ReflectiveModuleParser.java:54-65 | a tag is produced exactly when a multibinding annotation is present, and it is the first of `@IntoSet`, `@ElementsIntoSet`, `@IntoMap` in that order |
| ReflectiveModuleParser.WrappedType | reflect/src/main/java/dagger/reflect/ReflectiveModuleParser.java:69-80 | the switch yields a type exactly for NONE and OPTIONAL, and for OPTIONAL it is `Optional<R>`, distinct from R |
| ReflectiveModuleParser.Decide | reflect/src/main/java/dagger/reflect/ReflectiveModuleParser.java:27-89 | a method is registered exactly when it is selected (`Selected`: not private and past the binding-annotation and instance tests), has no multibinding annotation and no scope; the registered binding is for that method and its key is (qualifier, `Optional<R>`) for an optional binding and (qualifier, R) otherwise; the switch's default not-implemented error (tag SET or MAP) never occurs |
| ReflectiveModuleParser.Run | reflect/src/main/java/dagger/reflect/ReflectiveModuleParser.java:25-91 | a parse over methods in walk order adds at most one entry per method |
| ReflectiveModuleParser.Flatten | reflect/src/main/java/dagger/reflect/ReflectiveModuleParser.java:25-26 | the walk order holds as many methods as the hierarchy declares |
| ReflectiveModuleParser.FlattenAt | reflect/src/main/java/dagger/reflect/ReflectiveModuleParser.java:25-26 | method i of type t is visited at position (number of methods of the types before t) + i: hierarchy order, then each type's methods in reported order |
| ReflectiveModuleParser.ParseMethod | reflect/src/main/java/dagger/reflect/ReflectiveModuleParser.java:27-89 | the loop body, with its tests in source order, adds to the builder exactly what `Decide` registers and throws exactly what it rejects with |
| ReflectiveModuleParser.Parse | reflect/src/main/java/dagger/reflect/ReflectiveModuleParser.java:23-92 | the nested loop leaves the builder's old entries followed by the adds of `Run` over the walk order, and throws exactly `Run`'s error |
| ParserProperties.PrivateMethodRejected | reflect/src/main/java/dagger/reflect/ReflectiveModuleParser.java:27-29 | a private method stops the parse with IllegalArgument whatever its other flags; nothing is added for it and earlier adds are kept |
| ParserProperties.AbstractMethodWithoutBindsSkipped | reflect/src/main/java/dagger/reflect/ReflectiveModuleParser.java:33-41 | an abstract method with neither `@Binds` nor `@BindsOptionalOf` leaves the parse exactly as if it were absent |
| ParserProperties.BindsTakesPrecedence | reflect/src/main/java/dagger/reflect/ReflectiveModuleParser.java:34-35 | an abstract `@Binds` method without multibinding or scope adds a binds binding under (qualifier, R), even when it is also `@BindsOptionalOf` |
| ParserProperties.BindsOptionalOfKeyIsOptional | reflect/src/main/java/dagger/reflect/ReflectiveModuleParser.java:36-81 | an abstract `@BindsOptionalOf` method without `@Binds`, multibinding or scope adds an optional binding under (qualifier, `Optional<R>`) |
| ParserProperties.MissingInstanceRejected | reflect/src/main/java/dagger/reflect/ReflectiveModuleParser.java:43-45 | a concrete non-static method with no module instance stops the parse with IllegalState, whether or not it is `@Provides` |
| ParserProperties.ProvidesMethodRegistered | reflect/src/main/java/dagger/reflect/ReflectiveModuleParser.java:47-48 | a callable concrete `@Provides` method without multibinding or scope adds a provides binding carrying the given instance under (qualifier, R) |
| ParserProperties.NonProvidesMethodSkipped | reflect/src/main/java/dagger/reflect/ReflectiveModuleParser.java:47-51 | a callable concrete method without `@Provides` leaves the parse exactly as if it were absent |
| ParserProperties.MultibindingNotImplemented | reflect/src/main/java/dagger/reflect/ReflectiveModuleParser.java:54-65 | a selected (`Selected`) method with a multibinding annotation stops the parse with not-implemented tagged by the first of `@IntoSet`, `@ElementsIntoSet`, `@IntoMap`, whatever its scope, adding nothing |
| ParserProperties.ScopedBindingNotImplemented | reflect/src/main/java/dagger/reflect/ReflectiveModuleParser.java:83-87 | a selected (`Selected`) method without multibinding annotations but with a scope stops the parse with "Scoped bindings" not-implemented, adding nothing |
| ParserProperties.ParseCompletesIffNoReject | reflect/src/main/java/dagger/reflect/ReflectiveModuleParser.java:25-91 | a parse completes without exception if and only if no method is rejected |
| ParserProperties.OneAddPerNonSkippedMethod | reflect/src/main/java/dagger/reflect/ReflectiveModuleParser.java:25-89 | a completed parse adds exactly one entry per non-skipped method, in walk order, each the key and binding decided for that method |
| ParserProperties.FailFastKeepsEarlierAdds | reflect/src/main/java/dagger/reflect/ReflectiveModuleParser.java:25-91 | a parse that throws does so at its first rejected method with that method's error, and keeps exactly the adds of the methods before it |
| ParserProperties.ParseAddsBounded | reflect/src/main/java/dagger/reflect/ReflectiveModuleParser.java:25-26 | a module parse adds at most as many entries as its hierarchy declares methods, and on completion exactly as many as it has non-skipped methods |

## Left out

- Reflection (`getDistinctTypeHierarchy`, `getDeclaredMethods`, `getModifiers`, `getAnnotation`, `findQualifier`, `findScope`): their results are the input hierarchy of method descriptors; distinctness of the hierarchy is not checked.
- `Key.of` and `TypeUtil.ParameterizedTypeImpl`: a key is a (qualifier, type) pair and a parameterized type a plain value; they are not part of this model.
- `BindingMap.Builder.add`: modelled as an append; its duplicate and override policy is not part of this model.
- The binding classes (`UnlinkedBindsBinding`, `UnlinkedOptionalBinding`, `UnlinkedProvidesBinding`): constructors of a tag datatype carrying their method (and instance); linking, scope caches and proxies are not part of this model.
- Exception messages: only the kind of exception and the not-implemented tag are modelled, not the message text with the method or module class name.
- The `moduleClass` parameter: it is used only to obtain the hierarchy and for a message, so `Parse` takes the hierarchy directly.
- ReflectiveModuleParser.ParseMethod: the loop body is a separate method rather than inline in `Parse`; its early returns stand for the source's `continue` and `throw`. It does not reassign `wrapper` to SET or MAP before the multibinding exceptions, since that value is never read.
