# ModuleDefinition and its options-metadata resolver, modelled in Dafny

This project models the core of Spring XD's `ModuleDefinition`. That class describes a deployable module: its name, its type, the resource it lives at and an optional classpath. It also answers which options the module accepts.

The options are found by `ModuleOptionsMetadataResolver`. It looks for the companion resource `<module name>.properties` next to the module's resource. It then does one of three things:
- It returns null ("no metadata") when the companion is missing or cannot be read.
- It returns POJO-backed metadata when the key `options_class` names a loadable class. When that class cannot be loaded, the call fails.
- Otherwise it builds a simple option list. Each key matching `^options\.([a-zA-Z\-_0-9]+)\.description$` yields one option. The option takes its default from the sibling `options.<n>.default` and its type from the sibling `options.<n>.type`, resolved as a class.

Files and modules:
- `wrappers.dfy` (`Wrappers`): `Option` stands for Java's `null`, and `Result` for a thrown exception.
- `properties.dfy` (`JavaProperties`): a loaded `java.util.Properties` table. It is a sequence of distinct keys in iteration order plus a key-to-value map. A key is a `String` or some other object.
- `option_keys.dfy` (`OptionKeys`): the reserved key family `options.<n>.{description,default,type}` and the description-key pattern.
- `collaborators.dfy` (`Collaborators`): resources, URLs, class handles, and the oracle `Environment`. The oracle answers the companion probe (absent, unreadable or loaded) and the two class lookups: the resolver's own loader, and a parent-last loader over a classpath.
- `options_metadata.dfy` (`OptionsMetadata`): `ModuleOption`, the two metadata variants, and the two fatal errors.
- `resolver.dfy` (`OptionsResolver`): `Resolve` and `SimpleOptions` specify the resolver. `Create` and the loop `MakeSimpleModuleOptions` implement it and are proved equal to that specification.
- `module_definition.dfy` (`ModuleDefinitions`): the class `ModuleDefinition`. Its identity fields are `const`. `properties` and `definition` can be set. The metadata cache `cached` sits beside a ghost count of resolver runs.

Two behaviours of the code are worth noting:
- Only a non-null metadata is cached (lines 118-119). A null result is recomputed on the next call, so a later call can see a companion that appeared since. `AskTwice` states both cases.
- `options_class` is checked for presence (line 163), not for a non-empty value. An empty value goes to class loading and fails there.

## Model

| member | source | states |
|---|---|---|
| ModuleDefinitions.ArgumentCheck | spring-xd-module/src/main/java/org/springframework/xd/module/ModuleDefinition.java:64-66 | construction fails exactly when the name is null or empty, the type is null or the resource is null; the name check comes first, then the type check |
| ModuleDefinitions.NormalizeClasspath | spring-xd-module/src/main/java/org/springframework/xd/module/ModuleDefinition.java:70 | the stored classpath is null exactly when the argument is null or of length 0, and otherwise it is the argument unchanged |
| ModuleDefinitions.ModuleDefinition.constructor | spring-xd-module/src/main/java/org/springframework/xd/module/ModuleDefinition.java:63-71 | given a non-empty name, the object holds exactly the given name, type and resource and the normalised classpath, with nothing set or cached |
| ModuleDefinitions.ModuleDefinition.WithResource | spring-xd-module/src/main/java/org/springframework/xd/module/ModuleDefinition.java:59-61 | the three-argument constructor: same as the full one, with no classpath |
| ModuleDefinitions.ModuleDefinition.Named | spring-xd-module/src/main/java/org/springframework/xd/module/ModuleDefinition.java:55-57 | the two-argument constructor: same, with the "Dummy resource" descriptive resource |
| ModuleDefinitions.Define | spring-xd-module/src/main/java/org/springframework/xd/module/ModuleDefinition.java:63-71 | construction from possibly-null arguments either fails with the first failing assertion, or yields a fresh definition whose name, type, resource and classpath are the supplied ones (normalised), with no properties, no definition text, nothing cached and no resolution run |
| ModuleDefinitions.ModuleDefinition.SetProperties | spring-xd-module/src/main/java/org/springframework/xd/module/ModuleDefinition.java:89-91 | the setter stores its argument, and nothing else changes |
| ModuleDefinitions.ModuleDefinition.SetDefinition | spring-xd-module/src/main/java/org/springframework/xd/module/ModuleDefinition.java:97-99 | the setter stores its argument, and nothing else changes |
| ModuleDefinitions.ModuleDefinition.GetModuleOptionsMetadata | spring-xd-module/src/main/java/org/springframework/xd/module/ModuleDefinition.java:117-122 | with a non-null cache, returns it without running the resolver; otherwise runs the resolver once, returns its outcome, and keeps it only when it is non-null |
| ModuleDefinitions.AskTwice | spring-xd-module/src/main/java/org/springframework/xd/module/ModuleDefinition.java:117-122 | after a non-null answer a second call returns the same value with no further resolution; after a null answer or a thrown error the second call resolves again |
| OptionKeys.MatchDescriptionKey | spring-xd-module/src/main/java/org/springframework/xd/module/ModuleDefinition.java:144 | a captured name is always a valid option name and the key is exactly options.<name>.description |
| OptionKeys.MatchExactly | spring-xd-module/src/main/java/org/springframework/xd/module/ModuleDefinition.java:144 | the pattern captures n from a key if and only if n is non-empty, uses only ASCII letters, digits, - and _, and the key is options.n.description |
| OptionKeys.DottedNameRejected | spring-xd-module/src/main/java/org/springframework/xd/module/ModuleDefinition.java:144 | a key options.n.description whose n contains a dot does not match |
| OptionKeys.SiblingKeysNeverMatch | spring-xd-module/src/main/java/org/springframework/xd/module/ModuleDefinition.java:144 | the options.n.default and options.n.type keys never match the description pattern |
| OptionsResolver.MakeSimpleModuleOptions | spring-xd-module/src/main/java/org/springframework/xd/module/ModuleDefinition.java:186-215 | the loop over the keys produces exactly the specified option list, or the first type-resolution error |
| OptionsResolver.FailurePersists | spring-xd-module/src/main/java/org/springframework/xd/module/ModuleDefinition.java:204-206 | once a type cannot be resolved the call is aborted: later keys do not change the outcome |
| OptionsResolver.MatchedNamesMembers | spring-xd-module/src/main/java/org/springframework/xd/module/ModuleDefinition.java:188-195 | a name is captured if and only if its description key is a string key of the set and the name is well-formed |
| OptionsResolver.MatchedNamesDistinct | spring-xd-module/src/main/java/org/springframework/xd/module/ModuleDefinition.java:188-195 | distinct keys capture distinct names |
| OptionsResolver.CollectSucceeds | spring-xd-module/src/main/java/org/springframework/xd/module/ModuleDefinition.java:188-211 | a completed loop gives one option per captured name, in key order; each option has that name, the key's value as its description, the default sibling's value (or none) and the resolved type sibling (or none) |
| OptionsResolver.CollectFails | spring-xd-module/src/main/java/org/springframework/xd/module/ModuleDefinition.java:199-207 | the loop throws if and only if some captured name has a type sibling naming no loadable class; the error names that option and type |
| OptionsResolver.CollectFailsAtFirst | spring-xd-module/src/main/java/org/springframework/xd/module/ModuleDefinition.java:188-207 | the error comes from the first failing key in iteration order: the loop had succeeded on every earlier key, and that key is the named option's description key |
| OptionsResolver.SimpleOptionsExact | spring-xd-module/src/main/java/org/springframework/xd/module/ModuleDefinition.java:186-215 | a successful extraction holds exactly one option per description key of the set, each built from its siblings, with no name twice |
| OptionsResolver.OrphanSiblingsIgnored | spring-xd-module/src/main/java/org/springframework/xd/module/ModuleDefinition.java:191-198 | a default or type entry with no matching description key yields no option |
| OptionsResolver.SimpleOptionsFail | spring-xd-module/src/main/java/org/springframework/xd/module/ModuleDefinition.java:199-207 | the extraction fails, with no partial list, if and only if some described option's type cannot be resolved |
| OptionsResolver.DescriptionWithDefault | spring-xd-module/src/main/java/org/springframework/xd/module/ModuleDefinition.java:152-211 | a companion holding only options.n.description and options.n.default, in either iteration order, resolves to pattern-backed metadata with exactly one option n with that description and default and no type |
| OptionsResolver.Resolve | spring-xd-module/src/main/java/org/springframework/xd/module/ModuleDefinition.java:152-184 | null exactly when the companion is absent or unreadable, and never an error then; with options_class present, the class loaded through the module classpath (or the resolver's loader when there is none), or a fatal error naming it; otherwise the pattern-backed options or their error |
| OptionsResolver.Create | spring-xd-module/src/main/java/org/springframework/xd/module/ModuleDefinition.java:152-184 | the resolver's code computes exactly the specified outcome |
| OptionsResolver.OptionsClassShadowsOptionKeys | spring-xd-module/src/main/java/org/springframework/xd/module/ModuleDefinition.java:162-176 | with options_class present, no other key affects the result |

## Left out

- Properties text-format parsing (`Properties.load`) is not modelled. A companion is given already parsed, as keys in iteration order and their values. All values are strings, which is what `load` produces. The `getProperty` case of a non-string value is therefore not modelled.
- Resource I/O (`createRelative`, `exists`, `getInputStream`) is one oracle answer: absent, unreadable (any `IOException`), or the loaded properties.
- Class loading (`ParentLastURLClassLoader`, `Class.forName`) is partial name-to-class oracles. The child-first search order inside the parent-last loader is not modelled. Errors other than `ClassNotFoundException` (linkage, initialisation) are not modelled.
- `PojoModuleOptionsMetadata`, `SimpleModuleOptionsMetadata`, `ModuleOption` and `ModuleType` are not part of this model. They are plain data constructors here.
- `synchronized` and `volatile` are not modelled. Only the sequential compute-once behaviour is verified.
- `toString` is left out because it is diagnostic text only.
- The classpath `URL[]` is a value (`seq`). The aliasing of the caller's array, which `getClasspath` hands back, is not captured.
- The Java getters are the class's fields. They are `const` for name, type, resource and classpath, so the constructor's ensures say what they return.
- The iteration order of `Properties` comes from a hashtable. The model takes any key order as given and proves only that options follow it.
