/** The values the resolver produces: options, the two metadata variants and its fatal errors. */
module OptionsMetadata {
  import opened Wrappers
  import opened Collaborators

  /** `new ModuleOption(name, description).withDefaultValue(d).withType(t)`. */
  datatype ModuleOption = ModuleOption(
    name: string,
    description: string,
    defaultValue: Option<string>,
    optionType: Option<ClassRef>)

  /** `PojoModuleOptionsMetadata` wraps one class; `SimpleModuleOptionsMetadata` lists options in insertion order. */
  datatype Metadata = PojoBacked(pojo: ClassRef) | SimpleBacked(options: seq<ModuleOption>)

  /** The two `IllegalStateException`s the resolver throws. */
  datatype ResolveError =
    | OptionsClassNotFound(className: string)
    | OptionTypeNotFound(optionName: string, typeName: string)
}
