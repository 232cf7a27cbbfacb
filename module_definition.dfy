/**
 * `ModuleDefinition`: a module's identity (name, type, resource, classpath),
 * two settable fields, and its options metadata, resolved on demand and kept
 * once it is non-null.
 */
module ModuleDefinitions {
  import opened Wrappers
  import opened JavaProperties
  import opened Collaborators
  import opened OptionsMetadata
  import opened OptionsResolver

  /** The module's category; `ModuleType.java` is not part of this model, so a type is known by its name. */
  datatype ModuleType = ModuleType(kind: string)

  /** The `IllegalArgumentException`s raised by the constructor's assertions. */
  datatype ArgumentError = BlankName | NullType | NullResource

  /** The `DescriptiveResource("Dummy resource")` of the two-argument constructor. */
  const DummyResource: Resource := Resource("Dummy resource")

  /** The stored classpath: a missing or empty array is kept as null. */
  function NormalizeClasspath(classpath: Option<seq<Url>>): (r: Option<seq<Url>>)
    ensures r.None? <==> classpath.None? || |classpath.value| == 0
    ensures r.Some? ==> r == classpath && |r.value| > 0
  {
    if classpath.Some? && |classpath.value| > 0 then classpath else None
  }

  /**
   * The constructor's assertions, checked in order (`hasLength(name)`, then
   * `notNull(type)`, then `notNull(resource)`): the first that fails, or `None`.
   */
  function ArgumentCheck(name: Option<string>, moduleType: Option<ModuleType>, resource: Option<Resource>): (r: Option<ArgumentError>)
    ensures r.None? <==> name.Some? && |name.value| > 0 && moduleType.Some? && resource.Some?
    ensures r == Some(BlankName) <==> name.None? || |name.value| == 0
    ensures r == Some(NullType) <==> name.Some? && |name.value| > 0 && moduleType.None?
    ensures r == Some(NullResource) ==> resource.None?
  {
    if name.None? || |name.value| == 0 then Some(BlankName)
    else if moduleType.None? then Some(NullType)
    else if resource.None? then Some(NullResource)
    else None
  }

  class ModuleDefinition {
    const name: string
    const moduleType: ModuleType
    const resource: Resource
    const classpath: Option<seq<Url>>
    var properties: Option<Properties>
    var definition: Option<string>
    /** The `moduleOptionsMetadata` field: `None` is Java's `null`. */
    var cached: Option<Metadata>
    /** How many times this definition has run the resolver. */
    ghost var resolutions: nat

    /** `ModuleDefinition(name, type, resource, classpath)`. */
    constructor (name: string, moduleType: ModuleType, resource: Resource, classpath: Option<seq<Url>>)
      requires |name| > 0
      ensures this.name == name && this.moduleType == moduleType && this.resource == resource
      ensures this.classpath == NormalizeClasspath(classpath)
      ensures properties == None && definition == None && cached == None && resolutions == 0
    {
      this.resource := resource;
      this.name := name;
      this.moduleType := moduleType;
      this.classpath := NormalizeClasspath(classpath);
      properties, definition, cached, resolutions := None, None, None, 0;
    }

    /** `ModuleDefinition(name, type, resource)`: no classpath. */
    constructor WithResource(name: string, moduleType: ModuleType, resource: Resource)
      requires |name| > 0
      ensures this.name == name && this.moduleType == moduleType && this.resource == resource
      ensures this.classpath == None
      ensures properties == None && definition == None && cached == None && resolutions == 0
    {
      this.resource := resource;
      this.name := name;
      this.moduleType := moduleType;
      this.classpath := NormalizeClasspath(None);
      properties, definition, cached, resolutions := None, None, None, 0;
    }

    /** `ModuleDefinition(name, type)`: the dummy resource and no classpath. */
    constructor Named(name: string, moduleType: ModuleType)
      requires |name| > 0
      ensures this.name == name && this.moduleType == moduleType && this.resource == DummyResource
      ensures this.classpath == None
      ensures properties == None && definition == None && cached == None && resolutions == 0
    {
      this.resource := DummyResource;
      this.name := name;
      this.moduleType := moduleType;
      this.classpath := NormalizeClasspath(None);
      properties, definition, cached, resolutions := None, None, None, 0;
    }

    method SetProperties(properties: Option<Properties>)
      modifies this`properties
      ensures this.properties == properties
    {
      this.properties := properties;
    }

    method SetDefinition(definition: Option<string>)
      modifies this`definition
      ensures this.definition == definition
    {
      this.definition := definition;
    }

    /**
     * `getModuleOptionsMetadata`: a non-null cached value is returned as is and
     * the resolver is not run; otherwise the resolver runs, and its result is
     * kept when it is non-null. A thrown error leaves the field untouched.
     */
    method GetModuleOptionsMetadata(env: Environment) returns (r: Result<Option<Metadata>, ResolveError>)
      modifies this`cached, this`resolutions
      ensures old(cached).Some? ==> r == Success(old(cached)) && cached == old(cached) && resolutions == old(resolutions)
      ensures old(cached).None? ==> r == Resolve(name, resource, classpath, env) && resolutions == old(resolutions) + 1
      ensures old(cached).None? ==> cached == (if r.Success? then r.value else None)
    {
      if cached.None? {
        var resolved := Create(name, resource, classpath, env);
        resolutions := resolutions + 1;
        if resolved.Failure? {
          return resolved;
        }
        cached := resolved.value;
      }
      return Success(cached);
    }
  }

  /**
   * Construction through any of the constructors: the first failing assertion,
   * or a fresh definition that holds exactly the given values.
   */
  method Define(name: Option<string>, moduleType: Option<ModuleType>, resource: Option<Resource>, classpath: Option<seq<Url>>)
    returns (r: Result<ModuleDefinition, ArgumentError>)
    ensures r.Failure? <==> ArgumentCheck(name, moduleType, resource).Some?
    ensures r.Failure? ==> r.error == ArgumentCheck(name, moduleType, resource).value
    ensures r.Success? ==> fresh(r.value)
    ensures r.Success? ==> r.value.properties == None && r.value.definition == None
    ensures r.Success? ==> r.value.cached == None && r.value.resolutions == 0
    ensures r.Success? ==> r.value.name == name.value && r.value.moduleType == moduleType.value && r.value.resource == resource.value
    ensures r.Success? ==> r.value.classpath == NormalizeClasspath(classpath)
  {
    var failure := ArgumentCheck(name, moduleType, resource);
    if failure.Some? {
      return Failure(failure.value);
    }
    var d := new ModuleDefinition(name.value, moduleType.value, resource.value, classpath);
    return Success(d);
  }

  /**
   * Two calls in a row: once a non-null value has been returned the second
   * call returns it again without resolving; after a null, or after the first
   * call threw, the second call resolves afresh, possibly against a changed
   * environment.
   */
  method AskTwice(d: ModuleDefinition, env: Environment, env': Environment)
    returns (first: Result<Option<Metadata>, ResolveError>, second: Result<Option<Metadata>, ResolveError>)
    modifies d`cached, d`resolutions
    ensures first.Success? && first.value.Some? ==> second == first && d.cached == first.value
    ensures first.Success? && first.value.Some? ==>
      d.resolutions == old(d.resolutions) + (if old(d.cached).None? then 1 else 0)
    ensures first == Success(None) ==>
      second == Resolve(d.name, d.resource, d.classpath, env') && d.resolutions == old(d.resolutions) + 2
    ensures first.Failure? ==>
      second == Resolve(d.name, d.resource, d.classpath, env') && d.resolutions == old(d.resolutions) + 2
  {
    first := d.GetModuleOptionsMetadata(env);
    second := d.GetModuleOptionsMetadata(env');
  }
}
