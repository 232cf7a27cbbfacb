/**
 * The collaborators the resolver calls but whose code is not part of this
 * model, given as values: resource handles, classpath entries, loaded classes,
 * and the oracles that answer the resource probe and the class lookups.
 */
module Collaborators {
  import opened Wrappers
  import opened JavaProperties

  /** A Spring `Resource` handle, known by its description. */
  datatype Resource = Resource(description: string)

  /** One `java.net.URL` entry of a module classpath. */
  datatype Url = Url(spec: string)

  /** A `Class<?>` handle returned by a class loader. */
  datatype ClassRef = ClassRef(qualifiedName: string)

  /**
   * What probing `resource.createRelative(name)` yields: the relative resource
   * does not exist, an `IOException` came out of `createRelative`,
   * `getInputStream` or `Properties.load`, or the loaded properties.
   */
  datatype Companion = Absent | Unreadable | Present(props: Properties)

  /**
   * The outside world of one resolution. `ambient` is `Class.forName` against
   * the resolver's own class loader; `moduleFirst` is `Class.forName` through a
   * parent-last loader over the given classpath.
   */
  datatype Environment = Environment(
    companion: (Resource, string) -> Companion,
    ambient: string -> Option<ClassRef>,
    moduleFirst: (seq<Url>, string) -> Option<ClassRef>)
}
