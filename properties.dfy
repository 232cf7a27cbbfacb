/**
 * A `java.util.Properties` table as the options resolver sees it once the
 * companion file has been loaded: the keys in the table's iteration order
 * (a hashtable order, so no particular order is assumed) and the mapping from
 * each key to its value.
 */
module JavaProperties {
  import opened Wrappers

  /**
   * A key of the table. `Properties` is a `Hashtable<Object, Object>`, so a
   * key need not be a `String`; `OtherKey` stands for any such non-string key.
   */
  datatype Key = StringKey(text: string) | OtherKey(id: nat)

  datatype PropertySet = PropertySet(keys: seq<Key>, entries: map<Key, string>)

  /** A hashtable holds each key once, and its key set is its domain. */
  ghost predicate Wellformed(p: PropertySet) {
    (forall i, j :: 0 <= i < j < |p.keys| ==> p.keys[i] != p.keys[j]) &&
    (forall k :: k in p.entries <==> k in p.keys)
  }

  type Properties = p: PropertySet | Wellformed(p) witness PropertySet([], map[])

  /** `Properties.getProperty(name)`: the value stored under the string key `name`, or null. */
  function GetProperty(p: Properties, name: string): (r: Option<string>)
    ensures r.Some? <==> StringKey(name) in p.keys
    ensures r.Some? ==> r.value == p.entries[StringKey(name)]
  {
    if StringKey(name) in p.entries then Some(p.entries[StringKey(name)]) else None
  }
}
