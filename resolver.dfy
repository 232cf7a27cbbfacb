/**
 * `ModuleOptionsMetadataResolver`: finds `<module name>.properties` next to the
 * module's resource and turns it into options metadata, either backed by the
 * class named by `options_class` or built from the `options.<name>.*` keys.
 */
module OptionsResolver {
  import opened Wrappers
  import opened JavaProperties
  import opened OptionKeys
  import opened Collaborators
  import opened OptionsMetadata

  /** The reserved key naming a POJO class that describes the options. */
  const OptionsClassKey: string := "options_class"

  function PropertiesFileName(moduleName: string): string { moduleName + ".properties" }

  // ---------------------------------------------------------------------------
  // Pattern-backed extraction: what `makeSimpleModuleOptions` computes
  // ---------------------------------------------------------------------------

  /** The captured names of the keys that match the description pattern, in key order. */
  function MatchedNames(keys: seq<Key>): seq<string> {
    if keys == [] then []
    else
      var prev := MatchedNames(keys[..|keys| - 1]);
      match keys[|keys| - 1]
      case OtherKey(_) => prev
      case StringKey(s) =>
        match MatchDescriptionKey(s)
        case None => prev
        case Some(n) => prev + [n]
  }

  /** The option for name `n` records its description, its default sibling and its resolved type sibling. */
  ghost predicate Describes(p: Properties, ambient: string -> Option<ClassRef>, o: ModuleOption, n: string) {
    o.name == n &&
    GetProperty(p, DescriptionKey(n)) == Some(o.description) &&
    o.defaultValue == GetProperty(p, DefaultKey(n)) &&
    match GetProperty(p, TypeKey(n))
    case None => o.optionType == None
    case Some(t) => o.optionType.Some? && ambient(t) == o.optionType
  }

  /** `options.<n>.type` is present but names no class the ambient loader finds. */
  ghost predicate TypeUnresolvable(p: Properties, ambient: string -> Option<ClassRef>, n: string) {
    GetProperty(p, TypeKey(n)).Some? && ambient(GetProperty(p, TypeKey(n)).value).None?
  }

  /** One pass of the loop body for `key`: no option, one option, or the fatal type error. */
  function OptionForKey(p: Properties, ambient: string -> Option<ClassRef>, key: Key): Result<Option<ModuleOption>, ResolveError>
    requires key in p.keys
  {
    match key
    case OtherKey(_) => Success(None)
    case StringKey(propName) =>
      match MatchDescriptionKey(propName)
      case None => Success(None)
      case Some(optionName) =>
        var description := p.entries[key];
        var defaultValue := GetProperty(p, DefaultKey(optionName));
        match GetProperty(p, TypeKey(optionName))
        case None => Success(Some(ModuleOption(optionName, description, defaultValue, None)))
        case Some(typeName) =>
          match ambient(typeName)
          case None => Failure(OptionTypeNotFound(optionName, typeName))
          case Some(clazz) => Success(Some(ModuleOption(optionName, description, defaultValue, Some(clazz))))
  }

  /** The loop over the first `i` keys: the options collected so far, or the first error thrown. */
  function Collect(p: Properties, ambient: string -> Option<ClassRef>, i: nat): Result<seq<ModuleOption>, ResolveError>
    requires i <= |p.keys|
  {
    if i == 0 then Success([])
    else
      match Collect(p, ambient, i - 1)
      case Failure(e) => Failure(e)
      case Success(prev) =>
        match OptionForKey(p, ambient, p.keys[i - 1])
        case Failure(e) => Failure(e)
        case Success(None) => Success(prev)
        case Success(Some(o)) => Success(prev + [o])
  }

  function SimpleOptions(p: Properties, ambient: string -> Option<ClassRef>): Result<seq<ModuleOption>, ResolveError> {
    Collect(p, ambient, |p.keys|)
  }

  /** Once the loop has thrown, later keys do not change the outcome. */
  lemma {:induction false} FailurePersists(p: Properties, ambient: string -> Option<ClassRef>, i: nat, j: nat)
    requires i <= j <= |p.keys|
    requires Collect(p, ambient, i).Failure?
    ensures Collect(p, ambient, j) == Collect(p, ambient, i)
    decreases j - i
  {
    if i < j {
      FailurePersists(p, ambient, i + 1, j);
    }
  }

  /**
   * `makeSimpleModuleOptions`: walks the keys in iteration order, skips
   * non-string and non-matching keys, and adds one option per description key;
   * an unresolvable type aborts the walk.
   */
  method MakeSimpleModuleOptions(p: Properties, ambient: string -> Option<ClassRef>)
    returns (r: Result<seq<ModuleOption>, ResolveError>)
    ensures r == SimpleOptions(p, ambient)
  {
    var result: seq<ModuleOption> := [];
    var i := 0;
    while i < |p.keys|
      invariant i <= |p.keys|
      invariant Collect(p, ambient, i) == Success(result)
    {
      var key := p.keys[i];
      if key.StringKey? {
        var propName := key.text;
        var matcher := MatchDescriptionKey(propName);
        if matcher.Some? {
          var optionName := matcher.value;
          var description := p.entries[key];
          var defaultValue := GetProperty(p, DefaultKey(optionName));
          var typeName := GetProperty(p, TypeKey(optionName));
          var clazz: Option<ClassRef> := None;
          if typeName.Some? {
            clazz := ambient(typeName.value);
            if clazz.None? {
              r := Failure(OptionTypeNotFound(optionName, typeName.value));
              assert OptionForKey(p, ambient, key) == Failure(r.error);
              FailurePersists(p, ambient, i + 1, |p.keys|);
              return;
            }
          }
          var option := ModuleOption(optionName, description, defaultValue, clazz);
          assert OptionForKey(p, ambient, key) == Success(Some(option));
          result := result + [option];
        } else {
          assert OptionForKey(p, ambient, key) == Success(None);
        }
      } else {
        assert OptionForKey(p, ambient, key) == Success(None);
      }
      i := i + 1;
    }
    r := Success(result);
  }

  /** A name is matched exactly when its description key is one of the keys. */
  lemma {:induction false} MatchedNamesMembers(keys: seq<Key>, n: string)
    ensures n in MatchedNames(keys) <==> IsOptionName(n) && StringKey(DescriptionKey(n)) in keys
  {
    if keys != [] {
      var init, last := keys[..|keys| - 1], keys[|keys| - 1];
      assert keys == init + [last];
      MatchedNamesMembers(init, n);
      if last.StringKey? {
        MatchExactly(last.text, n);
      }
    }
  }

  /** Distinct keys give distinct names: no option name is produced twice. */
  lemma {:induction false} MatchedNamesDistinct(keys: seq<Key>)
    requires forall i, j :: 0 <= i < j < |keys| ==> keys[i] != keys[j]
    ensures forall i, j :: 0 <= i < j < |MatchedNames(keys)| ==> MatchedNames(keys)[i] != MatchedNames(keys)[j]
  {
    if keys != [] {
      var init, last := keys[..|keys| - 1], keys[|keys| - 1];
      MatchedNamesDistinct(init);
      if last.StringKey? && MatchDescriptionKey(last.text).Some? {
        var n := MatchDescriptionKey(last.text).value;
        MatchedNamesMembers(init, n);
        assert n !in MatchedNames(init);
      }
    }
  }

  /**
   * When the loop completes, it has produced one option per matched description
   * key, in key order, each describing its name's sibling keys.
   */
  lemma {:induction false} CollectSucceeds(p: Properties, ambient: string -> Option<ClassRef>, i: nat)
    requires i <= |p.keys|
    requires Collect(p, ambient, i).Success?
    ensures |Collect(p, ambient, i).value| == |MatchedNames(p.keys[..i])|
    ensures forall j :: 0 <= j < |MatchedNames(p.keys[..i])| ==>
      Describes(p, ambient, Collect(p, ambient, i).value[j], MatchedNames(p.keys[..i])[j])
  {
    if i > 0 {
      CollectSucceeds(p, ambient, i - 1);
      assert p.keys[..i][..i - 1] == p.keys[..i - 1];
      var key := p.keys[i - 1];
      if key.StringKey? && MatchDescriptionKey(key.text).Some? {
        var n := MatchDescriptionKey(key.text).value;
        assert GetProperty(p, DescriptionKey(n)) == Some(p.entries[key]);
      }
    }
  }

  /**
   * The loop throws exactly when some matched name has an unresolvable type,
   * and the error names such an option and its type.
   */
  lemma {:induction false} CollectFails(p: Properties, ambient: string -> Option<ClassRef>, i: nat)
    requires i <= |p.keys|
    ensures Collect(p, ambient, i).Failure? <==>
      exists n :: n in MatchedNames(p.keys[..i]) && TypeUnresolvable(p, ambient, n)
    ensures Collect(p, ambient, i).Failure? ==>
      var e := Collect(p, ambient, i).error;
      e.OptionTypeNotFound? && e.optionName in MatchedNames(p.keys[..i]) &&
      GetProperty(p, TypeKey(e.optionName)) == Some(e.typeName) && ambient(e.typeName).None?
  {
    if i > 0 {
      CollectFails(p, ambient, i - 1);
      var prevNames, names := MatchedNames(p.keys[..i - 1]), MatchedNames(p.keys[..i]);
      assert p.keys[..i][..i - 1] == p.keys[..i - 1];
      var key := p.keys[i - 1];
      if key.StringKey? && MatchDescriptionKey(key.text).Some? {
        var n := MatchDescriptionKey(key.text).value;
        assert names == prevNames + [n];
        if Collect(p, ambient, i - 1).Failure? {
          assert Collect(p, ambient, i) == Collect(p, ambient, i - 1);
        } else if TypeUnresolvable(p, ambient, n) {
          assert Collect(p, ambient, i).error == OptionTypeNotFound(n, GetProperty(p, TypeKey(n)).value);
        } else {
          assert Collect(p, ambient, i).Success?;
        }
      } else {
        assert names == prevNames;
        assert Collect(p, ambient, i).Failure? == Collect(p, ambient, i - 1).Failure?;
        assert Collect(p, ambient, i).Failure? ==> Collect(p, ambient, i) == Collect(p, ambient, i - 1);
      }
    }
  }

  /**
   * The loop throws at the first failing key in iteration order: the key of
   * the option it names sits at an index `k` before which the loop had
   * succeeded, and the outcome is already fixed after that key.
   */
  lemma {:induction false} CollectFailsAtFirst(p: Properties, ambient: string -> Option<ClassRef>, i: nat)
    requires i <= |p.keys|
    requires Collect(p, ambient, i).Failure?
    ensures Collect(p, ambient, i).error.OptionTypeNotFound?
    ensures exists k :: (0 <= k < i && Collect(p, ambient, k).Success? &&
      p.keys[k] == StringKey(DescriptionKey(Collect(p, ambient, i).error.optionName)) &&
      Collect(p, ambient, k + 1) == Collect(p, ambient, i))
  {
    if Collect(p, ambient, i - 1).Failure? {
      CollectFailsAtFirst(p, ambient, i - 1);
      assert Collect(p, ambient, i) == Collect(p, ambient, i - 1);
    } else {
      var key := p.keys[i - 1];
      assert key.StringKey? && MatchDescriptionKey(key.text).Some?;
      assert Collect(p, ambient, i).error.optionName == MatchDescriptionKey(key.text).value;
    }
  }

  /**
   * A successful extraction holds exactly one option per description key of
   * the set: every option comes from such a key and describes its siblings,
   * every such key has its option, and no name occurs twice.
   */
  lemma SimpleOptionsExact(p: Properties, ambient: string -> Option<ClassRef>)
    requires SimpleOptions(p, ambient).Success?
    ensures forall o :: o in SimpleOptions(p, ambient).value ==>
      IsOptionName(o.name) && StringKey(DescriptionKey(o.name)) in p.keys && Describes(p, ambient, o, o.name)
    ensures forall n :: IsOptionName(n) && StringKey(DescriptionKey(n)) in p.keys ==>
      exists o :: o in SimpleOptions(p, ambient).value && o.name == n
    ensures forall j, k :: 0 <= j < k < |SimpleOptions(p, ambient).value| ==>
      SimpleOptions(p, ambient).value[j].name != SimpleOptions(p, ambient).value[k].name
  {
    var opts, names := SimpleOptions(p, ambient).value, MatchedNames(p.keys);
    CollectSucceeds(p, ambient, |p.keys|);
    assert p.keys[..|p.keys|] == p.keys;
    MatchedNamesDistinct(p.keys);
    forall o | o in opts
      ensures IsOptionName(o.name) && StringKey(DescriptionKey(o.name)) in p.keys && Describes(p, ambient, o, o.name)
    {
      var j :| 0 <= j < |opts| && opts[j] == o;
      MatchedNamesMembers(p.keys, names[j]);
    }
    forall n | IsOptionName(n) && StringKey(DescriptionKey(n)) in p.keys
      ensures exists o :: o in opts && o.name == n
    {
      MatchedNamesMembers(p.keys, n);
      var j :| 0 <= j < |names| && names[j] == n;
      assert opts[j] in opts;
    }
  }

  /** A `default` or `type` entry whose name has no description key yields no option. */
  lemma OrphanSiblingsIgnored(p: Properties, ambient: string -> Option<ClassRef>, n: string)
    requires StringKey(DescriptionKey(n)) !in p.keys
    requires SimpleOptions(p, ambient).Success?
    ensures forall o :: o in SimpleOptions(p, ambient).value ==> o.name != n
  {
    SimpleOptionsExact(p, ambient);
  }

  /** The extraction aborts exactly when a described option's type cannot be resolved. */
  lemma SimpleOptionsFail(p: Properties, ambient: string -> Option<ClassRef>)
    ensures SimpleOptions(p, ambient).Failure? <==>
      exists n :: IsOptionName(n) && StringKey(DescriptionKey(n)) in p.keys && TypeUnresolvable(p, ambient, n)
  {
    CollectFails(p, ambient, |p.keys|);
    assert p.keys[..|p.keys|] == p.keys;
    forall n ensures n in MatchedNames(p.keys) <==> IsOptionName(n) && StringKey(DescriptionKey(n)) in p.keys {
      MatchedNamesMembers(p.keys, n);
    }
  }

  // ---------------------------------------------------------------------------
  // The resolver: `ModuleOptionsMetadataResolver.create`
  // ---------------------------------------------------------------------------

  /** `Class.forName(c, true, loader)` with a parent-last loader when the module has a classpath, the resolver's loader otherwise. */
  function LoadOptionsClass(classpath: Option<seq<Url>>, env: Environment, c: string): Option<ClassRef> {
    match classpath
    case Some(urls) => env.moduleFirst(urls, c)
    case None => env.ambient(c)
  }

  /**
   * The outcome of resolving the metadata of module `name` at `resource`:
   * `Success(None)` is the Java `null` ("no metadata"), `Failure` an
   * `IllegalStateException`.
   */
  function Resolve(name: string, resource: Resource, classpath: Option<seq<Url>>, env: Environment): (r: Result<Option<Metadata>, ResolveError>)
    // null exactly when the companion is missing or unreadable; never an error then
    ensures r == Success(None) <==> !env.companion(resource, PropertiesFileName(name)).Present?
    ensures !env.companion(resource, PropertiesFileName(name)).Present? ==> r.Success?
    // options_class present: the class it names, or a fatal error naming it
    ensures env.companion(resource, PropertiesFileName(name)).Present? ==>
      var p := env.companion(resource, PropertiesFileName(name)).props;
      GetProperty(p, OptionsClassKey).Some? ==>
        var c := GetProperty(p, OptionsClassKey).value;
        (r.Success? <==> LoadOptionsClass(classpath, env, c).Some?) &&
        (r.Success? ==> r.value == Some(PojoBacked(LoadOptionsClass(classpath, env, c).value))) &&
        (r.Failure? ==> r.error == OptionsClassNotFound(c))
    // otherwise the pattern-backed options, or the extraction's error
    ensures env.companion(resource, PropertiesFileName(name)).Present? ==>
      var p := env.companion(resource, PropertiesFileName(name)).props;
      GetProperty(p, OptionsClassKey).None? ==>
        (r.Success? <==> SimpleOptions(p, env.ambient).Success?) &&
        (r.Success? ==> r.value == Some(SimpleBacked(SimpleOptions(p, env.ambient).value))) &&
        (r.Failure? ==> r.error == SimpleOptions(p, env.ambient).error)
  {
    match env.companion(resource, PropertiesFileName(name))
    case Absent => Success(None)
    case Unreadable => Success(None)
    case Present(p) =>
      match GetProperty(p, OptionsClassKey)
      case Some(c) =>
        (match LoadOptionsClass(classpath, env, c)
         case Some(clazz) => Success(Some(PojoBacked(clazz)))
         case None => Failure(OptionsClassNotFound(c)))
      case None =>
        match SimpleOptions(p, env.ambient)
        case Success(options) => Success(Some(SimpleBacked(options)))
        case Failure(e) => Failure(e)
  }

  /** `create`: the same decisions as `Resolve`, with the extraction done by the loop. */
  method Create(name: string, resource: Resource, classpath: Option<seq<Url>>, env: Environment)
    returns (r: Result<Option<Metadata>, ResolveError>)
    ensures r == Resolve(name, resource, classpath, env)
  {
    var companion := env.companion(resource, PropertiesFileName(name));
    if !companion.Present? {
      return Success(None);
    }
    var props := companion.props;
    var pojoClass := GetProperty(props, OptionsClassKey);
    if pojoClass.Some? {
      var clazz := LoadOptionsClass(classpath, env, pojoClass.value);
      if clazz.None? {
        return Failure(OptionsClassNotFound(pojoClass.value));
      }
      return Success(Some(PojoBacked(clazz.value)));
    }
    var simple := MakeSimpleModuleOptions(props, env.ambient);
    if simple.Failure? {
      return Failure(simple.error);
    }
    return Success(Some(SimpleBacked(simple.value)));
  }

  /**
   * With `options_class` set, no `options.*` key is consulted: two companions
   * that agree on `options_class` resolve alike.
   */
  lemma OptionsClassShadowsOptionKeys(
    name: string, resource: Resource, classpath: Option<seq<Url>>, env: Environment, env': Environment)
    requires env.companion(resource, PropertiesFileName(name)).Present?
    requires env'.companion(resource, PropertiesFileName(name)).Present?
    requires GetProperty(env.companion(resource, PropertiesFileName(name)).props, OptionsClassKey).Some?
    requires GetProperty(env.companion(resource, PropertiesFileName(name)).props, OptionsClassKey)
          == GetProperty(env'.companion(resource, PropertiesFileName(name)).props, OptionsClassKey)
    requires LoadOptionsClass(classpath, env, GetProperty(env.companion(resource, PropertiesFileName(name)).props, OptionsClassKey).value)
          == LoadOptionsClass(classpath, env', GetProperty(env.companion(resource, PropertiesFileName(name)).props, OptionsClassKey).value)
    ensures Resolve(name, resource, classpath, env) == Resolve(name, resource, classpath, env')
  {
  }

  /**
   * A companion holding only `options.<n>.description=<description>` and
   * `options.<n>.default=<dflt>`, in either iteration order (for instance
   * `options.timeout.description=Timeout in ms` and `options.timeout.default=30`),
   * resolves to pattern-backed metadata with exactly one option `n` carrying
   * that description, default `dflt` and no type.
   */
  lemma DescriptionWithDefault(
    name: string, resource: Resource, classpath: Option<seq<Url>>, env: Environment,
    n: string, description: string, dflt: string)
    requires IsOptionName(n)
    requires env.companion(resource, PropertiesFileName(name)).Present?
    requires var p := env.companion(resource, PropertiesFileName(name)).props;
      |p.keys| == 2 && StringKey(DescriptionKey(n)) in p.keys && StringKey(DefaultKey(n)) in p.keys &&
      p.entries[StringKey(DescriptionKey(n))] == description && p.entries[StringKey(DefaultKey(n))] == dflt
    ensures SimpleOptions(env.companion(resource, PropertiesFileName(name)).props, env.ambient)
         == Success([ModuleOption(n, description, Some(dflt), None)])
    ensures Resolve(name, resource, classpath, env)
         == Success(Some(SimpleBacked([ModuleOption(n, description, Some(dflt), None)])))
  {
    var p := env.companion(resource, PropertiesFileName(name)).props;
    var d, t := DescriptionKey(n), TypeKey(n);
    assert d[|d| - 1] == 'n' && t[|t| - 1] == 'e' && DefaultKey(n)[|DefaultKey(n)| - 1] == 't';
    assert d[7] == '.' && DefaultKey(n)[7] == '.' && OptionsClassKey[7] == '_';
    assert p.keys[0] != p.keys[1];
    assert GetProperty(p, OptionsClassKey) == None;
    MatchExactly(d, n);
    SiblingKeysNeverMatch(n);
    var o := ModuleOption(n, description, Some(dflt), None);
    assert Collect(p, env.ambient, 0) == Success([]);
    assert [] + [o] == [o];
    if p.keys[0] == StringKey(d) {
      assert OptionForKey(p, env.ambient, p.keys[0]) == Success(Some(o));
      assert OptionForKey(p, env.ambient, p.keys[1]) == Success(None);
      assert Collect(p, env.ambient, 1) == Success([o]);
    } else {
      assert OptionForKey(p, env.ambient, p.keys[0]) == Success(None);
      assert OptionForKey(p, env.ambient, p.keys[1]) == Success(Some(o));
      assert Collect(p, env.ambient, 1) == Success([]);
    }
  }
}
