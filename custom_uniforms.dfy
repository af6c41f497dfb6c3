/**
 * `keepCustomUniforms`: which of the uniforms a shader declares are shown to
 * the user as editable parameters.
 */
module CustomUniforms {

  /** Uniform names the transition runtime sets itself. */
  const IgnoredUniforms: seq<string> := ["progress", "resolution", "from", "to"]

  /** Uniform types the parameter editor cannot edit. */
  const UnsupportedTypes: seq<string> := ["samplerCube"]

  /** True when `name` with declared type `glslType` is dropped by the filter. */
  predicate Omitted(name: string, glslType: string) {
    name in IgnoredUniforms || glslType in UnsupportedTypes
  }

  /**
   * Drops from a name-to-type map the reserved names and the unsupported
   * types; every other entry is kept with its type.
   */
  function KeepCustomUniforms(types: map<string, string>): (r: map<string, string>)
    ensures forall name :: name in r <==>
      && name in types
      && name != "progress" && name != "resolution" && name != "from" && name != "to"
      && types[name] != "samplerCube"
    ensures forall name :: name in r ==> r[name] == types[name]
  {
    map name | name in types && !Omitted(name, types[name]) :: types[name]
  }

  /** `m` is a sub-map of `big`: same value on every key of `m`. */
  ghost predicate IsSubMap(m: map<string, string>, big: map<string, string>) {
    forall name :: name in m ==> name in big && m[name] == big[name]
  }

  /** The filtered map is a sub-map of its input. */
  lemma KeepCustomUniformsIsSubMap(types: map<string, string>)
    ensures IsSubMap(KeepCustomUniforms(types), types)
  {
  }

  /** Filtering a filtered map changes nothing. */
  lemma KeepCustomUniformsIdempotent(types: map<string, string>)
    ensures KeepCustomUniforms(KeepCustomUniforms(types)) == KeepCustomUniforms(types)
  {
    var once := KeepCustomUniforms(types);
    assert KeepCustomUniforms(once).Keys == once.Keys;
  }
}
