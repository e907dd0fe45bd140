/** StatefulShaderProgram: a shader program handle with a memo table of
    uniform locations, filled lazily from GL. */
module ShaderProgram {
  import opened Unique

  /** GL's location for a name the program does not define. */
  const INVALID_OPENGL_UNIFORM_LOCATION: int := -1

  /** No cached location is the invalid one. */
  ghost predicate NoInvalidCached(locations: map<string, int>)
  {
    forall name :: name in locations ==> locations[name] != INVALID_OPENGL_UNIFORM_LOCATION
  }

  /** Every cached location is what GL reports for that name. */
  ghost predicate AgreesWithGl(locations: map<string, int>, glLocation: string -> int)
  {
    forall name :: name in locations ==> locations[name] == glLocation(name)
  }

  /** One GetUniformLocation call on a cache `locations`, where `glLocation` is
      glGetUniformLocation on this program: the location returned and the cache
      afterwards. */
  function Lookup(locations: map<string, int>, glLocation: string -> int, name: string): (result: (int, map<string, int>))
    // a hit answers from the cache, a miss from GL
    ensures name in locations ==> result.0 == locations[name]
    ensures name !in locations ==> result.0 == glLocation(name)
    // only the queried name can be added, and only with a valid location
    ensures result.1.Keys == locations.Keys + (if result.0 != INVALID_OPENGL_UNIFORM_LOCATION then {name} else {})
    ensures forall n :: n in locations ==> result.1[n] == locations[n]
    ensures name in result.1 ==> result.1[name] == result.0
    ensures NoInvalidCached(locations) ==> NoInvalidCached(result.1)
  {
    if name in locations then
      (locations[name], locations)
    else
      var location := glLocation(name);
      if location == INVALID_OPENGL_UNIFORM_LOCATION then
        (INVALID_OPENGL_UNIFORM_LOCATION, locations)
      else
        (location, locations[name := location])
  }

  /** The cache after GetUniformLocation was called for each of `names` in turn. */
  function LookupAll(locations: map<string, int>, glLocation: string -> int, names: seq<string>): (after: map<string, int>)
    decreases |names|
  {
    if names == [] then locations
    else LookupAll(Lookup(locations, glLocation, names[0]).1, glLocation, names[1..])
  }

  /** The memo table only grows: no entry is ever changed or removed, and every
      new key is one of the names asked for. */
  lemma {:induction false} CacheOnlyGrows(locations: map<string, int>, glLocation: string -> int, names: seq<string>)
    ensures var after := LookupAll(locations, glLocation, names);
      && (forall n :: n in locations ==> n in after && after[n] == locations[n])
      && (forall n :: n in after && n !in locations ==> n in names)
    decreases |names|
  {
    if names != [] {
      var next := Lookup(locations, glLocation, names[0]).1;
      CacheOnlyGrows(next, glLocation, names[1..]);
    }
  }

  /** However many lookups are made, the invalid location never enters a cache
      that did not hold it. */
  lemma {:induction false} NeverCachesInvalid(locations: map<string, int>, glLocation: string -> int, names: seq<string>)
    requires NoInvalidCached(locations)
    ensures NoInvalidCached(LookupAll(locations, glLocation, names))
    decreases |names|
  {
    if names != [] {
      NeverCachesInvalid(Lookup(locations, glLocation, names[0]).1, glLocation, names[1..]);
    }
  }

  /** A cache filled from GL keeps agreeing with GL, so every lookup returns
      exactly what GL would: the memo table is invisible to callers. */
  lemma {:induction false} CacheIsTransparent(locations: map<string, int>, glLocation: string -> int, names: seq<string>, name: string)
    requires AgreesWithGl(locations, glLocation)
    ensures AgreesWithGl(LookupAll(locations, glLocation, names), glLocation)
    ensures Lookup(LookupAll(locations, glLocation, names), glLocation, name).0 == glLocation(name)
    decreases |names|
  {
    if names != [] {
      CacheIsTransparent(Lookup(locations, glLocation, names[0]).1, glLocation, names[1..], name);
    }
  }

  /** Once a name is cached, every later lookup of it returns the same
      location, whatever else is looked up in between. */
  lemma CachedLocationIsStable(locations: map<string, int>, glLocation: string -> int, names: seq<string>, name: string)
    requires name in locations
    ensures Lookup(LookupAll(locations, glLocation, names), glLocation, name).0 == locations[name]
  {
    CacheOnlyGrows(locations, glLocation, names);
  }

  class StatefulShaderProgram {
    const shaderProgram: UniqueEntity
    /** glGetUniformLocation for this program. */
    const glLocation: string -> int
    var uniformLocations: map<string, int>

    ghost predicate Valid()
      reads this
    {
      NoInvalidCached(uniformLocations)
    }

    /** Takes over a program handle, which must be set. */
    constructor (program: UniqueEntity, glLocation: string -> int)
      requires program.Valid() && program.IsSet()
      modifies program, program.traits
      ensures Valid() && uniformLocations == map[]
      ensures this.glLocation == glLocation
      ensures shaderProgram.value == old(program.value) && program.value.None?
      ensures shaderProgram.Valid()
    {
      shaderProgram := new UniqueEntity.Moved(program);
      this.glLocation := glLocation;
      uniformLocations := map[];
    }

    method GetUniformLocation(name: string) returns (location: int)
      requires Valid()
      modifies this`uniformLocations
      ensures Valid()
      ensures (location, uniformLocations) == Lookup(old(uniformLocations), glLocation, name)
    {
      if name !in uniformLocations {
        var queried := glLocation(name);
        if queried == INVALID_OPENGL_UNIFORM_LOCATION {
          return INVALID_OPENGL_UNIFORM_LOCATION;
        }
        uniformLocations := uniformLocations[name := queried];
        return queried;
      }
      return uniformLocations[name];
    }
  }
}
