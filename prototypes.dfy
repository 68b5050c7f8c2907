/**
 * The prototype caches (PrototypeCaches.cs) and prototype reference
 * resolution (SerializedPrototypeRef.cs), over an abstract universe of
 * types. The loaded assemblies, what each serializer accepts and what
 * building a type cache yields are fixed at construction: reflection and
 * the serializers' code are not part of this model. Serializer instances
 * are identified with their types.
 */
module Prototypes {
  import opened Types

  /** What the caches read of a reflected type. A null namespace is `None`. */
  datatype TypeInfo = TypeInfo(name: string, namespace: Option<string>, isClass: bool, isAbstract: bool, isSerializer: bool)

  type CacheId = nat

  /** The types of all assemblies, assembly by assembly, each in its own order. */
  function Flatten(assemblies: seq<seq<TypeInfo>>): (r: seq<TypeInfo>)
    ensures forall i, j :: 0 <= i < |assemblies| && 0 <= j < |assemblies[i]| ==> assemblies[i][j] in r
    ensures forall t :: t in r ==> exists i :: 0 <= i < |assemblies| && t in assemblies[i]
  {
    if assemblies == [] then []
    else
      var init := assemblies[..|assemblies| - 1];
      var last := assemblies[|assemblies| - 1];
      var r := Flatten(init) + last;
      assert forall i :: 0 <= i < |init| ==> init[i] == assemblies[i];
      r
  }

  /** A type a serializer is made from: a concrete class implementing the serializer interface. */
  predicate IsSerializerType(t: TypeInfo)
  {
    t.isClass && !t.isAbstract && t.isSerializer
  }

  /** The serializer types among `ts`, in the order of `ts`. */
  function SerializerTypes(ts: seq<TypeInfo>): (r: seq<TypeInfo>)
    ensures forall t :: t in r <==> t in ts && IsSerializerType(t)
    ensures |r| <= |ts|
  {
    if ts == [] then []
    else
      var init := ts[..|ts| - 1];
      var last := ts[|ts| - 1];
      assert ts == init + [last];
      SerializerTypes(init) + (if IsSerializerType(last) then [last] else [])
  }

  /** The first serializer in `ss` that accepts `target`. */
  function BestSerializer(ss: seq<TypeInfo>, canBeUsedFor: (TypeInfo, TypeInfo) -> bool, target: TypeInfo): (r: Option<TypeInfo>)
    ensures r.None? <==> forall j :: 0 <= j < |ss| ==> !canBeUsedFor(ss[j], target)
    ensures r.Some? ==> r.value in ss && canBeUsedFor(r.value, target)
  {
    if ss == [] then None
    else if canBeUsedFor(ss[0], target) then Some(ss[0])
    else
      var r := BestSerializer(ss[1..], canBeUsedFor, target);
      assert forall j :: 1 <= j < |ss| ==> ss[j] == ss[1..][j - 1];
      r
  }

  /** No serializer before the chosen one accepts the type. */
  lemma {:induction false} BestSerializerIsFirst(ss: seq<TypeInfo>, canBeUsedFor: (TypeInfo, TypeInfo) -> bool, target: TypeInfo, k: nat)
    requires k < |ss| && canBeUsedFor(ss[k], target)
    requires forall j :: 0 <= j < k ==> !canBeUsedFor(ss[j], target)
    ensures BestSerializer(ss, canBeUsedFor, target) == Some(ss[k])
  {
    if k > 0 {
      BestSerializerIsFirst(ss[1..], canBeUsedFor, target, k - 1);
    }
  }

  /** Whether a preferred namespace switches the namespace test off: it does when null or empty. */
  predicate NamespaceCheckSkipped(preferredNamespace: Option<string>)
  {
    preferredNamespace.None? || preferredNamespace.value == ""
  }

  /**
   * The test a type passes in the lookup by name: `Some(b)` for its outcome
   * `b`, `None` where it throws because it compares the null namespace of
   * a type with the requested name.
   */
  function TypeMatch(t: TypeInfo, name: string, preferredNamespace: Option<string>): (r: Option<bool>)
    ensures r == Some(true) <==>
      t.name == name && (NamespaceCheckSkipped(preferredNamespace) || t.namespace == preferredNamespace)
    ensures r == None <==> t.name == name && !NamespaceCheckSkipped(preferredNamespace) && t.namespace.None?
  {
    if t.name != name then Some(false)
    else if NamespaceCheckSkipped(preferredNamespace) then Some(true)
    else if t.namespace.None? then None
    else Some(t.namespace == preferredNamespace)
  }

  /** The outcome of the lookup by name: the index of the type found, none, or the index where it throws. */
  datatype Search = Found(index: nat) | NotFound | Threw(index: nat)

  /** The lookup by name over `ts` from index `i` on: the first type that does not fail the test decides. */
  function FindTypeFrom(ts: seq<TypeInfo>, name: string, preferredNamespace: Option<string>, i: nat): (r: Search)
    requires i <= |ts|
    ensures r.Found? ==>
      && i <= r.index < |ts| && TypeMatch(ts[r.index], name, preferredNamespace) == Some(true)
      && forall j :: i <= j < r.index ==> TypeMatch(ts[j], name, preferredNamespace) == Some(false)
    ensures r.Threw? ==>
      && i <= r.index < |ts| && TypeMatch(ts[r.index], name, preferredNamespace) == None
      && forall j :: i <= j < r.index ==> TypeMatch(ts[j], name, preferredNamespace) == Some(false)
    ensures r.NotFound? ==> forall j :: i <= j < |ts| ==> TypeMatch(ts[j], name, preferredNamespace) == Some(false)
    decreases |ts| - i
  {
    if i == |ts| then NotFound
    else
      match TypeMatch(ts[i], name, preferredNamespace)
      case None => Threw(i)
      case Some(true) => Found(i)
      case Some(false) => FindTypeFrom(ts, name, preferredNamespace, i + 1)
  }

  /**
   * With an empty or null preferred namespace the lookup never throws and
   * finds the first type with the name, whatever the namespaces.
   */
  lemma {:induction false} SkippedNamespaceFindsFirstName(ts: seq<TypeInfo>, name: string, preferredNamespace: Option<string>, i: nat)
    requires i <= |ts| && NamespaceCheckSkipped(preferredNamespace)
    ensures var r := FindTypeFrom(ts, name, preferredNamespace, i);
      && !r.Threw?
      && (r.NotFound? <==> forall j :: i <= j < |ts| ==> ts[j].name != name)
      && (r.Found? ==> ts[r.index].name == name && forall j :: i <= j < r.index ==> ts[j].name != name)
    decreases |ts| - i
  {
    if i < |ts| && ts[i].name != name {
      SkippedNamespaceFindsFirstName(ts, name, preferredNamespace, i + 1);
    }
  }

  class PrototypeCaches {
    /** The types of every loaded assembly. */
    const assemblies: seq<seq<TypeInfo>>
    /** Whether a serializer (given by its type) can be used for a type. */
    const canBeUsedFor: (TypeInfo, TypeInfo) -> bool
    /** The serializable type cache built for a type, or none. */
    const tryBuild: TypeInfo -> Option<CacheId>

    var serializers: Option<seq<TypeInfo>>
    var allTypes: Option<seq<TypeInfo>>
    var typeCache: map<TypeInfo, Option<CacheId>>
    /** How many times the assemblies were scanned for types. */
    var typeScans: nat
    /** Every type a type cache was built for, in order. */
    var builds: seq<TypeInfo>

    constructor (assemblies: seq<seq<TypeInfo>>, canBeUsedFor: (TypeInfo, TypeInfo) -> bool, tryBuild: TypeInfo -> Option<CacheId>)
      ensures this.assemblies == assemblies && this.canBeUsedFor == canBeUsedFor && this.tryBuild == tryBuild
      ensures serializers == None && allTypes == None && typeCache == map[]
      ensures typeScans == 0 && builds == []
      ensures Valid()
    {
      this.assemblies := assemblies;
      this.canBeUsedFor := canBeUsedFor;
      this.tryBuild := tryBuild;
      serializers := None;
      allTypes := None;
      typeCache := map[];
      typeScans := 0;
      builds := [];
    }

    /**
     * The caches agree with what they cache: the type list is the types of
     * all assemblies and was scanned at most once, the serializers are the
     * serializer types among them, every cached entry is what building
     * yields, and each cached type was built exactly once.
     */
    ghost predicate Valid()
      reads this
    {
      && (allTypes.Some? ==> allTypes.value == Flatten(assemblies))
      && typeScans == (if allTypes.Some? then 1 else 0)
      && (serializers.Some? ==> allTypes.Some? && serializers.value == SerializerTypes(Flatten(assemblies)))
      && (forall t :: t in typeCache ==> typeCache[t] == tryBuild(t))
      && (forall t :: t in typeCache <==> t in builds)
      && (forall i, j :: 0 <= i < j < |builds| ==> builds[i] != builds[j])
    }

    /** Fills the type list from the assemblies, the first time only. */
    method LazyAllTypesInit()
      requires Valid()
      modifies this`allTypes, this`typeScans
      ensures Valid()
      ensures allTypes == Some(Flatten(assemblies)) && typeScans == 1
    {
      if allTypes.None? {
        var types: seq<TypeInfo> := [];
        var a := 0;
        while a < |assemblies|
          invariant 0 <= a <= |assemblies|
          invariant types == Flatten(assemblies[..a])
        {
          var asm := assemblies[a];
          var i := 0;
          while i < |asm|
            invariant 0 <= i <= |asm|
            invariant types == Flatten(assemblies[..a]) + asm[..i]
          {
            types := types + [asm[i]];
            i := i + 1;
          }
          assert assemblies[..a + 1][..a] == assemblies[..a];
          assert asm[..i] == asm;
          a := a + 1;
        }
        assert assemblies[..a] == assemblies;
        allTypes := Some(types);
        typeScans := typeScans + 1;
      }
    }

    /** Makes the serializer list, the first time only: one serializer per serializer type, in type-list order. */
    method LazySerializersInit()
      requires Valid()
      modifies this`serializers, this`allTypes, this`typeScans
      ensures Valid()
      ensures allTypes == Some(Flatten(assemblies)) && typeScans == 1
      ensures serializers == Some(SerializerTypes(Flatten(assemblies)))
    {
      if serializers.None? {
        LazyAllTypesInit();
        var found := CollectSerializers(allTypes.value);
        serializers := Some(found);
      }
    }

    /** The scan of the type list for serializer types, in order. */
    method CollectSerializers(all: seq<TypeInfo>) returns (found: seq<TypeInfo>)
      ensures found == SerializerTypes(all)
    {
      found := [];
      var i := 0;
      while i < |all|
        invariant 0 <= i <= |all|
        invariant found == SerializerTypes(all[..i])
      {
        assert all[..i + 1][..i] == all[..i];
        if IsSerializerType(all[i]) {
          found := found + [all[i]];
        }
        i := i + 1;
      }
      assert all[..i] == all;
    }

    /** The search of the serializer list: the first one that accepts `target`, or none. */
    method FirstAccepting(ss: seq<TypeInfo>, target: TypeInfo) returns (r: Option<TypeInfo>)
      ensures r == BestSerializer(ss, canBeUsedFor, target)
    {
      var k := 0;
      while k < |ss|
        invariant 0 <= k <= |ss|
        invariant forall j :: 0 <= j < k ==> !canBeUsedFor(ss[j], target)
      {
        if canBeUsedFor(ss[k], target) {
          BestSerializerIsFirst(ss, canBeUsedFor, target, k);
          return Some(ss[k]);
        }
        k := k + 1;
      }
      r := None;
    }

    /**
     * The first serializer, in discovery order, that accepts `target`, or none.
     * The serializer list is made on the first call, from the type list.
     */
    method GetBestSerializerFor(target: TypeInfo) returns (r: Option<TypeInfo>)
      requires Valid()
      modifies this`serializers, this`allTypes, this`typeScans
      ensures Valid()
      ensures allTypes == Some(Flatten(assemblies)) && typeScans == 1
      ensures serializers == Some(SerializerTypes(Flatten(assemblies)))
      ensures r == BestSerializer(SerializerTypes(Flatten(assemblies)), canBeUsedFor, target)
    {
      LazySerializersInit();
      r := FirstAccepting(serializers.value, target);
    }

    /** The type cache for `target`: built and stored on the first request, read back afterwards, even when none. */
    method GetSerializableTypeCacheFor(target: TypeInfo) returns (cache: Option<CacheId>)
      requires Valid()
      modifies this`typeCache, this`builds
      ensures Valid()
      ensures cache == tryBuild(target)
      ensures typeCache == old(typeCache)[target := cache]
      ensures builds == old(builds) + (if target in old(typeCache) then [] else [target])
    {
      if target in typeCache {
        cache := typeCache[target];
      } else {
        cache := tryBuild(target);
        typeCache := typeCache[target := cache];
        builds := builds + [target];
      }
    }

    /**
     * The type cache for the first type named `writtenName` in the preferred
     * namespace (in any namespace when that is null or empty), or none;
     * `threw` when the search compares against a null namespace first.
     */
    method GetSerializableTypeCacheForName(writtenName: string, preferredNamespace: Option<string>)
      returns (cache: Option<CacheId>, threw: bool)
      requires Valid()
      modifies this`allTypes, this`typeScans, this`typeCache, this`builds
      ensures Valid()
      ensures allTypes == Some(Flatten(assemblies)) && typeScans == 1
      ensures var s := FindTypeFrom(Flatten(assemblies), writtenName, preferredNamespace, 0);
        && threw == s.Threw?
        && (s.Found? ==>
              var t := Flatten(assemblies)[s.index];
              cache == tryBuild(t) && typeCache == old(typeCache)[t := cache])
        && (!s.Found? ==> cache == None && typeCache == old(typeCache))
    {
      LazyAllTypesInit();
      var all := allTypes.value;
      var search := FindType(all, writtenName, preferredNamespace);
      match search
      case Found(i) =>
        cache := GetSerializableTypeCacheFor(all[i]);
        threw := false;
      case NotFound =>
        cache, threw := None, false;
      case Threw(_) =>
        cache, threw := None, true;
    }

    /** The scan of the type list for the first type with the written name, in the preferred namespace when one is given. */
    method FindType(all: seq<TypeInfo>, writtenName: string, preferredNamespace: Option<string>) returns (search: Search)
      ensures search == FindTypeFrom(all, writtenName, preferredNamespace, 0)
    {
      var i := 0;
      while i < |all|
        invariant 0 <= i <= |all|
        invariant forall j :: 0 <= j < i ==> TypeMatch(all[j], writtenName, preferredNamespace) == Some(false)
      {
        var m := TypeMatch(all[i], writtenName, preferredNamespace);
        if m.None? {
          return Threw(i);
        }
        if m.value {
          return Found(i);
        }
        i := i + 1;
      }
      return NotFound;
    }
  }

  /**
   * Memoisation: asking twice for the same type's cache yields the same
   * answer, built once, even when building yields none.
   */
  method RepeatedRequestBuildsOnce(assemblies: seq<seq<TypeInfo>>, canBeUsedFor: (TypeInfo, TypeInfo) -> bool,
                                   tryBuild: TypeInfo -> Option<CacheId>, target: TypeInfo)
    returns (first: Option<CacheId>, second: Option<CacheId>, builds: seq<TypeInfo>)
    ensures first == second == tryBuild(target)
    ensures builds == [target]
  {
    var caches := new PrototypeCaches(assemblies, canBeUsedFor, tryBuild);
    first := caches.GetSerializableTypeCacheFor(target);
    second := caches.GetSerializableTypeCacheFor(target);
    builds := caches.builds;
  }

  /** A prototype, as far as references see it: its identifier, possibly null. */
  datatype Prototype = Prototype(id: nat, identifier: Option<string>)

  /** Resolving a reference: the first prototype whose identifier equals the reference's, nulls equal. */
  function Resolve(prototypes: seq<Prototype>, identifier: Option<string>): (r: Option<Prototype>)
    ensures r.None? <==> forall j :: 0 <= j < |prototypes| ==> prototypes[j].identifier != identifier
    ensures r.Some? ==> r.value in prototypes && r.value.identifier == identifier
  {
    if prototypes == [] then None
    else if prototypes[0].identifier == identifier then Some(prototypes[0])
    else
      var r := Resolve(prototypes[1..], identifier);
      assert forall j :: 1 <= j < |prototypes| ==> prototypes[j] == prototypes[1..][j - 1];
      r
  }

  /** The resolved prototype is the first match: no earlier prototype has the identifier. */
  lemma {:induction false} ResolveIsFirst(prototypes: seq<Prototype>, identifier: Option<string>, k: nat)
    requires k < |prototypes| && prototypes[k].identifier == identifier
    requires forall j :: 0 <= j < k ==> prototypes[j].identifier != identifier
    ensures Resolve(prototypes, identifier) == Some(prototypes[k])
  {
    if k > 0 {
      ResolveIsFirst(prototypes[1..], identifier, k - 1);
    }
  }

  /** Resolving in a list made of two parts looks in the second part only when the first has no match. */
  lemma {:induction false} ResolveAppend(ps: seq<Prototype>, qs: seq<Prototype>, identifier: Option<string>)
    ensures Resolve(ps + qs, identifier) == if Resolve(ps, identifier).Some? then Resolve(ps, identifier) else Resolve(qs, identifier)
  {
    if ps != [] {
      assert (ps + qs)[1..] == ps[1..] + qs;
      ResolveAppend(ps[1..], qs, identifier);
    } else {
      assert ps + qs == qs;
    }
  }
}
