/**
 * The debris manager (DebrisManager.cs): per-tag configuration of debris
 * particle and bullet decal prefabs, loaded once, and the choice of which
 * prefabs to spawn for a hit. Spawning itself (pooling, placement, scale)
 * is not modelled; the chosen prefabs are returned in spawn order.
 */
module Debris {
  import opened Types

  type PrefabId = nat

  /** The flags of a debris spawn request. */
  const DebrisParticles: bv32 := 1
  const BulletDecal: bv32 := 2

  datatype ConfigEntry = ConfigEntry(tag: string, debris: seq<PrefabId>, bulletDecal: seq<PrefabId>)

  /** The dictionary after adding the entries one by one, each under its tag. */
  function AddAll(m: map<string, ConfigEntry>, cs: seq<ConfigEntry>): (r: map<string, ConfigEntry>)
    ensures r.Keys == m.Keys + set c | c in cs :: c.tag
    decreases |cs|
  {
    if cs == [] then m
    else
      var init := cs[..|cs| - 1];
      assert forall c :: c in cs <==> c in init || c == cs[|cs| - 1];
      AddAll(m, init)[cs[|cs| - 1].tag := cs[|cs| - 1]]
  }

  /** No entry repeats a tag that is already present or that an earlier entry used. */
  predicate Distinct(keys: set<string>, cs: seq<ConfigEntry>)
  {
    forall i :: 0 <= i < |cs| ==> cs[i].tag !in keys && forall j :: 0 <= j < i ==> cs[j].tag != cs[i].tag
  }

  /** With distinct tags, every entry is found under its own tag. */
  lemma {:induction false} AddAllFinds(m: map<string, ConfigEntry>, cs: seq<ConfigEntry>, i: nat)
    requires Distinct(m.Keys, cs) && i < |cs|
    ensures cs[i].tag in AddAll(m, cs) && AddAll(m, cs)[cs[i].tag] == cs[i]
    decreases |cs|
  {
    var last := |cs| - 1;
    if i < last {
      var init := cs[..last];
      assert Distinct(m.Keys, init);
      AddAllFinds(m, init, i);
      assert cs[i].tag != cs[last].tag;
    }
  }

  /** A tag is among the keys after adding exactly when it was a key before or some entry has it. */
  lemma ClashWitness(m: map<string, ConfigEntry>, cs: seq<ConfigEntry>, tag: string)
    ensures tag in AddAll(m, cs) <==> tag in m || exists j :: 0 <= j < |cs| && cs[j].tag == tag
  {
    if tag in AddAll(m, cs) && tag !in m {
      var c :| c in cs && c.tag == tag;
      var j :| 0 <= j < |cs| && cs[j] == c;
    }
  }

  /** An entry whose tag is new keeps the tags distinct. */
  lemma DistinctExtend(keys: set<string>, cs: seq<ConfigEntry>, c: ConfigEntry)
    requires Distinct(keys, cs) && c.tag !in keys
    requires forall j :: 0 <= j < |cs| ==> cs[j].tag != c.tag
    ensures Distinct(keys, cs + [c])
  {
  }

  class DebrisManager {
    var configs: map<string, ConfigEntry>
    /** Whether the manager registered itself as the singleton instance. */
    var registered: bool

    constructor ()
      ensures configs == map[] && !registered
    {
      configs := map[];
      registered := false;
    }

    /**
     * Awake: the entries are added under their tags in order. Adding a tag
     * that is already present throws, which ends Awake at that entry: the
     * earlier entries stay and the manager is not registered.
     */
    method Awake(config: seq<ConfigEntry>) returns (failedAt: Option<nat>)
      modifies this
      ensures failedAt.None? ==>
        Distinct(old(configs).Keys, config) && configs == AddAll(old(configs), config) && registered
      ensures failedAt.Some? ==>
        var i := failedAt.value;
        && i < |config|
        && Distinct(old(configs).Keys, config[..i])
        && (config[i].tag in old(configs) || exists j :: 0 <= j < i && config[j].tag == config[i].tag)
        && configs == AddAll(old(configs), config[..i])
        && registered == old(registered)
    {
      var i := 0;
      while i < |config|
        invariant 0 <= i <= |config|
        invariant Distinct(old(configs).Keys, config[..i])
        invariant configs == AddAll(old(configs), config[..i])
        invariant registered == old(registered)
      {
        var c := config[i];
        if c.tag in configs {
          ClashWitness(old(configs), config[..i], c.tag);
          failedAt := Some(i);
          return;
        }
        ClashWitness(old(configs), config[..i], c.tag);
        assert config[..i + 1] == config[..i] + [c];
        DistinctExtend(old(configs).Keys, config[..i], c);
        configs := configs[c.tag := c];
        i := i + 1;
      }
      assert config[..i] == config;
      registered := true;
      failedAt := None;
    }

    /**
     * The choice of prefabs for a hit on an object tagged `tag`: nothing and
     * failure without a configuration for the tag; otherwise one random
     * debris prefab when requested and configured, then one random bullet
     * decal when requested and configured.
     */
    method TrySpawnDebris(tag: string, debrisSpawn: bv32) returns (found: bool, prefabs: seq<PrefabId>)
      ensures found == (tag in configs)
      ensures !found ==> prefabs == []
      ensures found ==>
        var ce := configs[tag];
        var particles := debrisSpawn & DebrisParticles != 0 && |ce.debris| > 0;
        var decal := debrisSpawn & BulletDecal != 0 && |ce.bulletDecal| > 0;
        && |prefabs| == (if particles then 1 else 0) + (if decal then 1 else 0)
        && (particles ==> prefabs[0] in ce.debris)
        && (decal ==> prefabs[|prefabs| - 1] in ce.bulletDecal)
    {
      if tag in configs {
        var ce := configs[tag];
        prefabs := [];
        if debrisSpawn & DebrisParticles != 0 && |ce.debris| > 0 {
          assert ce.debris[0] in ce.debris;
          var p :| p in ce.debris;
          prefabs := prefabs + [p];
        }
        if debrisSpawn & BulletDecal != 0 && |ce.bulletDecal| > 0 {
          assert ce.bulletDecal[0] in ce.bulletDecal;
          var p :| p in ce.bulletDecal;
          prefabs := prefabs + [p];
        }
        found := true;
      } else {
        found := false;
        prefabs := [];
      }
    }
  }
}
