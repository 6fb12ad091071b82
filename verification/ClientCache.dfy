/** Which model client answers a turn: the client's own key, the caller's vaulted key, or the house. */
module ClientCache {
  import opened Text
  import Vault

  datatype Provider = Zai | Openrouter | Gemini | Fake
  datatype Client = House | Keyed(provider: Provider, model: string, raw: string)
  datatype Source = Byok | HouseKey

  /** Fixed for the life of the application; `builds` is whether a client can be constructed from a raw key. */
  datatype Settings = Settings(byokEnabled: bool, provider: Provider, model: string, digest: string -> string, builds: string -> bool)

  datatype Header = NoHeader | Header(text: string)
  /** What the vault says when it is asked for this caller's key. */
  datatype Leg = NoVault | Asked(fetched: Vault.Fetched)
  datatype Turn = Turn(header: Header, caller: string, leg: Leg)
  datatype Answer = Answer(client: Client, source: Source)

  function ProviderName(p: Provider): string {
    match p
    case Zai => "zai"
    case Openrouter => "openrouter"
    case Gemini => "gemini"
    case Fake => "fake"
  }

  function CacheKey(s: Settings, raw: string): string {
    s.digest(raw) + ":" + ProviderName(s.provider) + ":" + s.model
  }

  // ---- without a cache ---------------------------------------------------------------------------

  function HeaderKey(t: Turn): string {
    if t.header.Header? then Strip(t.header.text) else ""
  }

  /** The caller's vaulted key; a miss, a row that does not open and an absent vault are alike. */
  function VaultedKey(t: Turn): string {
    if t.caller != "" && t.leg.Asked? && t.leg.fetched.Key? then t.leg.fetched.raw else ""
  }

  /** The header's key if there is one, else the vaulted one. */
  function KeyInForce(t: Turn): string {
    if HeaderKey(t) != "" then HeaderKey(t) else VaultedKey(t)
  }

  predicate Usable(s: Settings, raw: string) {
    s.byokEnabled && s.provider != Fake && raw != "" && s.builds(raw)
  }

  /** The client of the key in force, or the house when that key is not usable. */
  function Direct(s: Settings, t: Turn): Answer {
    var raw := KeyInForce(t);
    if Usable(s, raw) then Answer(Keyed(s.provider, s.model, raw), Byok) else Answer(House, HouseKey)
  }

  // ---- with the cache ------------------------------------------------------------------------------

  type Cache = map<string, Client>

  class Resolver {
    const settings: Settings
    var cache: Cache

    constructor (settings: Settings)
      ensures this.settings == settings && cache == map[]
    {
      this.settings := settings;
      cache := map[];
    }

    method Resolve(t: Turn) returns (a: Answer)
      modifies this
      ensures (cache, a) == Cached(settings, old(cache), t)
    {
      var raw := HeaderKey(t);
      if !settings.byokEnabled {
        return Answer(House, HouseKey);
      }
      if raw == "" && t.caller != "" {
        if t.leg.Asked? {
          match t.leg.fetched
          case NoRow => raw := "";
          case Key(found) => raw := found;
          case Failed(_) => raw := "";
        }
      }
      if raw == "" || settings.provider == Fake {
        return Answer(House, HouseKey);
      }
      var key := CacheKey(settings, raw);
      if key in cache {
        return Answer(cache[key], Byok);
      }
      if !settings.builds(raw) {
        return Answer(House, HouseKey);
      }
      var client := Keyed(settings.provider, settings.model, raw);
      cache := cache[key := client];
      a := Answer(client, Byok);
    }
  }

  /** The cache after a turn and the turn's answer. */
  function Cached(s: Settings, cache: Cache, t: Turn): (Cache, Answer) {
    var raw := KeyInForce(t);
    if !s.byokEnabled || raw == "" || s.provider == Fake then (cache, Answer(House, HouseKey))
    else if CacheKey(s, raw) in cache then (cache, Answer(cache[CacheKey(s, raw)], Byok))
    else if !s.builds(raw) then (cache, Answer(House, HouseKey))
    else
      var client := Keyed(s.provider, s.model, raw);
      (cache[CacheKey(s, raw) := client], Answer(client, Byok))
  }

  function CacheAfter(s: Settings, turns: seq<Turn>): Cache {
    if turns == [] then map[] else Cached(s, CacheAfter(s, turns[..|turns| - 1]), turns[|turns| - 1]).0
  }

  lemma SameFront(a: string, b: string, tail: string)
    requires a + tail == b + tail
    ensures a == b
  {
    assert |a| == |b|;
    assert (a + tail)[..|a|] == a && (b + tail)[..|b|] == b;
  }

  lemma SameDigest(s: Settings, a: string, b: string)
    requires CacheKey(s, a) == CacheKey(s, b)
    ensures s.digest(a) == s.digest(b)
  {
    hide ProviderName;
    var name := ProviderName(s.provider);
    SameFront(s.digest(a) + ":" + name + ":", s.digest(b) + ":" + name + ":", s.model);
    SameFront(s.digest(a) + ":" + name, s.digest(b) + ":" + name, ":");
    SameFront(s.digest(a) + ":", s.digest(b) + ":", name);
    SameFront(s.digest(a), s.digest(b), ":");
  }

  /** The cached client is that of a usable key in force in some turn before. */
  predicate CameFrom(s: Settings, turns: seq<Turn>, k: string, client: Client) {
    exists i | 0 <= i < |turns| ::
      && Usable(s, KeyInForce(turns[i])) && k == CacheKey(s, KeyInForce(turns[i]))
      && client == Keyed(s.provider, s.model, KeyInForce(turns[i]))
  }

  lemma CameFromEarlier(s: Settings, turns: seq<Turn>, t: Turn, k: string, client: Client)
    requires CameFrom(s, turns, k, client)
    ensures CameFrom(s, turns + [t], k, client)
  {
    hide CacheKey, Usable, KeyInForce;
    var i :| 0 <= i < |turns| && Usable(s, KeyInForce(turns[i])) && k == CacheKey(s, KeyInForce(turns[i]))
             && client == Keyed(s.provider, s.model, KeyInForce(turns[i]));
    assert (turns + [t])[i] == turns[i];
  }

  lemma CameFromLast(s: Settings, turns: seq<Turn>, t: Turn)
    requires Usable(s, KeyInForce(t))
    ensures CameFrom(s, turns + [t], CacheKey(s, KeyInForce(t)), Keyed(s.provider, s.model, KeyInForce(t)))
  {
    hide CacheKey, Usable, KeyInForce;
    assert (turns + [t])[|turns|] == t;
  }

  lemma {:induction false} EntriesComeFromTurns(s: Settings, turns: seq<Turn>)
    ensures forall k :: k in CacheAfter(s, turns) ==> CameFrom(s, turns, k, CacheAfter(s, turns)[k])
  {
    hide CacheKey, CameFrom, KeyInForce;
    if turns != [] {
      var n := |turns| - 1;
      var t := turns[n];
      var before := CacheAfter(s, turns[..n]);
      EntriesComeFromTurns(s, turns[..n]);
      assert turns == turns[..n] + [t];
      forall k | k in CacheAfter(s, turns)
        ensures CameFrom(s, turns, k, CacheAfter(s, turns)[k])
      {
        if k in before && CacheAfter(s, turns)[k] == before[k] {
          CameFromEarlier(s, turns[..n], t, k, before[k]);
        } else {
          CameFromLast(s, turns[..n], t);
        }
      }
    }
  }

  /** An earlier turn had another usable key in force whose digest is that of this turn's key. */
  predicate Clashes(s: Settings, turns: seq<Turn>, t: Turn) {
    KeyInForce(t) != "" && exists i | 0 <= i < |turns| ::
      && Usable(s, KeyInForce(turns[i])) && KeyInForce(turns[i]) != KeyInForce(t)
      && s.digest(KeyInForce(turns[i])) == s.digest(KeyInForce(t))
  }

  /** Unless an earlier usable key clashes with this turn's, the turn gets exactly the client and the key source it
      would get with no cache at all. */
  lemma CachingIsInvisible(s: Settings, turns: seq<Turn>, t: Turn)
    requires !Clashes(s, turns, t)
    ensures Cached(s, CacheAfter(s, turns), t).1 == Direct(s, t)
  {
    hide CacheKey, CacheAfter, KeyInForce;
    var cache := CacheAfter(s, turns);
    EntriesComeFromTurns(s, turns);
    var k := CacheKey(s, KeyInForce(t));
    if k in cache {
      assert CameFrom(s, turns, k, cache[k]);
      var i :| 0 <= i < |turns| && Usable(s, KeyInForce(turns[i])) && k == CacheKey(s, KeyInForce(turns[i]))
               && cache[k] == Keyed(s.provider, s.model, KeyInForce(turns[i]));
      SameDigest(s, KeyInForce(turns[i]), KeyInForce(t));
    }
  }

  /** A turn whose key comes from the vault, so that any text can be in force. */
  function VaultTurn(raw: string): Turn {
    Turn(NoHeader, "caller", Asked(Vault.Key(raw)))
  }

  /** Two distinct keys with one digest, one of which builds, sent one after the other: the second caller gets the
      first caller's client, whether or not its own key builds. */
  lemma CollisionsShareClients(s: Settings, a: string, b: string)
    requires a != b && s.digest(a) == s.digest(b) && Usable(s, a) && b != ""
    ensures Cached(s, CacheAfter(s, [VaultTurn(a)]), VaultTurn(b)).1 == Answer(Keyed(s.provider, s.model, a), Byok)
    ensures Cached(s, CacheAfter(s, [VaultTurn(a)]), VaultTurn(b)).1 != Direct(s, VaultTurn(b))
  {
    assert KeyInForce(VaultTurn(a)) == a && KeyInForce(VaultTurn(b)) == b;
    assert CacheKey(s, a) == CacheKey(s, b);
    CacheAfterOne(s, VaultTurn(a));
  }

  lemma CacheAfterOne(s: Settings, t: Turn)
    ensures CacheAfter(s, [t]) == Cached(s, map[], t).0
  {
    assert [t][..0] == [];
    assert CacheAfter(s, []) == map[];
  }

  /** No turn of any run is answered otherwise than without a cache. */
  ghost predicate InvisibleAlways(s: Settings) {
    forall turns, t :: Cached(s, CacheAfter(s, turns), t).1 == Direct(s, t)
  }

  /** Two distinct keys that share a digest, one of which builds. */
  predicate Collide(s: Settings, a: string, b: string) {
    a != b && a != "" && b != "" && s.digest(a) == s.digest(b) && s.builds(a)
  }

  /** With the client's own keys enabled and a hosted provider, caching is invisible in every run if and only if no two
      distinct keys share a digest when one of them builds. */
  lemma InvisibleExactlyWithoutCollisions(s: Settings)
    requires s.byokEnabled && s.provider != Fake
    ensures InvisibleAlways(s) <==> forall a, b :: !Collide(s, a, b)
  {
    hide Cached, CacheAfter, Direct;
    if forall a, b :: !Collide(s, a, b) {
      forall turns, t
        ensures Cached(s, CacheAfter(s, turns), t).1 == Direct(s, t)
      {
        NoClash(s, turns, t);
      }
    } else {
      var a, b :| Collide(s, a, b);
      CollisionsShareClients(s, a, b);
    }
  }

  lemma ClashIsACollision(s: Settings, turns: seq<Turn>, t: Turn)
    requires Clashes(s, turns, t)
    ensures exists a, b :: Collide(s, a, b)
  {
    hide KeyInForce;
    var i :| 0 <= i < |turns| && Usable(s, KeyInForce(turns[i])) && KeyInForce(turns[i]) != KeyInForce(t)
             && s.digest(KeyInForce(turns[i])) == s.digest(KeyInForce(t));
    assert Collide(s, KeyInForce(turns[i]), KeyInForce(t));
  }

  lemma NoClash(s: Settings, turns: seq<Turn>, t: Turn)
    requires forall a, b :: !Collide(s, a, b)
    ensures Cached(s, CacheAfter(s, turns), t).1 == Direct(s, t)
  {
    hide CacheAfter, KeyInForce, Clashes;
    if Clashes(s, turns, t) {
      ClashIsACollision(s, turns, t);
      assert false;
    }
    CachingIsInvisible(s, turns, t);
  }

  /** The source is the client's own key exactly when the key in force is usable; a key in the header is in force
      whatever the vault holds; and a key that does not build leaves the cache as it was, in every state. */
  lemma KeySourceIsExact(s: Settings, turns: seq<Turn>, t: Turn, leg: Leg)
    ensures var cache := CacheAfter(s, turns);
            && (!Clashes(s, turns, t) ==> (Cached(s, cache, t).1.source == Byok <==> Usable(s, KeyInForce(t))))
            && (HeaderKey(t) != "" ==> Cached(s, cache, t) == Cached(s, cache, t.(leg := leg)))
            && (!s.builds(KeyInForce(t)) ==> Cached(s, cache, t).0 == cache)
            && (t.header == NoHeader && t.leg == NoVault ==> Cached(s, cache, t) == (cache, Answer(House, HouseKey)))
  {
    if !Clashes(s, turns, t) {
      CachingIsInvisible(s, turns, t);
    }
  }

  /** Cache and vault together, over every run of vault writes and turns: the answer is the client of the header's key,
      else of the key the caller last put in the vault and did not remove, else the house. */
  lemma TheLatestKeyAnswers(s: Settings, env: Vault.Env, ops: seq<Vault.Op>, turns: seq<Turn>, header: Header, caller: string)
    requires Vault.Opens(env.cipher) && Vault.ProperNonces(ops)
    ensures var name := match s.provider case Zai => "zai" case Openrouter => "openrouter" case Gemini => "gemini" case Fake => "fake";
            var slot := Vault.Slot(s.digest(caller), name);
            var t := Turn(header, caller, Asked(Vault.Fetch(env, Vault.RunOps(env, ops), slot)));
            var latest := Vault.Latest(ops, slot);
            var key := if header.Header? && Strip(header.text) != "" then Strip(header.text)
                       else if caller != "" && latest.Key? then latest.raw else "";
            !Clashes(s, turns, t) ==>
              Cached(s, CacheAfter(s, turns), t).1
              == if s.byokEnabled && s.provider != Fake && key != "" && s.builds(key) then Answer(Keyed(s.provider, s.model, key), Byok)
                 else Answer(House, HouseKey)
  {
    hide Cached, CacheAfter, Clashes, Vault.Opens, Vault.RunOps, Vault.Latest, Vault.Fetch;
    var slot := Vault.Slot(s.digest(caller), ProviderName(s.provider));
    var t := Turn(header, caller, Asked(Vault.Fetch(env, Vault.RunOps(env, ops), slot)));
    Vault.FetchReturnsTheLatest(env, ops, slot);
    if !Clashes(s, turns, t) {
      CachingIsInvisible(s, turns, t);
    }
  }
}
