/** Splitting the legacy vault into provider keyring and skill keychain (crates/orion-core/src/vault_migration.rs).
    The legacy entries come in the iteration order of a hash map, which is arbitrary. */
module VaultSplit {
  import opened Text

  type Secrets = map<string, string>

  const PREFIX: string := "provider:"
  const KNOWN_LLM_PROVIDERS: set<string> := {"openai", "anthropic", "perplexity", "xai", "google"}

  datatype Stores = Stores(keyring: Secrets, keychain: Secrets)

  /** Each key of the vault once, in some order. */
  ghost predicate Enumerates(order: seq<string>, legacy: Secrets) {
    (forall k :: k in order <==> k in legacy) && forall i, j :: 0 <= i < j < |order| ==> order[i] != order[j]
  }

  /** Where an entry goes in the keyring, if anywhere. */
  function RingName(k: string): Option<string> {
    if StartsWith(k, PREFIX) && k[|PREFIX|..] in KNOWN_LLM_PROVIDERS then Some(k[|PREFIX|..]) else None
  }

  /** Where it goes in the keychain: everything does but LLM keys, and perplexity does although it is one. */
  function ChainName(k: string): Option<string> {
    if !StartsWith(k, PREFIX) then Some(k)
    else if k[|PREFIX|..] in KNOWN_LLM_PROVIDERS - {"perplexity"} then None
    else Some(k[|PREFIX|..])
  }

  function Put(m: Secrets, name: Option<string>, value: string): Secrets {
    if name.Some? then m[name.value := value] else m
  }

  function SplitBy(order: seq<string>, legacy: Secrets): Stores
    requires forall k :: k in order ==> k in legacy
  {
    if order == [] then Stores(map[], map[])
    else
      var k := order[|order| - 1];
      var s := SplitBy(order[..|order| - 1], legacy);
      Stores(Put(s.keyring, RingName(k), legacy[k]), Put(s.keychain, ChainName(k), legacy[k]))
  }

  method SplitVault(order: seq<string>, legacy: Secrets) returns (keyring: Secrets, keychain: Secrets)
    requires Enumerates(order, legacy)
    ensures Stores(keyring, keychain) == SplitBy(order, legacy)
  {
    keyring, keychain := map[], map[];
    for i := 0 to |order|
      invariant Stores(keyring, keychain) == SplitBy(order[..i], legacy)
    {
      var key := order[i];
      assert key in order && order[..i + 1][..i] == order[..i];
      var value := legacy[key];
      if StartsWith(key, PREFIX) {
        var provider := key[|PREFIX|..];
        if provider == "tavily" {
          keychain := keychain["tavily" := value];
        } else if provider in KNOWN_LLM_PROVIDERS {
          keyring := keyring[provider := value];
          if provider == "perplexity" {
            keychain := keychain["perplexity" := value];
          }
        } else {
          keychain := keychain[provider := value];
        }
      } else {
        keychain := keychain[key := value];
      }
    }
    assert order[..|order|] == order;
  }

  /** Two entries fall together in the keychain with different values. */
  predicate Clash(legacy: Secrets, a: string, b: string) {
    a in legacy && b in legacy && ChainName(a).Some? && ChainName(a) == ChainName(b) && legacy[a] != legacy[b]
  }

  ghost predicate NoClash(legacy: Secrets) {
    forall a, b :: !Clash(legacy, a, b)
  }

  /** Only a "provider:x" entry and a bare "x" entry can clash. */
  lemma ClashIsBareAndPrefixed(legacy: Secrets, a: string, b: string)
    requires Clash(legacy, a, b)
    ensures a == PREFIX + b || b == PREFIX + a
  {
    if StartsWith(a, PREFIX) { assert a == PREFIX + a[|PREFIX|..]; }
    if StartsWith(b, PREFIX) { assert b == PREFIX + b[|PREFIX|..]; }
  }

  /** What every split has, clash or not: the keyring holds exactly the known providers' keys, and the last
      entry of a keychain name wins. */
  lemma {:induction false} SplitFacts(order: seq<string>, legacy: Secrets)
    requires (forall k :: k in order ==> k in legacy) && forall i, j :: 0 <= i < j < |order| ==> order[i] != order[j]
    ensures forall k :: k in order && RingName(k).Some? ==>
      RingName(k).value in SplitBy(order, legacy).keyring
        && SplitBy(order, legacy).keyring[RingName(k).value] == legacy[k]
    ensures forall x :: x in SplitBy(order, legacy).keyring ==> PREFIX + x in order && RingName(PREFIX + x) == Some(x)
    ensures forall k :: k in order && ChainName(k).Some? ==> ChainName(k).value in SplitBy(order, legacy).keychain
    ensures forall x :: x in SplitBy(order, legacy).keychain ==>
      exists k :: k in order && ChainName(k) == Some(x) && SplitBy(order, legacy).keychain[x] == legacy[k]
  {
    if order != [] {
      var before, k := order[..|order| - 1], order[|order| - 1];
      assert order == before + [k];
      SplitFacts(before, legacy);
      var s, s' := SplitBy(before, legacy), SplitBy(order, legacy);
      if RingName(k).Some? {
        RingInjective(k, before);
      }
      forall x | x in s'.keychain
        ensures exists j :: j in order && ChainName(j) == Some(x) && s'.keychain[x] == legacy[j]
      {
        if ChainName(k) == Some(x) {
          assert k in order && s'.keychain[x] == legacy[k];
        } else {
          var j :| j in before && ChainName(j) == Some(x) && s.keychain[x] == legacy[j];
          assert j in order && s'.keychain[x] == legacy[j];
        }
      }
    }
  }

  lemma RingInjective(k: string, others: seq<string>)
    requires RingName(k).Some? && k !in others
    ensures k == PREFIX + RingName(k).value
    ensures forall j :: j in others ==> RingName(j) != RingName(k)
  {
    assert k == PREFIX + k[|PREFIX|..];
    forall j | j in others ensures RingName(j) != RingName(k) {
      if RingName(j).Some? { assert j == PREFIX + j[|PREFIX|..]; }
    }
  }

  /** Without a clash no value is lost: every entry is found under its name in each store it belongs to. */
  lemma NothingLost(order: seq<string>, legacy: Secrets, k: string)
    requires Enumerates(order, legacy) && NoClash(legacy) && k in legacy
    ensures var s := SplitBy(order, legacy);
      (RingName(k).Some? || ChainName(k).Some?)
      && (RingName(k).Some? ==> RingName(k).value in s.keyring && s.keyring[RingName(k).value] == legacy[k])
      && (ChainName(k).Some? ==> ChainName(k).value in s.keychain && s.keychain[ChainName(k).value] == legacy[k])
  {
    SplitFacts(order, legacy);
    if ChainName(k).Some? {
      var x := ChainName(k).value;
      var j :| j in order && ChainName(j) == Some(x) && SplitBy(order, legacy).keychain[x] == legacy[j];
      assert !Clash(legacy, j, k);
    }
  }

  lemma SameSplit(o: seq<string>, o': seq<string>, legacy: Secrets)
    requires Enumerates(o, legacy) && Enumerates(o', legacy) && NoClash(legacy)
    ensures SplitBy(o, legacy) == SplitBy(o', legacy)
  {
    KeychainWithin(o, o', legacy);
    KeychainWithin(o', o, legacy);
    KeyringWithin(o, o', legacy);
    KeyringWithin(o', o, legacy);
  }

  lemma KeychainWithin(o: seq<string>, o': seq<string>, legacy: Secrets)
    requires Enumerates(o, legacy) && Enumerates(o', legacy) && NoClash(legacy)
    ensures var a, b := SplitBy(o, legacy).keychain, SplitBy(o', legacy).keychain;
      forall x :: x in a ==> x in b && a[x] == b[x]
  {
    var a, b := SplitBy(o, legacy).keychain, SplitBy(o', legacy).keychain;
    SplitFacts(o, legacy);
    forall x | x in a ensures x in b && a[x] == b[x] {
      var k :| k in o && ChainName(k) == Some(x) && a[x] == legacy[k];
      NothingLost(o', legacy, k);
    }
  }

  lemma KeyringWithin(o: seq<string>, o': seq<string>, legacy: Secrets)
    requires Enumerates(o, legacy) && Enumerates(o', legacy) && NoClash(legacy)
    ensures var a, b := SplitBy(o, legacy).keyring, SplitBy(o', legacy).keyring;
      forall x :: x in a ==> x in b && a[x] == b[x]
  {
    var a, b := SplitBy(o, legacy).keyring, SplitBy(o', legacy).keyring;
    SplitFacts(o, legacy);
    SplitFacts(o', legacy);
    forall x | x in a ensures x in b && a[x] == b[x] {
      var k := PREFIX + x;
      assert k in o && RingName(k) == Some(x);
    }
  }

  /** The order with one key moved to its end. */
  function MoveToEnd(order: seq<string>, k: string): seq<string> {
    Without(order, k) + [k]
  }

  function Without(order: seq<string>, k: string): seq<string> {
    if order == [] then []
    else Without(order[..|order| - 1], k) + (if order[|order| - 1] == k then [] else [order[|order| - 1]])
  }

  lemma {:induction false} WithoutFacts(order: seq<string>, k: string)
    requires forall i, j :: 0 <= i < j < |order| ==> order[i] != order[j]
    ensures forall x :: x in Without(order, k) <==> x in order && x != k
    ensures forall i, j :: 0 <= i < j < |Without(order, k)| ==> Without(order, k)[i] != Without(order, k)[j]
  {
    if order != [] {
      var before, last := order[..|order| - 1], order[|order| - 1];
      assert order == before + [last];
      WithoutFacts(before, k);
      var w := Without(before, k);
      forall i | 0 <= i < |w| ensures w[i] != last {
        assert w[i] in w;
      }
    }
  }

  lemma LastWins(order: seq<string>, legacy: Secrets, k: string)
    requires Enumerates(order, legacy) && k in legacy && ChainName(k).Some?
    ensures Enumerates(MoveToEnd(order, k), legacy)
    ensures var s := SplitBy(MoveToEnd(order, k), legacy);
      ChainName(k).value in s.keychain && s.keychain[ChainName(k).value] == legacy[k]
  {
    WithoutFacts(order, k);
    var moved := MoveToEnd(order, k);
    assert moved[..|moved| - 1] == Without(order, k);
    forall i, j | 0 <= i < j < |moved| ensures moved[i] != moved[j] {
      if j == |moved| - 1 { assert Without(order, k)[i] in Without(order, k); }
    }
  }

  /** The two stores are the same for every iteration order exactly when no "provider:x" bound for the
      keychain coexists with a bare "x" of another value. */
  lemma OrderIrrelevantIffNoClash(order: seq<string>, legacy: Secrets)
    requires Enumerates(order, legacy)
    ensures (forall o, o' :: Enumerates(o, legacy) && Enumerates(o', legacy) ==>
      SplitBy(o, legacy) == SplitBy(o', legacy))
       <==> NoClash(legacy)
  {
    if NoClash(legacy) {
      forall o, o' | Enumerates(o, legacy) && Enumerates(o', legacy) ensures SplitBy(o, legacy) == SplitBy(o', legacy) {
        SameSplit(o, o', legacy);
      }
    } else {
      var a, b :| Clash(legacy, a, b);
      LastWins(order, legacy, a);
      LastWins(order, legacy, b);
    }
  }

  /** It does happen: a skill key kept under both names. Which of the two values survives depends on the order. */
  lemma ClashLosesEither(x: string, bare: string, prefixed: string)
    requires x !in KNOWN_LLM_PROVIDERS && !StartsWith(x, PREFIX) && bare != prefixed
    ensures var legacy := map[x := bare, PREFIX + x := prefixed];
      Clash(legacy, x, PREFIX + x)
      && Enumerates([x, PREFIX + x], legacy) && Enumerates([PREFIX + x, x], legacy)
      && SplitBy([x, PREFIX + x], legacy) == Stores(map[], map[x := prefixed])
      && SplitBy([PREFIX + x, x], legacy) == Stores(map[], map[x := bare])
  {
    var legacy := map[x := bare, PREFIX + x := prefixed];
    AtLeft(PREFIX, x, PREFIX, 0);
    assert (PREFIX + x)[|PREFIX|..] == x;
    SplitOfTwo(x, PREFIX + x, legacy);
    SplitOfTwo(PREFIX + x, x, legacy);
  }

  lemma SplitOfTwo(a: string, b: string, legacy: Secrets)
    requires a in legacy && b in legacy
    ensures SplitBy([a, b], legacy)
         == Stores(Put(Put(map[], RingName(a), legacy[a]), RingName(b), legacy[b]),
                   Put(Put(map[], ChainName(a), legacy[a]), ChainName(b), legacy[b]))
  {
    assert [a, b][..1] == [a] && [a][..0] == [];
    assert SplitBy([a], legacy) == Stores(Put(map[], RingName(a), legacy[a]), Put(map[], ChainName(a), legacy[a]));
  }

  /** LLM keys land in the keyring only, perplexity in both stores, keys of other providers in the keychain under their
      bare name, and bare entries in the keychain as they are. */
  lemma Destinations(provider: string)
    ensures provider in KNOWN_LLM_PROVIDERS ==>
      RingName(PREFIX + provider) == Some(provider)
      && ChainName(PREFIX + provider) == if provider == "perplexity" then Some("perplexity") else None
    ensures provider !in KNOWN_LLM_PROVIDERS ==>
      RingName(PREFIX + provider) == None && ChainName(PREFIX + provider) == Some(provider)
    ensures !StartsWith(provider, PREFIX) ==> RingName(provider) == None && ChainName(provider) == Some(provider)
  {
    assert (PREFIX + provider)[|PREFIX|..] == provider;
    AtLeft(PREFIX, provider, PREFIX, 0);
  }
}
