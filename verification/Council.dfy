/** Choosing the council's providers (crates/orion-api/src/agentic.rs and, identically,
    crates/orion-api/src/main.rs), over a keyring and whatever order it lists its names in. */
module Council {
  import opened Text

  type KeyMap = map<string, string>

  const SUPPORTED: set<string> := {"openai", "anthropic", "perplexity", "xai", "google"}
  const PREFERRED: seq<string> := ["anthropic", "openai", "google", "xai", "perplexity"]
  const COUNCIL_SIZE: nat := 3

  function NormalizeProviderName(provider: string): string {
    match Lower(Trim(provider))
    case "pplx" => "perplexity"
    case "grok" => "xai"
    case "gemini" => "google"
    case other => other
  }

  datatype Member = Member(name: string, key: string)

  /** The distinct supported providers the keyring holds a key for, under any alias. */
  ghost function Held(keyring: KeyMap): set<string> {
    set p | p in keyring && NormalizeProviderName(p) in SUPPORTED :: NormalizeProviderName(p)
  }

  /** The names a listing of the keyring may come in. */
  ghost predicate Lists(order: seq<string>, keyring: KeyMap) {
    forall p :: p in order <==> p in keyring
  }

  predicate Has(members: seq<Member>, name: string) {
    exists i :: 0 <= i < |members| && members[i].name == name
  }

  ghost function Names(members: seq<Member>): set<string> {
    set i | 0 <= i < |members| :: members[i].name
  }

  /** A council in the making: distinct held names, each with a key the keyring has for it. */
  ghost predicate Sound(members: seq<Member>, keyring: KeyMap) {
    |members| <= COUNCIL_SIZE
    && (forall i, j :: 0 <= i < j < |members| ==> members[i].name != members[j].name)
    && (forall i :: 0 <= i < |members| ==> HeldAs(members[i], keyring))
  }

  ghost predicate HeldAs(m: Member, keyring: KeyMap) {
    m.name in SUPPORTED && exists p :: p in keyring && NormalizeProviderName(p) == m.name && keyring[p] == m.key
  }

  ghost predicate UsablePreference(keyring: KeyMap, preference: Option<string>) {
    preference.Some?
    && NormalizeProviderName(preference.value) in SUPPORTED && NormalizeProviderName(preference.value) in keyring
  }

  method ResolveCouncilProviders(keyring: KeyMap, order: seq<string>, preference: Option<string>)
    returns (result: seq<Member>)
    requires Lists(order, keyring)
    ensures Sound(result, keyring)
    ensures |result| == if |Held(keyring)| < COUNCIL_SIZE then |Held(keyring)| else COUNCIL_SIZE
    ensures UsablePreference(keyring, preference) ==>
      var name := NormalizeProviderName(preference.value);
      result != [] && result[0] == Member(name, keyring[name])
    ensures
      var first := if UsablePreference(keyring, preference)
                   then [Member(NormalizeProviderName(preference.value),
                     keyring[NormalizeProviderName(preference.value)])]
                   else [];
      PreferredFrom(first, PREFERRED, keyring) <= result
      && forall i :: 0 <= i < |PREFERRED| && PREFERRED[i] in keyring && !Has(first, PREFERRED[i]) ==>
           var at := |first| + HeldBefore(first, PREFERRED, keyring, i);
           at < COUNCIL_SIZE ==> at < |result| && result[at] == Member(PREFERRED[i], keyring[PREFERRED[i]])
  {
    hide Held, NormalizeProviderName, PreferredFrom, HeldBefore, Has;
    result := FromPreference(keyring, preference);
    PreferredInOrder(result, keyring);
    result := AddPreferred(result, keyring);
    if |result| < COUNCIL_SIZE {
      result := AddListed(result, keyring, order);
    }
    if |result| < COUNCIL_SIZE {
      AllHeldIn(result, order, keyring);
    }
    NamesCount(result, keyring);
  }

  /** The names of the table that the keyring has, in table order, as far as there is room. */
  function PreferredFrom(members: seq<Member>, names: seq<string>, keyring: KeyMap): seq<Member>
    decreases |names|
  {
    if names == [] || |members| >= COUNCIL_SIZE then members
    else if Has(members, names[0]) || names[0] !in keyring then PreferredFrom(members, names[1..], keyring)
    else PreferredFrom(members + [Member(names[0], keyring[names[0]])], names[1..], keyring)
  }

  /** The preference first, if it is supported and its key is stored under the canonical name. */
  method FromPreference(keyring: KeyMap, preference: Option<string>) returns (result: seq<Member>)
    ensures result == if UsablePreference(keyring, preference)
      then [Member(NormalizeProviderName(preference.value), keyring[NormalizeProviderName(preference.value)])] else []
    ensures Sound(result, keyring)
  {
    hide NormalizeProviderName;
    result := [];
    if preference.Some? {
      var normalized := NormalizeProviderName(preference.value);
      LowerTrimAgain(preference.value);
      if NormalizeProviderName(normalized) in SUPPORTED && normalized in keyring {
        assert HeldAs(Member(normalized, keyring[normalized]), keyring);
        result := [Member(normalized, keyring[normalized])];
      }
    }
  }

  method AddPreferred(members: seq<Member>, keyring: KeyMap) returns (result: seq<Member>)
    requires Sound(members, keyring) && |members| <= 1
    ensures Sound(result, keyring) && result == PreferredFrom(members, PREFERRED, keyring) && members <= result
  {
    hide NormalizeProviderName;
    result := members;
    for i := 0 to |PREFERRED|
      invariant Sound(result, keyring) && members <= result && |result| < COUNCIL_SIZE
      invariant PreferredFrom(result, PREFERRED[i..], keyring) == PreferredFrom(members, PREFERRED, keyring)
    {
      assert PREFERRED[i..][1..] == PREFERRED[i + 1..];
      var p := PREFERRED[i];
      if !Has(result, p) && p in keyring {
        CanonicalIsFixed(p);
        assert HeldAs(Member(p, keyring[p]), keyring);
        result := Extend(result, Member(p, keyring[p]), keyring);
        if |result| >= COUNCIL_SIZE {
          break;
        }
      }
    }
  }

  method AddListed(members: seq<Member>, keyring: KeyMap, order: seq<string>) returns (result: seq<Member>)
    requires Lists(order, keyring) && Sound(members, keyring) && |members| < COUNCIL_SIZE
    ensures Sound(result, keyring) && members <= result
    ensures |result| < COUNCIL_SIZE ==>
      forall k :: 0 <= k < |order| && NormalizeProviderName(order[k]) in SUPPORTED ==>
        Has(result, NormalizeProviderName(order[k]))
    ensures forall n :: Has(members, n) ==> Has(result, n)
  {
    hide NormalizeProviderName;
    result := members;
    for i := 0 to |order|
      invariant Sound(result, keyring) && members <= result && |result| < COUNCIL_SIZE
      invariant forall k :: 0 <= k < i && NormalizeProviderName(order[k]) in SUPPORTED ==>
        Has(result, NormalizeProviderName(order[k]))
      invariant forall n :: Has(members, n) ==> Has(result, n)
    {
      var p := order[i];
      assert p in order;
      var normalized := NormalizeProviderName(p);
      LowerTrimAgain(p);
      if NormalizeProviderName(normalized) in SUPPORTED && !Has(result, normalized) {
        assert HeldAs(Member(normalized, keyring[p]), keyring);
        result := Extend(result, Member(normalized, keyring[p]), keyring);
        if |result| >= COUNCIL_SIZE {
          break;
        }
      }
    }
  }

  method Extend(members: seq<Member>, m: Member, keyring: KeyMap) returns (r: seq<Member>)
    requires Sound(members, keyring) && |members| < COUNCIL_SIZE && !Has(members, m.name) && HeldAs(m, keyring)
    ensures r == members + [m] && Sound(r, keyring)
    ensures Has(r, m.name) && forall n :: Has(members, n) ==> Has(r, n)
  {
    r := members + [m];
    assert r[|members|] == m;
    forall n | Has(members, n) ensures Has(r, n) {
      var i :| 0 <= i < |members| && members[i].name == n;
      assert r[i].name == n;
    }
  }

  lemma Plain(s: string)
    requires forall i :: 0 <= i < |s| ==> 'a' <= s[i] <= 'z'
    ensures Lower(Trim(s)) == s
  {
    assert Lower(s) == s;
  }

  /** Canonical names are their own normal form. */
  lemma CanonicalIsFixed(name: string)
    ensures name in SUPPORTED ==> NormalizeProviderName(name) == name
  {
    hide Lower, Trim;
    if name == "openai" {
      Plain("openai");
    } else if name == "anthropic" {
      Plain("anthropic");
    } else if name == "perplexity" {
      Plain("perplexity");
    } else if name == "xai" {
      Plain("xai");
    } else if name == "google" {
      Plain("google");
    }
  }

  /** Lower-casing a trimmed name leaves nothing to lower or trim, so aliases do not chain. */
  lemma LowerTrimAgain(p: string)
    ensures NormalizeProviderName(NormalizeProviderName(p)) == NormalizeProviderName(p)
  {
    var t := Lower(Trim(p));
    LowerAgain(p);
    CanonicalIsFixed(NormalizeProviderName(p));
    hide Lower, Trim;
  }

  lemma LowerAgain(p: string)
    ensures Lower(Trim(Lower(Trim(p)))) == Lower(Trim(p))
  {
    hide Trim;
    TrimIdempotent(p);
    LowerTrimmed(Trim(p));
    assert Lower(Lower(Trim(p))) == Lower(Trim(p));
  }

  lemma LowerTrimmed(s: string)
    requires IsTrimmed(s)
    ensures Trim(Lower(s)) == Lower(s)
  {
  }

  /** The aliases, under any case and any white space around them; every other name is its own. */
  lemma AliasesAreNormalized(name: string)
    ensures var low := Lower(Trim(name));
      NormalizeProviderName(name) == if low == "pplx" then "perplexity" else if low == "grok" then "xai"
                                     else if low == "gemini" then "google" else low
    ensures NormalizeProviderName(NormalizeProviderName(name)) == NormalizeProviderName(name)
  {
    LowerTrimAgain(name);
  }

  // ---- The order of preference ----

  /** How many of the first `i` names the keyring has that are not members yet. */
  function HeldBefore(members: seq<Member>, names: seq<string>, keyring: KeyMap, i: nat): nat
    requires i <= |names|
  {
    if i == 0 then 0
    else
      HeldBefore(members, names, keyring, i - 1)
      + (if names[i - 1] in keyring && !Has(members, names[i - 1]) then 1 else 0)
  }

  lemma {:induction false} PreferredExtends(members: seq<Member>, names: seq<string>, keyring: KeyMap)
    ensures members <= PreferredFrom(members, names, keyring)
    decreases |names|
  {
    if names != [] && |members| < COUNCIL_SIZE {
      PreferredExtends(members, names[1..], keyring);
      if names[0] in keyring {
        PreferredExtends(members + [Member(names[0], keyring[names[0]])], names[1..], keyring);
      }
    }
  }

  /** Each name of the table stands behind the members that were there and the earlier names the keyring has, as long
      as there is room, with its own key. */
  lemma {:induction false} PreferredStandsAt(members: seq<Member>, names: seq<string>, keyring: KeyMap, i: nat)
    requires forall j, k :: 0 <= j < k < |names| ==> names[j] != names[k]
    requires i < |names| && names[i] in keyring && !Has(members, names[i])
    requires |members| + HeldBefore(members, names, keyring, i) < COUNCIL_SIZE
    ensures var at := |members| + HeldBefore(members, names, keyring, i);
      var out := PreferredFrom(members, names, keyring);
      at < |out| && out[at] == Member(names[i], keyring[names[i]])
    decreases |names|
  {
    hide Has;
    var taken := names[0] in keyring && !Has(members, names[0]);
    var members' := if taken then members + [Member(names[0], keyring[names[0]])] else members;
    if i == 0 {
      PreferredExtends(members', names[1..], keyring);
    } else {
      HeldBeforeShift(members, members', names, keyring, i);
      HasExtended(members, members', names[0], names[i]);
      PreferredStandsAt(members', names[1..], keyring, i - 1);
    }
  }

  lemma PreferredAreDistinct()
    ensures forall j, k :: 0 <= j < k < |PREFERRED| ==> PREFERRED[j] != PREFERRED[k]
  {
  }

  lemma PreferredInOrder(first: seq<Member>, keyring: KeyMap)
    ensures forall i :: 0 <= i < |PREFERRED| && PREFERRED[i] in keyring && !Has(first, PREFERRED[i]) ==>
      var at := |first| + HeldBefore(first, PREFERRED, keyring, i);
      at < COUNCIL_SIZE ==>
        var out := PreferredFrom(first, PREFERRED, keyring);
        at < |out| && out[at] == Member(PREFERRED[i], keyring[PREFERRED[i]])
  {
    hide PreferredFrom, HeldBefore, Has;
    PreferredAreDistinct();
    forall i | 0 <= i < |PREFERRED| && PREFERRED[i] in keyring && !Has(first, PREFERRED[i])
      && |first| + HeldBefore(first, PREFERRED, keyring, i) < COUNCIL_SIZE
      ensures var at := |first| + HeldBefore(first, PREFERRED, keyring, i);
        var out := PreferredFrom(first, PREFERRED, keyring);
        at < |out| && out[at] == Member(PREFERRED[i], keyring[PREFERRED[i]])
    {
      PreferredStandsAt(first, PREFERRED, keyring, i);
    }
  }

  lemma HasExtended(members: seq<Member>, members': seq<Member>, added: string, name: string)
    requires members' == members || exists key :: members' == members + [Member(added, key)]
    requires name != added
    ensures Has(members', name) <==> Has(members, name)
  {
    if Has(members, name) {
      var i :| 0 <= i < |members| && members[i].name == name;
      assert members'[i].name == name;
    }
  }

  lemma {:induction false} HeldBeforeShift(members: seq<Member>, members': seq<Member>, names: seq<string>,
                                           keyring: KeyMap, i: nat)
    requires forall j, k :: 0 <= j < k < |names| ==> names[j] != names[k]
    requires 0 < i <= |names|
    requires members' == if names[0] in keyring && !Has(members, names[0])
                         then members + [Member(names[0], keyring[names[0]])] else members
    ensures |members| + HeldBefore(members, names, keyring, i)
         == |members'| + HeldBefore(members', names[1..], keyring, i - 1)
  {
    if i > 1 {
      HeldBeforeShift(members, members', names, keyring, i - 1);
      HasExtended(members, members', names[0], names[i - 1]);
      assert names[1..][i - 2] == names[i - 1];
    }
  }

  lemma AllHeldIn(members: seq<Member>, order: seq<string>, keyring: KeyMap)
    requires Lists(order, keyring)
    requires forall k :: 0 <= k < |order| && NormalizeProviderName(order[k]) in SUPPORTED ==>
      Has(members, NormalizeProviderName(order[k]))
    ensures Held(keyring) <= Names(members)
  {
    forall n | n in Held(keyring) ensures n in Names(members) {
      var p :| p in keyring && NormalizeProviderName(p) in SUPPORTED && NormalizeProviderName(p) == n;
      assert p in order;
      var k :| 0 <= k < |order| && order[k] == p;
      assert Has(members, NormalizeProviderName(order[k]));
    }
  }

  /** Distinct held names: as many as members, and no more than are held. */
  lemma NamesCount(members: seq<Member>, keyring: KeyMap)
    requires Sound(members, keyring)
    ensures Names(members) <= Held(keyring)
    ensures |Names(members)| == |members| <= |Held(keyring)|
    ensures Held(keyring) <= Names(members) ==> |members| == |Held(keyring)|
  {
    forall n | n in Names(members) ensures n in Held(keyring) {
      var i :| 0 <= i < |members| && members[i].name == n;
      assert HeldAs(members[i], keyring);
    }
    DistinctNames(members);
    SubsetSize(Names(members), Held(keyring));
    if Held(keyring) <= Names(members) {
      assert Held(keyring) == Names(members);
    }
  }

  lemma {:induction false} DistinctNames(members: seq<Member>)
    requires forall i, j :: 0 <= i < j < |members| ==> members[i].name != members[j].name
    ensures |Names(members)| == |members|
  {
    if members != [] {
      var n := |members| - 1;
      DistinctNames(members[..n]);
      assert Names(members) == Names(members[..n]) + {members[n].name};
    } else {
      assert Names(members) == {};
    }
  }

  lemma {:induction false} SubsetSize(a: set<string>, b: set<string>)
    requires a <= b
    ensures |a| <= |b|
  {
    if a != {} {
      var x :| x in a;
      SubsetSize(a - {x}, b - {x});
    }
  }
}
