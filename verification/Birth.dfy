/** The birth lifecycle of an agent (crates/orion-birth/src/stages.rs). */
module Birth {
  import opened Text
  import opened Keyring

  datatype BirthStage = Darkness | Ignition | Connectivity | Genesis | Emergence

  const STAGES: seq<BirthStage> := [Darkness, Ignition, Connectivity, Genesis, Emergence]

  function Name(s: BirthStage): string {
    match s
    case Darkness => "Darkness"
    case Ignition => "Ignition"
    case Connectivity => "Connectivity"
    case Genesis => "Genesis"
    case Emergence => "Emergence"
  }

  function FromName(s: string): Option<BirthStage> {
    match s
    case "Darkness" => Some(Darkness)
    case "Ignition" => Some(Ignition)
    case "Connectivity" => Some(Connectivity)
    case "Genesis" => Some(Genesis)
    case "Emergence" => Some(Emergence)
    case _ => None
  }

  /** The stage a configuration stands for: the persisted one, or Darkness. */
  function StageOf(c: Config): BirthStage {
    if c.birthStage.Some? && FromName(c.birthStage.value).Some? then FromName(c.birthStage.value).value else Darkness
  }

  function Rank(s: BirthStage): nat {
    match s
    case Darkness => 0
    case Ignition => 1
    case Connectivity => 2
    case Genesis => 3
    case Emergence => 4
  }

  lemma NamesRoundTrip(s: BirthStage)
    ensures FromName(Name(s)) == Some(s) && STAGES[Rank(s)] == s
  {
  }

  /** Document texts the orchestrator writes when the files do not exist yet. */
  datatype Templates = Templates(ethics: string, instincts: string, growth: string)

  datatype Manifest = Manifest(soul: string, growth: string, soulJson: Option<string>)

  /** Only documents were written, and none was removed. */
  ghost predicate OnlyDocs(a: Files, b: Files) {
    b == a.(docs := b.docs) && a.docs.Keys <= b.docs.Keys
  }

  /** An existing document stays; a missing one is taken from its template. */
  function Kept(docs: map<string, string>, name: string, template: string): string {
    if name in docs then docs[name] else template
  }

  /** Every write that crystallizing a manifest takes works: the directory, soul and growth, the manifest's own
      JSON form, the two other documents where they are missing, and the stage. */
  predicate Writable(f: Files, m: Manifest, io: nat -> bool) {
    io(0) && io(1) && io(2) && (m.soulJson.Some? ==> io(3))
    && (ETHICS !in f.docs ==> io(4)) && (INSTINCTS !in f.docs ==> io(5)) && io(6)
  }

  /** The documents with those a manifest brings. */
  function WithManifest(docs: map<string, string>, m: Manifest): map<string, string> {
    var written := docs[SOUL := m.soul][GROWTH := m.growth];
    if m.soulJson.Some? then written[SOUL_JSON := m.soulJson.value] else written
  }

  /** The files once a manifest is crystallized. */
  function Crystallized(f: Files, t: Templates, m: Manifest): Files {
    var docs := WithManifest(f.docs, m);
    f.(docs := docs[ETHICS := Kept(f.docs, ETHICS, t.ethics)][INSTINCTS := Kept(f.docs, INSTINCTS, t.instincts)],
       config := Config(Some("Emergence"), false))
  }

  /** Crystallizing completes the constitution with the manifest's soul, takes ethics and instincts from their own
      templates where they are missing and changes neither where it is there, and leaves every other document alone. */
  lemma CrystallizedFacts(f: Files, t: Templates, m: Manifest)
    ensures var g := Crystallized(f, t, m);
      HasDocs(g) && StageOf(g.config) == Emergence && f.docs.Keys <= g.docs.Keys
      && g.docs[SOUL] == m.soul && GROWTH in g.docs && g.docs[GROWTH] == m.growth
      && (m.soulJson.Some? ==> SOUL_JSON in g.docs && g.docs[SOUL_JSON] == m.soulJson.value)
      && (ETHICS !in f.docs ==> g.docs[ETHICS] == t.ethics)
      && (INSTINCTS !in f.docs ==> g.docs[INSTINCTS] == t.instincts)
      && (forall d :: d in g.docs ==> d in f.docs || d in {SOUL, GROWTH, SOUL_JSON, ETHICS, INSTINCTS})
      && (SOUL_JSON in g.docs ==> SOUL_JSON in f.docs || m.soulJson.Some?)
      && (forall d :: d in f.docs && d !in {SOUL, GROWTH, SOUL_JSON} ==> g.docs[d] == f.docs[d])
  {
    NamesDiffer();
  }

  lemma NamesDiffer()
    ensures SOUL != ETHICS && SOUL != INSTINCTS && SOUL != GROWTH && SOUL != SOUL_JSON && ETHICS != INSTINCTS
    ensures GROWTH != ETHICS && GROWTH != INSTINCTS && GROWTH != SOUL_JSON && SOUL_JSON != ETHICS
      && SOUL_JSON != INSTINCTS
  {
  }

  /** The orchestrator of one request; it is rebuilt from disk every time. */
  class BirthOrchestrator {
    const disk: Disk
    const scheme: Scheme
    var config: Config
    var stage: BirthStage
    var signingKey: Option<Key>

    /** `new` after the AlreadyBorn check. */
    constructor (disk: Disk, scheme: Scheme)
      requires !disk.files.birthRecord
      ensures this.disk == disk && this.scheme == scheme
      ensures config == disk.files.config && stage == StageOf(config) && signingKey == None
    {
      this.disk := disk;
      this.scheme := scheme;
      config := disk.files.config;
      stage := StageOf(disk.files.config);
      signingKey := None;
    }

    /** In memory the stage agrees with the configuration, and the configuration with the disk. */
    ghost predicate Loaded()
      reads this, disk
    {
      config == disk.files.config && stage == StageOf(config) && !config.birthComplete && !disk.files.birthRecord
    }

    /** An identity is due: in Darkness, unless there is a public key on disk and its private key is held. */
    predicate IdentityDue()
      reads this, disk
    {
      stage == Darkness && !(disk.files.pubkey.Some? && signingKey.Some?)
    }

    /** Darkness: writes the public key, then holds the private key. What fails after the first write does not take
        the public key back. */
    method GenerateIdentity(freshKey: Key, io: nat -> bool) returns (ok: bool)
      requires Loaded()
      modifies this, disk
      ensures ok <==> (old(IdentityDue()) ==> io(0) && io(1) && io(2))
      ensures disk.files ==
        if old(IdentityDue()) && io(0) then old(disk.files).(pubkey := Some(scheme.pub(freshKey))) else old(disk.files)
      ensures signingKey == if old(IdentityDue()) && io(0) then Some(freshKey) else old(signingKey)
      ensures stage == old(stage) && config == old(config)
    {
      if stage != Darkness {
        return true;
      }
      if disk.files.pubkey.Some? && signingKey.Some? {
        return true;
      }
      if !io(0) {
        return false;
      }
      disk.files := disk.files.(pubkey := Some(scheme.pub(freshKey)));
      signingKey := Some(freshKey);
      ok := disk.SaveConfig(config, io(1));
      return ok && io(2);
    }

    method PersistStage(ok: bool) returns (r: bool)
      modifies this`config, disk
      ensures r == ok && config == old(config).(birthStage := Some(Name(stage)))
      ensures disk.files == if ok then old(disk.files).(config := config) else old(disk.files)
    {
      config := config.(birthStage := Some(Name(stage)));
      r := disk.SaveConfig(config, ok);
    }

    /** Moves from one stage to the next and persists it; in any other stage it does nothing. */
    method Advance(from: BirthStage, to: BirthStage, saveOk: bool) returns (ok: bool)
      requires Loaded() && Rank(to) == Rank(from) + 1
      modifies this, disk
      ensures ok == (old(stage) != from || saveOk)
      ensures disk.files ==
        if old(stage) == from && saveOk
        then old(disk.files).(config := Config(Some(Name(to)), false))
        else old(disk.files)
    {
      if stage == from {
        stage := to;
        ok := PersistStage(saveOk);
        return;
      }
      return true;
    }

    method AdvancePastDarkness(saveOk: bool) returns (ok: bool)
      requires Loaded()
      modifies this, disk
      ensures ok == (old(stage) != Darkness || saveOk)
      ensures disk.files ==
        if old(stage) == Darkness && saveOk
        then old(disk.files).(config := Config(Some("Ignition"), false))
        else old(disk.files)
    {
      ok := Advance(Darkness, Ignition, saveOk);
    }

    method AdvanceToConnectivity(saveOk: bool) returns (ok: bool)
      requires Loaded()
      modifies this, disk
      ensures ok == (old(stage) != Ignition || saveOk)
      ensures disk.files ==
        if old(stage) == Ignition && saveOk
        then old(disk.files).(config := Config(Some("Connectivity"), false))
        else old(disk.files)
    {
      ok := Advance(Ignition, Connectivity, saveOk);
    }

    method AdvanceToGenesis(saveOk: bool) returns (ok: bool)
      requires Loaded()
      modifies this, disk
      ensures ok == (old(stage) != Connectivity || saveOk)
      ensures disk.files ==
        if old(stage) == Connectivity && saveOk
        then old(disk.files).(config := Config(Some("Genesis"), false))
        else old(disk.files)
    {
      ok := Advance(Connectivity, Genesis, saveOk);
    }

    /** Genesis: writes the documents, then moves to Emergence. A failed write leaves what was written before
        it, and the stage as it was. */
    method Crystallize(t: Templates, m: Manifest, io: nat -> bool) returns (ok: bool)
      requires Loaded()
      modifies this, disk
      ensures ok <==> old(stage) == Genesis && Writable(old(disk.files), m, io)
      ensures ok ==> disk.files == Crystallized(old(disk.files), t, m)
      ensures !ok ==> OnlyDocs(old(disk.files), disk.files) && (old(stage) != Genesis ==> disk.files == old(disk.files))
    {
      if stage != Genesis || !io(0) {
        return false;
      }
      NamesDiffer();
      ok := WriteManifest(m, io);
      if !ok {
        return;
      }
      ok := WriteIfMissing(ETHICS, t.ethics, io(4));
      if !ok {
        return;
      }
      ok := WriteIfMissing(INSTINCTS, t.instincts, io(5));
      if !ok {
        return;
      }
      stage := Emergence;
      ok := PersistStage(io(6));
    }

    method WriteManifest(m: Manifest, io: nat -> bool) returns (ok: bool)
      modifies disk
      ensures ok <==> io(1) && io(2) && (m.soulJson.Some? ==> io(3))
      ensures OnlyDocs(old(disk.files), disk.files)
      ensures ok ==> disk.files.docs == WithManifest(old(disk.files).docs, m)
    {
      ok := disk.WriteDoc(SOUL, m.soul, io(1));
      if !ok {
        return;
      }
      ok := disk.WriteDoc(GROWTH, m.growth, io(2));
      if !ok {
        return;
      }
      if m.soulJson.Some? {
        ok := disk.WriteDoc(SOUL_JSON, m.soulJson.value, io(3));
      }
    }

    method WriteIfMissing(name: string, template: string, saveOk: bool) returns (ok: bool)
      modifies disk
      ensures ok <==> (name !in old(disk.files).docs ==> saveOk)
      ensures OnlyDocs(old(disk.files), disk.files)
      ensures ok ==> disk.files.docs == old(disk.files).docs[name := Kept(old(disk.files).docs, name, template)]
    {
      if name in disk.files.docs {
        return true;
      }
      ok := disk.WriteDoc(name, template, saveOk);
    }

    /** Emergence: signs the documents with the held key, records the birth, marks it complete. The record is written
        before the configuration is saved, so it stays when that fails. */
    method CompleteEmergence(io: nat -> bool, recordOk: bool, saveOk: bool) returns (ok: bool)
      requires Loaded()
      modifies this, disk
      ensures signingKey == None || old(stage) != Emergence
      ensures disk.files.birthRecord <==>
        old(stage) == Emergence && old(signingKey).Some? && HasDocs(disk.files)
        && (forall i :: 0 <= i < |CONSTITUTION| ==> io(2 * i) && io(2 * i + 1)) && recordOk
      ensures ok <==> disk.files.birthRecord && saveOk
      ensures disk.files.config == if ok then Config(None, true) else old(disk.files).config
      ensures disk.files
        == old(disk.files).(sigs := disk.files.sigs, birthRecord := disk.files.birthRecord, config := disk.files.config)
      ensures ok ==> SignedWith(scheme, old(signingKey).value, disk.files)
    {
      if stage != Emergence || signingKey.None? {
        return false;
      }
      var key := signingKey.value;
      signingKey := None;
      ok := disk.SignConstitutionalDocuments(scheme, key, io);
      if !ok {
        return;
      }
      if !recordOk {
        return false;
      }
      disk.files := disk.files.(birthRecord := true);
      config := config.(birthComplete := true, birthStage := None);
      ok := disk.SaveConfig(config, saveOk);
    }
  }
}
