/** The birth and genesis request handlers (crates/orion-api/src/main.rs) and what any history of requests,
    failed requests and restarts keeps. */
module BirthServer {
  import opened Text
  import opened Keyring
  import opened Birth

  /** Which of a request's file and store operations succeed. */
  datatype Faults = Faults(
    loadOk: bool, storeOk: bool, keyReadOk: bool, keyWriteOk: bool, work: nat -> bool,
    recordOk: bool, saveOk: bool, pathOk: bool, deleteOk: bool)

  /** What the genesis strategy answers to a step. */
  datatype StepOutcome = StepFailed | MoreSteps | StepComplete(manifest: Manifest)

  datatype GenesisPath = QuickStart | Direct | SoulCrystallization | SoulForge

  function PathId(p: GenesisPath): string {
    match p
    case QuickStart => "quick_start"
    case Direct => "direct"
    case SoulCrystallization => "soul_crystallization"
    case SoulForge => "soul_forge"
  }

  /** No two paths share an id. */
  lemma PathIdsDiffer(p: GenesisPath, q: GenesisPath)
    ensures PathId(p) == PathId(q) <==> p == q
  {
  }

  type Response = Result<(), string>

  // ---- One step of a history ----

  /** The files of the agent and the server's copy of its private key. */
  datatype State = State(files: Files, held: Option<Key>)

  const START: State := State(Files(Config(None, false), None, None, map[], map[], false, None), None)

  /** Every copy of a private key belongs to the public key on disk. */
  predicate KeyMatches(s: Scheme, f: Files, k: Option<Key>) {
    k.Some? ==> f.pubkey == Some(s.pub(k.value))
  }

  /** What holds between any two requests. */
  ghost predicate Sound(s: Scheme, st: State) {
    var f := st.files;
    KeyMatches(s, f, f.keyFile) && KeyMatches(s, f, st.held)
    && (f.config.birthComplete ==>
          f.config.birthStage == None && Signed(s, f) && (f.keyFile.None? ==> st.held.None?))
    && (!f.config.birthComplete && StageOf(f.config) == Emergence ==> HasDocs(f))
  }

  /** There is a public key, and no copy of its private key. */
  predicate KeyLost(st: State) {
    st.files.pubkey.Some? && st.files.keyFile.None? && st.held.None?
  }

  /** What any request, failed request or restart may do. Once birth is complete: nothing to the files. Before that:
      the public key and the persisted private key stay, a lost key stays lost, and the stage moves on by at most
      one. */
  ghost predicate Evolves(x: State, y: State) {
    var a, b := x.files, y.files;
    (a.config.birthComplete ==> b == a)
    && (a.pubkey.Some? ==> b.pubkey == a.pubkey)
    && (a.keyFile.Some? && !b.config.birthComplete ==> b.keyFile == a.keyFile)
    && (a.keyFile.Some? ==> b.keyFile == a.keyFile || b.keyFile == None)
    && (KeyLost(x) ==> KeyLost(y) && b.config.birthComplete == a.config.birthComplete)
    && (!b.config.birthComplete ==> Rank(StageOf(a.config)) <= Rank(StageOf(b.config)) <= Rank(StageOf(a.config)) + 1)
  }

  /** A history starts with an empty directory. */
  ghost predicate History(s: Scheme, trace: seq<State>) {
    trace != [] && trace[0] == START
    && (forall i :: 0 <= i < |trace| ==> Sound(s, trace[i]))
    && (forall i :: 0 <= i < |trace| - 1 ==> Evolves(trace[i], trace[i + 1]))
  }

  // ---- When requests succeed ----

  /** A request gets past its first checks. */
  predicate Admits(a: Files, f: Faults) {
    f.loadOk && f.storeOk && !a.config.birthComplete && !a.birthRecord
  }

  /** There is no identity yet, and the stage is the one that generates it. */
  predicate Unborn(a: Files) {
    StageOf(a.config) == Darkness && a.pubkey.None?
  }

  /** A key is in memory or can be read from disk. */
  predicate HasKey(x: State, f: Faults) {
    x.held.Some? || (f.keyReadOk && x.files.keyFile.Some?)
  }

  /** All that it takes to sign at Emergence and to record the birth: a key, and no fault so far. */
  predicate Recordable(x: State, f: Faults) {
    Admits(x.files, f) && x.files.config.birthStage == Some("Emergence") && HasKey(x, f)
    && (forall i :: 0 <= i < |CONSTITUTION| ==> f.work(2 * i) && f.work(2 * i + 1)) && f.recordOk
  }

  /** All that a quick start takes: a key, four documents to write, three to read and sign, a configuration to save. */
  predicate QuickStartable(x: State, f: Faults) {
    f.loadOk && !x.files.config.birthComplete && HasKey(x, f) && (forall i: nat :: i < 10 ==> f.work(i)) && f.saveOk
  }

  /** All that crystallizing takes: Genesis, and no fault. */
  predicate Crystallizes(a: Files, m: Manifest, f: Faults) {
    Admits(a, f) && StageOf(a.config) == Genesis && Writable(a, m, f.work)
  }

  /** Chat is for two of the paths, in Genesis, and needs a message. */
  predicate ChatAllowed(a: Files, message: string) {
    a.genesisPath in {Some("direct"), Some("soul_crystallization")} && Trim(message) != ""
    && a.config.birthStage == Some("Genesis")
  }

  /** What chat crystallizes: the recommended soul, with the growth template. */
  function ChatManifest(t: Templates, recommended: Manifest): Manifest {
    Manifest(recommended.soul, t.growth, None)
  }

  class Server {
    const scheme: Scheme
    const templates: Templates
    const disk: Disk
    var birthKeys: Option<Key>
    var session: bool
    ghost var trace: seq<State>

    constructor (scheme: Scheme, templates: Templates)
      ensures this.scheme == scheme && this.templates == templates && fresh(disk) && Valid() && trace == [START]
    {
      this.scheme := scheme;
      this.templates := templates;
      var d := new Disk();
      disk := d;
      birthKeys := None;
      session := false;
      trace := [START];
    }

    function Now(): State
      reads this, disk
    {
      State(disk.files, birthKeys)
    }

    ghost predicate Valid()
      reads this, disk
    {
      History(scheme, trace) && trace[|trace| - 1] == Now()
    }

    /** Ends a request: the state it leaves joins the history. */
    ghost method Log()
      requires History(scheme, trace) && Sound(scheme, Now()) && Evolves(trace[|trace| - 1], Now())
      modifies this`trace
      ensures Valid() && trace == old(trace) + [Now()]
    {
      trace := trace + [Now()];
    }

    /** GET …/birth/state: in Darkness generates the identity, once, and keeps its key in memory and on disk. When a
        later write fails, the public key is there already and its private key is gone. */
    method BirthState(freshKey: Key, f: Faults) returns (r: Response)
      requires Valid()
      modifies this, disk
      ensures Valid() && trace == old(trace) + [Now()]
      ensures BirthStateDone(old(Now()), freshKey, f, r, Now())
    {
      r := BirthStateWork(freshKey, f);
      Log();
    }

    /** How a state request ends: when it succeeds, when it generates an identity, and what is then on disk and
        in memory. */
    predicate BirthStateDone(x: State, freshKey: Key, f: Faults, r: Response, y: State) {
      var a, born := x.files, Admits(x.files, f) && Unborn(x.files) && f.work(0);
      (r.Ok? <==> Admits(a, f) && (Unborn(a) ==> f.work(0) && f.work(1) && f.work(2) && f.saveOk))
      && (!born ==> y.files == a)
      && (!born ==>
            y.held == if x.held.None? && f.loadOk && !a.config.birthComplete && f.keyReadOk then a.keyFile else x.held)
      && (born && r.Err? ==> y.files == a.(pubkey := Some(scheme.pub(freshKey))) && KeyLost(y))
      && (born && r.Ok? ==>
            y.held == Some(freshKey)
            && y.files == a.(pubkey := Some(scheme.pub(freshKey)), config := Config(Some("Darkness"), false),
                             keyFile := if f.keyWriteOk then Some(freshKey) else None))
    }

    method BirthStateWork(freshKey: Key, f: Faults) returns (r: Response)
      requires Valid()
      modifies this`birthKeys, disk
      ensures Sound(scheme, Now()) && Evolves(old(Now()), Now())
      ensures BirthStateDone(old(Now()), freshKey, f, r, Now())
    {
      if !f.loadOk {
        return Err("Failed to load config");
      }
      if disk.files.config.birthComplete {
        return Err("Agent birth already complete");
      }
      if birthKeys.None? && disk.LoadSigningKey(f.keyReadOk).Some? {
        birthKeys := disk.LoadSigningKey(f.keyReadOk);
      }
      if !f.storeOk || disk.files.birthRecord {
        return Err("Orchestrator");
      }
      var orch := new BirthOrchestrator(disk, scheme);
      if orch.stage == Darkness && disk.files.pubkey.None? {
        var ok := orch.GenerateIdentity(freshKey, f.work);
        if !ok {
          return Err("Generate identity");
        }
        orch.config := orch.config.(birthStage := Some(Name(Darkness)));
        ok := disk.SaveConfig(orch.config, f.saveOk);
        if !ok {
          return Err("Save config");
        }
      }
      if orch.signingKey.Some? {
        birthKeys := orch.signingKey;
        disk.PersistSigningKey(orch.signingKey.value, f.keyWriteOk);
      }
      return Ok(());
    }

    /** POST …/birth/advance-darkness. */
    method AdvanceDarkness(f: Faults) returns (r: Response)
      requires Valid()
      modifies this, disk
      ensures Valid() && trace == old(trace) + [Now()] && birthKeys == old(birthKeys)
      ensures r.Ok? <==> Admits(old(disk.files), f) && (StageOf(old(disk.files).config) == Darkness ==> f.saveOk)
      ensures disk.files == if r.Ok? && StageOf(old(disk.files).config) == Darkness
        then old(disk.files).(config := Config(Some("Ignition"), false)) else old(disk.files)
    {
      if !f.loadOk || disk.files.config.birthComplete || !f.storeOk || disk.files.birthRecord {
        r := Err("rejected");
      } else {
        var orch := new BirthOrchestrator(disk, scheme);
        var ok := orch.AdvancePastDarkness(f.saveOk);
        r := if ok then Ok(()) else Err("Advance");
      }
      Log();
    }

    /** POST …/birth/ignition: an optional local LLM address, saved first, then on to Connectivity. */
    method IgniteLocal(url: Option<string>, urlOk: bool, f: Faults) returns (r: Response)
      requires Valid()
      modifies this, disk
      ensures Valid() && trace == old(trace) + [Now()] && birthKeys == old(birthKeys)
      ensures r.Ok? <==>
        Admits(old(disk.files), f) && (url.Some? ==> urlOk && f.work(0))
        && (StageOf(old(disk.files).config) == Ignition ==> f.saveOk)
      ensures disk.files == if r.Ok? && StageOf(old(disk.files).config) == Ignition
        then old(disk.files).(config := Config(Some("Connectivity"), false)) else old(disk.files)
    {
      if !f.loadOk || disk.files.config.birthComplete || (url.Some? && !(urlOk && f.work(0)))
         || !f.storeOk || disk.files.birthRecord {
        r := Err("rejected");
      } else {
        var orch := new BirthOrchestrator(disk, scheme);
        var ok := orch.AdvanceToConnectivity(f.saveOk);
        r := if ok then Ok(()) else Err("Advance");
      }
      Log();
    }

    /** POST …/genesis/start with any path but quick start: Genesis is persisted first, then the path, then the
        session opens; what fails later does not take back what came before. */
    method GenesisStart(path: GenesisPath, sessionOk: bool, f: Faults) returns (r: Response)
      requires Valid() && path != QuickStart
      modifies this, disk
      ensures Valid() && trace == old(trace) + [Now()] && birthKeys == old(birthKeys)
      ensures var starts := Admits(old(disk.files), f) && StageOf(old(disk.files).config) == Connectivity && f.saveOk;
        (r.Ok? <==> starts && f.pathOk && sessionOk) && session == (r.Ok? || old(session))
        && disk.files == (
          if !starts then old(disk.files)
          else old(disk.files).(config := Config(Some("Genesis"), false),
                                genesisPath := if f.pathOk then Some(PathId(path)) else old(disk.files).genesisPath))
    {
      r := GenesisStartWork(path, sessionOk, f);
      Log();
    }

    method GenesisStartWork(path: GenesisPath, sessionOk: bool, f: Faults) returns (r: Response)
      requires Valid() && path != QuickStart
      modifies this`session, disk
      ensures Sound(scheme, Now()) && Evolves(old(Now()), Now())
      ensures var starts := Admits(old(disk.files), f) && StageOf(old(disk.files).config) == Connectivity && f.saveOk;
        (r.Ok? <==> starts && f.pathOk && sessionOk) && session == (r.Ok? || old(session))
        && disk.files == (
          if !starts then old(disk.files)
          else old(disk.files).(config := Config(Some("Genesis"), false),
                                genesisPath := if f.pathOk then Some(PathId(path)) else old(disk.files).genesisPath))
    {
      if !f.loadOk || disk.files.config.birthComplete || !f.storeOk || disk.files.birthRecord {
        return Err("rejected");
      }
      var orch := new BirthOrchestrator(disk, scheme);
      if orch.stage != Connectivity {
        return Err("Agent must be in Connectivity stage to start Genesis");
      }
      var ok := orch.AdvanceToGenesis(f.saveOk);
      if !ok {
        return Err("Failed to advance");
      }
      if !f.pathOk {
        return Err("Failed to persist path");
      }
      disk.files := disk.files.(genesisPath := Some(PathId(path)));
      if !sessionOk {
        return Err("Create strategy");
      }
      session := true;
      return Ok(());
    }

    /** POST …/genesis/step: only the completing step touches the disk. */
    method GenesisStep(outcome: StepOutcome, f: Faults) returns (r: Response)
      requires Valid()
      modifies this, disk
      ensures Valid() && trace == old(trace) + [Now()] && birthKeys == old(birthKeys)
      ensures r.Ok? <==>
        old(session)
        && (outcome.MoreSteps? || (outcome.StepComplete? && Crystallizes(old(disk.files), outcome.manifest, f)))
      ensures if r.Ok? && outcome.StepComplete?
        then !session && disk.files == Crystallized(old(disk.files), templates, outcome.manifest)
        else session == old(session) && OnlyDocs(old(disk.files), disk.files)
      ensures StageOf(old(disk.files).config) != Genesis || !old(session) || !outcome.StepComplete? ==>
        disk.files == old(disk.files)
    {
      if !session {
        r := Err("No active genesis session for this agent");
      } else if outcome.StepFailed? {
        r := Err("Genesis advance failed");
      } else if outcome.MoreSteps? {
        r := Ok(());
      } else {
        r := CrystallizeWork(outcome.manifest, f);
        if r.Ok? {
          session := false;
        }
      }
      Log();
    }

    /** Loads the configuration, rebuilds the orchestrator and crystallizes. */
    method CrystallizeWork(m: Manifest, f: Faults) returns (r: Response)
      requires Valid()
      modifies disk
      ensures Sound(scheme, Now()) && Evolves(old(Now()), Now())
      ensures r.Ok? <==> Crystallizes(old(disk.files), m, f)
      ensures if r.Ok? then disk.files == Crystallized(old(disk.files), templates, m)
        else OnlyDocs(old(disk.files), disk.files)
      ensures StageOf(old(disk.files).config) != Genesis ==> disk.files == old(disk.files)
    {
      hide Crystallized, Writable;
      if !f.loadOk || !f.storeOk || disk.files.birthRecord {
        return Err("rejected");
      }
      if disk.files.config.birthComplete {
        // No handler checks this here; the cleared stage is what stops it.
        assert StageOf(disk.files.config) == Darkness;
        return Err("Stage guard");
      }
      var orch := new BirthOrchestrator(disk, scheme);
      CrystallizedKeeps(disk.files, templates, m);
      var ok := orch.Crystallize(templates, m, f.work);
      if !ok {
        return Err("crystallize");
      }
      return Ok(());
    }

    /** POST …/birth/chat: crystallizes when the model recommends it; the chat file is written last, so the request
        can fail although the stage has moved on. */
    method BirthChat(message: string, recommended: Option<Manifest>, f: Faults, chatOk: bool) returns (r: Response)
      requires Valid()
      modifies this, disk
      ensures Valid() && trace == old(trace) + [Now()] && birthKeys == old(birthKeys) && session == old(session)
      ensures var allowed := ChatAllowed(old(disk.files), message) && Admits(old(disk.files), f);
        var crystallizes :=
          recommended.Some? && Crystallizes(old(disk.files), ChatManifest(templates, recommended.value), f);
        (r.Ok? <==> allowed && (recommended.Some? ==> crystallizes) && chatOk)
        && (if allowed && crystallizes
            then disk.files == Crystallized(old(disk.files), templates, ChatManifest(templates, recommended.value))
            else OnlyDocs(old(disk.files), disk.files))
        && (!allowed || recommended.None? ==> disk.files == old(disk.files))
        && (allowed && crystallizes ==>
              HasDocs(disk.files) && disk.files.docs[SOUL] == recommended.value.soul
              && GROWTH in disk.files.docs && disk.files.docs[GROWTH] == templates.growth)
      ensures ChatAllowed(old(disk.files), message) ==>
        old(disk.files).genesisPath in {Some(PathId(Direct)), Some(PathId(SoulCrystallization))}
    {
      var allowed := disk.files.genesisPath in {Some("direct"), Some("soul_crystallization")};
      if !allowed || Trim(message) == "" || !f.loadOk || disk.files.config.birthStage != Some("Genesis")
         || !f.storeOk || disk.files.birthRecord {
        r := Err("rejected");
      } else if recommended.Some? {
        CrystallizedFacts(disk.files, templates, ChatManifest(templates, recommended.value));
        r := CrystallizeWork(recommended.value.(growth := templates.growth, soulJson := None), f);
        if r.Ok? && !chatOk {
          r := Err("Write birth_chat");
        }
      } else {
        r := if chatOk then Ok(()) else Err("Write birth_chat");
      }
      Log();
    }

    /** Takes the key out of memory, or reads it from disk. */
    method TakeKey(readOk: bool) returns (k: Option<Key>)
      modifies this`birthKeys
      ensures birthKeys == None
      ensures k == if old(birthKeys).Some? then old(birthKeys) else disk.LoadSigningKey(readOk)
    {
      k := if birthKeys.Some? then birthKeys else disk.LoadSigningKey(readOk);
      birthKeys := None;
    }

    /** POST …/birth/complete-emergence. The key leaves memory whether or not the attempt succeeds, and a record
        whose configuration could not be saved stays. */
    method CompleteEmergence(f: Faults) returns (r: Response)
      requires Valid()
      modifies this, disk
      ensures Valid() && trace == old(trace) + [Now()]
      ensures r.Ok? <==> disk.files.config.birthComplete && !old(disk.files).config.birthComplete
      ensures r.Ok? <==> Recordable(old(Now()), f) && f.saveOk
      ensures disk.files.birthRecord <==> old(disk.files).birthRecord || Recordable(old(Now()), f)
      ensures disk.files.docs == old(disk.files).docs && disk.files.genesisPath == old(disk.files).genesisPath
      ensures r.Ok? ==> (disk.files.keyFile.None? <==> f.deleteOk || old(disk.files).keyFile.None?)
      ensures birthKeys ==
        if f.loadOk && old(disk.files).config.birthStage == Some("Emergence") then None else old(birthKeys)
    {
      r := CompleteEmergenceWork(f);
      if r.Ok? {
        disk.DeleteSigningKey(f.deleteOk);
      }
      Log();
    }

    method CompleteEmergenceWork(f: Faults) returns (r: Response)
      requires Valid()
      modifies this`birthKeys, disk
      ensures Sound(scheme, Now()) && Evolves(old(Now()), Now())
      ensures r.Err? ==> disk.files.config == old(disk.files).config
      ensures r.Ok? ==> disk.files.config == Config(None, true) && !old(disk.files).config.birthComplete
      ensures birthKeys ==
        if f.loadOk && old(disk.files).config.birthStage == Some("Emergence") then None else old(birthKeys)
      ensures disk.files.keyFile == old(disk.files).keyFile
      ensures r.Ok? <==> Recordable(old(Now()), f) && f.saveOk
      ensures disk.files.birthRecord <==> old(disk.files).birthRecord || Recordable(old(Now()), f)
      ensures disk.files.docs == old(disk.files).docs && disk.files.genesisPath == old(disk.files).genesisPath
    {
      if !f.loadOk || disk.files.config.birthComplete || disk.files.config.birthStage != Some("Emergence") {
        return Err("rejected");
      }
      var key := TakeKey(f.keyReadOk);
      if key.None? {
        return Err("No signing key found for this agent");
      }
      if !f.storeOk || disk.files.birthRecord {
        return Err("Orchestrator");
      }
      var orch := new BirthOrchestrator(disk, scheme);
      orch.signingKey := key;
      var ok := orch.CompleteEmergence(f.work, f.recordOk, f.saveOk);
      if !ok {
        return Err("complete_emergence");
      }
      SignedByHolder(scheme, key.value, disk.files);
      return Ok(());
    }

    /** POST …/genesis/start with the quick-start path: fills, signs and completes in one request, from any stage and
        without a birth record. Birth is complete once the configuration is saved; the path comes after that. */
    method QuickStartGenesis(soul: string, f: Faults) returns (r: Response)
      requires Valid()
      modifies this, disk
      ensures Valid() && trace == old(trace) + [Now()]
      ensures disk.files.config.birthComplete <==> old(disk.files).config.birthComplete || QuickStartable(old(Now()), f)
      ensures r.Ok? <==> QuickStartable(old(Now()), f) && f.pathOk
      ensures QuickStartable(old(Now()), f) ==>
        disk.files.birthRecord == old(disk.files).birthRecord
        && (disk.files.keyFile.None? <==> (f.pathOk && f.deleteOk) || old(disk.files).keyFile.None?)
        && (f.pathOk ==> disk.files.genesisPath == Some(PathId(QuickStart)))
        && disk.files.docs == QuickDocs(old(disk.files).docs, soul)
      ensures birthKeys == if f.loadOk && !old(disk.files).config.birthComplete then None else old(birthKeys)
    {
      r := QuickStartWork(soul, f);
      if r.Ok? {
        disk.DeleteSigningKey(f.deleteOk);
      }
      Log();
    }

    /** The four documents of a quick start, whatever was there before. */
    function QuickDocs(docs: map<string, string>, soul: string): map<string, string> {
      docs[SOUL := soul][ETHICS := templates.ethics][INSTINCTS := templates.instincts][GROWTH := templates.growth]
    }

    method QuickStartWork(soul: string, f: Faults) returns (r: Response)
      requires Valid()
      modifies this`birthKeys, disk
      ensures Sound(scheme, Now()) && Evolves(old(Now()), Now())
      ensures disk.files.keyFile == old(disk.files).keyFile && disk.files.birthRecord == old(disk.files).birthRecord
      ensures disk.files.config == if QuickStartable(old(Now()), f) then Config(None, true) else old(disk.files).config
      ensures r.Ok? <==> QuickStartable(old(Now()), f) && f.pathOk
      ensures QuickStartable(old(Now()), f) ==> disk.files.docs == QuickDocs(old(disk.files).docs, soul)
      ensures birthKeys == if f.loadOk && !old(disk.files).config.birthComplete then None else old(birthKeys)
      ensures r.Ok? ==> disk.files.genesisPath == Some(PathId(QuickStart))
    {
      hide Signed, SignedWith;
      if !f.loadOk || disk.files.config.birthComplete {
        return Err("rejected");
      }
      var key := TakeKey(f.keyReadOk);
      if key.None? {
        return Err("No signing key found");
      }
      var signed := FillAndSign(key.value, soul, f);
      if !signed {
        return Err("Write or sign documents");
      }
      ghost var before := disk.files;
      var saved := disk.SaveConfig(Config(None, true), f.saveOk);
      if !saved {
        return Err("Save config");
      }
      StillSigned(scheme, before, disk.files);
      if !f.pathOk {
        return Err("Persist path");
      }
      disk.files := disk.files.(genesisPath := Some(PathId(QuickStart)));
      StillSigned(scheme, before, disk.files);
      return Ok(());
    }

    method FillAndSign(key: Key, soul: string, f: Faults) returns (ok: bool)
      requires disk.files.pubkey == Some(scheme.pub(key))
      modifies disk
      ensures ok <==> forall i: nat :: i < 10 ==> f.work(i)
      ensures disk.files == old(disk.files).(docs := disk.files.docs, sigs := disk.files.sigs)
      ensures old(disk.files).docs.Keys <= disk.files.docs.Keys
      ensures ok ==> disk.files.docs == QuickDocs(old(disk.files).docs, soul) && Signed(scheme, disk.files)
    {
      hide Signed, SignedWith;
      ok := WriteQuickDocs(soul, f);
      if !ok {
        return;
      }
      ok := disk.SignConstitutionalDocuments(scheme, key, (i: nat) => f.work(4 + i));
      SixOperations(f.work);
      if ok {
        SignedByHolder(scheme, key, disk.files);
      }
    }

    method WriteQuickDocs(soul: string, f: Faults) returns (ok: bool)
      modifies disk
      ensures ok <==> forall i: nat :: i < 4 ==> f.work(i)
      ensures OnlyDocs(old(disk.files), disk.files)
      ensures ok ==> disk.files.docs == QuickDocs(old(disk.files).docs, soul) && HasDocs(disk.files)
    {
      var written := disk.WriteDoc(SOUL, soul, f.work(0));
      if !written {
        return false;
      }
      written := disk.WriteDoc(ETHICS, templates.ethics, f.work(1));
      if !written {
        return false;
      }
      written := disk.WriteDoc(INSTINCTS, templates.instincts, f.work(2));
      if !written {
        return false;
      }
      ok := disk.WriteDoc(GROWTH, templates.growth, f.work(3));
    }

    /** A server restart: memory is lost, and the persisted key is read back, whatever the stage. */
    method Restart(f: Faults)
      requires Valid()
      modifies this
      ensures Valid() && trace == old(trace) + [Now()]
      ensures birthKeys == disk.LoadSigningKey(f.keyReadOk) && !session
    {
      session := false;
      birthKeys := disk.LoadSigningKey(f.keyReadOk);
      Log();
    }

    // ---- What every history keeps ----

    /** Once the key is persisted it stays recoverable, and belongs to the public key, until birth completes. */
    lemma KeyRecoverable(i: nat, j: nat)
      requires Valid() && i <= j < |trace|
      requires trace[i].files.keyFile.Some? && !trace[j].files.config.birthComplete
      ensures trace[j].files.keyFile == trace[i].files.keyFile
      ensures trace[j].files.pubkey == Some(scheme.pub(trace[j].files.keyFile.value))
    {
      KeyStays(scheme, trace, i, j);
    }

    /** Once every copy of the private key is gone, with birth not complete, no history ever completes it: no handler
        makes a second identity. */
    lemma LostKeyNeverCompletes(i: nat, j: nat)
      requires Valid() && i <= j < |trace| && KeyLost(trace[i]) && !trace[i].files.config.birthComplete
      ensures KeyLost(trace[j]) && !trace[j].files.config.birthComplete
    {
      LossStays(scheme, trace, i, j);
    }

    /** Whenever an agent stands at Emergence, all three documents are on disk. */
    lemma EmergenceHasDocuments(i: nat)
      requires Valid() && i < |trace| && !trace[i].files.config.birthComplete
        && StageOf(trace[i].files.config) == Emergence
      ensures HasDocs(trace[i].files)
    {
      assert Sound(scheme, trace[i]);
    }

    /** The stages passed through before completion, in order and without repetition, are a prefix of the five. */
    lemma StagesArePrefix(n: nat)
      requires Valid() && n <= |trace| && forall i :: 0 <= i < n ==> !trace[i].files.config.birthComplete
      ensures StagesPassed(trace[..n]) <= STAGES
      ensures forall i :: 0 <= i < n ==> StageOf(trace[i].files.config) in StagesPassed(trace[..n])
    {
      StagesPassedAre(scheme, trace, n);
      AllStagesPassed(trace, n);
    }

    /** A completed birth is final: from then on the files never change, the signatures verify, and a key that
        is gone from disk is gone from memory. */
    lemma CompletedIsFinal(i: nat, j: nat)
      requires Correct(scheme) && Valid() && i <= j < |trace| && trace[i].files.config.birthComplete
      ensures trace[j].files == trace[i].files && SignaturesVerify(scheme, trace[j].files)
      ensures trace[i].files.keyFile.None? ==> trace[j].held.None?
    {
      FilesFrozen(scheme, trace, i, j);
      SignedVerifies(scheme, trace[j].files);
    }

    /** And it is sealed: files with the same public key and signatures verify exactly if they hold the very three
        documents of the completed birth. */
    lemma CompletedIsSealed(i: nat, g: Files)
      requires Correct(scheme) && Binding(scheme) && Valid() && i < |trace| && trace[i].files.config.birthComplete
      requires g.pubkey == trace[i].files.pubkey && g.sigs == trace[i].files.sigs
      ensures SignaturesVerify(scheme, g) <==>
        forall d :: d in CONSTITUTION ==> d in g.docs && d in trace[i].files.docs && g.docs[d] == trace[i].files.docs[d]
    {
      FilesFrozen(scheme, trace, i, i);
      SignaturesCoverDocuments(scheme, trace[i].files, g);
    }
  }

  /** A quick start in the very first stage, right after the identity was generated: birth is complete without a
      record, and if the path cannot be persisted the answer is an error and the key stays on disk. */
  method QuickStartInDarkness(scheme: Scheme, t: Templates, key: Key, soul: string, pathOk: bool)
    returns (s: Server, r: Response)
    ensures fresh(s) && s.Valid() && s.scheme == scheme && |s.trace| == 3
      && StageOf(s.trace[1].files.config) == Darkness
    ensures s.disk.files.config.birthComplete && !s.disk.files.birthRecord && s.disk.files.docs[SOUL] == soul
    ensures (r.Ok? <==> pathOk) && s.disk.files.keyFile == if pathOk then None else Some(key)
  {
    NamesDiffer();
    s := new Server(scheme, t);
    var f := Faults(true, true, true, true, _ => true, true, true, pathOk, true);
    r := s.BirthState(key, f);
    r := s.QuickStartGenesis(soul, f);
  }

  /** Without faults, four requests take an agent to Genesis. */
  method ReachGenesis(scheme: Scheme, t: Templates, key: Key) returns (s: Server)
    ensures fresh(s) && fresh(s.disk) && s.Valid() && s.scheme == scheme && s.templates == t && s.session
    ensures s.birthKeys == Some(key) && |s.trace| == 5
    ensures s.disk.files == Files(Config(Some("Genesis"), false), Some(scheme.pub(key)), Some(key), map[], map[], false,
                                  Some(PathId(Direct)))
    ensures forall i :: 1 <= i <= 4 ==>
      StageOf(s.trace[i].files.config) == [Darkness, Ignition, Connectivity, Genesis][i - 1]
  {
    s := new Server(scheme, t);
    var r := s.BirthState(key, NO_FAULTS);
    r := s.AdvanceDarkness(NO_FAULTS);
    r := s.IgniteLocal(None, true, NO_FAULTS);
    r := s.GenesisStart(Direct, true, NO_FAULTS);
  }

  const NO_FAULTS: Faults := Faults(true, true, true, true, _ => true, true, true, true, true)

  /** The whole protocol works: without faults, two more requests take it to a recorded, signed and complete birth,
      whether genesis ends in a step or in chat, and leave no key behind. */
  method BirthRunsThrough(scheme: Scheme, t: Templates, key: Key, m: Manifest, byChat: bool) returns (s: Server)
    ensures fresh(s) && s.Valid() && |s.trace| == 7 && StageOf(s.trace[5].files.config) == Emergence
    ensures var f := s.disk.files;
      f.config.birthComplete && f.birthRecord && Signed(scheme, f) && f.pubkey == Some(scheme.pub(key))
      && SOUL in f.docs && f.docs[SOUL] == m.soul && KeyLost(s.Now())
  {
    hide Crystallized, Signed, SignedWith, History, Evolves;
    var birth := PickManifest(t, m, byChat);
    s := ReachGenesis(scheme, t, key);
    CrystallizedFacts(s.disk.files, t, birth);
    CrystallizedKeeps(s.disk.files, t, birth);
    if byChat {
      assert Trim("x") == "x";
      var r := s.BirthChat("x", Some(m), NO_FAULTS, true);
    } else {
      var r := s.GenesisStep(StepComplete(m), NO_FAULTS);
    }
    assert s.disk.files.config == Config(Some("Emergence"), false);
    var r := s.CompleteEmergence(NO_FAULTS);
    LastStep(s, 6);
  }

  function PickManifest(t: Templates, m: Manifest, byChat: bool): Manifest {
    if byChat then ChatManifest(t, m) else m
  }

  lemma LastStep(s: Server, n: nat)
    requires s.Valid() && |s.trace| == n + 1 && n > 0
    ensures Sound(s.scheme, s.Now())
    ensures s.trace[n - 1].files.pubkey.Some? ==> s.Now().files.pubkey == s.trace[n - 1].files.pubkey
  {
    assert Evolves(s.trace[n - 1], s.trace[n - 1 + 1]);
  }

  /** A quick start writes each template under its own name, the given soul, and nothing else. */
  lemma QuickDocsFacts(s: Server, docs: map<string, string>, soul: string)
    ensures var written := s.QuickDocs(docs, soul);
      SOUL in written && written[SOUL] == soul && GROWTH in written && written[GROWTH] == s.templates.growth
      && ETHICS in written && written[ETHICS] == s.templates.ethics
      && INSTINCTS in written && written[INSTINCTS] == s.templates.instincts
      && written.Keys == docs.Keys + {SOUL, ETHICS, INSTINCTS, GROWTH}
      && forall d :: d in docs && d !in {SOUL, ETHICS, INSTINCTS, GROWTH} ==> written[d] == docs[d]
  {
    NamesDiffer();
  }

  /** How an identity gets lost: one failed write while it is generated. */
  method IdentityLost(scheme: Scheme, t: Templates, key: Key) returns (s: Server)
    ensures fresh(s) && s.Valid() && KeyLost(s.Now()) && !s.disk.files.config.birthComplete
  {
    s := new Server(scheme, t);
    var r := s.BirthState(key, Faults(true, true, true, true, i => i == 0, true, true, true, true));
  }

  /** Crystallizing at Genesis keeps the files sound and moves on by one stage. */
  lemma CrystallizedKeeps(f: Files, t: Templates, m: Manifest)
    ensures var g := Crystallized(f, t, m);
      HasDocs(g) && g.config == Config(Some("Emergence"), false) && StageOf(g.config) == Emergence
      && g == f.(docs := g.docs, config := g.config) && f.docs.Keys <= g.docs.Keys
  {
    CrystallizedFacts(f, t, m);
  }

  /** The six operations of signing are the fifth to the tenth of a quick start. */
  lemma SixOperations(work: nat -> bool)
    ensures (forall i :: 0 <= i < |CONSTITUTION| ==> work(4 + 2 * i) && work(4 + (2 * i + 1)))
       <==> forall i: nat :: 4 <= i < 10 ==> work(i)
  {
    if forall i :: 0 <= i < |CONSTITUTION| ==> work(4 + 2 * i) && work(4 + (2 * i + 1)) {
      assert work(4 + 2 * 0) && work(4 + 2 * 1) && work(4 + 2 * 2);
      assert work(4 + (2 * 0 + 1)) && work(4 + (2 * 1 + 1)) && work(4 + (2 * 2 + 1));
    }
  }

  lemma StillSigned(s: Scheme, f: Files, g: Files)
    requires Signed(s, f) && g.pubkey == f.pubkey && g.docs == f.docs && g.sigs == f.sigs
    ensures Signed(s, g)
  {
    var k :| f.pubkey == Some(s.pub(k)) && SignedWith(s, k, f);
    assert forall d :: d in CONSTITUTION && SignedBy(s, k, f, d) ==> SignedBy(s, k, g, d);
    assert SignedWith(s, k, g);
  }

  lemma SignedByHolder(s: Scheme, k: Key, f: Files)
    requires f.pubkey == Some(s.pub(k)) && SignedWith(s, k, f)
    ensures Signed(s, f)
  {
  }

  lemma {:induction false} KeyStays(s: Scheme, trace: seq<State>, i: nat, j: nat)
    requires History(s, trace) && i <= j < |trace|
    requires trace[i].files.keyFile.Some? && !trace[j].files.config.birthComplete
    ensures trace[j].files.keyFile == trace[i].files.keyFile
    ensures trace[j].files.pubkey == Some(s.pub(trace[j].files.keyFile.value))
  {
    assert Sound(s, trace[j]);
    if i < j {
      assert Evolves(trace[j - 1], trace[j - 1 + 1]);
      KeyStays(s, trace, i, j - 1);
    }
  }

  lemma {:induction false} LossStays(s: Scheme, trace: seq<State>, i: nat, j: nat)
    requires History(s, trace) && i <= j < |trace| && KeyLost(trace[i]) && !trace[i].files.config.birthComplete
    ensures KeyLost(trace[j]) && !trace[j].files.config.birthComplete
  {
    if i < j {
      assert Evolves(trace[j - 1], trace[j - 1 + 1]);
      LossStays(s, trace, i, j - 1);
    }
  }

  lemma {:induction false} FilesFrozen(s: Scheme, trace: seq<State>, i: nat, j: nat)
    requires History(s, trace) && i <= j < |trace| && trace[i].files.config.birthComplete
    ensures trace[j].files == trace[i].files && Signed(s, trace[j].files)
    ensures trace[i].files.keyFile.None? ==> trace[j].held.None?
  {
    assert Sound(s, trace[j]);
    if i < j {
      assert Evolves(trace[j - 1], trace[j - 1 + 1]);
      FilesFrozen(s, trace, i, j - 1);
    }
  }

  /** The stages of a history, each noted when it is first entered. */
  function StagesPassed(trace: seq<State>): seq<BirthStage> {
    if trace == [] then []
    else
      var before := StagesPassed(trace[..|trace| - 1]);
      var s := StageOf(trace[|trace| - 1].files.config);
      if before != [] && before[|before| - 1] == s then before else before + [s]
  }

  lemma {:induction false} AllStagesPassed(trace: seq<State>, n: nat)
    requires n <= |trace|
    ensures forall i :: 0 <= i < n ==> StageOf(trace[i].files.config) in StagesPassed(trace[..n])
  {
    hide StageOf;
    if n > 0 {
      AllStagesPassed(trace, n - 1);
      assert trace[..n][..n - 1] == trace[..n - 1];
    }
  }

  lemma {:induction false} StagesPassedAre(s: Scheme, trace: seq<State>, n: nat)
    requires History(s, trace) && n <= |trace|
    requires forall i :: 0 <= i < n ==> !trace[i].files.config.birthComplete
    ensures n == 0 ==> StagesPassed(trace[..n]) == []
    ensures n > 0 ==> StagesPassed(trace[..n]) == STAGES[..Rank(StageOf(trace[n - 1].files.config)) + 1]
  {
    if n > 0 {
      StagesPassedAre(s, trace, n - 1);
      assert trace[..n][..n - 1] == trace[..n - 1];
      var now := StageOf(trace[n - 1].files.config);
      NamesRoundTrip(now);
      if n > 1 {
        assert Evolves(trace[n - 2], trace[n - 2 + 1]);
        NamesRoundTrip(StageOf(trace[n - 2].files.config));
      }
    }
  }
}
