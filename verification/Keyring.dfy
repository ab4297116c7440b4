/** Signing of the constitutional documents and the signing key on disk (crates/orion-core/src/keyring.rs),
    over the files of one agent. Ed25519 is a parameter. */
module Keyring {
  import opened Text

  type Key = nat
  type PublicKey = nat
  type Signature = nat

  datatype Scheme = Scheme(pub: Key -> PublicKey, sign: (Key, string) -> Signature,
    verify: (PublicKey, string, Signature) -> bool)

  /** What signing and verification promise together (sections 5.1.6 and 5.1.7 of RFC 8032). */
  ghost predicate Correct(s: Scheme) {
    forall k, m :: s.verify(s.pub(k), m, s.sign(k, m))
  }

  /** A signature verifies for the message that was signed, and for no other. */
  ghost predicate Binding(s: Scheme) {
    forall k, m, m' :: s.verify(s.pub(k), m', s.sign(k, m)) ==> m' == m
  }

  /** The part of an agent's configuration that the birth protocol reads. */
  datatype Config = Config(birthStage: Option<string>, birthComplete: bool)

  /** An agent's directory, birth record included. */
  datatype Files = Files(
    config: Config, pubkey: Option<PublicKey>, keyFile: Option<Key>, docs: map<string, string>,
    sigs: map<string, Signature>, birthRecord: bool, genesisPath: Option<string>)

  const SOUL := "soul.md"
  const ETHICS := "ethics.md"
  const INSTINCTS := "instincts.md"
  const GROWTH := "growth.md"
  const SOUL_JSON := "soul.json"
  const CONSTITUTION: seq<string> := [SOUL, ETHICS, INSTINCTS]

  /** The text that is signed for a constitutional document. */
  function Signable(name: string, content: string): string {
    name + "|constitutional|" + content
  }

  predicate HasDocs(f: Files) {
    forall d :: d in CONSTITUTION ==> d in f.docs
  }

  /** The signature of `d` on disk is the key's signature over what is on disk now. */
  predicate SignedBy(s: Scheme, k: Key, f: Files, d: string) {
    d in f.docs && d in f.sigs && f.sigs[d] == s.sign(k, Signable(d, f.docs[d]))
  }

  /** All constitutional documents are signed with this key. */
  ghost predicate SignedWith(s: Scheme, k: Key, f: Files) {
    HasDocs(f) && forall d :: d in CONSTITUTION ==> SignedBy(s, k, f, d)
  }

  /** They are signed with the private key of the public key on disk. */
  ghost predicate Signed(s: Scheme, f: Files) {
    exists k :: f.pubkey == Some(s.pub(k)) && SignedWith(s, k, f)
  }

  /** All constitutional signatures verify under the public key on disk. */
  predicate SignaturesVerify(s: Scheme, f: Files) {
    f.pubkey.Some? && HasDocs(f) &&
    forall d :: d in CONSTITUTION ==> d in f.sigs && s.verify(f.pubkey.value, Signable(d, f.docs[d]), f.sigs[d])
  }

  // ---- What the signatures cover ----

  /** Two signed texts are the same only for the same document with the same content. */
  lemma SignableIsInjective(m: string, a: string, n: string, b: string)
    requires m in CONSTITUTION && n in CONSTITUTION
    ensures Signable(m, a) == Signable(n, b) <==> m == n && a == b
  {
    var x, y := Signable(m, a), Signable(n, b);
    assert x[0] == m[0] && y[0] == n[0];
    assert x[|m| + 16..] == a && y[|n| + 16..] == b;
  }

  lemma SignedVerifies(s: Scheme, f: Files)
    requires Correct(s) && Signed(s, f)
    ensures SignaturesVerify(s, f)
  {
    hide Signable;
    var k :| f.pubkey == Some(s.pub(k)) && SignedWith(s, k, f);
    forall d | d in CONSTITUTION ensures d in f.sigs && s.verify(f.pubkey.value, Signable(d, f.docs[d]), f.sigs[d]) {
      assert SignedBy(s, k, f, d);
    }
  }

  /** What signing is for: with the same public key and the same signatures, files verify exactly if they hold the very
      three documents that were signed. */
  lemma SignaturesCoverDocuments(s: Scheme, f: Files, g: Files)
    requires Correct(s) && Binding(s) && Signed(s, f) && g.pubkey == f.pubkey && g.sigs == f.sigs
    ensures SignaturesVerify(s, g) <==> forall d :: d in CONSTITUTION ==> d in g.docs && g.docs[d] == f.docs[d]
  {
    hide Signable;
    SignedVerifies(s, f);
    var k :| f.pubkey == Some(s.pub(k)) && SignedWith(s, k, f);
    if SignaturesVerify(s, g) {
      forall d | d in CONSTITUTION ensures d in g.docs && g.docs[d] == f.docs[d] {
        assert SignedBy(s, k, f, d);
        SignableIsInjective(d, g.docs[d], d, f.docs[d]);
      }
    }
  }

  /** And a signature of one document never passes for another. */
  lemma SignaturesCannotBeExchanged(s: Scheme, f: Files, g: Files, d: string, e: string)
    requires Binding(s) && Signed(s, f) && g.pubkey == f.pubkey
    requires d in CONSTITUTION && e in CONSTITUTION && d != e && d in g.sigs && g.sigs[d] == f.sigs[e]
    ensures !SignaturesVerify(s, g)
  {
    hide Signable;
    var k :| f.pubkey == Some(s.pub(k)) && SignedWith(s, k, f);
    assert SignedBy(s, k, f, e);
    if SignaturesVerify(s, g) {
      SignableIsInjective(d, g.docs[d], e, f.docs[e]);
    }
  }

  /** The files of one agent, which every request opens anew. */
  class Disk {
    var files: Files

    constructor ()
      ensures files == Files(Config(None, false), None, None, map[], map[], false, None)
    {
      files := Files(Config(None, false), None, None, map[], map[], false, None);
    }

    method SaveConfig(c: Config, ok: bool) returns (r: bool)
      modifies this
      ensures r == ok && files == if ok then old(files).(config := c) else old(files)
    {
      if ok {
        files := files.(config := c);
      }
      return ok;
    }

    method WriteDoc(name: string, content: string, ok: bool) returns (r: bool)
      modifies this
      ensures r == ok && files == if ok then old(files).(docs := old(files).docs[name := content]) else old(files)
    {
      if ok {
        files := files.(docs := files.docs[name := content]);
      }
      return ok;
    }

    /** Signs the three documents in order, stopping at the first that is missing or cannot be read or written. */
    method SignConstitutionalDocuments(s: Scheme, key: Key, io: nat -> bool) returns (ok: bool)
      modifies this
      ensures files == old(files).(sigs := files.sigs)
      ensures ok <==> HasDocs(files) && forall i :: 0 <= i < |CONSTITUTION| ==> io(2 * i) && io(2 * i + 1)
      ensures ok ==> SignedWith(s, key, files)
      ensures forall d :: d !in CONSTITUTION ==>
        (d in files.sigs <==> d in old(files).sigs) && (d in files.sigs ==> files.sigs[d] == old(files).sigs[d])
    {
      for i := 0 to |CONSTITUTION|
        invariant files == old(files).(sigs := files.sigs)
        invariant forall k :: 0 <= k < i ==> SignedBy(s, key, files, CONSTITUTION[k]) && io(2 * k) && io(2 * k + 1)
        invariant forall d :: d !in CONSTITUTION ==>
          (d in files.sigs <==> d in old(files).sigs) && (d in files.sigs ==> files.sigs[d] == old(files).sigs[d])
      {
        var name := CONSTITUTION[i];
        assert name in CONSTITUTION;
        if name !in files.docs || !io(2 * i) {
          return false;
        }
        var signature := s.sign(key, Signable(name, files.docs[name]));
        if !io(2 * i + 1) {
          return false;
        }
        files := files.(sigs := files.sigs[name := signature]);
      }
      return true;
    }

    method PersistSigningKey(key: Key, ok: bool)
      modifies this
      ensures files == if ok then old(files).(keyFile := Some(key)) else old(files)
    {
      if ok {
        files := files.(keyFile := Some(key));
      }
    }

    /** `load_signing_key(..).ok().flatten()`: a read error is treated as no key. */
    function LoadSigningKey(ok: bool): Option<Key>
      reads this
    {
      if ok then files.keyFile else None
    }

    method DeleteSigningKey(ok: bool)
      modifies this
      ensures files == if ok then old(files).(keyFile := None) else old(files)
    {
      if ok {
        files := files.(keyFile := None);
      }
    }
  }
}
