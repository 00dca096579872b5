/**
 * Certificate provisioning of modules/ssl.ts (`checkOrCreateCert`).
 *
 * The file system is a mutable map from path to contents. Certificate
 * generation by mkcert is not modelled: the CA and the leaf it returns are
 * opaque values passed in, and the model records which requests were made.
 * Whether each `writeFile` succeeds is an oracle.
 */
module Ssl {
  import opened Common
  import Utils

  function KeyPath(root: string): string { PathJoin(root, "key.pem") }
  function CertPath(root: string): string { PathJoin(root, "cert.pem") }
  function ChainPath(root: string): string { PathJoin(root, "fullchain.pem") }

  /** The three artifact paths under one root are pairwise distinct. */
  lemma PathsDistinct(root: string)
    ensures KeyPath(root) != CertPath(root) && KeyPath(root) != ChainPath(root) && CertPath(root) != ChainPath(root)
  {
    var n := |root| + 1;
    assert KeyPath(root)[n] == 'k' && CertPath(root)[n] == 'c' && ChainPath(root)[n] == 'f';
  }

  /** What `stat(path)` reports on this file system. */
  function StatOf(files: map<string, string>, path: string): (s: Utils.Stat)
    ensures s.Found? <==> path in files
  {
    if path in files then Utils.Found else Utils.StatError("ENOENT")
  }

  /** The certificate authority mkcert creates. */
  datatype CA = CA(key: string, cert: string)
  /** The leaf certificate mkcert signs with the CA. */
  datatype Leaf = Leaf(key: string, cert: string)

  /** Arguments of `createCA`. */
  datatype CaRequest = CaRequest(organization: string, countryCode: string, state: string, locality: string, validity: int)
  /** Arguments of `createCert`. */
  datatype LeafRequest = LeafRequest(domains: seq<string>, validity: int, ca: CA, organization: string)

  const Organization := "Kompakkt.Mono Dev"
  const CaParameters := CaRequest(Organization, "DE", "NRW", "Cologne", 365)
  const LocalDomains := ["127.0.0.1", "localhost", "kompakkt.local"]

  /** The leaf is requested for the three local names, valid 365 days, signed by `ca`. */
  function LeafParameters(ca: CA): LeafRequest
  {
    LeafRequest(LocalDomains, 365, ca, Organization)
  }

  /** The chain file: the leaf certificate, a newline, then the CA certificate. */
  function FullChain(ca: CA, leaf: Leaf): string
  {
    leaf.cert + "\n" + ca.cert
  }

  /** The effects `checkOrCreateCert` issues. */
  datatype Event = CreateCA(ca: CaRequest) | CreateCert(leaf: LeafRequest) | WriteFile(path: string, contents: string)

  /** The state after a call: the files, the effects issued, and the exit status if it ended the process. */
  datatype Provisioned = Provisioned(files: map<string, string>, events: seq<Event>, exit: Option<int>)

  /** `writeFile(path, contents)`: the file is replaced when the write succeeds. */
  function WriteIf(files: map<string, string>, ok: bool, path: string, contents: string): map<string, string>
  {
    if ok then files[path := contents] else files
  }

  /** The effect of `checkOrCreateCert(root)` on `files`, given mkcert's CA and leaf and which writes succeed. */
  function Provision(files: map<string, string>, root: string, ca: CA, leaf: Leaf, writeOk: string -> bool): Provisioned
  {
    if KeyPath(root) in files && CertPath(root) in files then Provisioned(files, [], None)
    else
      var f := WriteIf(files, writeOk(KeyPath(root)), KeyPath(root), leaf.key);
      var f := WriteIf(f, writeOk(CertPath(root)), CertPath(root), leaf.cert);
      var f := WriteIf(f, writeOk(ChainPath(root)), ChainPath(root), FullChain(ca, leaf));
      var allOk := writeOk(KeyPath(root)) && writeOk(CertPath(root)) && writeOk(ChainPath(root));
      Provisioned(f,
        [CreateCA(CaParameters), CreateCert(LeafParameters(ca)),
         WriteFile(KeyPath(root), leaf.key), WriteFile(CertPath(root), leaf.cert),
         WriteFile(ChainPath(root), FullChain(ca, leaf))],
        if allOk then None else Some(1))
  }

  /** With key and cert present nothing is generated or written, whatever else is on disk. */
  lemma ProvisionSkips(files: map<string, string>, root: string, ca: CA, leaf: Leaf, writeOk: string -> bool)
    requires KeyPath(root) in files && CertPath(root) in files
    ensures Provision(files, root, ca, leaf, writeOk) == Provisioned(files, [], None)
  {
  }

  /** The chain file is never consulted: its presence or absence alone changes no decision. */
  lemma ChainNotConsulted(files: map<string, string>, root: string, ca: CA, leaf: Leaf, writeOk: string -> bool, chain: string)
    ensures Provision(files[ChainPath(root) := chain], root, ca, leaf, writeOk).events
         == Provision(files - {ChainPath(root)}, root, ca, leaf, writeOk).events
  {
    PathsDistinct(root);
  }

  /**
   * With key or cert missing: one CA and one leaf are requested, exactly three
   * files are written under `root` (key, cert, chain), each successful write
   * lands, nothing else changes, and any failed write ends the process with 1.
   */
  lemma ProvisionWrites(files: map<string, string>, root: string, ca: CA, leaf: Leaf, writeOk: string -> bool)
    requires !(KeyPath(root) in files && CertPath(root) in files)
    ensures var p := Provision(files, root, ca, leaf, writeOk);
      && p.events[..2] == [CreateCA(CaParameters), CreateCert(LeafParameters(ca))]
      && p.events[2..] == [WriteFile(KeyPath(root), leaf.key), WriteFile(CertPath(root), leaf.cert),
                           WriteFile(ChainPath(root), leaf.cert + "\n" + ca.cert)]
      && (writeOk(KeyPath(root)) ==> KeyPath(root) in p.files && p.files[KeyPath(root)] == leaf.key)
      && (writeOk(CertPath(root)) ==> CertPath(root) in p.files && p.files[CertPath(root)] == leaf.cert)
      && (writeOk(ChainPath(root)) ==> ChainPath(root) in p.files && p.files[ChainPath(root)] == leaf.cert + "\n" + ca.cert)
      && (forall q :: q != KeyPath(root) && q != CertPath(root) && q != ChainPath(root) ==>
            (q in p.files <==> q in files) && (q in files ==> p.files[q] == files[q]))
      && (p.exit == Some(1) <==> !(writeOk(KeyPath(root)) && writeOk(CertPath(root)) && writeOk(ChainPath(root))))
      && (p.exit.None? <==> !(p.exit == Some(1)))
  {
    PathsDistinct(root);
  }

  /**
   * Idempotence: once a call has written key and cert (even if the chain write
   * failed), a later call generates and writes nothing, whatever mkcert and the
   * disk would do then.
   */
  lemma {:induction false} ProvisionIdempotent(files: map<string, string>, root: string, ca: CA, leaf: Leaf,
                                               writeOk: string -> bool, ca': CA, leaf': Leaf, writeOk': string -> bool)
    requires writeOk(KeyPath(root)) && writeOk(CertPath(root))
    ensures var first := Provision(files, root, ca, leaf, writeOk);
      Provision(first.files, root, ca', leaf', writeOk') == Provisioned(first.files, [], None)
  {
    var first := Provision(files, root, ca, leaf, writeOk);
    if !(KeyPath(root) in files && CertPath(root) in files) {
      ProvisionWrites(files, root, ca, leaf, writeOk);
    }
    assert KeyPath(root) in first.files && CertPath(root) in first.files;
  }

  /** The workspace disk, as `checkOrCreateCert` sees and changes it, with the process's exit status. */
  class Disk {
    var files: map<string, string>
    var log: seq<Event>
    var exitStatus: Option<int>

    constructor(initial: map<string, string>)
      ensures files == initial && log == [] && exitStatus == None
    {
      files := initial;
      log := [];
      exitStatus := None;
    }

    /** `checkOrCreateCert(root)`. */
    method CheckOrCreateCert(root: string, ca: CA, leaf: Leaf, writeOk: string -> bool)
      modifies this
      ensures var p := Provision(old(files), root, ca, leaf, writeOk);
        && files == p.files
        && log == old(log) + p.events
        && exitStatus == (if p.exit.Some? then p.exit else old(exitStatus))
    {
      var keyPath := KeyPath(root);
      var keyExists := Utils.Exists(StatOf(files, keyPath));
      var certPath := CertPath(root);
      var certExists := Utils.Exists(StatOf(files, certPath));
      var fullchainPath := ChainPath(root);

      if keyExists && certExists {
        return;
      }

      log := log + [CreateCA(CaParameters), CreateCert(LeafParameters(ca))];
      log := log + [WriteFile(keyPath, leaf.key), WriteFile(certPath, leaf.cert), WriteFile(fullchainPath, FullChain(ca, leaf))];
      if writeOk(keyPath) {
        files := files[keyPath := leaf.key];
      }
      if writeOk(certPath) {
        files := files[certPath := leaf.cert];
      }
      if writeOk(fullchainPath) {
        files := files[fullchainPath := FullChain(ca, leaf)];
      }
      if !(writeOk(keyPath) && writeOk(certPath) && writeOk(fullchainPath)) {
        exitStatus := Some(1);
      }
    }
  }

  /** Two runs on one disk: the second, after a successful first, leaves files and log as they were. */
  method TwoRuns(initial: map<string, string>, root: string, ca: CA, leaf: Leaf, ca': CA, leaf': Leaf,
                 writeOk': string -> bool)
    returns (after1: map<string, string>, after2: map<string, string>, secondEvents: seq<Event>)
    ensures after2 == after1 && secondEvents == []
    ensures (KeyPath(root) in initial && CertPath(root) in initial) ==> after1 == initial
  {
    var disk := new Disk(initial);
    disk.CheckOrCreateCert(root, ca, leaf, _ => true);
    after1 := disk.files;
    var logged := |disk.log|;
    ProvisionIdempotent(initial, root, ca, leaf, _ => true, ca', leaf', writeOk');
    disk.CheckOrCreateCert(root, ca', leaf', writeOk');
    after2 := disk.files;
    secondEvents := disk.log[logged..];
  }
}
