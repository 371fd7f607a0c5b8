/**
 Where the agent keeps its identity between restarts: three files replaced one
 at a time, any step of which may fail or be the last thing the process does.
 */
module IdentityStore {
  import opened Prelude
  import opened Identity

  datatype Name = KeyFile | CertFile | CaFile

  /** What a path holds. Torn stands for any partly written content. */
  datatype Content = Absent | Whole(data: Pem) | Torn

  datatype Files = Files(key: Content, certificate: Content, ca: Content) {
    function At(name: Name): Content {
      match name
      case KeyFile => key
      case CertFile => certificate
      case CaFile => ca
    }

    function Put(name: Name, content: Content): Files {
      match name
      case KeyFile => this.(key := content)
      case CertFile => this.(certificate := content)
      case CaFile => this.(ca := content)
    }
  }

  datatype Disk = Disk(final: Files, temporary: Files)

  /** How one primitive file operation ends. A crash also ends the process. */
  datatype Fate = Succeeds | Fails | Crashes

  datatype Operation = MakeDirectory | WriteTemporary(name: Name) | Rename(name: Name)

  datatype Outcome = Saved | Failed | Crashed

  /** What the TLS library decides about PEM text. */
  datatype X509 = X509(pairs: (Pem, Pem) -> bool, parse: Pem -> Option<Leaf>)

  datatype LoadError = Unreadable(name: Name) | Mismatched | Unparsable

  function Ending(fate: Fate): Outcome {
    match fate
    case Succeeds => Saved
    case Fails => Failed
    case Crashes => Crashed
  }

  /** writeFile: a temporary file, then a rename. */
  function Wrote(disk: Disk, name: Name, data: Pem, fate: Operation -> Fate): (Disk, Outcome) {
    if fate(WriteTemporary(name)) != Succeeds then
      (disk.(temporary := disk.temporary.Put(name, Torn)), Ending(fate(WriteTemporary(name))))
    else if fate(Rename(name)) != Succeeds then
      (disk.(temporary := disk.temporary.Put(name, Whole(data))), Ending(fate(Rename(name))))
    else
      (Disk(disk.final.Put(name, Whole(data)), disk.temporary.Put(name, Absent)), Saved)
  }

  /** Save: the directory, then the key, the certificate and the CA bundle in that order. */
  function SaveEffect(disk: Disk, m: Material, fate: Operation -> Fate): (Disk, Outcome) {
    if fate(MakeDirectory) != Succeeds then (disk, Ending(fate(MakeDirectory)))
    else
      var (d1, o1) := Wrote(disk, KeyFile, m.key, fate);
      if o1 != Saved then (d1, o1)
      else
        var (d2, o2) := Wrote(d1, CertFile, m.certificate, fate);
        if o2 != Saved then (d2, o2) else Wrote(d2, CaFile, m.caBundle, fate)
  }

  /** NewMaterial: a certificate and key that match, with a leaf that parses. */
  function NewMaterial(x509: X509, certificate: Pem, key: Pem, ca: Pem): Result<Material, LoadError> {
    if !x509.pairs(certificate, key) then Err(Mismatched)
    else if x509.parse(certificate).None? then Err(Unparsable)
    else Ok(Material(certificate, key, ca, x509.parse(certificate).value))
  }

  function LoadEffect(x509: X509, files: Files): Result<Material, LoadError> {
    if !files.certificate.Whole? then Err(Unreadable(CertFile))
    else if !files.key.Whole? then Err(Unreadable(KeyFile))
    else if !files.ca.Whole? then Err(Unreadable(CaFile))
    else NewMaterial(x509, files.certificate.data, files.key.data, files.ca.data)
  }

  /** All three files are there, whatever they hold. */
  predicate Exists(files: Files) {
    files.key != Absent && files.certificate != Absent && files.ca != Absent
  }

  class FileStore {
    var disk: Disk

    constructor (disk: Disk)
      ensures this.disk == disk
    {
      this.disk := disk;
    }

    method WriteFile(name: Name, data: Pem, fate: Operation -> Fate) returns (outcome: Outcome)
      modifies this
      ensures (disk, outcome) == Wrote(old(disk), name, data, fate)
    {
      disk := disk.(temporary := disk.temporary.Put(name, Torn));
      if fate(WriteTemporary(name)) != Succeeds {
        return Ending(fate(WriteTemporary(name)));
      }
      disk := disk.(temporary := disk.temporary.Put(name, Whole(data)));
      if fate(Rename(name)) != Succeeds {
        return Ending(fate(Rename(name)));
      }
      disk := Disk(disk.final.Put(name, disk.temporary.At(name)), disk.temporary.Put(name, Absent));
      outcome := Saved;
    }

    method Save(m: Material, fate: Operation -> Fate) returns (outcome: Outcome)
      modifies this
      ensures (disk, outcome) == SaveEffect(old(disk), m, fate)
    {
      if fate(MakeDirectory) != Succeeds {
        return Ending(fate(MakeDirectory));
      }
      outcome := WriteFile(KeyFile, m.key, fate);
      if outcome != Saved {
        return;
      }
      outcome := WriteFile(CertFile, m.certificate, fate);
      if outcome != Saved {
        return;
      }
      outcome := WriteFile(CaFile, m.caBundle, fate);
    }
  }

  /** What the platform answered: a certificate and a CA bundle, or an error. */
  datatype Answer = Refused | Issued(certificate: Pem, ca: Pem)

  /** Renew: validate, save, and only then swap the holder. */
  function RenewEffect(x509: X509, disk: Disk, held: Option<Material>, key: Pem, answer: Answer,
                       fate: Operation -> Fate)
    : (Disk, Option<Material>, Outcome)
  {
    if answer.Refused? then (disk, held, Failed)
    else
      match NewMaterial(x509, answer.certificate, key, answer.ca)
      case Err(_) => (disk, held, Failed)
      case Ok(m) =>
        var (after, outcome) := SaveEffect(disk, m, fate);
        (after, if outcome == Saved then Some(m) else held, outcome)
  }

  method Renew(x509: X509, store: FileStore, holder: Holder, key: Pem, answer: Answer, fate: Operation -> Fate)
    returns (outcome: Outcome)
    modifies store, holder
    ensures (store.disk, holder.material, outcome)
         == RenewEffect(x509, old(store.disk), old(holder.material), key, answer, fate)
  {
    if answer.Refused? {
      return Failed;
    }
    var material := NewMaterial(x509, answer.certificate, key, answer.ca);
    if material.Err? {
      return Failed;
    }
    outcome := store.Save(material.value, fate);
    if outcome == Saved {
      holder.Replace(material.value);
    }
  }

  // --------------------------------------------------- one save, at any crash

  /** How many of the three files a save has replaced when it stops. */
  function Replaced(fate: Operation -> Fate): nat {
    if fate(MakeDirectory) != Succeeds || fate(WriteTemporary(KeyFile)) != Succeeds || fate(Rename(KeyFile)) != Succeeds
    then 0
    else if fate(WriteTemporary(CertFile)) != Succeeds || fate(Rename(CertFile)) != Succeeds then 1
    else if fate(WriteTemporary(CaFile)) != Succeeds || fate(Rename(CaFile)) != Succeeds then 2
    else 3
  }

  /**
   Wherever a save stops, each stored file is wholly old or wholly new, and the
   new ones are a prefix of key, certificate, CA bundle.
   */
  lemma {:induction false} SaveIsPrefix(disk: Disk, m: Material, fate: Operation -> Fate)
    ensures
      var (after, outcome) := SaveEffect(disk, m, fate);
      var n := Replaced(fate);
      && after.final == Files(
           if 1 <= n then Whole(m.key) else disk.final.key,
           if 2 <= n then Whole(m.certificate) else disk.final.certificate,
           if 3 <= n then Whole(m.caBundle) else disk.final.ca)
      && (outcome == Saved <==> n == 3)
  {
  }

  // ------------------------------------------------------------- whole histories

  datatype Process = Down | Running(held: Material)

  /** The disk, the process, and every validated identity ever handed to Save. */
  datatype World = World(disk: Disk, process: Process, issued: seq<Material>)

  datatype Event =
    | Starts                                                    // loads what is stored
    | Enrols(key: Pem, answer: Answer, fate: Operation -> Fate) // only when nothing is stored
    | Renews(key: Pem, answer: Answer, fate: Operation -> Fate)
    | Dies

  function Handed(x509: X509, issued: seq<Material>, key: Pem, answer: Answer): seq<Material> {
    if answer.Refused? then issued
    else
      match NewMaterial(x509, answer.certificate, key, answer.ca)
      case Err(_) => issued
      case Ok(m) => issued + [m]
  }

  function Next(x509: X509, w: World, event: Event): World {
    match event
    case Starts =>
      if w.process.Down? && Exists(w.disk.final) then
        match LoadEffect(x509, w.disk.final)
        case Err(_) => w
        case Ok(m) => w.(process := Running(m))
      else w
    case Enrols(key, answer, fate) =>
      if w.process.Down? && !Exists(w.disk.final) then
        var (disk, held, _) := RenewEffect(x509, w.disk, None, key, answer, fate);
        World(disk, if held.Some? then Running(held.value) else Down, Handed(x509, w.issued, key, answer))
      else w
    case Renews(key, answer, fate) =>
      if w.process.Running? then
        var (disk, held, outcome) := RenewEffect(x509, w.disk, Some(w.process.held), key, answer, fate);
        World(disk, if outcome == Crashed then Down else Running(held.value), Handed(x509, w.issued, key, answer))
      else w
    case Dies => w.(process := Down)
  }

  function Run(x509: X509, w: World, events: seq<Event>): World
    decreases |events|
  {
    if events == [] then w else Next(x509, Run(x509, w, events[..|events| - 1]), events[|events| - 1])
  }

  const Fresh := World(Disk(Files(Absent, Absent, Absent), Files(Absent, Absent, Absent)), Down, [])

  /** A file that came from identity number i, or is not there yet (i == -1). */
  predicate KeyFrom(w: World, i: int) {
    -1 <= i < |w.issued| && w.disk.final.key == if i < 0 then Absent else Whole(w.issued[i].key)
  }

  predicate CertFrom(w: World, j: int) {
    -1 <= j < |w.issued| && w.disk.final.certificate == if j < 0 then Absent else Whole(w.issued[j].certificate)
  }

  predicate CaFrom(w: World, l: int) {
    -1 <= l < |w.issued| && w.disk.final.ca == if l < 0 then Absent else Whole(w.issued[l].caBundle)
  }

  /** The key on disk is never older than the certificate, nor that than the CA bundle. */
  predicate Layered(w: World, i: int, j: int, l: int) {
    KeyFrom(w, i) && CertFrom(w, j) && CaFrom(w, l) && l <= j <= i
  }

  predicate Validated(x509: X509, m: Material) {
    x509.pairs(m.certificate, m.key) && x509.parse(m.certificate) == Some(m.leaf)
  }

  ghost predicate Inv(x509: X509, w: World) {
    && (forall a :: 0 <= a < |w.issued| ==> Validated(x509, w.issued[a]))
    && (exists i, j, l :: Layered(w, i, j, l))
    && (w.process.Running? ==> Validated(x509, w.process.held))
  }

  lemma {:induction false} SaveKeepsLayers(x509: X509, w: World, m: Material, fate: Operation -> Fate, process: Process)
    requires exists i, j, l :: Layered(w, i, j, l)
    ensures exists i, j, l :: Layered(World(SaveEffect(w.disk, m, fate).0, process, w.issued + [m]), i, j, l)
  {
    var i, j, l :| Layered(w, i, j, l);
    SaveIsPrefix(w.disk, m, fate);
    var after := World(SaveEffect(w.disk, m, fate).0, process, w.issued + [m]);
    var n, k := |w.issued|, Replaced(fate);
    assert Layered(after, if 1 <= k then n else i, if 2 <= k then n else j, if 3 <= k then n else l);
  }

  lemma {:induction false} StepKeepsInv(x509: X509, w: World, event: Event)
    requires Inv(x509, w)
    ensures Inv(x509, Next(x509, w, event))
  {
    var after := Next(x509, w, event);
    if after.disk == w.disk && after.issued == w.issued {
      var i, j, l :| Layered(w, i, j, l);
      assert Layered(after, i, j, l);
    } else {
      var m := NewMaterial(x509, event.answer.certificate, event.key, event.answer.ca).value;
      SaveKeepsLayers(x509, w, m, event.fate, after.process);
      assert after.issued == w.issued + [m];
    }
  }

  lemma {:induction false} RunKeepsInv(x509: X509, events: seq<Event>)
    ensures Inv(x509, Run(x509, Fresh, events))
    decreases |events|
  {
    if events == [] {
      assert Layered(Fresh, -1, -1, -1);
    } else {
      RunKeepsInv(x509, events[..|events| - 1]);
      StepKeepsInv(x509, Run(x509, Fresh, events[..|events| - 1]), events[|events| - 1]);
    }
  }

  /** Every renewal makes a new key, so only identities issued together match. */
  predicate FreshKeys(x509: X509, issued: seq<Material>) {
    forall a, b :: 0 <= a < |issued| && 0 <= b < |issued| ==>
      (x509.pairs(issued[a].certificate, issued[b].key) <==> a == b)
  }

  /**
   After any history of enrolments, renewals, failures, crashes and restarts,
   Load on a complete directory succeeds exactly when the key and certificate
   files come from the same issue, and then it returns that pair: never the
   certificate of one issue with the key of another.
   */
  lemma {:induction false} LoadAfterAnyHistory(x509: X509, events: seq<Event>) returns (i: int, j: int, l: int)
    requires FreshKeys(x509, Run(x509, Fresh, events).issued)
    ensures
      var w := Run(x509, Fresh, events);
      && Layered(w, i, j, l)
      && (Exists(w.disk.final) <==> 0 <= l)
      && (LoadEffect(x509, w.disk.final).Ok? <==> 0 <= l && i == j)
      && (LoadEffect(x509, w.disk.final).Ok? ==>
            LoadEffect(x509, w.disk.final).value == w.issued[j].(caBundle := w.issued[l].caBundle))
  {
    RunKeepsInv(x509, events);
    var w := Run(x509, Fresh, events);
    i, j, l :| Layered(w, i, j, l);
    if 0 <= l {
      assert Validated(x509, w.issued[j]);
    }
  }

  /** The holder changes only to a validated identity whose save has completed. */
  lemma {:induction false} SwapsOnlyWhatWasSaved(x509: X509, w: World, key: Pem, answer: Answer,
                                                 fate: Operation -> Fate)
    requires w.process.Running?
    ensures
      var after := Next(x509, w, Renews(key, answer, fate));
      after.process.Running? && after.process != w.process ==>
        var m := after.process.held;
        && Validated(x509, m) && m.key == key
        && after.issued == w.issued + [m]
        && after.disk.final == Files(Whole(m.key), Whole(m.certificate), Whole(m.caBundle))
  {
    if answer.Issued? {
      var m := NewMaterial(x509, answer.certificate, key, answer.ca);
      if m.Ok? {
        SaveIsPrefix(w.disk, m.value, fate);
      }
    }
  }

  /** All three files hold what some save wrote. */
  predicate Complete(files: Files) {
    files.key.Whole? && files.certificate.Whole? && files.ca.Whole?
  }

  /** How many files a renewal replaced: none unless its answer validates. */
  function Renewed(x509: X509, key: Pem, answer: Answer, fate: Operation -> Fate): nat {
    if answer.Issued? && NewMaterial(x509, answer.certificate, key, answer.ca).Ok? then Replaced(fate) else 0
  }

  /**
   Whatever a renewal makes of a complete directory, by success, failure or
   crash, Load then succeeds exactly when the certificate was replaced too, or
   when nothing was replaced and Load succeeded before. So a renewal that stops
   between the key and the certificate leaves files that do not load.
   */
  lemma {:induction false} LoadsAfterRenewal(x509: X509, w: World, key: Pem, answer: Answer, fate: Operation -> Fate)
    requires w.process.Running? && Complete(w.disk.final)
    requires !x509.pairs(w.disk.final.certificate.data, key)
    ensures
      var after := Next(x509, w, Renews(key, answer, fate));
      var n := Renewed(x509, key, answer, fate);
      && Complete(after.disk.final)
      && (LoadEffect(x509, after.disk.final).Ok? <==> 2 <= n || (n == 0 && LoadEffect(x509, w.disk.final).Ok?))
      && (2 <= n ==>
            LoadEffect(x509, after.disk.final) ==
            NewMaterial(x509, answer.certificate, key, if n == 3 then answer.ca else w.disk.final.ca.data))
      && (n == 0 ==> LoadEffect(x509, after.disk.final) == LoadEffect(x509, w.disk.final))
  {
    if answer.Issued? {
      var m := NewMaterial(x509, answer.certificate, key, answer.ca);
      if m.Ok? {
        SaveIsPrefix(w.disk, m.value, fate);
      }
    }
  }

  /** A running agent does not load or enrol again, one with files does not enrol, one that is down renews nothing. */
  lemma {:induction false} NothingTwice(x509: X509, w: World, key: Pem, answer: Answer, fate: Operation -> Fate)
    ensures w.process.Running? || !Exists(w.disk.final) ==> Next(x509, w, Starts) == w
    ensures w.process.Running? || Exists(w.disk.final) ==> Next(x509, w, Enrols(key, answer, fate)) == w
    ensures w.process.Down? ==> Next(x509, w, Renews(key, answer, fate)) == w
    ensures Next(x509, w, Dies) == w.(process := Down)
  {
    hide RenewEffect, LoadEffect, Exists;
  }

  /** What enrolling comes to: running with what was issued exactly when it was all saved. */
  lemma {:induction false} EnrolsIffSaved(x509: X509, w: World, key: Pem, answer: Answer, fate: Operation -> Fate)
    requires w.process.Down? && !Exists(w.disk.final)
    ensures
      var after := Next(x509, w, Enrols(key, answer, fate));
      var sound := answer.Issued? && x509.pairs(answer.certificate, key) && x509.parse(answer.certificate).Some?;
      && (after.process.Running? <==> sound && Replaced(fate) == 3)
      && (after.process.Running? ==>
            after.process.held
            == Material(answer.certificate, key, answer.ca, x509.parse(answer.certificate).value))
      && (!sound ==> after == w)
  {
    if answer.Issued? && x509.pairs(answer.certificate, key) && x509.parse(answer.certificate).Some? {
      var m := Material(answer.certificate, key, answer.ca, x509.parse(answer.certificate).value);
      SaveIsPrefix(w.disk, m, fate);
    }
    hide SaveEffect, Replaced, Exists;
  }

  /**
   What Load says of any directory: the identity stored, when all three files are
   whole, the key is the certificate's and the certificate parses; or else what
   is wrong, the certificate asked for first, then the key, then the bundle.
   */
  lemma {:induction false} LoadIs(x509: X509, files: Files)
    ensures
      var whole := files.certificate.Whole? && files.key.Whole? && files.ca.Whole?;
      var loaded := LoadEffect(x509, files);
      && (loaded.Ok? <==>
            whole && x509.pairs(files.certificate.data, files.key.data) && x509.parse(files.certificate.data).Some?)
      && (loaded.Ok? ==>
            loaded.value == Material(files.certificate.data, files.key.data, files.ca.data,
                                     x509.parse(files.certificate.data).value))
      && (loaded == Err(Unreadable(CertFile)) <==> !files.certificate.Whole?)
      && (loaded == Err(Unreadable(KeyFile)) <==> files.certificate.Whole? && !files.key.Whole?)
      && (loaded == Err(Unreadable(CaFile)) <==> files.certificate.Whole? && files.key.Whole? && !files.ca.Whole?)
      && (loaded == Err(Mismatched) <==> whole && !x509.pairs(files.certificate.data, files.key.data))
  {
  }

  /** And a restart, after a crash or after the process has died, runs exactly when Load succeeds. */
  lemma {:induction false} RestartsIffLoads(x509: X509, w: World)
    requires Complete(w.disk.final)
    ensures
      var restarted := Next(x509, Next(x509, w, Dies), Starts);
      && (restarted.process.Running? <==> LoadEffect(x509, w.disk.final).Ok?)
      && (restarted.process.Running? ==> restarted.process.held == LoadEffect(x509, w.disk.final).value)
      && restarted.disk == w.disk
  {
  }

  /** In any history a directory in which the three files exist is complete. */
  lemma {:induction false} ExistingIsComplete(x509: X509, events: seq<Event>)
    ensures var w := Run(x509, Fresh, events); Exists(w.disk.final) ==> Complete(w.disk.final)
  {
    RunKeepsInv(x509, events);
    var w := Run(x509, Fresh, events);
    var i, j, l :| Layered(w, i, j, l);
  }

  /** An agent that is down with files it cannot pair stays down, whatever happens next. */
  lemma {:induction false} StrandedStaysDown(x509: X509, w: World, events: seq<Event>)
    requires w.process.Down? && Exists(w.disk.final) && LoadEffect(x509, w.disk.final).Err?
    ensures Run(x509, w, events) == w
    decreases |events|
  {
    if events != [] {
      StrandedStaysDown(x509, w, events[..|events| - 1]);
    }
  }

  const Sample: X509 := X509((c, k) => c == k, c => Some(Leaf(0, 90)))
  const Held: Material := Material("a", "a", "ca", Leaf(0, 90))

  /** The agent enrolled with issue "a". */
  const Enrolled: World :=
    World(Disk(Files(Whole("a"), Whole("a"), Whole("ca")), Fresh.disk.temporary), Running(Held), [Held])

  function Fine(o: Operation): Fate { Succeeds }

  function AtCertificate(fate: Fate, o: Operation): Fate {
    if o == WriteTemporary(CertFile) then fate else Succeeds
  }

  lemma {:induction false} SampleEnrolment()
    ensures Next(Sample, Fresh, Enrols("a", Issued("a", "ca"), Fine)) == Enrolled
  {
  }

  /** A renewal of it that stops at the certificate leaves the new key beside the old certificate. */
  lemma {:induction false} SampleRenewal(fate: Fate)
    requires !fate.Succeeds?
    ensures
      var at: Operation -> Fate := o => AtCertificate(fate, o);
      var w := Next(Sample, Enrolled, Renews("b", Issued("b", "ca"), at));
      && Complete(w.disk.final)
      && LoadEffect(Sample, w.disk.final) == Err(Mismatched)
      && w.process == if fate.Fails? then Running(Held) else Down
  {
    assert "a"[0] != "b"[0];
  }

  /** Such a state is reached: enrol, then crash between the two renames of a renewal. */
  lemma {:induction false} StrandingHappens()
    ensures exists x509: X509, events: seq<Event> ::
      var w := Run(x509, Fresh, events);
      w.process.Down? && Exists(w.disk.final) && LoadEffect(x509, w.disk.final) == Err(Mismatched)
  {
    hide Next, LoadEffect, Run;
    var one, two :=
      Enrols("a", Issued("a", "ca"), Fine), Renews("b", Issued("b", "ca"), o => AtCertificate(Crashes, o));
    SampleEnrolment();
    SampleRenewal(Crashes);
    RunTwo(Sample, one, two);
    var w := Run(Sample, Fresh, [one, two]);
    assert w.process.Down? && Exists(w.disk.final) && LoadEffect(Sample, w.disk.final) == Err(Mismatched);
  }

  lemma {:induction false} RunTwo(x509: X509, one: Event, two: Event)
    ensures Run(x509, Fresh, [one, two]) == Next(x509, Next(x509, Fresh, one), two)
  {
    hide Next;
    assert [one, two][..1] == [one] && [one][..0] == [];
    assert Run(x509, Fresh, []) == Fresh;
    assert Run(x509, Fresh, [one]) == Next(x509, Fresh, one);
  }

  /**
   No crash is needed: if writing the certificate merely fails, the agent goes
   on running, over files that do not pair, and does not come back from its next
   restart.
   */
  lemma {:induction false} FailureStrandsToo()
    ensures exists x509: X509, events: seq<Event> ::
      var w := Run(x509, Fresh, events);
      && w.process.Running? && Complete(w.disk.final)
      && !Next(x509, Next(x509, w, Dies), Starts).process.Running?
  {
    hide Next, LoadEffect, Run;
    var one, two := Enrols("a", Issued("a", "ca"), Fine), Renews("b", Issued("b", "ca"), o => AtCertificate(Fails, o));
    SampleEnrolment();
    SampleRenewal(Fails);
    RunTwo(Sample, one, two);
    var w := Run(Sample, Fresh, [one, two]);
    RestartsIffLoads(Sample, w);
    assert w.process.Running? && Complete(w.disk.final)
           && !Next(Sample, Next(Sample, w, Dies), Starts).process.Running?;
  }
}
