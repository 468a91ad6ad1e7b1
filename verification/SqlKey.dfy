/**
 The database key of app/main.main.ts: where it is kept between starts, in plain text or
 encrypted by the system, and what one start makes of that.
 */
module SqlKey {
  import opened Wrappers

  /** The entries of the user configuration that matter here; an entry that is not a string counts as absent. */
  datatype Config = Config(
    key: Option<string>,
    encryptedKey: Option<string>,
    safeStorageBackend: Option<string>,
    safeStorageDecryptionError: Option<string>)

  /** One start of the application. The system's decryption may fail or be wrong. */
  datatype Start = Start(
    isLinux: bool,
    isFlatpak: bool,
    maySafeStorage: bool,
    systemEncryption: bool,
    selectedBackend: string,
    encrypt: string -> string,
    decrypt: string -> Option<string>,
    generatedKey: string,
    continuesWithPlaintext: bool)
  {
    function Backend(): Option<string> { if isLinux then Some(selectedBackend) else None }

    /** Never in test or cache-building runs, nor with the Linux backend that does not encrypt. */
    predicate EncryptionAvailable() {
      maySafeStorage && systemEncryption && (!isLinux || selectedBackend != "basic_text")
    }
  }

  datatype Write =
    | SetKey(value: Option<string>)
    | SetEncryptedKey(cipher: string, plain: string)
    | SetBackend(backend: Option<string>)
    | SetDecryptionError

  function Apply(c: Config, w: Write): Config {
    match w
    case SetKey(value) => c.(key := value)
    case SetEncryptedKey(cipher, _) => c.(encryptedKey := Some(cipher))
    case SetBackend(backend) => c.(safeStorageBackend := backend)
    case SetDecryptionError => c.(safeStorageDecryptionError := Some("true"))
  }

  function ApplyAll(c: Config, ws: seq<Write>): Config
    decreases |ws|
  {
    if ws == [] then c else ApplyAll(Apply(c, ws[0]), ws[1..])
  }

  lemma {:induction false} ApplyAllPlus(c: Config, ws: seq<Write>, w: Write)
    ensures ApplyAll(c, ws + [w]) == Apply(ApplyAll(c, ws), w)
    decreases |ws|
  {
    if ws == [] {
      assert [w][1..] == [];
    } else {
      assert (ws + [w])[1..] == ws[1..] + [w];
      ApplyAllPlus(Apply(c, ws[0]), ws[1..], w);
    }
  }

  /** What a start writes, in order, and the key it returns unless it throws. */
  datatype Plan = Plan(writes: seq<Write>, key: Option<string>)

  predicate BackendChanged(c: Config, s: Start) {
    s.isLinux && c.safeStorageBackend.Some? && c.safeStorageBackend != s.Backend()
  }

  function SaveBackend(c: Config, s: Start): seq<Write> {
    if s.isLinux && c.safeStorageBackend.None? then [SetBackend(s.Backend())] else []
  }

  /** With an encrypted key: a plain copy confirms the decryption, or overrules it. */
  function PlanModern(c: Config, s: Start): Plan
    requires c.encryptedKey.Some?
  {
    var decrypted := s.decrypt(c.encryptedKey.value);
    if !s.EncryptionAvailable() || decrypted.None? then Plan([], None)
    else if c.key.None? then Plan(SaveBackend(c, s), decrypted)
    else if decrypted == c.key then Plan([SetKey(None)] + SaveBackend(c, s), decrypted)
    else if c.safeStorageDecryptionError.Some? then Plan(SaveBackend(c, s), c.key)
    else if s.continuesWithPlaintext then Plan([SetDecryptionError] + SaveBackend(c, s), c.key)
    else Plan([], None)
  }

  /** Storing the key: the encrypted copy comes first. */
  function PlanUpdate(s: Start, key: string): seq<Write> {
    if s.EncryptionAvailable() then
      [SetEncryptedKey(s.encrypt(key), key), SetKey(if s.isFlatpak then Some(key) else None)]
      + (if s.isLinux && s.selectedBackend != "" then [SetBackend(s.Backend())] else [])
    else [SetKey(Some(key))]
  }

  /** `getSQLKey`. */
  function PlanStart(c: Config, s: Start): Plan {
    if BackendChanged(c, s) then Plan([], None)
    else if c.encryptedKey.Some? then PlanModern(c, s)
    else if c.key.Some? then
      Plan(if s.EncryptionAvailable() then PlanUpdate(s, c.key.value) else [], c.key)
    else Plan(PlanUpdate(s, s.generatedKey), Some(s.generatedKey))
  }

  // ---------------------------------------------------------------- what a start comes to

  /** The system can encrypt, and what it would use is not the Linux backend that leaves text as it is. */
  predicate Encrypts(s: Start) {
    s.maySafeStorage && s.systemEncryption && !(s.isLinux && s.selectedBackend == "basic_text")
  }

  /**
   A start fails, and then writes nothing, exactly if the Linux backend is another than the recorded one, or there is an
   encrypted key and: the system does not encrypt, or it cannot decrypt the key, or it decrypts it to something else
   than the plain copy, which the user never accepted and does not accept now.
   */
  lemma StartFailsIff(c: Config, s: Start)
    ensures
      PlanStart(c, s).key.None?
      <==> (s.isLinux && c.safeStorageBackend.Some? && c.safeStorageBackend.value != s.selectedBackend)
           || (c.encryptedKey.Some?
              && (!Encrypts(s) || s.decrypt(c.encryptedKey.value).None?
                 || (c.key.Some? && c.key != s.decrypt(c.encryptedKey.value)
                    && c.safeStorageDecryptionError.None? && !s.continuesWithPlaintext)))
    ensures PlanStart(c, s).key.None? ==> PlanStart(c, s).writes == []
  {}

  /** Which key is returned: a plain copy if there is one, else the decryption, else a new one. */
  lemma ReturnedKey(c: Config, s: Start)
    requires PlanStart(c, s).key.Some?
    ensures
      PlanStart(c, s).key
      == if c.key.Some? then c.key
         else if c.encryptedKey.Some? then s.decrypt(c.encryptedKey.value)
         else Some(s.generatedKey)
  {}

  lemma ApplyTwo(c: Config, v: Write, w: Write)
    ensures ApplyAll(c, [v, w]) == Apply(Apply(c, v), w)
  {
    assert [v, w][1..] == [w] && [w][1..] == [];
    assert ApplyAll(Apply(c, v), [w]) == Apply(Apply(c, v), w);
  }

  lemma ApplyThree(c: Config, u: Write, v: Write, w: Write)
    ensures ApplyAll(c, [u, v, w]) == Apply(Apply(Apply(c, u), v), w)
  {
    assert [u, v, w][1..] == [v, w];
    ApplyTwo(Apply(c, u), v, w);
  }

  /** What is on disk after a start that had only the plain copy or nothing. */
  lemma DiskAfterStoring(c: Config, s: Start)
    requires c.encryptedKey.None? && PlanStart(c, s).key.Some?
    ensures
      var k := PlanStart(c, s).key;
      var after := ApplyAll(c, PlanStart(c, s).writes);
      && after.key == (if !Encrypts(s) || s.isFlatpak then k else None)
      && after.encryptedKey == (if Encrypts(s) then Some(s.encrypt(k.value)) else None)
      && after.safeStorageBackend
         == (if Encrypts(s) && s.isLinux && s.selectedBackend != "" then Some(s.selectedBackend)
             else c.safeStorageBackend)
      && after.safeStorageDecryptionError == c.safeStorageDecryptionError
  {
    var k := PlanStart(c, s).key.value;
    var first, second := SetEncryptedKey(s.encrypt(k), k), SetKey(if s.isFlatpak then Some(k) else None);
    ApplyTwo(c, first, second);
    ApplyThree(c, first, second, SetBackend(s.Backend()));
    assert [SetKey(Some(k))][1..] == [];
    if s.EncryptionAvailable() {
      if s.isLinux && s.selectedBackend != "" {
        assert PlanStart(c, s).writes == [first, second, SetBackend(s.Backend())];
      } else {
        assert PlanStart(c, s).writes == [first, second];
      }
    }
  }

  /** And after one that had the encrypted key: the plain copy goes exactly if the decryption confirms it. */
  lemma DiskAfterDecrypting(c: Config, s: Start)
    requires c.encryptedKey.Some? && PlanStart(c, s).key.Some?
    ensures
      var shown := s.decrypt(c.encryptedKey.value);
      var after := ApplyAll(c, PlanStart(c, s).writes);
      && after.key == (if shown == c.key then None else c.key)
      && after.encryptedKey == c.encryptedKey
      && after.safeStorageBackend == (if s.isLinux then Some(s.selectedBackend) else c.safeStorageBackend)
      && after.safeStorageDecryptionError
         == (if c.safeStorageDecryptionError.None? && c.key.Some? && shown != c.key then Some("true")
             else c.safeStorageDecryptionError)
  {
    var backend := SetBackend(s.Backend());
    ApplyTwo(c, SetKey(None), backend);
    ApplyTwo(c, SetDecryptionError, backend);
    assert [backend][1..] == [] && [SetKey(None)][1..] == [] && [SetDecryptionError][1..] == [];
    if SaveBackend(c, s) == [] {
      assert [SetKey(None)] + [] == [SetKey(None)] && [SetDecryptionError] + [] == [SetDecryptionError];
    } else {
      assert [SetKey(None)] + [backend] == [SetKey(None), backend];
      assert [SetDecryptionError] + [backend] == [SetDecryptionError, backend];
    }
  }

  // ---------------------------------------------------------------- as it runs

  class UserConfig {
    var entries: Config
    ghost const initially: Config
    ghost var written: seq<Write>

    /** The writes so far are on disk in this order; a crash may come after any of them. */
    ghost predicate Valid()
      reads this
    {
      entries == ApplyAll(initially, written)
    }

    constructor (entries: Config)
      ensures Valid() && this.entries == entries && initially == entries && written == []
    {
      this.entries := entries;
      initially := entries;
      written := [];
    }

    method Set(w: Write)
      requires Valid()
      modifies this
      ensures Valid() && entries == Apply(old(entries), w) && written == old(written) + [w]
    {
      ApplyAllPlus(initially, written, w);
      entries := Apply(entries, w);
      written := written + [w];
    }

    /** `handleSafeStorageDecryptionError`: whether to go on with the plain key. */
    method HandleSafeStorageDecryptionError(s: Start) returns (continues: bool)
      requires Valid()
      modifies this
      ensures Valid() && continues == (old(entries).safeStorageDecryptionError.Some? || s.continuesWithPlaintext)
      ensures
        written == old(written)
          + if old(entries).safeStorageDecryptionError.None? && s.continuesWithPlaintext
            then [SetDecryptionError]
            else []
      ensures entries == if |written| > |old(written)| then Apply(old(entries), SetDecryptionError) else old(entries)
    {
      if entries.safeStorageDecryptionError.Some? { return true; }
      if !s.continuesWithPlaintext { return false; }
      Set(SetDecryptionError);
      continues := true;
    }

    method GetSQLKey(s: Start) returns (result: Option<string>)
      requires Valid() && written == []
      modifies this
      ensures Valid() && Plan(written, result) == PlanStart(old(entries), s)
    {
      var update := false;
      var legacyKeyValue, modernKeyValue := entries.key, entries.encryptedKey;
      var previousBackend := if s.isLinux then entries.safeStorageBackend else None;
      var safeStorageBackend := s.Backend();
      var isEncryptionAvailable := s.EncryptionAvailable();
      if s.isLinux && previousBackend.Some? && previousBackend != safeStorageBackend { return None; }
      var key;
      if modernKeyValue.Some? {
        if !isEncryptionAvailable { return None; }
        var decrypted := s.decrypt(modernKeyValue.value);
        if decrypted.None? { return None; }
        key := decrypted.value;
        if legacyKeyValue.Some? {
          if key == legacyKeyValue.value {
            // The round trip is confirmed.
            Set(SetKey(None));
          } else {
            var continues := HandleSafeStorageDecryptionError(s);
            if !continues { return None; }
            key := legacyKeyValue.value;
          }
        }
        if s.isLinux && previousBackend.None? { Set(SetBackend(safeStorageBackend)); }
      } else if legacyKeyValue.Some? {
        key := legacyKeyValue.value;
        update := isEncryptionAvailable;
      } else {
        key := s.generatedKey;
        update := true;
      }
      if !update { return Some(key); }
      if isEncryptionAvailable {
        Set(SetEncryptedKey(s.encrypt(key), key));
        if s.isFlatpak { Set(SetKey(Some(key))); } else { Set(SetKey(None)); }
        if s.isLinux && s.selectedBackend != "" { Set(SetBackend(safeStorageBackend)); }
      } else {
        Set(SetKey(Some(key)));
      }
      result := Some(key);
    }
  }

  // ---------------------------------------------------------------- starts and crashes

  /** A configuration, and what its encrypted entry was made from. */
  datatype Disk = Disk(config: Config, sealed: string)

  function Write1(d: Disk, w: Write): Disk {
    Disk(Apply(d.config, w), if w.SetEncryptedKey? then w.plain else d.sealed)
  }

  function WriteAll(d: Disk, ws: seq<Write>): Disk
    decreases |ws|
  {
    if ws == [] then d else WriteAll(Write1(d, ws[0]), ws[1..])
  }

  /** A start may crash after some of its writes; then it returns nothing. */
  datatype Run = Run(start: Start, crashAfter: Option<nat>)

  function After(d: Disk, r: Run): Disk {
    var ws := PlanStart(d.config, r.start).writes;
    WriteAll(d, if r.crashAfter.Some? && r.crashAfter.value < |ws| then ws[..r.crashAfter.value] else ws)
  }

  function Returned(d: Disk, r: Run): Option<string> {
    if r.crashAfter.Some? then None else PlanStart(d.config, r.start).key
  }

  /** Without a plain copy the system decrypts what it encrypted, or fails; with one it may be wrong. */
  predicate Honest(d: Disk, s: Start) {
    d.config.encryptedKey.Some? && d.config.key.None? ==>
      s.decrypt(d.config.encryptedKey.value).None? || s.decrypt(d.config.encryptedKey.value) == Some(d.sealed)
  }

  /** Every copy on disk is this key. */
  predicate Only(d: Disk, k: string) {
    (d.config.key.Some? ==> d.config.key.value == k) && (d.config.encryptedKey.Some? ==> d.sealed == k)
  }

  /** Some copy is on disk. */
  predicate Kept(d: Disk) { d.config.key.Some? || d.config.encryptedKey.Some? }

  /** Writes that never lose or change the key, whatever prefix of them is made. */
  ghost predicate Careful(d: Disk, ws: seq<Write>, k: string) {
    forall n :: 0 <= n <= |ws| ==> Only(WriteAll(d, ws[..n]), k) && (n > 0 || Kept(d) ==> Kept(WriteAll(d, ws[..n])))
  }

  lemma {:induction false} WriteAllPlus(d: Disk, ws: seq<Write>, w: Write)
    ensures WriteAll(d, ws + [w]) == Write1(WriteAll(d, ws), w)
    decreases |ws|
  {
    if ws == [] {
      assert [w][1..] == [];
    } else {
      assert (ws + [w])[1..] == ws[1..] + [w];
      WriteAllPlus(Write1(d, ws[0]), ws[1..], w);
    }
  }

  lemma PrefixPlus(ws: seq<Write>, w: Write, n: nat)
    requires n <= |ws| + 1
    ensures (ws + [w])[..n] == if n <= |ws| then ws[..n] else ws + [w]
  {}

  lemma CarefulNothing(d: Disk, k: string)
    requires Only(d, k)
    ensures Careful(d, [], k)
  {}

  lemma CarefulPlus(d: Disk, ws: seq<Write>, w: Write, k: string)
    requires Careful(d, ws, k)
    requires var e := Write1(WriteAll(d, ws), w); Only(e, k) && Kept(e)
    ensures Careful(d, ws + [w], k)
  {
    WriteAllPlus(d, ws, w);
    assert ws[..|ws|] == ws;
    forall n | 0 <= n <= |ws| + 1
      ensures Only(WriteAll(d, (ws + [w])[..n]), k) && (n > 0 || Kept(d) ==> Kept(WriteAll(d, (ws + [w])[..n])))
    {
      PrefixPlus(ws, w, n);
    }
  }

  lemma UpdateCareful(d: Disk, s: Start, k: string)
    requires Only(d, k)
    ensures Careful(d, PlanUpdate(s, k), k)
  {
    CarefulNothing(d, k);
    if s.EncryptionAvailable() {
      var first := SetEncryptedKey(s.encrypt(k), k);
      var second := SetKey(if s.isFlatpak then Some(k) else None);
      assert [] + [first] == [first] && [first] + [second] == [first, second];
      CarefulPlus(d, [], first, k);
      WriteAllPlus(d, [], first);
      CarefulPlus(d, [first], second, k);
      WriteAllPlus(d, [first], second);
      if s.isLinux && s.selectedBackend != "" {
        CarefulPlus(d, [first, second], SetBackend(s.Backend()), k);
      }
    } else {
      CarefulPlus(d, [], SetKey(Some(k)), k);
      assert [] + [SetKey(Some(k))] == [SetKey(Some(k))];
    }
  }

  lemma BackendCareful(d: Disk, ws: seq<Write>, s: Start, k: string)
    requires Careful(d, ws, k) && Kept(WriteAll(d, ws))
    ensures Careful(d, ws + SaveBackend(d.config, s), k)
  {
    assert ws[..|ws|] == ws;
    if SaveBackend(d.config, s) == [] {
      assert ws + [] == ws;
    } else {
      CarefulPlus(d, ws, SetBackend(s.Backend()), k);
    }
  }

  lemma ModernCareful(d: Disk, s: Start, k: string)
    requires Only(d, k) && d.config.encryptedKey.Some? && Honest(d, s)
    ensures var p := PlanModern(d.config, s); Careful(d, p.writes, k) && (p.key.Some? ==> p.key.value == k)
  {
    CarefulNothing(d, k);
    assert [] + SaveBackend(d.config, s) == SaveBackend(d.config, s);
    BackendCareful(d, [], s, k);
    CarefulPlus(d, [], SetKey(None), k);
    assert [] + [SetKey(None)] == [SetKey(None)] && [] + [SetDecryptionError] == [SetDecryptionError];
    BackendCareful(d, [SetKey(None)], s, k);
    CarefulPlus(d, [], SetDecryptionError, k);
    BackendCareful(d, [SetDecryptionError], s, k);
  }

  /** One start writes with care, and what it returns is the key on disk, or the one it has just made. */
  lemma StartCareful(d: Disk, s: Start, k: string)
    requires Only(d, k) && Honest(d, s) && (!Kept(d) ==> k == s.generatedKey)
    ensures var p := PlanStart(d.config, s); Careful(d, p.writes, k) && (p.key.Some? ==> p.key.value == k)
  {
    CarefulNothing(d, k);
    if d.config.encryptedKey.Some? {
      ModernCareful(d, s, k);
    } else {
      UpdateCareful(d, s, k);
    }
  }

  /** A start that returned left a copy of the key behind. */
  lemma ReturnedIsKept(d: Disk, s: Start, k: string)
    requires Only(d, k) && Honest(d, s) && (!Kept(d) ==> k == s.generatedKey) && PlanStart(d.config, s).key.Some?
    ensures Kept(WriteAll(d, PlanStart(d.config, s).writes))
  {
    StartCareful(d, s, k);
    var ws := PlanStart(d.config, s).writes;
    assert ws[..|ws|] == ws;
  }

  lemma RunKeeps(d: Disk, r: Run, k: string)
    requires Only(d, k) && Honest(d, r.start) && (!Kept(d) ==> k == r.start.generatedKey)
    ensures Only(After(d, r), k) && (Kept(d) ==> Kept(After(d, r)))
    ensures Returned(d, r).Some? ==> Returned(d, r).value == k && Kept(After(d, r))
  {
    StartCareful(d, r.start, k);
    var ws := PlanStart(d.config, r.start).writes;
    assert ws[..|ws|] == ws;
    if Returned(d, r).Some? { ReturnedIsKept(d, r.start, k); }
  }

  function Outcomes(d: Disk, runs: seq<Run>): seq<Option<string>>
    decreases |runs|
  {
    if runs == [] then [] else [Returned(d, runs[0])] + Outcomes(After(d, runs[0]), runs[1..])
  }

  predicate AllHonest(d: Disk, runs: seq<Run>)
    decreases |runs|
  {
    runs == [] || (Honest(d, runs[0].start) && AllHonest(After(d, runs[0]), runs[1..]))
  }

  function AtEnd(d: Disk, runs: seq<Run>): Disk
    decreases |runs|
  {
    if runs == [] then d else AtEnd(After(d, runs[0]), runs[1..])
  }

  /** Once a key is on disk every start fails or returns it, crashes or not, and it stays on disk. */
  lemma {:induction false} KeyIsStable(d: Disk, runs: seq<Run>, k: string)
    requires Only(d, k) && Kept(d) && AllHonest(d, runs)
    ensures forall o <- Outcomes(d, runs) :: o.None? || o.value == k
    ensures Only(AtEnd(d, runs), k) && Kept(AtEnd(d, runs))
    decreases |runs|
  {
    if runs != [] {
      RunKeeps(d, runs[0], k);
      KeyIsStable(After(d, runs[0]), runs[1..], k);
    }
  }

  /** From an empty configuration on, all starts that return a key return the same one. */
  lemma {:induction false} AllStartsAgree(d: Disk, runs: seq<Run>) returns (k: string)
    requires !Kept(d) && AllHonest(d, runs)
    ensures forall o <- Outcomes(d, runs) :: o.None? || o.value == k
    decreases |runs|
  {
    k := "";
    if runs != [] {
      var next := After(d, runs[0]);
      RunKeeps(d, runs[0], runs[0].start.generatedKey);
      if Kept(next) {
        k := runs[0].start.generatedKey;
        KeyIsStable(next, runs[1..], k);
      } else {
        k := AllStartsAgree(next, runs[1..]);
      }
    }
  }

  /** The proviso is needed: with no plain copy a wrong decryption is returned unnoticed. */
  lemma WrongDecryptionIsReturned(d: Disk, s: Start)
    requires d.config.encryptedKey.Some? && d.config.key.None? && s.EncryptionAvailable()
    requires !BackendChanged(d.config, s)
    ensures
      var shown := s.decrypt(d.config.encryptedKey.value);
      PlanStart(d.config, s).key == shown && (shown.Some? && shown.value != d.sealed <==> !Honest(d, s))
  {}
}
