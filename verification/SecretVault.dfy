/** The encrypted vault: a locked or unlocked service over a blob on disk and an env file with the keys.
    Fernet and JSON together are an abstract pair of functions of which only the inverse law is assumed. */
module SecretVault {
  import opened Wrappers
  import opened Collections
  import EnvFile

  type Secrets = map<string, string>

  /** encrypt fails on a malformed key; decrypt also on a wrong key or a damaged blob. */
  datatype Cipher = Cipher(encrypt: (Secrets, string) -> Option<string>, decrypt: (string, string) -> Option<Secrets>)

  /** Decrypting gives back what was encrypted, blobs are not empty, and whether a key is usable
      does not depend on the data. */
  ghost predicate Lawful(c: Cipher) {
    && (forall d, k :: c.encrypt(d, k).Some? ==>
          c.encrypt(d, k).value != "" && c.decrypt(c.encrypt(d, k).value, k) == Some(d))
    && (forall d, k :: c.encrypt(d, k).Some? <==> c.encrypt(map[], k).Some?)
  }

  /** The blob's file; Torn is what an interrupted write leaves behind. */
  datatype File = Missing | Holds(blob: string) | Torn

  /** What can go wrong when a file is written: making its directory, opening it, or the write itself. */
  datatype Fault = NoFault | NoDirectory | OpenFails | WriteFails

  datatype Vault = Vault(master: string, confirm: string, secrets: Option<Secrets>,
                         file: File, envPath: bool, env: Option<string>)

  /** Raised is an exception that no handler of the service turns into a failed result. */
  datatype Reply = Done | FirstRun | Found(value: string) | Refused | Raised

  datatype Action =
    | Unlock(key: string)
    | Get(key: string)
    | Set(key: string, value: Option<string>)
    | Delete(key: string)
    | Save(confirm: string)
    | Lock
    | Bootstrap(newMaster: string, newConfirm: string, envFault: Fault)

  /** The store's save: the new file, and whether it ended normally or with which kind of exception. */
  datatype Saved = Written | RuntimeFailure | OtherFailure

  function StoreSave(file: File, blob: string, fault: Fault): (File, Saved) {
    match fault
    case NoFault => (Holds(blob), Written)
    case NoDirectory => (file, OtherFailure)
    case OpenFails => (file, RuntimeFailure)
    case WriteFails => (Torn, RuntimeFailure)
  }

  function DoUnlock(c: Cipher, v: Vault, key: string, fault: Fault): (Vault, Reply) {
    var tried := if key == "" then v.master else key;
    if tried == "" || tried != v.master then (v, Refused)
    else if v.file.Missing? then
      var emptied := v.(secrets := Some(map[]));
      match c.encrypt(map[], v.master)
      case None => (emptied, Refused)
      case Some(blob) =>
        var (file, saved) := StoreSave(v.file, blob, fault);
        (emptied.(file := file), if saved.Written? then FirstRun else if saved.RuntimeFailure? then Refused else Raised)
    else if v.file.Torn? then (v, Raised)
    else
      match c.decrypt(v.file.blob, v.master)
      case None => (v, Refused)
      case Some(secrets) => (v.(secrets := Some(secrets)), Done)
  }

  function DoSave(c: Cipher, v: Vault, confirm: string, fault: Fault): (Vault, Reply) {
    if v.secrets.None? || (confirm != "" && confirm != v.confirm) then (v, Refused)
    else
      match c.encrypt(v.secrets.value, v.master)
      case None => (v, Refused)
      case Some(blob) =>
        var (file, saved) := StoreSave(v.file, blob, fault);
        (v.(file := file), if saved.Written? then Done else if saved.RuntimeFailure? then Refused else Raised)
  }

  function DoBootstrap(c: Cipher, v: Vault, master: string, confirm: string, envFault: Fault, fault: Fault)
    : (Vault, Reply)
  {
    if (!v.file.Missing? && v.envPath && v.env.Some?) || !v.envPath then (v, Refused)
    else if envFault.NoDirectory? || envFault.OpenFails? then (v, Refused)
    else if envFault.WriteFails? then (v.(env := Some("")), Refused)
    else
      var written := v.(env := Some(EnvFile.Write(EnvFile.Keys(master, confirm))));
      match c.encrypt(map[], master)
      case None => (written, Refused)
      case Some(blob) =>
        var (file, saved) := StoreSave(v.file, blob, fault);
        if saved.Written? then (written.(file := file, master := master, confirm := confirm, secrets := None), Done)
        else (written.(file := file), Refused)
  }

  /** One action of the service; `fault` is what happens to the blob's file if it is written. */
  function Do(c: Cipher, v: Vault, a: Action, fault: Fault): (Vault, Reply) {
    match a
    case Unlock(key) => DoUnlock(c, v, key, fault)
    case Get(key) =>
      if v.secrets.None? || key == "" || key !in v.secrets.value then (v, Refused) else (v, Found(v.secrets.value[key]))
    case Set(key, value) =>
      if v.secrets.None? || key == "" then (v, Refused)
      else (v.(secrets := Some(v.secrets.value[key := if value.Some? then value.value else ""])), Done)
    case Delete(key) =>
      if v.secrets.None? || key == "" || key !in v.secrets.value then (v, Refused)
      else (v.(secrets := Some(v.secrets.value - {key})), Done)
    case Save(confirm) => DoSave(c, v, confirm, fault)
    case Lock => (v.(secrets := None), Done)
    case Bootstrap(master, confirm, envFault) => DoBootstrap(c, v, master, confirm, envFault, fault)
  }

  /** A new service over what is on disk: explicit keys win over the env file's. */
  function Open(file: File, envPath: bool, env: Option<string>, master: string, confirm: string): Vault {
    var keys := if envPath && env.Some? then EnvFile.Read(env.value) else EnvFile.Keys("", "");
    Vault(if master != "" then master else keys.master, if confirm != "" then confirm else keys.confirm,
          None, file, envPath, env)
  }

  /** The two files, shared by every service that is opened on them. */
  class Disk {
    var file: File
    var env: Option<string>

    constructor (file: File, env: Option<string>)
      ensures this.file == file && this.env == env
    {
      this.file, this.env := file, env;
    }

    method Save(blob: string, fault: Fault) returns (saved: Saved)
      modifies this`file
      ensures (file, saved) == StoreSave(old(file), blob, fault)
    {
      match fault {
        case NoFault => file, saved := Holds(blob), Written;
        case NoDirectory => saved := OtherFailure;
        case OpenFails => saved := RuntimeFailure;
        case WriteFails => file, saved := Torn, RuntimeFailure;
      }
    }
  }

  class VaultService {
    const cipher: Cipher
    const disk: Disk
    const envPath: bool
    var master: string
    var confirm: string
    var secrets: Option<Secrets>

    function State(): Vault
      reads this, disk
    {
      Vault(master, confirm, secrets, disk.file, envPath, disk.env)
    }

    constructor (cipher: Cipher, disk: Disk, envPath: bool, master: string, confirm: string)
      ensures this.cipher == cipher && this.disk == disk
      ensures State() == Open(disk.file, envPath, disk.env, master, confirm)
    {
      this.cipher, this.disk, this.envPath := cipher, disk, envPath;
      this.master, this.confirm, secrets := master, confirm, None;
      new;
      if envPath && disk.env.Some? {
        var keys := EnvFile.ReadEnvFile(disk.env.value);
        this.master := if master != "" then master else keys.master;
        this.confirm := if confirm != "" then confirm else keys.confirm;
      }
    }

    method Unlock(key: string, fault: Fault) returns (reply: Reply)
      modifies this`secrets, disk`file
      ensures (State(), reply) == Do(cipher, old(State()), Action.Unlock(key), fault)
    {
      var tried := key;
      if tried == "" {
        tried := master;
        if tried == "" { return Refused; }
      }
      if tried != master { return Refused; }
      if disk.file.Missing? {
        secrets := Some(map[]);
        var blob := cipher.encrypt(map[], master);
        if blob.None? { return Refused; }
        var saved := disk.Save(blob.value, fault);
        match saved {
          case Written => return FirstRun;
          case RuntimeFailure => return Refused;
          case OtherFailure => return Raised;
        }
      }
      if disk.file.Torn? { return Raised; }
      var loaded := cipher.decrypt(disk.file.blob, master);
      if loaded.None? { return Refused; }
      secrets := loaded;
      return Done;
    }

    method Get(key: string) returns (reply: Reply)
      ensures (State(), reply) == Do(cipher, State(), Action.Get(key), NoFault)
    {
      if secrets.None? || key == "" || key !in secrets.value { return Refused; }
      return Found(secrets.value[key]);
    }

    method Set(key: string, value: Option<string>) returns (reply: Reply)
      modifies this`secrets
      ensures (State(), reply) == Do(cipher, old(State()), Action.Set(key, value), NoFault)
    {
      if secrets.None? || key == "" { return Refused; }
      secrets := Some(secrets.value[key := if value.Some? then value.value else ""]);
      return Done;
    }

    method Delete(key: string) returns (reply: Reply)
      modifies this`secrets
      ensures (State(), reply) == Do(cipher, old(State()), Action.Delete(key), NoFault)
    {
      if secrets.None? || key == "" || key !in secrets.value { return Refused; }
      secrets := Some(secrets.value - {key});
      return Done;
    }

    method Save(confirmKey: string, fault: Fault) returns (reply: Reply)
      modifies disk`file
      ensures (State(), reply) == Do(cipher, old(State()), Action.Save(confirmKey), fault)
    {
      if secrets.None? { return Refused; }
      if confirmKey != "" && confirmKey != confirm { return Refused; }
      var blob := cipher.encrypt(secrets.value, master);
      if blob.None? { return Refused; }
      var saved := disk.Save(blob.value, fault);
      match saved {
        case Written => return Done;
        case RuntimeFailure => return Refused;
        case OtherFailure => return Raised;
      }
    }

    method Lock() returns (reply: Reply)
      modifies this`secrets
      ensures (State(), reply) == Do(cipher, old(State()), Action.Lock, NoFault)
    {
      secrets := None;
      return Done;
    }

    method Bootstrap(newMaster: string, newConfirm: string, envFault: Fault, fault: Fault) returns (reply: Reply)
      modifies this, disk
      ensures (State(), reply) == Do(cipher, old(State()), Action.Bootstrap(newMaster, newConfirm, envFault), fault)
    {
      if !disk.file.Missing? && envPath && disk.env.Some? { return Refused; }
      if !envPath { return Refused; }
      match envFault {
        case NoDirectory => return Refused;
        case OpenFails => return Refused;
        case WriteFails =>
          disk.env := Some("");
          return Refused;
        case NoFault =>
      }
      disk.env := Some(EnvFile.Write(EnvFile.Keys(newMaster, newConfirm)));
      var blob := cipher.encrypt(map[], newMaster);
      if blob.None? { return Refused; }
      var saved := disk.Save(blob.value, fault);
      if saved.Written? {
        master, confirm, secrets := newMaster, newConfirm, None;
        return Done;
      }
      return Refused;
    }
  }

  // ---------- Durability ----------

  /** No write goes wrong, and bootstraps generate usable keys that the env file can hold. */
  ghost predicate Undisturbed(c: Cipher, a: Action) {
    a.Bootstrap? ==> && a.envFault.NoFault? && c.encrypt(map[], a.newMaster).Some? && a.newMaster != ""
                     && EnvFile.Writable(a.newMaster) && EnvFile.Writable(a.newConfirm)
  }

  function Next(c: Cipher, v: Vault, a: Action): Vault { Do(c, v, a, NoFault).0 }

  function RunAll(c: Cipher, v: Vault, actions: seq<Action>): Vault
    decreases |actions|
  {
    if actions == [] then v else RunAll(c, Next(c, v, actions[0]), actions[1..])
  }

  /** What counts as saved after one action, read off its reply. */
  function SavedBy(c: Cipher, v: Vault, a: Action, before: Option<Secrets>): Option<Secrets> {
    var reply := Do(c, v, a, NoFault).1;
    match a
    case Save(_) => if reply.Done? then v.secrets else before
    case Unlock(_) => if reply.FirstRun? then Some(map[]) else before
    case Bootstrap(_, _, _) => if reply.Done? then Some(map[]) else before
    case _ => before
  }

  /** The secrets as of the last successful save, first-run unlock or bootstrap. */
  function LastSaved(c: Cipher, v: Vault, actions: seq<Action>, before: Option<Secrets>): Option<Secrets>
    decreases |actions|
  {
    if actions == [] then before
    else LastSaved(c, Next(c, v, actions[0]), actions[1..], SavedBy(c, v, actions[0], before))
  }

  /** The blob on disk decrypts under the current master key to the saved secrets; without any there is no blob. */
  ghost predicate Durable(c: Cipher, v: Vault, saved: Option<Secrets>) {
    match saved
    case None => v.file.Missing?
    case Some(d) => v.file.Holds? && c.decrypt(v.file.blob, v.master) == Some(d)
  }

  lemma DurabilityStep(c: Cipher, v: Vault, a: Action, before: Option<Secrets>)
    requires Lawful(c) && Durable(c, v, before) && Undisturbed(c, a)
    ensures Durable(c, Next(c, v, a), SavedBy(c, v, a, before))
  {
  }

  /** Over every undisturbed run the disk holds what was saved last. */
  lemma {:induction false} DurabilityAlways(c: Cipher, v: Vault, actions: seq<Action>, before: Option<Secrets>)
    requires Lawful(c) && Durable(c, v, before) && forall i :: 0 <= i < |actions| ==> Undisturbed(c, actions[i])
    ensures Durable(c, RunAll(c, v, actions), LastSaved(c, v, actions, before))
    decreases |actions|
  {
    if actions != [] {
      DurabilityStep(c, v, actions[0], before);
      DurabilityAlways(c, Next(c, v, actions[0]), actions[1..], SavedBy(c, v, actions[0], before));
    }
  }

  predicate Matches(v: Vault, key: string) {
    var tried := if key == "" then v.master else key;
    tried != "" && tried == v.master
  }

  /** Unlocking restores exactly the saved map, whatever was in memory, and nothing else changes. */
  lemma UnlockRestores(c: Cipher, v: Vault, key: string, saved: Option<Secrets>)
    requires Lawful(c) && Durable(c, v, saved)
    ensures var (w, reply) := Do(c, v, Unlock(key), NoFault);
      && (reply.Done? <==> Matches(v, key) && saved.Some?)
      && (reply.Done? ==> w == v.(secrets := saved))
      && (reply.FirstRun? <==> Matches(v, key) && saved.None? && c.encrypt(map[], v.master).Some?)
      && (reply.FirstRun? ==> Durable(c, w, Some(map[])) && w.secrets == Some(map[]))
      && (!Matches(v, key) ==> w == v)
  {
  }

  /** A save persists the map in memory whether or not the confirmation key is given; a wrong one is refused. */
  lemma SaveNeedsNoConfirmation(c: Cipher, v: Vault, confirm: string)
    requires Lawful(c) && v.secrets.Some?
    ensures var (w, reply) := Do(c, v, Save(confirm), NoFault);
      && (reply.Done? <==> (confirm == "" || confirm == v.confirm) && c.encrypt(map[], v.master).Some?)
      && (reply.Done? ==> Durable(c, w, v.secrets))
      && (!reply.Done? ==> w == v)
  {
    assert c.encrypt(v.secrets.value, v.master).Some? <==> c.encrypt(map[], v.master).Some?;
  }

  /** A failed unlock leaves a locked vault open exactly when it was a first run with the right key,
      whatever went wrong then. */
  lemma FailedUnlockOpens(c: Cipher, v: Vault, key: string, fault: Fault)
    requires v.secrets.None?
    ensures var (w, reply) := Do(c, v, Unlock(key), fault);
      && (reply.Refused? || reply.Raised? ==> (w.secrets.Some? <==> Matches(v, key) && v.file.Missing?))
      && (Matches(v, key) && v.file.Missing? ==>
            w.secrets == Some(map[]) && (reply.FirstRun? <==> c.encrypt(map[], v.master).Some? && fault.NoFault?))
  {
  }

  /** A first run with the right key whose save cannot open the file: the unlock is refused, nothing is on disk, and
      the vault is open and empty. */
  lemma FailedFirstRun(c: Cipher, v: Vault)
    requires Lawful(c) && v.secrets.None? && v.file.Missing? && v.master != "" && c.encrypt(map[], v.master).Some?
    ensures Do(c, v, Unlock(v.master), OpenFails) == (v.(secrets := Some(map[])), Refused)
  {
  }

  /** A vault with a confirmation key persists a new secret although the save does not give that key. */
  lemma UnconfirmedSave(c: Cipher, v: Vault)
    requires Lawful(c) && v.secrets == Some(map[]) && v.confirm != "" && c.encrypt(map[], v.master).Some?
    ensures var w := Do(c, v, Set("a", Some("b")), NoFault).0; var (x, reply) := Do(c, w, Save(""), NoFault);
      reply.Done? && Durable(c, x, Some(map["a" := "b"]))
  {
    SaveNeedsNoConfirmation(c, Do(c, v, Set("a", Some("b")), NoFault).0, "");
  }

  /** In memory an unlocked vault is a map with nonempty keys: what is set is found, what is deleted is not, other
      secrets and the disk are left alone, and an empty value stands for a missing one. */
  lemma EditsAreMapEdits(c: Cipher, v: Vault, key: string, value: Option<string>, other: string)
    requires v.secrets.Some? && key != "" && other != key
    ensures var (w, reply) := Do(c, v, Set(key, value), NoFault);
      && reply == Done && w.file == v.file && w.master == v.master
      && Do(c, w, Get(key), NoFault) == (w, Found(if value.Some? then value.value else ""))
      && Do(c, w, Get(other), NoFault).1 == Do(c, v, Get(other), NoFault).1
    ensures var (w, reply) := Do(c, v, Delete(key), NoFault);
      && (reply == Done <==> Do(c, v, Get(key), NoFault).1.Found?) && w.file == v.file && w.master == v.master
      && Do(c, w, Get(key), NoFault) == (w, Refused)
      && Do(c, w, Get(other), NoFault).1 == Do(c, v, Get(other), NoFault).1
  {
  }

  /** A locked vault refuses every access and changes for nothing but an unlock or a bootstrap. */
  lemma LockedRefuses(c: Cipher, v: Vault, a: Action)
    requires !a.Unlock? && !a.Bootstrap? && !a.Lock?
    ensures var locked := Do(c, v, Lock, NoFault).0;
      locked.secrets.None? && locked.file == v.file && Do(c, locked, a, NoFault) == (locked, Refused)
  {
  }

  /** An empty key is refused, even if a secret is stored under it. */
  lemma EmptyKeysAreRefused(c: Cipher, v: Vault, value: Option<string>)
    requires v.secrets.Some?
    ensures Do(c, v, Get(""), NoFault) == Do(c, v, Set("", value), NoFault) == Do(c, v, Delete(""), NoFault)
            == (v, Refused)
  {
  }

  // ---------- Writes that go wrong ----------

  /** What a save leaves when the file cannot be written: memory and keys in any case, and the old file unless the write
      itself is interrupted. Then no secret can be read any more, and unlocking raises. */
  lemma FaultySave(c: Cipher, v: Vault, confirm: string, fault: Fault)
    requires Lawful(c) && v.secrets.Some? && c.encrypt(map[], v.master).Some? && confirm in {"", v.confirm}
    ensures var (w, reply) := Do(c, v, Save(confirm), fault);
      && w.(file := v.file) == v && (reply == Done <==> fault == NoFault)
      && (fault in {NoDirectory, OpenFails} ==> w == v)
      && (fault == NoDirectory ==> reply == Raised) && (fault in {OpenFails, WriteFails} ==> reply == Refused)
      && (fault == WriteFails ==>
            w.file == Torn && (v.master != "" ==> Do(c, w, Unlock(v.master), NoFault) == (w, Raised)))
  {
    assert c.encrypt(v.secrets.value, v.master).Some?;
  }

  /** What a first unlock leaves on disk, and how it ends. */
  lemma FaultyFirstRun(c: Cipher, v: Vault, fault: Fault)
    requires Lawful(c) && v.file.Missing? && v.master != "" && c.encrypt(map[], v.master).Some?
    ensures var (w, reply) := Do(c, v, Unlock(""), fault);
      && w.(file := v.file, secrets := v.secrets) == v && w.secrets == Some(map[])
      && (fault == NoFault ==> reply == FirstRun && Durable(c, w, Some(map[])))
      && (fault in {NoDirectory, OpenFails} ==> w.file == Missing) && (fault == WriteFails ==> w.file == Torn)
      && (fault == NoDirectory ==> reply == Raised) && (fault in {OpenFails, WriteFails} ==> reply == Refused)
  {
  }

  /** When a bootstrap succeeds, and what it leaves otherwise: the service's own keys and secrets in any case, but
      the env file as far as it was written. */
  lemma BootstrapOutcome(c: Cipher, v: Vault, a: Action, fault: Fault)
    requires a.Bootstrap?
    ensures var (w, reply) := Do(c, v, a, fault);
      var started := v.envPath && (v.file.Missing? || v.env.None?) && a.envFault !in {NoDirectory, OpenFails};
      var saves := started && a.envFault == NoFault && c.encrypt(map[], a.newMaster).Some?;
      && (reply == Done <==> saves && fault == NoFault)
      && (reply != Done ==> reply == Refused && w.(file := v.file, env := v.env) == v)
      && w.env == (if !started then v.env else if a.envFault == WriteFails then Some("")
                   else Some(EnvFile.Write(EnvFile.Keys(a.newMaster, a.newConfirm))))
      && w.file == (if !saves || fault in {NoDirectory, OpenFails} then v.file else if fault == WriteFails then Torn
                    else Holds(c.encrypt(map[], a.newMaster).value))
  {
  }

  /** A vault whose env file is gone, and a bootstrap that cannot write the new blob: the env file now holds keys
      that the blob is not encrypted under, and no later service can unlock the vault by them. */
  lemma HalfBootstrap(c: Cipher, v: Vault, a: Action)
    requires Lawful(c) && a.Bootstrap? && Undisturbed(c, a) && v.envPath && v.env.None? && v.file.Holds?
    requires c.decrypt(v.file.blob, a.newMaster).None?
    ensures var (w, reply) := Do(c, v, a, OpenFails);
      && reply == Refused && w.file == v.file && KeysOnFile(w.(master := a.newMaster, confirm := a.newConfirm))
      && Do(c, Reopened(w), Unlock(""), NoFault) == (Reopened(w), Refused)
  {
    EnvFile.ReadAfterWrite(EnvFile.Keys(a.newMaster, a.newConfirm));
  }

  // ---------- Reopening ----------

  /** The env file gives a new service the keys the vault is encrypted under. */
  ghost predicate KeysOnFile(v: Vault) {
    v.envPath && v.env.Some? && v.master != "" && EnvFile.Read(v.env.value) == EnvFile.Keys(v.master, v.confirm)
  }

  function Reopened(v: Vault): Vault { Open(v.file, v.envPath, v.env, "", "") }

  /** A new service is locked, and takes each key from its caller, or from the env file if the caller gives none: with a
      key of its own it unlocks by that key alone, whatever the file holds, and without one by the file's. */
  lemma KeysOfANewService(c: Cipher, file: File, text: string, master: string, confirm: string, key: string)
    ensures var v := Open(file, true, Some(text), master, confirm); var (w, reply) := Do(c, v, Unlock(key), NoFault);
      var own := if master == "" then EnvFile.Read(text).master else master;
      && v.secrets == None
      && (key != "" && key != own ==> w == v && reply == Refused)
      && (own == "" ==> w == v && reply == Refused)
      && (own != "" && key in {"", own} && file.Holds? && c.decrypt(file.blob, own).Some? ==>
            reply == Done && w.secrets == c.decrypt(file.blob, own))
      && (Do(c, v.(secrets := Some(map[])), Save(key), NoFault).1.Done? <==>
            && (key == "" || key == if confirm == "" then EnvFile.Read(text).confirm else confirm)
            && c.encrypt(map[], own).Some?)
    ensures var v, none := Open(file, true, None, master, confirm), Open(file, false, Some(text), master, confirm);
      v.master == master && v.confirm == confirm && none.master == master && none.confirm == confirm
  {
  }

  /** After a bootstrap a fresh service with empty constructor keys has the generated keys, unlocks to an empty map,
      and a second bootstrap is refused without changing anything. */
  lemma BootstrapThenReopen(c: Cipher, v: Vault, a: Action, again: Action)
    requires Lawful(c) && a.Bootstrap? && again.Bootstrap? && Undisturbed(c, a)
    ensures var (w, reply) := Do(c, v, a, NoFault);
      reply.Done? ==>
        && Reopened(w) == w && w.master == a.newMaster && KeysOnFile(w)
        && Do(c, Reopened(w), Unlock(""), NoFault) == (w.(secrets := Some(map[])), Done)
        && Do(c, w, again, NoFault) == (w, Refused)
    ensures Do(c, v, a, NoFault).1.Done? <==> v.envPath && (v.file.Missing? || v.env.None?)
  {
    EnvFile.ReadAfterWrite(EnvFile.Keys(a.newMaster, a.newConfirm));
  }

  lemma KeysStayOnFile(c: Cipher, v: Vault, a: Action)
    requires KeysOnFile(v) && Undisturbed(c, a)
    ensures KeysOnFile(Next(c, v, a))
  {
    if a.Bootstrap? {
      EnvFile.ReadAfterWrite(EnvFile.Keys(a.newMaster, a.newConfirm));
    }
  }

  lemma SavedStays(c: Cipher, v: Vault, a: Action, before: Option<Secrets>)
    requires before.Some?
    ensures SavedBy(c, v, a, before).Some?
  {
  }

  /** Once the keys are on file they stay there, so any run can be cut off: a fresh service restores what was saved. */
  lemma {:induction false} ReopeningRestores(c: Cipher, v: Vault, actions: seq<Action>, before: Option<Secrets>)
    requires Lawful(c) && Durable(c, v, before) && KeysOnFile(v) && before.Some?
    requires forall i :: 0 <= i < |actions| ==> Undisturbed(c, actions[i])
    ensures var w, saved := RunAll(c, v, actions), LastSaved(c, v, actions, before);
      && saved.Some? && KeysOnFile(w)
      && Do(c, Reopened(w), Unlock(""), NoFault) == (w.(secrets := saved), Done)
    decreases |actions|
  {
    if actions == [] {
      ReopenRestores(c, v, before);
    } else {
      DurabilityStep(c, v, actions[0], before);
      KeysStayOnFile(c, v, actions[0]);
      SavedStays(c, v, actions[0], before);
      ReopeningRestores(c, Next(c, v, actions[0]), actions[1..], SavedBy(c, v, actions[0], before));
    }
  }

  lemma ReopenRestores(c: Cipher, v: Vault, saved: Option<Secrets>)
    requires Lawful(c) && Durable(c, v, saved) && KeysOnFile(v) && saved.Some?
    ensures Do(c, Reopened(v), Unlock(""), NoFault) == (v.(secrets := saved), Done)
  {
  }

  // ---------- The command line's bulk write ----------

  /** What a script gets from opening the vault: its secrets, or nothing if it is not initialised or not decryptable. */
  function Unlocked(c: Cipher, file: File, env: Option<string>, master: string, confirm: string): Option<Secrets> {
    var v := Open(file, true, env, master, confirm);
    if v.master == "" || !v.file.Holds? then None else c.decrypt(v.file.blob, v.master)
  }

  /** A script gets what unlocking a new service by its own key restores, and nothing on a first run. */
  lemma ScriptsUnlock(c: Cipher, file: File, env: Option<string>, master: string, confirm: string)
    ensures var (w, reply) := Do(c, Open(file, true, env, master, confirm), Unlock(""), NoFault);
      Unlocked(c, file, env, master, confirm) == if reply.Done? then w.secrets else None
  {
  }

  /** The secrets that a loop over the keys has set, with the given keys still to come. */
  function SetSoFar(secrets: Secrets, rest: set<string>): Secrets {
    map k | k in secrets && k !in rest :: secrets[k]
  }

  lemma SetOneMore(before: Secrets, secrets: Secrets, rest: set<string>, key: string)
    requires key in rest && key in secrets
    ensures (before + SetSoFar(secrets, rest))[key := secrets[key]] == before + SetSoFar(secrets, rest - {key})
  {
  }

  /** Sets every given secret in memory; an empty key is refused and ends the loop. */
  method SetAll(service: VaultService, secrets: Secrets) returns (ok: bool)
    requires service.secrets.Some?
    modifies service`secrets
    ensures ok <==> "" !in secrets
    ensures ok ==> service.secrets == Some(old(service.secrets).value + secrets)
  {
    ghost var before := service.secrets.value;
    var rest := secrets.Keys;
    assert before + SetSoFar(secrets, rest) == before;
    while rest != {}
      invariant rest <= secrets.Keys && "" !in secrets.Keys - rest
      invariant service.secrets == Some(before + SetSoFar(secrets, rest))
      decreases rest
    {
      ghost var one := Member(rest);
      var key :| key in rest;
      SetOneMore(before, secrets, rest, key);
      var reply := service.Set(key, Some(secrets[key]));
      if !reply.Done? { return false; }
      rest := rest - {key};
    }
    assert SetSoFar(secrets, {}) == secrets;
    return true;
  }

  /** Opens the vault, overlays the given secrets and saves; not ok stands for any exception on the way. */
  method EncryptToVault(cipher: Cipher, disk: Disk, secrets: Secrets, master: string, confirm: string, fault: Fault)
    returns (ok: bool)
    requires Lawful(cipher)
    modifies disk
    ensures var before := old(Unlocked(cipher, disk.file, disk.env, master, confirm));
      && (ok ==> before.Some? && "" !in secrets && fault.NoFault?)
      && (ok ==> Unlocked(cipher, disk.file, disk.env, master, confirm) == Some(before.value + secrets))
      && (ok <== before.Some? && "" !in secrets && fault.NoFault?
                 && cipher.encrypt(map[], old(Open(disk.file, true, disk.env, master, confirm)).master).Some?)
    ensures disk.env == old(disk.env)
    ensures !ok ==> disk.file == old(disk.file) || (fault.WriteFails? && disk.file.Torn?)
  {
    var service := new VaultService(cipher, disk, true, master, confirm);
    if disk.file.Missing? || service.master == "" { return false; }
    var reply := service.Unlock("", NoFault);
    if !reply.Done? { return false; }
    ok := SetAll(service, secrets);
    if !ok { return false; }
    reply := service.Save("", fault);
    return reply.Done?;
  }
}
