/**
  Publication of the passphrase salt next to a key file, by any number of processes on a
  host that may crash.  POSIX rules: a hard link is atomic and never replaces, a synced
  directory entry survives a crash, an unsynced one may be lost, and a linked file whose
  data was not synced may come back torn.
 */
module SaltProtocol {
  import opened Options
  import opened Ciphers

  type Pid = nat

  datatype File = File(salt: Salt, synced: Flag) | Torn

  /** One call of _load_or_create_key_file_salt, suspended between two system calls. */
  datatype Pc =
    | Ready
    | Creating
    | TempWritten(file: File)
    | Linking(file: File)
    | Loading
    | Syncing(salt: Salt)

  datatype Process = Process(
    pc: Pc,
    durableSalts: set<Salt>,      // _DURABLE_KEY_FILE_SALTS
    writers: set<Key>             // write keys of the ciphers this process has built
  )

  datatype State = State(
    visible: Option<File>,        // the directory entry every process sees
    durable: Option<File>,        // the entry a crash is certain to leave behind
    processes: map<Pid, Process>,
    tokens: set<Token>            // every ciphertext ever produced
  )

  datatype Event =
    | Start(pid: Pid) | Die(pid: Pid) | HostCrash(keep: bool)
    | Check(pid: Pid) | WriteTemp(pid: Pid, salt: Salt) | SyncTemp(pid: Pid) | Link(pid: Pid) | PublishFails(pid: Pid)
    | Load(pid: Pid) | SyncDirectory(pid: Pid, ok: bool)
    | Seal(pid: Pid, key: Key, plaintext: nat)

  predicate PcIs(s: State, pid: Pid, pc: Pc) {
    pid in s.processes && s.processes[pid].pc == pc
  }

  predicate Enabled(s: State, ev: Event) {
    match ev
    case Start(pid) => pid !in s.processes
    case Die(pid) => pid in s.processes
    case HostCrash(keep) => true
    case Check(pid) => PcIs(s, pid, Ready)
    case WriteTemp(pid, salt) => PcIs(s, pid, Creating)
    case SyncTemp(pid) => pid in s.processes && s.processes[pid].pc.TempWritten? && s.processes[pid].pc.file.File?
    case Link(pid) => pid in s.processes && s.processes[pid].pc.Linking?
    case PublishFails(pid) =>
      pid in s.processes && (s.processes[pid].pc.Creating? || s.processes[pid].pc.TempWritten? || s.processes[pid].pc.Linking?)
    case Load(pid) => PcIs(s, pid, Loading)
    case SyncDirectory(pid, ok) => pid in s.processes && s.processes[pid].pc.Syncing?
    case Seal(pid, key, plaintext) => pid in s.processes && key in s.processes[pid].writers
  }

  function SetProcess(s: State, pid: Pid, p: Process): State {
    s.(processes := s.processes[pid := p])
  }

  function MovePc(s: State, pid: Pid, pc: Pc): State
    requires pid in s.processes
  {
    SetProcess(s, pid, s.processes[pid].(pc := pc))
  }

  /** What a file looks like after the host lost power. */
  function AfterPowerLoss(f: File): File {
    if f.File? && f.synced == Yes then f else Torn
  }

  function Crash(s: State, keep: bool): State {
    var survivor := if s.visible.Some? && (keep || s.visible == s.durable) then Some(AfterPowerLoss(s.visible.value))
                    else s.durable;
    State(survivor, survivor, map[], s.tokens)
  }

  /** The salt is usable for writing: the cipher built on it encrypts from now on. */
  function Grant(p: Process, salt: Salt): Process {
    p.(pc := Ready, durableSalts := p.durableSalts + {salt}, writers := p.writers + {Salted(salt)})
  }

  function Apply(s: State, ev: Event): State
    requires Enabled(s, ev)
  {
    match ev
    case Start(pid) => SetProcess(s, pid, Process(Ready, {}, {}))
    case Die(pid) => s.(processes := s.processes - {pid})
    case HostCrash(keep) => Crash(s, keep)
    case Check(pid) => MovePc(s, pid, if s.visible.None? then Creating else Loading)
    case WriteTemp(pid, salt) => MovePc(s, pid, TempWritten(File(salt, No)))
    case SyncTemp(pid) => MovePc(s, pid, Linking(File(s.processes[pid].pc.file.salt, Yes)))
    case Link(pid) =>
      var linked := if s.visible.None? then s.(visible := Some(s.processes[pid].pc.file)) else s;
      MovePc(linked, pid, Loading)
    case PublishFails(pid) => MovePc(s, pid, Ready)
    case Load(pid) =>
      if s.visible.Some? && s.visible.value.File? then MovePc(s, pid, Syncing(s.visible.value.salt))
      else MovePc(s, pid, Ready)
    case SyncDirectory(pid, ok) =>
      var p := s.processes[pid];
      if p.pc.salt in p.durableSalts then SetProcess(s, pid, Grant(p, p.pc.salt))
      else if ok then SetProcess(s.(durable := s.visible), pid, Grant(p, p.pc.salt))
      else MovePc(s, pid, Ready)
    case Seal(pid, key, plaintext) => s.(tokens := s.tokens + {Token(key, plaintext)})
  }

  /** _passphrase_read_master_keys: every key existing ciphertext may use, newest first. */
  function ReadKeys(visible: Option<File>): Result<seq<Key>, ()> {
    match visible
    case None => Ok([Legacy])
    case Some(File(salt, _)) => Ok([Salted(salt), Legacy])
    case Some(Torn) => Err(())
  }

  /** A directory without a salt and ciphertext written before salts existed. */
  predicate Initial(s: State) {
    s.visible.None? && s.durable.None? && s.processes == map[] && forall t :: t in s.tokens ==> t.key == Legacy
  }

  function Run(s: State, events: seq<Event>): Option<State>
    decreases |events|
  {
    if events == [] then Some(s)
    else
      var last := |events| - 1;
      match Run(s, events[..last])
      case None => None
      case Some(m) => if Enabled(m, events[last]) then Some(Apply(m, events[last])) else None
  }

  // ----- the invariant -----

  predicate Persistent(s: State, salt: Salt) {
    s.durable == Some(File(salt, Yes)) && s.visible == s.durable
  }

  predicate ProcessInv(s: State, p: Process) {
    && (p.pc.TempWritten? ==> p.pc.file.File?)
    && (p.pc.Linking? ==> p.pc.file.File? && p.pc.file.synced == Yes)
    && (p.pc.Loading? ==> s.visible.Some?)
    && (p.pc.Syncing? ==> s.visible == Some(File(p.pc.salt, Yes)))
    && (forall salt :: salt in p.durableSalts ==> Persistent(s, salt))
    && (forall key :: key in p.writers ==> key.Salted? && Persistent(s, key.salt))
  }

  predicate Inv(s: State) {
    && (s.visible.Some? ==> s.visible.value.File? && s.visible.value.synced == Yes)
    && (s.durable.Some? ==> s.visible == s.durable)
    && (forall pid :: pid in s.processes ==> ProcessInv(s, s.processes[pid]))
    && (forall t :: t in s.tokens ==> t.key == Legacy || (t.key.Salted? && Persistent(s, t.key.salt)))
  }

  /** Steps that change the directory or add a ciphertext. */
  predicate IsShared(ev: Event) {
    ev.Link? || ev.SyncDirectory? || ev.HostCrash? || ev.Seal?
  }

  lemma SharedStepKeeps(s: State, ev: Event)
    requires Inv(s) && Enabled(s, ev) && IsShared(ev)
    ensures Inv(Apply(s, ev)) && s.tokens <= Apply(s, ev).tokens
    ensures forall salt :: Persistent(s, salt) ==> Persistent(Apply(s, ev), salt)
  {
    match ev
    case Link(pid) => assert ProcessInv(s, s.processes[pid]);
    case SyncDirectory(pid, ok) => assert ProcessInv(s, s.processes[pid]);
    case Seal(pid, key, plaintext) => assert ProcessInv(s, s.processes[pid]);
    case HostCrash(keep) =>
  }

  lemma LocalStepKeeps(s: State, ev: Event)
    requires Inv(s) && Enabled(s, ev) && !IsShared(ev)
    ensures Inv(Apply(s, ev)) && s.tokens <= Apply(s, ev).tokens
    ensures forall salt :: Persistent(s, salt) ==> Persistent(Apply(s, ev), salt)
  {
  }

  lemma StepKeeps(s: State, ev: Event)
    requires Inv(s) && Enabled(s, ev)
    ensures Inv(Apply(s, ev)) && s.tokens <= Apply(s, ev).tokens
    ensures forall salt :: Persistent(s, salt) ==> Persistent(Apply(s, ev), salt)
  {
    if IsShared(ev) { SharedStepKeeps(s, ev); } else { LocalStepKeeps(s, ev); }
  }

  lemma {:induction false} RunKeeps(s: State, events: seq<Event>)
    requires Inv(s) && Run(s, events).Some?
    ensures Inv(Run(s, events).value)
    ensures s.tokens <= Run(s, events).value.tokens
    ensures forall salt :: Persistent(s, salt) ==> Persistent(Run(s, events).value, salt)
    decreases |events|
  {
    if events != [] {
      var last := |events| - 1;
      RunKeeps(s, events[..last]);
      StepKeeps(Run(s, events[..last]).value, events[last]);
    }
  }
}
