/**
 The provider store shared by every process of the command line tool (crates/cli/src/providers.rs).
 A process plans an edit on the configuration it loaded; `update` takes the file lock, reloads, applies
 the edit to what is on disk then, and replaces the file.
 */
module Providers {
  import opened Wrappers
  import opened Text

  type Name = string
  type Path = seq<string>
  type Context = map<string, string>

  datatype Connection = Local(root: string) | Http(endpoint: string)

  datatype Profile = Profile(
    id: nat, connection: Connection, apiKeyEnv: Option<string>, account: Option<string>, clientId: Option<string>,
    storedCredentials: bool, scopes: seq<string>, context: Context)

  datatype AgentAlias = AgentAlias(provider: Name, connection: Connection, account: string, agent: nat,
      context: Context)

  datatype ThreadAlias = ThreadAlias(agent: AgentAlias, thread: nat)

  datatype Config = Config(
    profiles: map<Name, Profile>,
    global: Option<Name>,
    globalContext: Option<Context>,
    directoryDefaults: map<Path, Name>,
    directoryContexts: map<Path, Context>,
    agents: map<Name, AgentAlias>,
    threads: map<Name, ThreadAlias>)

  datatype StoreError =
    | Changed | NotConfigured | AliasTaken | ContextOnLocal | WrongCommand | EmptyName | NoConnection
    | AliasMismatch | OtherProvider | ConnectionChanged | StorageFailed

  const EMPTY := Config(map[], None, None, map[], map[], map[], map[])

  function Lookup<K, V>(m: map<K, V>, k: K): Option<V> { if k in m then Some(m[k]) else None }

  // ----- Edits applied under the lock -----

  datatype Edit =
    | Put(name: Name, prior: Option<Profile>, profile: Profile)
    | Drop(name: Name, current: Profile)
    | SwitchTo(name: Name, directory: Option<Path>, context: Option<Context>)
    | Unset(local: bool, globally: bool, cwd: Path)
    | BindAgent(name: Name, alias: AgentAlias)
    | BindThread(name: Name, threadAlias: ThreadAlias)
    | UnbindAgent(provider: Name, account: string, agent: nat)
    | UnbindThread(provider: Name, account: string, thread: nat)

  /** The closest ancestor of a directory, itself included, that has a default. */
  function Nearest(defaults: map<Path, Name>, cwd: Path): Option<Path> {
    if cwd in defaults then Some(cwd)
    else if cwd == [] then None
    else Nearest(defaults, cwd[..|cwd| - 1])
  }

  predicate IsAgent(a: AgentAlias, provider: Name, account: string, agent: nat) {
    a.provider == provider && a.account == account && a.agent == agent
  }

  function Dropped(c: Config, name: Name): Config {
    var defaults := map d | d in c.directoryDefaults && c.directoryDefaults[d] != name :: c.directoryDefaults[d];
    c.(profiles := c.profiles - {name},
       directoryDefaults := defaults,
       directoryContexts := map d | d in c.directoryContexts && d in defaults :: c.directoryContexts[d],
       global := if c.global == Some(name) then None else c.global,
       globalContext := if c.global == Some(name) then None else c.globalContext)
  }

  function Switched(c: Config, name: Name, directory: Option<Path>, context: Option<Context>): Config {
    match directory
    case Some(d) =>
      c.(directoryDefaults := c.directoryDefaults[d := name],
         directoryContexts :=
           if context.Some? then c.directoryContexts[d := context.value] else c.directoryContexts - {d})
    case None => c.(global := Some(name), globalContext := context)
  }

  function Cleared(c: Config, local: bool, globally: bool, cwd: Path): Config {
    match if globally then None else Nearest(c.directoryDefaults, cwd)
    case Some(d) => c.(directoryDefaults := c.directoryDefaults - {d}, directoryContexts := c.directoryContexts - {d})
    case None => if local then c else c.(global := None, globalContext := None)
  }

  function Apply(c: Config, edit: Edit): Result<Config, StoreError> {
    match edit
    case Put(name, prior, profile) =>
      if Lookup(c.profiles, name) != prior then Failure(Changed)
      else Success(c.(profiles := c.profiles[name := profile]))
    case Drop(name, prior) =>
      if Lookup(c.profiles, name) != Some(prior) then Failure(Changed) else Success(Dropped(c, name))
    case SwitchTo(name, directory, context) =>
      if name !in c.profiles then Failure(NotConfigured)
      else if c.profiles[name].connection.Local? && context.Some? && context.value != map[] then Failure(ContextOnLocal)
      else Success(Switched(c, name, directory, context))
    case Unset(local, globally, cwd) => Success(Cleared(c, local, globally, cwd))
    case BindAgent(name, alias) =>
      if name in c.agents && c.agents[name] != alias then Failure(AliasTaken)
      else Success(c.(agents := c.agents[name := alias]))
    case BindThread(name, alias) =>
      if name in c.threads && c.threads[name] != alias then Failure(AliasTaken)
      else Success(c.(threads := c.threads[name := alias]))
    case UnbindAgent(provider, account, agent) =>
      var agents := map n | n in c.agents && !IsAgent(c.agents[n], provider, account, agent) :: c.agents[n];
      var threads := map n | n in c.threads && !IsAgent(c.threads[n].agent, provider, account, agent) :: c.threads[n];
      Success(c.(agents := agents, threads := threads))
    case UnbindThread(provider, account, thread) =>
      var threads := map n | n in c.threads && !IsThread(c.threads[n], provider, account, thread) :: c.threads[n];
      Success(c.(threads := threads))
  }

  predicate IsThread(a: ThreadAlias, provider: Name, account: string, thread: nat) {
    a.agent.provider == provider && a.agent.account == account && a.thread == thread
  }

  // ----- Commands, planned on the configuration the process has loaded -----

  /** `connection` is the connection given on the command line, `id` the new id if one is needed. */
  datatype Settings = Settings(
    name: Name, connection: Option<Connection>, apiKeyEnv: Option<string>, clientId: Option<string>,
    scopes: seq<string>, context: Option<Context>, id: nat)

  datatype Command =
    | Configure(update: bool, settings: Settings)
    | Delete(name: Name)
    | Switch(name: Name, directory: Option<Path>, context: Option<Context>)
    | Clear(local: bool, globally: bool, cwd: Path)
    | Login(name: Name, account: string, apiKeyEnv: Option<string>)
    | Logout(name: Name, id: nat)
    | PinAgent(alias: Name, provider: Name, chosen: Context, account: string, agent: nat)
    | PinThread(alias: Name, provider: Name, chosen: Context, account: string, agent: nat, thread: nat)
    | UnpinAgent(provider: Name, account: string, agent: nat)
    | UnpinThread(provider: Name, account: string, thread: nat)

  /** The profile a configure command wants to save. */
  function Configured(prior: Option<Profile>, s: Settings): Result<Profile, StoreError> {
    if s.connection.None? && prior.None? then Failure(NoConnection)
    else
      var connection := if s.connection.Some? then s.connection.value else prior.value.connection;
      var base := if prior.Some? then prior.value else Profile(s.id, connection, None, None, None, false, [], map[]);
      var context := if s.context.Some? then s.context.value else base.context;
      if connection.Local? && context != map[] then Failure(ContextOnLocal)
      else
        var kept :=
          if base.connection == connection then base
          else base.(account := None, storedCredentials := false, id := s.id);
        Success(kept.(connection := connection, context := context,
                      apiKeyEnv := if s.apiKeyEnv.Some? then s.apiKeyEnv else kept.apiKeyEnv,
                      clientId := if s.clientId.Some? then s.clientId else kept.clientId,
                      scopes := if s.scopes != [] then s.scopes else kept.scopes))
  }

  function LoggedIn(p: Profile, account: string, apiKeyEnv: Option<string>): Profile {
    var variable := if apiKeyEnv.Some? then apiKeyEnv else p.apiKeyEnv;
    p.(apiKeyEnv := variable, storedCredentials := variable.None? || p.storedCredentials, account := Some(account))
  }

  function Alias(mine: Config, provider: Name, context: Context, account: string, agent: nat)
    : Result<AgentAlias, StoreError>
  {
    if provider !in mine.profiles then Failure(NotConfigured)
    else Success(AgentAlias(provider, mine.profiles[provider].connection, account, agent, context))
  }

  function Plan(mine: Config, command: Command): Result<Edit, StoreError> {
    match command
    case Configure(update, s) =>
      if (s.name in mine.profiles) != update then Failure(WrongCommand)
      else if Blank(s.name) then Failure(EmptyName)
      else (match Configured(Lookup(mine.profiles, s.name), s)
            case Success(profile) => Success(Put(s.name, Lookup(mine.profiles, s.name), profile))
            case Failure(e) => Failure(e))
    case Delete(name) =>
      if name !in mine.profiles then Failure(NotConfigured) else Success(Drop(name, mine.profiles[name]))
    case Switch(name, directory, context) => Success(SwitchTo(name, directory, context))
    case Clear(local, globally, cwd) => Success(Unset(local, globally, cwd))
    case Login(name, account, apiKeyEnv) =>
      if name !in mine.profiles then Failure(NotConfigured)
      else Success(Put(name, Some(mine.profiles[name]), LoggedIn(mine.profiles[name], account, apiKeyEnv)))
    case Logout(name, id) =>
      if name !in mine.profiles then Failure(NotConfigured)
      else Success(Put(name, Some(mine.profiles[name]),
                       mine.profiles[name].(id := id, apiKeyEnv := None, storedCredentials := false, account := None)))
    case PinAgent(name, provider, context, account, agent) =>
      (match Alias(mine, provider, context, account, agent)
       case Success(alias) => Success(BindAgent(name, alias))
       case Failure(e) => Failure(e))
    case PinThread(name, provider, context, account, agent, thread) =>
      (match Alias(mine, provider, context, account, agent)
       case Success(alias) => Success(BindThread(name, ThreadAlias(alias, thread)))
       case Failure(e) => Failure(e))
    case UnpinAgent(provider, account, agent) => Success(UnbindAgent(provider, account, agent))
    case UnpinThread(provider, account, thread) => Success(UnbindThread(provider, account, thread))
  }

  // ----- The store of one process -----

  class Disk {
    var saved: Config

    constructor ()
      ensures saved == EMPTY
    {
      saved := EMPTY;
    }
  }

  class Store {
    const disk: Disk
    var config: Config

    constructor (disk: Disk)
      ensures this.disk == disk && config == disk.saved
    {
      this.disk := disk;
      config := disk.saved;
    }

    /** Nothing changes on disk or in memory unless the operation and the write succeed. */
    method Update(operation: Config -> Result<Config, StoreError>, writes: bool) returns (r: Result<(), StoreError>)
      modifies this`config, disk
      ensures r.Success? <==> writes && operation(old(disk.saved)).Success?
      ensures r.Success? ==> disk.saved == operation(old(disk.saved)).value && config == disk.saved
      ensures r.Failure? ==> disk.saved == old(disk.saved) && config == old(config)
      ensures r.Failure? ==>
        r.error == match operation(old(disk.saved)) case Failure(e) => e case Success(_) => StorageFailed
    {
      var config' := disk.saved;
      match operation(config') {
        case Failure(e) => return Failure(e);
        case Success(after) => config' := after;
      }
      if !writes { return Failure(StorageFailed); }
      disk.saved := config';
      config := config';
      r := Success(());
    }

    /** One command: plan on what this process has loaded, apply to what is on disk. */
    method Perform(command: Command, writes: bool) returns (r: Result<(), StoreError>)
      modifies this`config, disk
      ensures match Outcome(old(config), old(disk.saved), command, writes)
        case Success(after) => r.Success? && disk.saved == after && config == after
        case Failure(e) => r == Failure(e) && disk.saved == old(disk.saved) && config == old(config)
    {
      match Plan(config, command) {
        case Failure(e) => r := Failure(e);
        case Success(edit) => r := Update(c => Apply(c, edit), writes);
      }
    }
  }

  // ----- All processes -----

  /** The file, and the configuration each process has in memory. */
  datatype World = World(disk: Config, procs: map<nat, Config>)

  datatype Step = Load(pid: nat) | Run(pid: nat, command: Command, writes: bool)

  /** What a command of a process makes of the file; `writes` says whether the file can be replaced. */
  function Outcome(mine: Config, disk: Config, command: Command, writes: bool): Result<Config, StoreError> {
    match Plan(mine, command)
    case Failure(e) => Failure(e)
    case Success(edit) =>
      match Apply(disk, edit)
      case Failure(e) => Failure(e)
      case Success(after) => if writes then Success(after) else Failure(StorageFailed)
  }

  function Committed(mine: Config, disk: Config, command: Command, writes: bool): Option<Config> {
    match Outcome(mine, disk, command, writes) case Success(after) => Some(after) case Failure(_) => None
  }

  function Commit(w: World, pid: nat, command: Command, writes: bool): World
    requires pid in w.procs
  {
    match Committed(w.procs[pid], w.disk, command, writes)
    case Some(after) => World(after, w.procs[pid := after])
    case None => w
  }

  function Next(w: World, step: Step): World {
    match step
    case Load(pid) => w.(procs := w.procs[pid := w.disk])
    case Run(pid, command, writes) => if pid in w.procs then Commit(w, pid, command, writes) else w
  }

  function RunAll(w: World, steps: seq<Step>): World {
    if steps == [] then w else Next(RunAll(w, steps[..|steps| - 1]), steps[|steps| - 1])
  }

  const FRESH := World(EMPTY, map[])

  ghost predicate SelectionsOk(c: Config) {
    && (c.global.Some? ==> c.global.value in c.profiles)
    && (c.globalContext.Some? ==> c.global.Some?)
    && (forall d :: d in c.directoryDefaults ==> c.directoryDefaults[d] in c.profiles)
    && c.directoryContexts.Keys <= c.directoryDefaults.Keys
  }

  /** A profile's own context is empty unless it is an HTTP profile. */
  predicate ProfileOk(p: Profile) { p.connection.Local? ==> p.context == map[] }

  ghost predicate Inv(c: Config) {
    SelectionsOk(c) && forall n :: n in c.profiles ==> ProfileOk(c.profiles[n])
  }

  lemma {:induction false} PlannedProfileOk(mine: Config, command: Command)
    requires Inv(mine) && Plan(mine, command).Success? && Plan(mine, command).value.Put?
    ensures ProfileOk(Plan(mine, command).value.profile)
  {
    var name := Plan(mine, command).value.name;
    if name in mine.profiles {
      assert ProfileOk(mine.profiles[name]);
    }
  }

  lemma {:induction false} ApplyKeepsInv(c: Config, edit: Edit)
    requires Inv(c) && Apply(c, edit).Success? && (edit.Put? ==> ProfileOk(edit.profile))
    ensures Inv(Apply(c, edit).value)
  {
    if edit.Drop? {
      DropKeepsInv(c, edit.name);
    }
  }

  lemma {:induction false} DropKeepsInv(c: Config, name: Name)
    requires Inv(c)
    ensures Inv(Dropped(c, name))
  {
  }

  /**
   After any interleaving of loads and locked updates by any number of processes: every default
   names a profile, every directory context belongs to a directory default, a global context to a
   global default, and no local profile has a context of its own. It also holds of every copy in
   the memory of a process.
   */
  lemma {:induction false} StoreInvariant(steps: seq<Step>)
    ensures var w := RunAll(FRESH, steps);
      Inv(w.disk) && forall p :: p in w.procs ==> Inv(w.procs[p])
  {
    if steps != [] {
      var w, step := RunAll(FRESH, steps[..|steps| - 1]), steps[|steps| - 1];
      StoreInvariant(steps[..|steps| - 1]);
      if step.Run? && step.pid in w.procs && Committed(w.procs[step.pid], w.disk, step.command, step.writes).Some? {
        var edit := Plan(w.procs[step.pid], step.command).value;
        if edit.Put? {
          PlannedProfileOk(w.procs[step.pid], step.command);
        }
        ApplyKeepsInv(w.disk, edit);
      }
    }
  }

  /**
   A command changes a profile only if the disk still holds what its process had loaded, and then
   only that profile.
   */
  lemma {:induction false} NoLostUpdate(w: World, pid: nat, command: Command, writes: bool, name: Name)
    requires pid in w.procs
    requires Lookup(Commit(w, pid, command, writes).disk.profiles, name) != Lookup(w.disk.profiles, name)
    ensures Lookup(w.procs[pid].profiles, name) == Lookup(w.disk.profiles, name)
    ensures forall n :: n != name ==>
      Lookup(Commit(w, pid, command, writes).disk.profiles, n) == Lookup(w.disk.profiles, n)
  {
    var edit := Plan(w.procs[pid], command).value;
    assert edit.Put? || edit.Drop?;
  }

  /** The id a command draws for the profile it saves. */
  function Drawn(step: Step): Option<nat> {
    match step
    case Run(_, Configure(_, settings), _) => Some(settings.id)
    case Run(_, Logout(_, id), _) => Some(id)
    case _ => None
  }

  /** Ids are drawn fresh, as time-ordered unique ids are. */
  ghost predicate FreshIds(steps: seq<Step>) {
    forall i, j :: 0 <= i < j < |steps| && Drawn(steps[i]).Some? ==> Drawn(steps[i]) != Drawn(steps[j])
  }

  ghost predicate WasDrawn(steps: seq<Step>, id: nat) {
    exists i :: 0 <= i < |steps| && Drawn(steps[i]) == Some(id)
  }

  ghost predicate IdsDrawn(steps: seq<Step>, c: Config) {
    forall n :: n in c.profiles ==> WasDrawn(steps, c.profiles[n].id)
  }

  ghost predicate DistinctProfiles(c: Config) {
    forall m, n :: m in c.profiles && n in c.profiles && m != n ==> c.profiles[m].id != c.profiles[n].id
  }

  /** A saved profile keeps the id its process had loaded, or takes the one the command has drawn. */
  lemma {:induction false} PlannedId(mine: Config, step: Step)
    requires step.Run? && Plan(mine, step.command).Success? && Plan(mine, step.command).value.Put?
    ensures var edit := Plan(mine, step.command).value;
      && edit.prior == Lookup(mine.profiles, edit.name)
      && (Drawn(step) == Some(edit.profile.id) || (edit.prior.Some? && edit.profile.id == edit.prior.value.id))
  {
  }

  lemma {:induction false} DrawnLater(steps: seq<Step>, step: Step, c: Config)
    requires IdsDrawn(steps, c)
    ensures IdsDrawn(steps + [step], c)
  {
    forall n | n in c.profiles ensures WasDrawn(steps + [step], c.profiles[n].id) {
      var i :| 0 <= i < |steps| && Drawn(steps[i]) == Some(c.profiles[n].id);
      assert Drawn((steps + [step])[i]) == Some(c.profiles[n].id);
    }
  }

  lemma {:induction false} NotDrawnBefore(steps: seq<Step>, step: Step, c: Config)
    requires FreshIds(steps + [step]) && IdsDrawn(steps, c) && Drawn(step).Some?
    ensures forall n :: n in c.profiles ==> c.profiles[n].id != Drawn(step).value
  {
    forall n | n in c.profiles ensures c.profiles[n].id != Drawn(step).value {
      var all := steps + [step];
      assert WasDrawn(steps, c.profiles[n].id);
      var i :| 0 <= i < |steps| && Drawn(steps[i]) == Some(c.profiles[n].id);
      assert Drawn(all[i]) != Drawn(all[|steps|]);
    }
  }

  lemma {:induction false} PutKeepsIds(steps: seq<Step>, step: Step, c: Config, edit: Edit)
    requires FreshIds(steps + [step]) && IdsDrawn(steps, c) && DistinctProfiles(c)
    requires edit.Put? && Apply(c, edit).Success?
    requires Drawn(step) == Some(edit.profile.id) || (edit.prior.Some? && edit.profile.id == edit.prior.value.id)
    ensures IdsDrawn(steps + [step], Apply(c, edit).value) && DistinctProfiles(Apply(c, edit).value)
  {
    var after := Apply(c, edit).value;
    DrawnLater(steps, step, c);
    if Drawn(step) == Some(edit.profile.id) {
      NotDrawnBefore(steps, step, c);
      assert Drawn((steps + [step])[|steps|]) == Some(edit.profile.id);
      assert WasDrawn(steps + [step], edit.profile.id);
    }
  }

  lemma {:induction false} EditKeepsIds(steps: seq<Step>, step: Step, c: Config, edit: Edit)
    requires IdsDrawn(steps, c) && DistinctProfiles(c) && !edit.Put? && Apply(c, edit).Success?
    ensures IdsDrawn(steps + [step], Apply(c, edit).value) && DistinctProfiles(Apply(c, edit).value)
  {
    DrawnLater(steps, step, c);
    var after := Apply(c, edit).value;
    assert forall n :: n in after.profiles ==> n in c.profiles && after.profiles[n] == c.profiles[n];
  }

  /**
   After any interleaving of processes that draw fresh ids, every profile's id was drawn and no two
   profiles share one.
   */
  lemma {:induction false} ProfileIds(steps: seq<Step>)
    requires FreshIds(steps)
    ensures IdsDrawn(steps, RunAll(FRESH, steps).disk) && DistinctProfiles(RunAll(FRESH, steps).disk)
  {
    if steps != [] {
      var init, step := steps[..|steps| - 1], steps[|steps| - 1];
      var w := RunAll(FRESH, init);
      assert steps == init + [step];
      assert FreshIds(init) by {
        assert forall i :: 0 <= i < |init| ==> steps[i] == init[i];
      }
      ProfileIds(init);
      DrawnLater(init, step, w.disk);
      if step.Run? && step.pid in w.procs && Committed(w.procs[step.pid], w.disk, step.command, step.writes).Some? {
        var edit := Plan(w.procs[step.pid], step.command).value;
        if edit.Put? {
          PlannedId(w.procs[step.pid], step);
          PutKeepsIds(init, step, w.disk, edit);
        } else {
          EditKeepsIds(init, step, w.disk, edit);
        }
      }
    }
  }

  lemma {:induction false} LoggedOut(w: World, pid: nat, command: Command, writes: bool, name: Name)
    requires pid in w.procs && name in w.disk.profiles && name in Commit(w, pid, command, writes).disk.profiles
    requires Commit(w, pid, command, writes).disk.profiles[name].connection != w.disk.profiles[name].connection
    ensures var p := Commit(w, pid, command, writes).disk.profiles[name];
      p.account.None? && !p.storedCredentials && command.Configure? && p.id == command.settings.id
  {
    NoLostUpdate(w, pid, command, writes, name);
    var edit := Plan(w.procs[pid], command).value;
    assert edit.Put? && edit.name == name && edit.prior == Some(w.disk.profiles[name]);
  }

  /** Pointing a profile at another connection logs it out and gives it an id that no profile had. */
  lemma {:induction false} NewConnectionLogsOut(steps: seq<Step>, pid: nat, command: Command, writes: bool, name: Name)
    requires FreshIds(steps + [Run(pid, command, writes)]) && pid in RunAll(FRESH, steps).procs
    requires var w := RunAll(FRESH, steps);
      && name in w.disk.profiles && name in Commit(w, pid, command, writes).disk.profiles
      && Commit(w, pid, command, writes).disk.profiles[name].connection != w.disk.profiles[name].connection
    ensures var w := RunAll(FRESH, steps);
      var p := Commit(w, pid, command, writes).disk.profiles[name];
      && p.account.None? && !p.storedCredentials
      && forall n :: n in w.disk.profiles ==> p.id != w.disk.profiles[n].id
  {
    var w, step := RunAll(FRESH, steps), Run(pid, command, writes);
    LoggedOut(w, pid, command, writes, name);
    assert FreshIds(steps) by {
      assert forall i :: 0 <= i < |steps| ==> (steps + [step])[i] == steps[i];
    }
    ProfileIds(steps);
    NotDrawnBefore(steps, step, w.disk);
  }

  // ----- Aliases -----

  /** The command releases this alias. */
  predicate Releases(step: Step, alias: AgentAlias) {
    && step.Run? && step.command.UnpinAgent?
    && IsAgent(alias, step.command.provider, step.command.account, step.command.agent)
  }

  predicate ReleasesThread(step: Step, alias: ThreadAlias) {
    || Releases(step, alias.agent)
    || (&& step.Run? && step.command.UnpinThread?
        && IsThread(alias, step.command.provider, step.command.account, step.command.thread))
  }

  ghost predicate Keeps<V>(m: map<Name, V>, after: map<Name, V>, name: Name) {
    name in m && name in after && after[name] == m[name]
  }

  predicate FreesAgent(edit: Edit, alias: AgentAlias) {
    edit.UnbindAgent? && IsAgent(alias, edit.provider, edit.account, edit.agent)
  }

  predicate FreesThread(edit: Edit, alias: ThreadAlias) {
    FreesAgent(edit, alias.agent) || (edit.UnbindThread? && IsThread(alias, edit.provider, edit.account, edit.thread))
  }

  lemma {:induction false} EditKeepsAliases(c: Config, edit: Edit, name: Name)
    requires Apply(c, edit).Success?
    ensures name in c.agents && !FreesAgent(edit, c.agents[name]) ==> Keeps(c.agents, Apply(c, edit).value.agents, name)
    ensures name in c.threads && !FreesThread(edit, c.threads[name]) ==>
      Keeps(c.threads, Apply(c, edit).value.threads, name)
  {
  }

  lemma {:induction false} StepKeepsAliases(w: World, step: Step, name: Name)
    ensures name in w.disk.agents && !Releases(step, w.disk.agents[name]) ==>
      Keeps(w.disk.agents, Next(w, step).disk.agents, name)
    ensures name in w.disk.threads && !ReleasesThread(step, w.disk.threads[name]) ==>
      Keeps(w.disk.threads, Next(w, step).disk.threads, name)
  {
    if step.Run? && step.pid in w.procs && Committed(w.procs[step.pid], w.disk, step.command, step.writes).Some? {
      EditKeepsAliases(w.disk, Plan(w.procs[step.pid], step.command).value, name);
    }
  }

  /** Whatever the processes do, a name keeps its agent until a command unpins that very agent. */
  lemma {:induction false} AgentAliasStays(w: World, steps: seq<Step>, name: Name)
    requires name in w.disk.agents
    requires forall i :: 0 <= i < |steps| ==> !Releases(steps[i], w.disk.agents[name])
    ensures name in RunAll(w, steps).disk.agents && RunAll(w, steps).disk.agents[name] == w.disk.agents[name]
  {
    if steps != [] {
      AgentAliasStays(w, steps[..|steps| - 1], name);
      StepKeepsAliases(RunAll(w, steps[..|steps| - 1]), steps[|steps| - 1], name);
    }
  }

  lemma {:induction false} ThreadAliasStays(w: World, steps: seq<Step>, name: Name)
    requires name in w.disk.threads
    requires forall i :: 0 <= i < |steps| ==> !ReleasesThread(steps[i], w.disk.threads[name])
    ensures name in RunAll(w, steps).disk.threads && RunAll(w, steps).disk.threads[name] == w.disk.threads[name]
  {
    if steps != [] {
      ThreadAliasStays(w, steps[..|steps| - 1], name);
      StepKeepsAliases(RunAll(w, steps[..|steps| - 1]), steps[|steps| - 1], name);
    }
  }

  // ----- Selection -----

  datatype Source = FromProfile | FromGlobal | FromDirectory(path: Path) | FromAlias

  datatype Selection = Selection(name: Name, context: Context, source: Source)

  function Choose(c: Config, name: Name, context: Option<Context>, source: Source)
    : Result<Option<Selection>, StoreError>
  {
    if context.Some? then Success(Some(Selection(name, context.value, source)))
    else if name in c.profiles then Success(Some(Selection(name, c.profiles[name].context, source)))
    else Failure(NotConfigured)
  }

  function AliasFor(c: Config, agent: Option<Name>, thread: Option<Name>): Option<AgentAlias> {
    if thread.Some? && thread.value in c.threads then Some(c.threads[thread.value].agent)
    else if agent.Some? && agent.value in c.agents then Some(c.agents[agent.value])
    else None
  }

  predicate AliasesClash(c: Config, agent: Option<Name>, thread: Option<Name>) {
    && agent.Some? && agent.value in c.agents && thread.Some? && thread.value in c.threads
    && var a, b := c.agents[agent.value], c.threads[thread.value].agent;
       a.provider != b.provider || a.account != b.account || a.agent != b.agent || a.context != b.context
  }

  function Selected(c: Config, explicit: Option<Name>, agent: Option<Name>, thread: Option<Name>, cwd: Path)
    : Result<Option<Selection>, StoreError>
  {
    if AliasesClash(c, agent, thread) then Failure(AliasMismatch)
    else match AliasFor(c, agent, thread)
      case Some(alias) =>
        if explicit.Some? && explicit.value != alias.provider then Failure(OtherProvider)
        else if alias.provider !in c.profiles then Failure(NotConfigured)
        else if c.profiles[alias.provider].connection != alias.connection then Failure(ConnectionChanged)
        else Success(Some(Selection(alias.provider, alias.context, FromAlias)))
      case None =>
        if explicit.Some? then Choose(c, explicit.value, None, FromProfile)
        else match Nearest(c.directoryDefaults, cwd)
          case Some(d) =>
            if d in c.directoryDefaults
            then Choose(c, c.directoryDefaults[d], Lookup(c.directoryContexts, d), FromDirectory(d))
            else Success(None)
          case None =>
            if c.global.Some? then Choose(c, c.global.value, c.globalContext, FromGlobal) else Success(None)
  }

  predicate Ancestor(a: Path, b: Path) { a <= b }

  /** The nearest default is the longest ancestor that has one, and is found whenever some ancestor has one. */
  lemma {:induction false} NearestIsLongest(defaults: map<Path, Name>, cwd: Path, d: Path)
    ensures Nearest(defaults, cwd) == Some(d) <==>
      Ancestor(d, cwd) && d in defaults && forall e :: Ancestor(e, cwd) && e in defaults ==> |e| <= |d|
    ensures Nearest(defaults, cwd).None? <==> forall e :: Ancestor(e, cwd) ==> e !in defaults
  {
    assert Ancestor(cwd, cwd);
    if Ancestor(d, cwd) && |d| >= |cwd| {
      assert d == cwd;
    }
    if cwd !in defaults && cwd != [] {
      var up := cwd[..|cwd| - 1];
      NearestIsLongest(defaults, up, d);
      forall e ensures Ancestor(e, cwd) <==> e == cwd || Ancestor(e, up) {
        if Ancestor(e, cwd) && e != cwd {
          assert |e| < |cwd|;
        }
      }
    }
  }

  /** In every reachable store, looking up the saved selection never fails, and it names a configured profile. */
  lemma {:induction false} SavedSelectionWorks(steps: seq<Step>, cwd: Path)
    ensures var c := RunAll(FRESH, steps).disk;
      var selected := Selected(c, None, None, None, cwd);
      selected.Success? && (selected.value.Some? ==> selected.value.value.name in c.profiles)
  {
    StoreInvariant(steps);
    var c := RunAll(FRESH, steps).disk;
    if Nearest(c.directoryDefaults, cwd).Some? {
      NearestIsLongest(c.directoryDefaults, cwd, Nearest(c.directoryDefaults, cwd).value);
    }
  }

  /** The selection has the context saved with it, or else its profile's. */
  predicate OwnContext(c: Config, s: Selection, saved: Option<Context>) {
    match saved
    case Some(context) => s.context == context
    case None => s.name in c.profiles && s.context == c.profiles[s.name].context
  }

  /**
   Where a selection comes from: an alias first, then the explicit name, the nearest directory, the
   global default.
   */
  lemma {:induction false} SelectionPrecedence(c: Config, explicit: Option<Name>, agent: Option<Name>,
      thread: Option<Name>, cwd: Path)
    requires Selected(c, explicit, agent, thread, cwd).Success? && Selected(c, explicit, agent, thread, cwd).value.Some?
    ensures var s, alias := Selected(c, explicit, agent, thread, cwd).value.value, AliasFor(c, agent, thread);
      && (alias.Some? <==> s.source == FromAlias)
      && match s.source
         case FromAlias =>
           && s.name == alias.value.provider && s.context == alias.value.context
           && (explicit.Some? ==> explicit.value == s.name)
           && s.name in c.profiles && c.profiles[s.name].connection == alias.value.connection
         case FromProfile => explicit == Some(s.name) && s.name in c.profiles && s.context == c.profiles[s.name].context
         case FromDirectory(d) =>
           && explicit.None? && Ancestor(d, cwd) && d in c.directoryDefaults && c.directoryDefaults[d] == s.name
           && OwnContext(c, s, if d in c.directoryContexts then Some(c.directoryContexts[d]) else None)
           && forall e :: Ancestor(e, cwd) && e in c.directoryDefaults ==> |e| <= |d|
         case FromGlobal =>
           && explicit.None? && c.global == Some(s.name) && OwnContext(c, s, c.globalContext)
           && forall e :: Ancestor(e, cwd) ==> e !in c.directoryDefaults
  {
    var near := Nearest(c.directoryDefaults, cwd);
    NearestIsLongest(c.directoryDefaults, cwd, if near.Some? then near.value else cwd);
  }

  /**
   A switch is what is selected afterwards, in its directory and below down to the next default, or
   wherever no directory has one.
   */
  lemma {:induction false} SwitchTakesEffect(c: Config, name: Name, directory: Option<Path>, context: Option<Context>,
      cwd: Path)
    requires Apply(c, SwitchTo(name, directory, context)).Success?
    requires directory.Some? ==> Ancestor(directory.value, cwd)
    requires forall e :: Ancestor(e, cwd) && e in c.directoryDefaults ==> directory.Some? && |e| <= |directory.value|
    ensures var chosen := if context.Some? then context.value else c.profiles[name].context;
      Selected(Apply(c, SwitchTo(name, directory, context)).value, None, None, None, cwd) ==
        Success(Some(Selection(name, chosen, if directory.Some? then FromDirectory(directory.value) else FromGlobal)))
  {
    var after := Switched(c, name, directory, context);
    NearestIsLongest(after.directoryDefaults, cwd, if directory.Some? then directory.value else cwd);
  }

  /** Clearing in a directory undoes a switch made there, when the directory had no default before. */
  lemma {:induction false} ClearUndoesSwitch(c: Config, name: Name, cwd: Path, context: Option<Context>, local: bool)
    requires Inv(c) && cwd !in c.directoryDefaults
    ensures Cleared(Switched(c, name, Some(cwd), context), local, false, cwd) == c
  {
    var s := Switched(c, name, Some(cwd), context);
    assert s.directoryDefaults - {cwd} == c.directoryDefaults;
    assert s.directoryContexts - {cwd} == c.directoryContexts;
  }

  // ----- Selection contexts and local profiles -----

  predicate Fitting(c: Config, name: Name, context: Option<Context>) {
    context.Some? && context.value != map[] ==> name in c.profiles && c.profiles[name].connection.Http?
  }

  /** A selection carries a context only for an HTTP profile, as `switch` demands when it saves one. */
  ghost predicate ContextsFit(c: Config) {
    && (c.global.Some? ==> Fitting(c, c.global.value, c.globalContext))
    && forall d :: d in c.directoryDefaults ==> Fitting(c, c.directoryDefaults[d], Lookup(c.directoryContexts, d))
  }

  predicate HasContext(c: Config, d: Path) { d in c.directoryContexts && c.directoryContexts[d] != map[] }

  /** Some saved selection of this profile carries a context. */
  ghost predicate SelectedWithContext(c: Config, name: Name) {
    || (c.global == Some(name) && c.globalContext.Some? && c.globalContext.value != map[])
    || exists d :: d in c.directoryDefaults && c.directoryDefaults[d] == name && HasContext(c, d)
  }

  /** Exactly one kind of edit breaks this: making a profile local while a saved selection of it carries a context. */
  lemma {:induction false} ContextsFitExactly(c: Config, edit: Edit)
    requires Inv(c) && ContextsFit(c) && Apply(c, edit).Success?
    ensures ContextsFit(Apply(c, edit).value) <==>
      !(edit.Put? && edit.profile.connection.Local? && SelectedWithContext(c, edit.name))
  {
    var after := Apply(c, edit).value;
    match edit {
      case Put(name, _, profile) => PutFits(c, name, profile);
      case Drop(name, _) => DropFits(c, name);
      case SwitchTo(name, directory, context) => SwitchFits(c, name, directory, context);
      case Unset(local, globally, cwd) => ClearFits(c, local, globally, cwd);
      case _ => SameFits(c, after);
    }
  }

  lemma {:induction false} PutFits(c: Config, name: Name, profile: Profile)
    requires ContextsFit(c)
    ensures ContextsFit(c.(profiles := c.profiles[name := profile])) <==>
      !(profile.connection.Local? && SelectedWithContext(c, name))
  {
    var after := c.(profiles := c.profiles[name := profile]);
    if profile.connection.Local? && SelectedWithContext(c, name) {
      if !(c.global == Some(name) && c.globalContext.Some? && c.globalContext.value != map[]) {
        var d :| d in c.directoryDefaults && c.directoryDefaults[d] == name && HasContext(c, d);
        assert !Fitting(after, after.directoryDefaults[d], Lookup(after.directoryContexts, d));
      }
    } else {
      forall d | d in c.directoryDefaults
        ensures Fitting(after, c.directoryDefaults[d], Lookup(c.directoryContexts, d))
      {
        assert Fitting(c, c.directoryDefaults[d], Lookup(c.directoryContexts, d));
      }
    }
  }

  lemma {:induction false} SameFits(c: Config, after: Config)
    requires ContextsFit(c) && after == c.(agents := after.agents, threads := after.threads)
    ensures ContextsFit(after)
  {
    forall d | d in after.directoryDefaults
      ensures Fitting(after, after.directoryDefaults[d], Lookup(after.directoryContexts, d))
    {
      assert Fitting(c, c.directoryDefaults[d], Lookup(c.directoryContexts, d));
    }
  }

  lemma {:induction false} SwitchFits(c: Config, name: Name, directory: Option<Path>, context: Option<Context>)
    requires ContextsFit(c) && Fitting(c, name, context)
    ensures ContextsFit(Switched(c, name, directory, context))
  {
    var after := Switched(c, name, directory, context);
    forall d | d in after.directoryDefaults
      ensures Fitting(after, after.directoryDefaults[d], Lookup(after.directoryContexts, d))
    {
      if directory != Some(d) {
        assert Fitting(c, c.directoryDefaults[d], Lookup(c.directoryContexts, d));
      }
    }
  }

  lemma {:induction false} ClearFits(c: Config, local: bool, globally: bool, cwd: Path)
    requires ContextsFit(c)
    ensures ContextsFit(Cleared(c, local, globally, cwd))
  {
    var after := Cleared(c, local, globally, cwd);
    forall d | d in after.directoryDefaults
      ensures Fitting(after, after.directoryDefaults[d], Lookup(after.directoryContexts, d))
    {
      assert Fitting(c, c.directoryDefaults[d], Lookup(c.directoryContexts, d));
    }
  }

  lemma {:induction false} DropFits(c: Config, name: Name)
    requires Inv(c) && ContextsFit(c)
    ensures ContextsFit(Dropped(c, name))
  {
    var after := Dropped(c, name);
    forall d | d in after.directoryDefaults
      ensures Fitting(after, after.directoryDefaults[d], Lookup(after.directoryContexts, d))
    {
      assert Fitting(c, c.directoryDefaults[d], Lookup(c.directoryContexts, d));
    }
  }

  const REMOTE := Profile(0, Http("u"), None, None, None, false, [], map[])
  const CREATED := EMPTY.(profiles := map["p" := REMOTE])
  const SELECTED := CREATED.(global := Some("p"), globalContext := Some(map["k" := "v"]))
  const MOVED := SELECTED.(profiles := map["p" := REMOTE.(id := 1, connection := Local("r"))])

  const CREATE := Configure(false, Settings("p", Some(Http("u")), None, None, [], None, 0))
  const SWITCH := Switch("p", None, Some(map["k" := "v"]))
  const MOVE := Configure(true, Settings("p", Some(Local("r")), None, None, [], None, 1))

  lemma {:induction false} CreatesRemote()
    ensures Committed(EMPTY, EMPTY, CREATE, true) == Some(CREATED)
  {
    assert "p"[0] == 'p' && !Blank("p");
    assert Plan(EMPTY, CREATE) == Success(Put("p", None, REMOTE));
  }

  lemma {:induction false} MovesToLocal()
    ensures Committed(SELECTED, SELECTED, MOVE, true) == Some(MOVED)
  {
    assert "p"[0] == 'p' && !Blank("p");
    assert Plan(SELECTED, MOVE).value == Put("p", Some(REMOTE), REMOTE.(id := 1, connection := Local("r")));
    assert SELECTED.profiles["p" := REMOTE.(id := 1, connection := Local("r"))] == MOVED.profiles;
  }

  /** It can happen: create an HTTP profile, select it with a context, then point it at a local directory. */
  lemma {:induction false} LocalProfileWithContext() returns (steps: seq<Step>)
    ensures !ContextsFit(RunAll(FRESH, steps).disk)
  {
    CreatesRemote();
    MovesToLocal();
    var s1 := Alone([], EMPTY, CREATE, CREATED);
    var s2 := Alone(s1, CREATED, SWITCH, SELECTED);
    steps := Alone(s2, SELECTED, MOVE, MOVED);
    assert "k" in map["k" := "v"];
    assert !Fitting(MOVED, "p", MOVED.globalContext);
  }

  /** A process that loads the file and runs one command. */
  lemma {:induction false} Alone(steps: seq<Step>, c: Config, command: Command, after: Config) returns (more: seq<Step>)
    requires RunAll(FRESH, steps).disk == c && Committed(c, c, command, true) == Some(after)
    ensures RunAll(FRESH, more).disk == after
  {
    var loaded := steps + [Load(0)];
    more := loaded + [Run(0, command, true)];
    assert loaded[..|steps|] == steps && more[..|loaded|] == loaded;
  }
}
