/**
 What each command on the provider store does, told on the file itself, for whatever the process had
 loaded and whatever other processes have written since (crates/cli/src/providers.rs).
 */
module ProviderCommands {
  import opened Wrappers
  import opened Text
  import opened Providers

  /** Every key but this one has what it had. */
  ghost predicate SameBut<K(!new), V>(before: map<K, V>, after: map<K, V>, key: K) {
    forall k :: k != key ==> Lookup(after, k) == Lookup(before, k)
  }

  ghost predicate SameAliases(before: Config, after: Config) {
    after.agents == before.agents && after.threads == before.threads
  }

  ghost predicate SameDefaults(before: Config, after: Config) {
    && after.global == before.global && after.globalContext == before.globalContext
    && after.directoryDefaults == before.directoryDefaults && after.directoryContexts == before.directoryContexts
  }

  /** Only this profile changed, and this is what it became. */
  ghost predicate OnlySaves(before: Config, after: Config, name: Name, profile: Profile) {
    && Lookup(after.profiles, name) == Some(profile) && SameBut(before.profiles, after.profiles, name)
    && SameDefaults(before, after) && SameAliases(before, after)
  }

  // ----- Profiles -----

  /** The fields of a configured profile; a new connection is a logged out profile under the new id. */
  ghost predicate ConfiguredAs(prior: Option<Profile>, s: Settings, p: Profile) {
    && (match s.connection
        case Some(given) => p.connection == given
        case None => prior.Some? && p.connection == prior.value.connection)
    && (match s.context
        case Some(given) => p.context == given
        case None => p.context == if prior.Some? then prior.value.context else map[])
    && (match s.apiKeyEnv
        case Some(given) => p.apiKeyEnv == Some(given)
        case None => p.apiKeyEnv == if prior.Some? then prior.value.apiKeyEnv else None)
    && (match s.clientId
        case Some(given) => p.clientId == Some(given)
        case None => p.clientId == if prior.Some? then prior.value.clientId else None)
    && (if |s.scopes| > 0 then p.scopes == s.scopes else p.scopes == if prior.Some? then prior.value.scopes else [])
    && (if prior.Some? && prior.value.connection == p.connection
        then p.id == prior.value.id && p.account == prior.value.account
             && p.storedCredentials == prior.value.storedCredentials
        else p.id == s.id && p.account == None && !p.storedCredentials)
  }

  /** The settings leave a local profile with a context, given or kept. */
  predicate LocalContext(prior: Option<Profile>, s: Settings) {
    && (match s.connection case Some(given) => given.Local? case None => prior.Some? && prior.value.connection.Local?)
    && (match s.context case Some(given) => given != map[] case None => prior.Some? && prior.value.context != map[])
  }

  /** Create and update: what is saved, and every reason to refuse. */
  lemma {:induction false} ConfigureExact(mine: Config, disk: Config, update: bool, s: Settings, writes: bool)
    ensures var prior := Lookup(mine.profiles, s.name);
      match Outcome(mine, disk, Configure(update, s), writes)
      case Success(after) =>
        && writes && update == prior.Some? && Trimmed(s.name) != "" && (s.connection.Some? || update)
        && !LocalContext(prior, s) && Lookup(disk.profiles, s.name) == prior
        && s.name in after.profiles && ConfiguredAs(prior, s, after.profiles[s.name])
        && OnlySaves(disk, after, s.name, after.profiles[s.name])
      case Failure(e) =>
        if update != prior.Some? then e == WrongCommand
        else if Trimmed(s.name) == "" then e == EmptyName
        else if s.connection.None? && !update then e == NoConnection
        else if LocalContext(prior, s) then e == ContextOnLocal
        else if Lookup(disk.profiles, s.name) != prior then e == Changed
        else e == StorageFailed && !writes
  {
    BlankExactly(s.name);
  }

  /** Logging in records the account and where its credentials are; logging out forgets both under a new id. */
  lemma {:induction false} LoginExact(mine: Config, disk: Config, name: Name, account: string, key: Option<string>,
      id: nat, writes: bool)
    ensures match Outcome(mine, disk, Login(name, account, key), writes)
      case Success(after) =>
        && writes && name in mine.profiles && Lookup(disk.profiles, name) == Some(mine.profiles[name])
        && var was := mine.profiles[name];
           var env := if key.Some? then key else was.apiKeyEnv;
           OnlySaves(disk, after, name,
             Profile(was.id, was.connection, env, Some(account), was.clientId,
                     if env == None then true else was.storedCredentials, was.scopes, was.context))
      case Failure(e) => RefusedEdit(mine, disk, name, writes, e)
    ensures match Outcome(mine, disk, Logout(name, id), writes)
      case Success(after) =>
        && writes && name in mine.profiles && Lookup(disk.profiles, name) == Some(mine.profiles[name])
        && var was := mine.profiles[name];
           OnlySaves(disk, after, name,
             Profile(id, was.connection, None, None, was.clientId, false, was.scopes, was.context))
      case Failure(e) => RefusedEdit(mine, disk, name, writes, e)
  {
  }

  /** Why a change of an existing profile is refused. */
  ghost predicate RefusedEdit(mine: Config, disk: Config, name: Name, writes: bool, e: StoreError) {
    if name !in mine.profiles then e == NotConfigured
    else if Lookup(disk.profiles, name) != Some(mine.profiles[name]) then e == Changed
    else e == StorageFailed && !writes
  }

  /** Deleting a profile takes every default that names it along, with its context, and nothing else. */
  ghost predicate Deleted(before: Config, after: Config, name: Name) {
    && name !in after.profiles && SameBut(before.profiles, after.profiles, name) && SameAliases(before, after)
    && (forall d :: d in before.directoryDefaults && before.directoryDefaults[d] == name ==>
          d !in after.directoryDefaults && d !in after.directoryContexts)
    && (forall d :: Lookup(before.directoryDefaults, d) != Some(name) ==>
          && Lookup(after.directoryDefaults, d) == Lookup(before.directoryDefaults, d)
          && Lookup(after.directoryContexts, d) == Lookup(before.directoryContexts, d))
    && (if before.global == Some(name) then after.global == None && after.globalContext == None
        else after.global == before.global && after.globalContext == before.globalContext)
  }

  lemma {:induction false} DeleteExact(mine: Config, disk: Config, name: Name, writes: bool)
    requires Inv(disk)
    ensures match Outcome(mine, disk, Delete(name), writes)
      case Success(after) =>
        && writes && name in mine.profiles && Lookup(disk.profiles, name) == Some(mine.profiles[name])
        && Deleted(disk, after, name)
      case Failure(e) => RefusedEdit(mine, disk, name, writes, e)
  {
  }

  // ----- Defaults -----

  /** The default of one directory changed, the global one if none is given, and nothing else. */
  ghost predicate OnlyDefault(before: Config, after: Config, directory: Option<Path>, name: Option<Name>,
      context: Option<Context>) {
    && after.profiles == before.profiles && SameAliases(before, after)
    && match directory
       case None =>
         && after.global == name && after.globalContext == context
         && after.directoryDefaults == before.directoryDefaults && after.directoryContexts == before.directoryContexts
       case Some(d) =>
         && after.global == before.global && after.globalContext == before.globalContext
         && Lookup(after.directoryDefaults, d) == name && SameBut(before.directoryDefaults, after.directoryDefaults, d)
         && Lookup(after.directoryContexts, d) == context
         && SameBut(before.directoryContexts, after.directoryContexts, d)
  }

  lemma {:induction false} SwitchExact(mine: Config, disk: Config, name: Name, directory: Option<Path>,
      context: Option<Context>, writes: bool)
    ensures match Outcome(mine, disk, Switch(name, directory, context), writes)
      case Success(after) =>
        && writes && name in disk.profiles
        && (disk.profiles[name].connection.Local? ==> context == None || context == Some(map[]))
        && OnlyDefault(disk, after, directory, Some(name), context)
      case Failure(e) =>
        if name !in disk.profiles then e == NotConfigured
        else if disk.profiles[name].connection.Local? && context.Some? && |context.value| > 0 then e == ContextOnLocal
        else e == StorageFailed && !writes
  {
  }

  /** The longest ancestor with a default. */
  ghost predicate Closest(defaults: map<Path, Name>, cwd: Path, d: Path) {
    Ancestor(d, cwd) && d in defaults && forall e :: Ancestor(e, cwd) && e in defaults ==> |e| <= |d|
  }

  /**
   Clearing removes the closest directory default; asked for the global one, or where no directory has
   one, it removes the global default, unless only local ones are asked for.
   */
  lemma {:induction false} ClearExact(mine: Config, disk: Config, local: bool, globally: bool, cwd: Path, writes: bool)
    ensures Outcome(mine, disk, Clear(local, globally, cwd), writes).Failure? ==>
      Outcome(mine, disk, Clear(local, globally, cwd), writes).error == StorageFailed && !writes
    ensures Outcome(mine, disk, Clear(local, globally, cwd), writes).Success? ==>
      var after := Outcome(mine, disk, Clear(local, globally, cwd), writes).value;
      if !globally && exists d :: Closest(disk.directoryDefaults, cwd, d)
      then exists d :: Closest(disk.directoryDefaults, cwd, d) && OnlyDefault(disk, after, Some(d), None, None)
      else if local then after == disk
      else OnlyDefault(disk, after, None, None, None)
  {
    var near := Nearest(disk.directoryDefaults, cwd);
    forall d ensures near == Some(d) <==> Closest(disk.directoryDefaults, cwd, d) {
      NearestIsLongest(disk.directoryDefaults, cwd, d);
    }
  }

  // ----- Aliases -----

  /** Why an alias is refused; `taken` says that the name stands for something else on disk. */
  ghost predicate RefusedPin(mine: Config, provider: Name, taken: bool, writes: bool, e: StoreError) {
    if provider !in mine.profiles then e == NotConfigured
    else if taken then e == AliasTaken
    else e == StorageFailed && !writes
  }

  /** A pinned agent is bound to the connection its provider has in the pinning process, and only its name changes. */
  lemma {:induction false} PinAgentExact(mine: Config, disk: Config, alias: Name, provider: Name, chosen: Context,
      account: string, agent: nat, writes: bool, bound: AgentAlias)
    requires provider in mine.profiles ==>
      bound == AgentAlias(provider, mine.profiles[provider].connection, account, agent, chosen)
    ensures match Outcome(mine, disk, PinAgent(alias, provider, chosen, account, agent), writes)
      case Success(after) =>
        && writes && provider in mine.profiles && (alias in disk.agents ==> disk.agents[alias] == bound)
        && Lookup(after.agents, alias) == Some(bound) && SameBut(disk.agents, after.agents, alias)
        && after.threads == disk.threads && after.profiles == disk.profiles && SameDefaults(disk, after)
      case Failure(e) => RefusedPin(mine, provider, alias in disk.agents && disk.agents[alias] != bound, writes, e)
  {
  }

  lemma {:induction false} PinThreadExact(mine: Config, disk: Config, alias: Name, provider: Name, chosen: Context,
      account: string, agent: nat, thread: nat, writes: bool, bound: AgentAlias)
    requires provider in mine.profiles ==>
      bound == AgentAlias(provider, mine.profiles[provider].connection, account, agent, chosen)
    ensures match Outcome(mine, disk, PinThread(alias, provider, chosen, account, agent, thread), writes)
      case Success(after) =>
        && writes && provider in mine.profiles
        && (alias in disk.threads ==> disk.threads[alias] == ThreadAlias(bound, thread))
        && Lookup(after.threads, alias) == Some(ThreadAlias(bound, thread))
        && SameBut(disk.threads, after.threads, alias)
        && after.agents == disk.agents && after.profiles == disk.profiles && SameDefaults(disk, after)
      case Failure(e) =>
        var taken := alias in disk.threads && disk.threads[alias] != ThreadAlias(bound, thread);
        RefusedPin(mine, provider, taken, writes, e)
  {
  }

  ghost predicate Stands(a: AgentAlias, provider: Name, account: string, agent: nat) {
    a.provider == provider && a.account == account && a.agent == agent
  }

  /** Unpinning an agent removes its own aliases and those of its threads; unpinning a thread only the thread's. */
  lemma {:induction false} UnpinExact(mine: Config, disk: Config, provider: Name, account: string, agent: nat,
      thread: nat)
    ensures Outcome(mine, disk, UnpinAgent(provider, account, agent), true).Success?
    ensures Outcome(mine, disk, UnpinThread(provider, account, thread), true).Success?
    ensures var after := Outcome(mine, disk, UnpinAgent(provider, account, agent), true).value;
      && after.profiles == disk.profiles && SameDefaults(disk, after)
      && (forall n :: n in after.agents <==> n in disk.agents && !Stands(disk.agents[n], provider, account, agent))
      && (forall n :: n in after.agents ==> after.agents[n] == disk.agents[n])
      && (forall n :: n in after.threads <==>
            n in disk.threads && !Stands(disk.threads[n].agent, provider, account, agent))
      && (forall n :: n in after.threads ==> after.threads[n] == disk.threads[n])
    ensures var after := Outcome(mine, disk, UnpinThread(provider, account, thread), true).value;
      && after.profiles == disk.profiles && SameDefaults(disk, after) && after.agents == disk.agents
      && (forall n :: n in after.threads <==>
            n in disk.threads
            && !(disk.threads[n].thread == thread
                 && Stands(disk.threads[n].agent, provider, account, disk.threads[n].agent.agent)))
      && (forall n :: n in after.threads ==> after.threads[n] == disk.threads[n])
  {
  }

  /** Unpinning undoes pinning a name that was free, when the agent had no alias before. */
  lemma {:induction false} UnpinUndoesPin(mine: Config, disk: Config, alias: Name, provider: Name, chosen: Context,
      account: string, agent: nat)
    requires provider in mine.profiles && alias !in disk.agents
    requires forall n :: n in disk.agents ==> !Stands(disk.agents[n], provider, account, agent)
    requires forall n :: n in disk.threads ==> !Stands(disk.threads[n].agent, provider, account, agent)
    ensures var pinned := Outcome(mine, disk, PinAgent(alias, provider, chosen, account, agent), true);
      && pinned.Success?
      && Outcome(pinned.value, pinned.value, UnpinAgent(provider, account, agent), true) == Success(disk)
  {
    var pinned := Outcome(mine, disk, PinAgent(alias, provider, chosen, account, agent), true).value;
    var after := Outcome(pinned, pinned, UnpinAgent(provider, account, agent), true).value;
    assert after.agents == disk.agents && after.threads == disk.threads;
  }

  // ----- Selection -----

  /** The alias in play: the thread's, if the thread has one, and else the agent's. */
  ghost predicate Plays(c: Config, agent: Option<Name>, thread: Option<Name>, a: AgentAlias) {
    || (exists n :: thread == Some(n) && n in c.threads && a == c.threads[n].agent)
    || ((forall n :: thread == Some(n) ==> n !in c.threads)
        && exists n :: agent == Some(n) && n in c.agents && a == c.agents[n])
  }

  /** The two names stand for different agents, accounts, providers or contexts. */
  ghost predicate Clash(c: Config, agent: Option<Name>, thread: Option<Name>) {
    exists m, n :: agent == Some(m) && thread == Some(n) && m in c.agents && n in c.threads
                   && c.agents[m].(connection := c.threads[n].agent.connection) != c.threads[n].agent
  }

  lemma {:induction false} AliasPlays(c: Config, agent: Option<Name>, thread: Option<Name>)
    ensures forall a :: Plays(c, agent, thread, a) <==> AliasFor(c, agent, thread) == Some(a)
  {
  }

  lemma {:induction false} AliasesClashExactly(c: Config, agent: Option<Name>, thread: Option<Name>)
    ensures AliasesClash(c, agent, thread) <==> Clash(c, agent, thread)
  {
    if AliasesClash(c, agent, thread) {
      var a, b := c.agents[agent.value], c.threads[thread.value].agent;
      assert a.(connection := b.connection) != b;
    }
  }

  /** Without an alias, a name is selected, a default or none, and it fails only for an unknown name. */
  lemma {:induction false} SelectionExact(c: Config, explicit: Option<Name>, agent: Option<Name>, thread: Option<Name>,
      cwd: Path, a: AgentAlias)
    ensures Selected(c, explicit, agent, thread, cwd) == Failure(AliasMismatch) <==> Clash(c, agent, thread)
    ensures !Clash(c, agent, thread) && Plays(c, agent, thread, a) ==>
      Selected(c, explicit, agent, thread, cwd) ==
        if explicit.Some? && explicit.value != a.provider then Failure(OtherProvider)
        else if a.provider !in c.profiles then Failure(NotConfigured)
        else if c.profiles[a.provider].connection != a.connection then Failure(ConnectionChanged)
        else Success(Some(Selection(a.provider, a.context, FromAlias)))
    ensures (forall b :: !Plays(c, agent, thread, b)) && explicit.Some? ==>
      Selected(c, explicit, agent, thread, cwd) ==
        if explicit.value in c.profiles
        then Success(Some(Selection(explicit.value, c.profiles[explicit.value].context, FromProfile)))
        else Failure(NotConfigured)
    ensures (forall b :: !Plays(c, agent, thread, b)) ==>
      (Selected(c, explicit, agent, thread, cwd) == Success(None) <==>
        explicit.None? && c.global.None? && forall d :: Ancestor(d, cwd) ==> d !in c.directoryDefaults)
  {
    AliasPlays(c, agent, thread);
    var alias := AliasFor(c, agent, thread);
    assert alias.Some? ==> Plays(c, agent, thread, alias.value);
    AliasesClashExactly(c, agent, thread);
    var near := Nearest(c.directoryDefaults, cwd);
    NearestIsLongest(c.directoryDefaults, cwd, if near.Some? then near.value else cwd);
  }
}
