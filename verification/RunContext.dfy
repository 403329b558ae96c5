/**
 The run config of a request (backend/app/gateway/services.py): built from what the
 client sent, merged, stripped to allowlists, and given the server's own values.

 Main result (`PreparedIsServers`): whatever a client sends, wherever it puts it, every
 key of the finished context outside the client's allowlist has exactly the value the
 server decided, or is absent when it decided none; the other containers hold nothing
 else either.
*/
module RunContext {
  import opened MapTools
  import opened Wrappers

  datatype Json = Null | Text(text: string) | Scalar(shown: string) | List(items: seq<Json>) | Obj(fields: Fields)

  /** The keys the gateway knows by name, each after its snake-case spelling; any other text
      is some other key. */
  datatype Key =
    | ModelName | Mode | ThinkingEnabled | ReasoningEffort | IsPlanMode | SubagentEnabled
    | MaxConcurrentSubagents | AgentName | IsBootstrap | TurnProvenance | TriggerRuleId | TriggerFiringId
    | GrantsOwnerId | ConnectorsOff | UserId | SelectedSources | CalledAgent | ExcludedSkills
    | Channel | MemoryUserId | ToolSurface | InvitedOrigin | InvitedOriginSource | InvitedVia
    | InvitedAgent | InvitedPrivateRead | DelegationChain | DelegationKey | ResumeAction | StoppedAt
    | ThreadId | CheckpointNs | CheckpointId | Title | Source | RecursionLimit
    | Tags | RunName | MaxConcurrency | Configurable | Context | Metadata
    | OtherKey(text: string)

  type Fields = map<Key, Json>

  /** The keys a request's run context may carry into the run at all. */
  const CONTEXT_CONFIGURABLE_KEYS: set<Key> :=
    {ModelName, Mode, ThinkingEnabled, ReasoningEffort, IsPlanMode, SubagentEnabled,
     MaxConcurrentSubagents, AgentName, IsBootstrap, TurnProvenance, TriggerRuleId, TriggerFiringId,
     GrantsOwnerId}

  const SERVER_OWNED_RUN_KEYS: set<Key> :=
    {ConnectorsOff, UserId, SelectedSources, AgentName, TurnProvenance, TriggerRuleId,
     TriggerFiringId, GrantsOwnerId, CalledAgent, ExcludedSkills, Channel, MemoryUserId}

  /** Keys only the server may set in the context, whoever built it. */
  const SERVER_OWNED_CONTEXT_KEYS: set<Key> :=
    {ToolSurface, InvitedOrigin, InvitedOriginSource, InvitedVia, InvitedAgent, InvitedPrivateRead,
     DelegationChain, CalledAgent, DelegationKey, ResumeAction, StoppedAt}

  const CLIENT_CONTEXT_KEYS: set<Key> := CONTEXT_CONFIGURABLE_KEYS - SERVER_OWNED_RUN_KEYS
  const CLIENT_CONFIGURABLE_KEYS: set<Key> := CLIENT_CONTEXT_KEYS + {ThreadId, CheckpointNs, CheckpointId}
  const CLIENT_METADATA_KEYS: set<Key> := {Title, Source}

  /** The top-level keys a client may set, besides the three containers. */
  const CLIENT_TOP_LEVEL_KEYS: set<Key> := {RecursionLimit, Tags, RunName, MaxConcurrency}

  const CONTAINERS: set<Key> := {Configurable, Context, Metadata}

  /** A run config: its three containers, where present, and everything else. */
  datatype Config = Config(top: Fields, configurable: Option<Json>, context: Option<Json>, metadata: Option<Json>)

  /** What the client sent. An absent config, context or metadata is an empty one. */
  datatype Request = Request(config: Fields, context: Fields, metadata: Fields, assistantId: string)

  /** What the server decided about the run, from its own records and credentials. */
  datatype Server = Server(
    threadId: string,
    userId: Option<string>,
    memoryUserId: Option<string>,
    selectedSources: Option<Json>,
    agentName: Option<string>,
    syntheticRule: Option<string>,
    syntheticFiring: Option<string>,
    grantsOwner: Option<string>,
    channel: Option<string>,
    connectorsOff: Option<Json>,
    calledAgent: Option<string>,
    resumeAction: Option<Json>,
    excludedSkills: Option<Json>)

  datatype Refusal = ContextNotAMapping | ConfigurableNotAMapping | MetadataNotAMapping | BadAssistantId

  /** What a value that is no mapping updates a mapping with (a list of pairs does), and
      how an assistant's name is normalised, if it is valid. */
  datatype Host = Host(pairs: Json -> Option<Fields>, normalise: string -> Option<string>)

  function Lookup(m: Fields, key: Key): Option<Json> {
    if key in m then Some(m[key]) else None
  }

  function FieldsOf(c: Option<Json>): Fields {
    if c.Some? && c.value.Obj? then c.value.fields else map[]
  }

  predicate IsObj(c: Option<Json>) {
    c.Some? && c.value.Obj?
  }

  // ----- the steps -----

  function AsUpdate(host: Host, value: Json): Option<Fields> {
    if value.Obj? then Some(value.fields) else host.pairs(value)
  }

  /** The runtime options the request came with: its context, else its configurable. */
  function StartConfig(host: Host, r: Request, threadId: string): Result<Config, Refusal> {
    var top := map[RecursionLimit := Scalar("100")] + (r.config - CONTAINERS);
    var metadata := Lookup(r.config, Metadata);
    if Context in r.config then
      match r.config[Context]
      case Null => Ok(Config(top, None, Some(Obj(map[])), metadata))
      case Obj(fields) => Ok(Config(top, None, Some(Obj(fields)), metadata))
      case _ => Err(ContextNotAMapping)
    else
      var sent := if Configurable in r.config then AsUpdate(host, r.config[Configurable]) else Some(map[]);
      if sent.None? then Err(ConfigurableNotAMapping)
      else Ok(Config(top, Some(Obj(map[ThreadId := Text(threadId)] + sent.value)), None, metadata))
  }

  function WithAgent(host: Host, c: Config, assistantId: string): Result<Config, Refusal> {
    if assistantId == "" || assistantId == "lead_agent" then Ok(c)
    else
      match host.normalise(assistantId)
      case None => Err(BadAssistantId)
      case Some(name) =>
        var named := map[AgentName := Text(name)];
        if c.configurable.Some? then Ok(c.(configurable := Some(Obj(named + FieldsOf(c.configurable)))))
        else Ok(c.(context := Some(Obj(named + FieldsOf(c.context)))))
  }

  function WithMetadata(c: Config, sent: Fields): Result<Config, Refusal> {
    if sent == map[] then Ok(c)
    else
      match c.metadata
      case None => Ok(c.(metadata := Some(Obj(sent))))
      case Some(Obj(fields)) => Ok(c.(metadata := Some(Obj(fields + sent))))
      case Some(_) => Err(MetadataNotAMapping)
  }

  /** Named keys of the configurable, made visible in the context. */
  function Mirrored(c: Config): Config {
    if !IsObj(c.configurable) then c
    else if !IsObj(c.context) && FieldsOf(c.configurable).Keys !! CONTEXT_CONFIGURABLE_KEYS then c
    else if c.context.Some? && !c.context.value.Obj? then c
    else c.(context := Some(Obj(Defaults(FieldsOf(c.context), FieldsOf(c.configurable), CONTEXT_CONFIGURABLE_KEYS))))
  }

  function Built(host: Host, r: Request, threadId: string): Result<Config, Refusal> {
    var start :- StartConfig(host, r, threadId);
    var named :- WithAgent(host, start, r.assistantId);
    var described :- WithMetadata(named, r.metadata);
    Ok(Mirrored(described))
  }

  function DefaultsIn(container: Option<Json>, sent: Fields): Option<Json> {
    match container
    case None => Some(Obj(Defaults(map[], sent, CLIENT_CONTEXT_KEYS)))
    case Some(Obj(fields)) => Some(Obj(Defaults(fields, sent, CLIENT_CONTEXT_KEYS)))
    case _ => container
  }

  /** The client's context, merged into both containers under its own keys only. */
  function Merged(c: Config, sent: Fields): Config {
    if sent == map[] then c
    else c.(configurable := DefaultsIn(c.configurable, sent), context := DefaultsIn(c.context, sent))
  }

  function Given(value: Option<string>): Option<Json> {
    if value.Some? && value.value != "" then Some(Text(value.value)) else None
  }

  function Entry(key: Key, value: Option<Json>): Fields {
    if value.Some? then map[key := value.value] else map[]
  }

  /** The marks of a scheduled run. */
  function Marks(server: Server): Fields {
    if server.syntheticRule.None? then map[]
    else map[TurnProvenance := Text("synthetic-trigger"), TriggerRuleId := Text(server.syntheticRule.value)]
         + Entry(TriggerFiringId, Given(server.syntheticFiring)) + Entry(GrantsOwnerId, Given(server.grantsOwner))
  }

  /** A container cut to what a client may put in it; one that is none is dropped. */
  function Allowed(container: Option<Json>, keys: set<Key>): Option<Json> {
    match container
    case Some(Obj(fields)) => Some(Obj(Only(fields, keys)))
    case Some(Null) => Some(Null)
    case _ => None
  }

  /** Who the run is for, and with what. */
  function Identity(server: Server): Fields {
    Entry(UserId, Given(server.userId))
    + (if server.syntheticRule.Some? then Entry(MemoryUserId, Given(server.memoryUserId)) else map[])
    + Entry(SelectedSources, server.selectedSources)
    + Entry(AgentName, Given(server.agentName))
  }

  /** What the server writes over the client's context. */
  function Owned(server: Server): Fields {
    Identity(server) + Marks(server)
  }

  /** The config and the run's metadata, with every client value the server owns dropped
      and the server's written. */
  function ServerOwned(c: Config, metadata: Fields, server: Server): (Config, Fields) {
    var allowed := Config(Only(c.top, CLIENT_TOP_LEVEL_KEYS), Allowed(c.configurable, CLIENT_CONFIGURABLE_KEYS),
                          Allowed(c.context, CLIENT_CONTEXT_KEYS), Allowed(c.metadata, CLIENT_METADATA_KEYS));
    var context := FieldsOf(allowed.context) + Owned(server);
    var configurable :=
      if IsObj(allowed.configurable)
      then Some(Obj(FieldsOf(allowed.configurable) + Entry(AgentName, Given(server.agentName)) + Marks(server)))
      else allowed.configurable;
    (allowed.(context := Some(Obj(context)), configurable := configurable),
     Only(metadata, CLIENT_METADATA_KEYS) + Marks(server))
  }

  /** The channel and the switched-off connectors, and the thread the request was
      authorised for. */
  function Addressed(c: Config, server: Server): Config {
    c.(context := Some(Obj(FieldsOf(c.context) + Entry(Channel, Given(server.channel))
                           + Entry(ConnectorsOff, server.connectorsOff))),
       configurable := Some(Obj(map[CheckpointNs := Text("")] + FieldsOf(c.configurable)
                                + map[ThreadId := Text(server.threadId)])))
  }

  function Stripped(c: Config): Config {
    c.(context := Some(Obj(FieldsOf(c.context) - SERVER_OWNED_CONTEXT_KEYS)),
       configurable := Some(Obj(FieldsOf(c.configurable) - SERVER_OWNED_CONTEXT_KEYS)))
  }

  /** What the server adds after the strip: who is called in, what is resumed, which
      skills the chat left out. */
  function Late(server: Server): Fields {
    Entry(CalledAgent, Given(server.calledAgent)) + Entry(ResumeAction, server.resumeAction)
    + Entry(ExcludedSkills, server.excludedSkills)
  }

  function Finished(c: Config, server: Server): Config {
    var stripped := Stripped(Addressed(c, server));
    Mirrored(stripped.(context := Some(Obj(FieldsOf(stripped.context) + Late(server)))))
  }

  /** The config a run starts with, and its metadata. */
  function Prepared(host: Host, r: Request, server: Server): Result<(Config, Fields), Refusal> {
    var built :- Built(host, r, server.threadId);
    var (owned, metadata) := ServerOwned(Merged(built, r.context), r.metadata, server);
    Ok((Finished(owned, server), metadata))
  }

  // ----- what a finished config holds -----

  /** Everything the server puts in a run's context, key by key. */
  function ServerValue(server: Server, key: Key): Option<Json> {
    match key
    case UserId => Given(server.userId)
    case MemoryUserId => if server.syntheticRule.Some? then Given(server.memoryUserId) else None
    case SelectedSources => server.selectedSources
    case AgentName => Given(server.agentName)
    case TurnProvenance => if server.syntheticRule.Some? then Some(Text("synthetic-trigger")) else None
    case TriggerRuleId => if server.syntheticRule.Some? then Some(Text(server.syntheticRule.value)) else None
    case TriggerFiringId => if server.syntheticRule.Some? then Given(server.syntheticFiring) else None
    case GrantsOwnerId => if server.syntheticRule.Some? then Given(server.grantsOwner) else None
    case Channel => Given(server.channel)
    case ConnectorsOff => server.connectorsOff
    case CalledAgent => Given(server.calledAgent)
    case ResumeAction => server.resumeAction
    case ExcludedSkills => server.excludedSkills
    case _ => None
  }

  /** Outside `keys`, a container holds the server's value of every key. */
  ghost predicate ServersOutside(m: Fields, keys: set<Key>, server: Server) {
    forall key: Key | key !in keys :: Lookup(m, key) == ServerValue(server, key)
  }

  /** Outside `keys`, a container holds no value but the server's. */
  ghost predicate OnlyServersOutside(m: Fields, keys: set<Key>, server: Server) {
    forall key <- m | key !in keys :: ServerValue(server, key) == Some(m[key])
  }

  const MARK_KEYS: set<Key> := {TurnProvenance, TriggerRuleId, TriggerFiringId, GrantsOwnerId}
  const AFTER_OWNED_KEYS: set<Key> := {Channel, ConnectorsOff, CalledAgent, ResumeAction, ExcludedSkills}

  lemma MarksAreServers(server: Server, key: Key)
    ensures Lookup(Marks(server), key) == if key in MARK_KEYS then ServerValue(server, key) else None
  {
  }

  lemma LookupSum(a: Fields, b: Fields, key: Key)
    ensures Lookup(a + b, key) == if Lookup(b, key).Some? then Lookup(b, key) else Lookup(a, key)
  {
  }

  lemma LookupEntry(a: Fields, name: Key, value: Option<Json>, key: Key)
    ensures Lookup(Entry(name, value), key) == if key == name then value else None
    ensures Lookup(a + Entry(name, value), key) == if key == name && value.Some? then value else Lookup(a, key)
  {
  }

  lemma IdentityIsServers(server: Server, key: Key)
    ensures Lookup(Identity(server), key)
            == if key in {UserId, MemoryUserId, SelectedSources, AgentName} then ServerValue(server, key) else None
  {
    hide Entry, Lookup;
    var user := Entry(UserId, Given(server.userId));
    LookupEntry(map[], UserId, Given(server.userId), key);
    var memory := if server.syntheticRule.Some? then Entry(MemoryUserId, Given(server.memoryUserId)) else map[];
    LookupEntry(user, MemoryUserId, Given(server.memoryUserId), key);
    assert user + map[] == user;
    LookupEntry(user + memory, SelectedSources, server.selectedSources, key);
    LookupEntry(user + memory + Entry(SelectedSources, server.selectedSources), AgentName, Given(server.agentName),
                key);
  }

  lemma OwnedIsServers(server: Server, key: Key)
    ensures Lookup(Owned(server), key) == if key in AFTER_OWNED_KEYS then None else ServerValue(server, key)
  {
    MarksAreServers(server, key);
    IdentityIsServers(server, key);
    LookupSum(Identity(server), Marks(server), key);
    hide Identity, Marks, Lookup;
  }

  lemma LateIsServers(server: Server, key: Key)
    ensures Lookup(Late(server), key) == if key in LATE_KEYS then ServerValue(server, key) else None
  {
  }

  function AddressedContext(client: Fields, server: Server): Fields {
    Only(client, CLIENT_CONTEXT_KEYS) + Owned(server) + Entry(Channel, Given(server.channel))
    + Entry(ConnectorsOff, server.connectorsOff)
  }

  /** The context before the last mirroring, from a client's context. */
  function ServersContext(client: Fields, server: Server): Fields {
    AddressedContext(client, server) - SERVER_OWNED_CONTEXT_KEYS + Late(server)
  }

  const LATE_KEYS: set<Key> := {CalledAgent, ResumeAction, ExcludedSkills}

  lemma AddressedIsServers(client: Fields, server: Server, key: Key)
    requires key !in CLIENT_CONTEXT_KEYS
    ensures Lookup(AddressedContext(client, server), key) == if key in LATE_KEYS then None else ServerValue(server, key)
  {
    hide Owned, Lookup, Entry, Only;
    var kept := Only(client, CLIENT_CONTEXT_KEYS);
    OnlyDrops(client, CLIENT_CONTEXT_KEYS, key);
    OwnedIsServers(server, key);
    LookupSum(kept, Owned(server), key);
    LookupEntry(kept + Owned(server), Channel, Given(server.channel), key);
    LookupEntry(kept + Owned(server) + Entry(Channel, Given(server.channel)), ConnectorsOff, server.connectorsOff, key);
  }

  lemma OnlyDrops(m: Fields, keys: set<Key>, key: Key)
    requires key !in keys
    ensures Lookup(Only(m, keys), key) == None
  {
  }

  lemma StrippedAreNotServers(server: Server, key: Key)
    requires key in SERVER_OWNED_CONTEXT_KEYS && key !in LATE_KEYS
    ensures ServerValue(server, key) == None
  {
  }

  lemma ContextBeforeMirror(client: Fields, server: Server, key: Key)
    requires key !in CLIENT_CONTEXT_KEYS
    ensures Lookup(ServersContext(client, server), key) == ServerValue(server, key)
  {
    hide ServerValue, Owned, Late, Lookup, Entry, Only, AddressedContext;
    AddressedIsServers(client, server, key);
    LookupStripped(AddressedContext(client, server), key);
    LateIsServers(server, key);
    LookupSum(AddressedContext(client, server) - SERVER_OWNED_CONTEXT_KEYS, Late(server), key);
    if key in SERVER_OWNED_CONTEXT_KEYS && key !in LATE_KEYS {
      StrippedAreNotServers(server, key);
    }
  }

  lemma LookupStripped(m: Fields, key: Key)
    ensures Lookup(m - SERVER_OWNED_CONTEXT_KEYS, key) == if key in SERVER_OWNED_CONTEXT_KEYS then None
            else Lookup(m, key)
  {
  }

  /** The configurable before the last mirroring. */
  function ServersConfigurable(kept: Fields, server: Server): Fields {
    map[CheckpointNs := Text("")] + kept + map[ThreadId := Text(server.threadId)] - SERVER_OWNED_CONTEXT_KEYS
  }

  function Marked(client: Fields, server: Server): Fields {
    Only(client, CLIENT_CONFIGURABLE_KEYS) + Entry(AgentName, Given(server.agentName)) + Marks(server)
  }

  lemma MarkedIsServers(client: Fields, server: Server)
    ensures OnlyServersOutside(Marked(client, server), CLIENT_CONFIGURABLE_KEYS, server)
  {
    forall key <- Marked(client, server) | key !in CLIENT_CONFIGURABLE_KEYS
      ensures ServerValue(server, key) == Some(Marked(client, server)[key])
    {
      MarksAreServers(server, key);
      hide Marks;
      LookupSum(Only(client, CLIENT_CONFIGURABLE_KEYS) + Entry(AgentName, Given(server.agentName)), Marks(server), key);
    }
  }

  lemma ConfigurableBeforeMirror(kept: Fields, server: Server)
    requires OnlyServersOutside(kept, CLIENT_CONFIGURABLE_KEYS, server)
    ensures OnlyServersOutside(ServersConfigurable(kept, server), CLIENT_CONFIGURABLE_KEYS, server)
    ensures Lookup(ServersConfigurable(kept, server), ThreadId) == Some(Text(server.threadId))
  {
    hide ServerValue;
  }

  /** Mirroring the configurable adds nothing of the client's outside its own keys. */
  lemma MirrorKeepsServers(context: Fields, configurable: Fields, server: Server)
    requires ServersOutside(context, CLIENT_CONTEXT_KEYS, server)
    requires OnlyServersOutside(configurable, CLIENT_CONFIGURABLE_KEYS, server)
    ensures ServersOutside(Defaults(context, configurable, CONTEXT_CONFIGURABLE_KEYS), CLIENT_CONTEXT_KEYS, server)
  {
    hide ServerValue;
    forall key: Key | key !in CLIENT_CONTEXT_KEYS
      ensures Lookup(Defaults(context, configurable, CONTEXT_CONFIGURABLE_KEYS), key) == ServerValue(server, key)
    {
      assert Lookup(context, key) == ServerValue(server, key);
      assert key in CONTEXT_CONFIGURABLE_KEYS ==> key !in CLIENT_CONFIGURABLE_KEYS;
    }
  }

  lemma FinishedIsServers(c: Config, client: Fields, kept: Fields, server: Server)
    requires FieldsOf(c.context) == Only(client, CLIENT_CONTEXT_KEYS) + Owned(server)
             && FieldsOf(c.configurable) == kept
    requires OnlyServersOutside(kept, CLIENT_CONFIGURABLE_KEYS, server)
    ensures var done := Finished(c, server);
            && done.top == c.top && done.metadata == c.metadata
            && IsObj(done.context) && ServersOutside(done.context.value.fields, CLIENT_CONTEXT_KEYS, server)
            && IsObj(done.configurable) && OnlyServersOutside(done.configurable.value.fields, CLIENT_CONFIGURABLE_KEYS,
                                                              server)
            && Lookup(done.configurable.value.fields, ThreadId) == Some(Text(server.threadId))
  {
    hide ServerValue, Owned, Late, Entry, Defaults, ServersOutside, OnlyServersOutside;
    assert ServersOutside(ServersContext(client, server), CLIENT_CONTEXT_KEYS, server) by {
      AllServers(client, server);
    }
    ConfigurableBeforeMirror(kept, server);
    MirrorKeepsServers(ServersContext(client, server), ServersConfigurable(kept, server), server);
  }

  lemma AllServers(client: Fields, server: Server)
    ensures ServersOutside(ServersContext(client, server), CLIENT_CONTEXT_KEYS, server)
  {
    hide ServerValue, ServersContext;
    forall key: Key | key !in CLIENT_CONTEXT_KEYS ensures Lookup(ServersContext(client, server), key)
        == ServerValue(server, key) {
      ContextBeforeMirror(client, server, key);
    }
  }

  /** A finished config in which the server decided every key it owns: the context holds,
      of every key a client may not set, the server's value or nothing; the configurable
      nothing but the server's, and the authorised thread; the metadata of the config
      nothing at all, and the run's the marks; and no other top-level key is left. */
  ghost predicate IsServers(config: Config, metadata: Fields, server: Server) {
    && IsObj(config.context) && ServersOutside(config.context.value.fields, CLIENT_CONTEXT_KEYS, server)
    && IsObj(config.configurable)
    && OnlyServersOutside(config.configurable.value.fields, CLIENT_CONFIGURABLE_KEYS, server)
    && Lookup(config.configurable.value.fields, ThreadId) == Some(Text(server.threadId))
    && config.top.Keys <= CLIENT_TOP_LEVEL_KEYS
    && FieldsOf(config.metadata).Keys <= CLIENT_METADATA_KEYS
    && forall key: Key | key !in CLIENT_METADATA_KEYS ::
         Lookup(metadata, key) == if key in MARK_KEYS then ServerValue(server, key) else None
  }

  /** Nothing a client put anywhere in its request decides a key the server owns. */
  lemma PreparedIsServers(host: Host, r: Request, server: Server)
    ensures match Prepared(host, r, server)
            case Err(_) => true
            case Ok((config, metadata)) => IsServers(config, metadata, server)
  {
    hide ServerValue, Owned, Marks, Finished, Built, Merged, ServersOutside, OnlyServersOutside, Lookup, Only;
    if Built(host, r, server.threadId).Err? {
      return;
    }
    var merged := Merged(Built(host, r, server.threadId).value, r.context);
    var (owned, metadata) := ServerOwned(merged, r.metadata, server);
    OwnedShape(merged, r.metadata, server);
    FinishedIsServers(owned, FieldsOf(merged.context), FieldsOf(owned.configurable), server);
    forall key: Key | key !in CLIENT_METADATA_KEYS
      ensures Lookup(metadata, key) == if key in MARK_KEYS then ServerValue(server, key) else None
    {
      MarksAreServers(server, key);
      OnlyDrops(r.metadata, CLIENT_METADATA_KEYS, key);
      LookupSum(Only(r.metadata, CLIENT_METADATA_KEYS), Marks(server), key);
    }
  }

  /** What the override leaves of any config. */
  lemma OwnedShape(c: Config, metadata: Fields, server: Server)
    ensures var owned := ServerOwned(c, metadata, server).0;
            && FieldsOf(owned.context) == Only(FieldsOf(c.context), CLIENT_CONTEXT_KEYS) + Owned(server)
            && OnlyServersOutside(FieldsOf(owned.configurable), CLIENT_CONFIGURABLE_KEYS, server)
            && owned.top.Keys <= CLIENT_TOP_LEVEL_KEYS && FieldsOf(owned.metadata).Keys <= CLIENT_METADATA_KEYS
  {
    hide ServerValue, Owned, Marks, OnlyServersOutside;
    MarkedIsServers(FieldsOf(c.configurable), server);
    NothingIsServers(server);
    assert FieldsOf(Allowed(c.context, CLIENT_CONTEXT_KEYS)) == Only(FieldsOf(c.context), CLIENT_CONTEXT_KEYS);
  }

  lemma NothingIsServers(server: Server)
    ensures OnlyServersOutside(map[], CLIENT_CONFIGURABLE_KEYS, server)
  {
  }

  /** What two clients send never makes their runs differ in a key the server owns. */
  lemma ClientsCannotTell(host: Host, a: Request, b: Request, server: Server, key: Key)
    requires key !in CLIENT_CONTEXT_KEYS
    ensures Prepared(host, a, server).Ok? && Prepared(host, b, server).Ok? ==>
              Lookup(FieldsOf(Prepared(host, a, server).value.0.context), key)
              == Lookup(FieldsOf(Prepared(host, b, server).value.0.context), key)
  {
    hide ServerValue, Prepared;
    PreparedIsServers(host, a, server);
    PreparedIsServers(host, b, server);
  }

  // ----- the config edited in place -----

  class RunConfig {
    var top: Fields
    var configurable: Option<Json>
    var context: Option<Json>
    var metadata: Option<Json>

    /** Built from what the request sent. */
    constructor (config: Config)
      ensures Contents() == config
    {
      top, configurable, context, metadata := config.top, config.configurable, config.context, config.metadata;
    }

    function Contents(): Config
      reads this
    {
      Config(top, configurable, context, metadata)
    }

    method Mirror()
      modifies this`context
      ensures Contents() == Mirrored(old(Contents()))
    {
      if !IsObj(configurable) {
        return;
      }
      var from := configurable.value.fields;
      if !IsObj(context) {
        if from.Keys !! CONTEXT_CONFIGURABLE_KEYS || context.Some? {
          return;
        }
        context := Some(Obj(map[]));
      }
      var fields := SetDefaults(context.value.fields, from, CONTEXT_CONFIGURABLE_KEYS);
      context := Some(Obj(fields));
    }

    method MergeOverrides(sent: Fields)
      modifies this`configurable, this`context
      ensures Contents() == Merged(old(Contents()), sent)
    {
      if sent == map[] {
        return;
      }
      if configurable.None? {
        configurable := Some(Obj(map[]));
      }
      if context.None? {
        context := Some(Obj(map[]));
      }
      if configurable.value.Obj? {
        var fields := SetDefaults(configurable.value.fields, sent, CLIENT_CONTEXT_KEYS);
        configurable := Some(Obj(fields));
      }
      if context.value.Obj? {
        var fields := SetDefaults(context.value.fields, sent, CLIENT_CONTEXT_KEYS);
        context := Some(Obj(fields));
      }
    }

    method Allow(container: Option<Json>, keys: set<Key>) returns (r: Option<Json>)
      ensures r == Allowed(container, keys)
    {
      match container
      case Some(Obj(fields)) =>
        var kept := PopOthers(fields, keys);
        return Some(Obj(kept));
      case Some(Null) => return Some(Null);
      case _ => return None;
    }

    /** Drops every client value the server owns, then writes the server's. */
    method ApplyServerOwned(sent: Fields, server: Server) returns (runMetadata: Fields)
      modifies this
      ensures (Contents(), runMetadata) == ServerOwned(old(Contents()), sent, server)
    {
      top := PopOthers(top, CLIENT_TOP_LEVEL_KEYS);
      configurable := Allow(configurable, CLIENT_CONFIGURABLE_KEYS);
      context := Allow(context, CLIENT_CONTEXT_KEYS);
      metadata := Allow(metadata, CLIENT_METADATA_KEYS);
      runMetadata := PopOthers(sent, CLIENT_METADATA_KEYS);
      context := Some(Obj(FieldsOf(context) + Owned(server)));
      if IsObj(configurable) {
        configurable := Some(Obj(configurable.value.fields + Entry(AgentName, Given(server.agentName))
                                 + Marks(server)));
      }
      runMetadata := runMetadata + Marks(server);
    }

    /** The rest of what a run starts with, all of it the server's. */
    method Finish(server: Server)
      modifies this
      ensures Contents() == Finished(old(Contents()), server)
    {
      context := Some(Obj(FieldsOf(context) + Entry(Channel, Given(server.channel))
                          + Entry(ConnectorsOff, server.connectorsOff)));
      configurable := Some(Obj(map[CheckpointNs := Text("")] + FieldsOf(configurable)
                               + map[ThreadId := Text(server.threadId)]));
      context := Some(Obj(context.value.fields - SERVER_OWNED_CONTEXT_KEYS));
      configurable := Some(Obj(configurable.value.fields - SERVER_OWNED_CONTEXT_KEYS));
      context := Some(Obj(context.value.fields + Late(server)));
      Mirror();
    }
  }

  /** A request's run config, prepared in place. */
  method Prepare(host: Host, r: Request, server: Server) returns (out: Result<(RunConfig, Fields), Refusal>)
    ensures match Prepared(host, r, server)
            case Err(e) => out == Err(e)
            case Ok((config, metadata)) => out.Ok? && out.value.0.Contents() == config && out.value.1 == metadata
  {
    var built := Built(host, r, server.threadId);
    if built.Err? {
      return Err(built.error);
    }
    var config := new RunConfig(built.value);
    config.MergeOverrides(r.context);
    var metadata := config.ApplyServerOwned(r.metadata, server);
    config.Finish(server);
    return Ok((config, metadata));
  }
}
