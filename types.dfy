/**
 * Record shapes of the info snapshot that the jetstream backend returns on
 * every info request, and the collaborators (database, session, token store,
 * plugins) that the snapshot builder consults, as plain values.
 */
module Types {

  datatype Option<+T> = None | Some(value: T)

  /** Why a request produced no snapshot. `Fatal` is an error the builder
      returns itself; `Panic` is a Go runtime panic (a write into a nil map,
      a nil pointer dereference, or a plugin hook that panics), which aborts
      the request just the same. */
  datatype Failure = Fatal(message: string) | Panic(message: string)

  datatype Result<+T> = Ok(value: T) | Err(error: Failure)

  /** The answer of a collaborator that returns a value and an `error`:
      `Failed` carries the text of the returned error. */
  datatype Lookup<+T> = Found(value: T) | Failed(message: string)

  /** A JSON document as `encoding/json` decodes it into `interface{}`.
      Numbers keep their text: floating point is not modelled. */
  datatype JsonValue =
    | JsonNull
    | JsonBool(b: bool)
    | JsonNumber(text: string)
    | JsonString(s: string)
    | JsonArray(items: seq<JsonValue>)
    | JsonObject(fields: map<string, JsonValue>)

  /** A decoded `map[string]interface{}`; `None` is the nil map that
      `json.Unmarshal` leaves behind when the text does not parse. */
  type JsonMap = Option<map<string, JsonValue>>

  /** What `marshalEndpointMetadata` returns in its `interface{}` result. */
  datatype EndpointMetadata = Decoded(decoded: JsonMap) | Raw(text: string)

  /** The registered endpoint record (CNSI record) as the endpoint list
      returns it; only the fields the builder reads are kept. */
  datatype CNSIRecord = CNSIRecord(guid: string, name: string, cnsiType: string, metadata: string)

  /** The `Endpoint` record shape declared in info.go. */
  datatype Endpoint = Endpoint(guid: string, name: string, version: string, user: Option<ConnectedUser>, cnsiType: string)

  datatype ConnectedUser = ConnectedUser(guid: string, name: string, admin: bool)

  /** The part of a token record the builder copies. */
  datatype TokenRecord = TokenRecord(metadata: string, systemShared: bool)

  /** One row of the relations table: a directed, typed edge. */
  datatype Relation = Relation(provider: string, target: string, relationType: string, metadata: map<string, JsonValue>)

  /** One entry of an endpoint's `Provides` or `Receives` list: the peer's GUID. */
  datatype EndpointRelation = EndpointRelation(guid: string, relationType: string, metadata: map<string, JsonValue>)

  /** `Provides` and `Receives` (`provides` is a Dafny keyword). */
  datatype EndpointRelations = EndpointRelations(providing: seq<EndpointRelation>, receiving: seq<EndpointRelation>)

  /** The aggregated view of one endpoint. `relations == None` is the nil
      `*EndpointRelations` pointer; `user == None` the nil user. */
  datatype EndpointDetail = EndpointDetail(
    record: CNSIRecord,
    endpointMetadata: EndpointMetadata,
    user: Option<ConnectedUser>,
    metadata: map<string, string>,
    tokenMetadata: string,
    systemSharedToken: bool,
    relations: Option<EndpointRelations>)

  /** `Endpoints`: endpoint type -> endpoint GUID -> detail. */
  type Buckets = map<string, map<string, EndpointDetail>>

  datatype Versions = Versions(proxyVersion: string, databaseVersion: int)

  /** Opaque administrative data; its content is not part of this model. */
  datatype Diagnostics = Diagnostics(fields: map<string, string>)

  /** Opaque Cloud Foundry configuration; its content is not part of this model. */
  datatype CloudFoundryInfo = CloudFoundryInfo(fields: map<string, string>)

  /** The snapshot (`interfaces.Info`). `plugins == None` is the nil status map. */
  datatype Info = Info(
    versions: Versions,
    user: ConnectedUser,
    endpoints: Buckets,
    cloudFoundry: Option<CloudFoundryInfo>,
    pluginConfig: map<string, string>,
    diagnostics: Option<Diagnostics>,
    plugins: Option<map<string, bool>>)

  /** A plugin's endpoint capability. `updateMetadata` is its hook: it may
      change the snapshot in any way, or panic (`None`). */
  datatype EndpointPlugin = EndpointPlugin(typeName: string, updateMetadata: (Info, string) -> Option<Info>)

  /** A registered plugin; `endpointPlugin == None` when `GetEndpointPlugin`
      returns an error (the plugin has no endpoint capability). */
  datatype Plugin = Plugin(name: string, endpointPlugin: Option<EndpointPlugin>)

  /** The answer of `GetCNSIUserAndToken` when its `ok` is true: the user
      pointer and the token pointer, either of which may be nil (`None`). */
  type UserAndToken = (Option<ConnectedUser>, Option<TokenRecord>)

  /** The portal proxy as the builder sees it: its configuration fields and
      the answers of the collaborators it calls. Each collaborator is a value
      or a function, so the model covers every answer of these shapes. A nil
      UAA user, token user or token is an answer; a nil plugin, endpoint
      capability, endpoint record or relation row is not. */
  datatype Portal = Portal(
    versions: Lookup<Versions>,                                  // getVersionsData()
    sessionUserId: Lookup<string>,                               // GetSessionStringValue(c, "user_id")
    uaaUser: string -> Lookup<Option<ConnectedUser>>,            // GetUAAUser(userGUID)
    cloudFoundryInfo: Option<CloudFoundryInfo>,                  // Config.CloudFoundryInfo
    pluginConfig: map<string, string>,                           // Config.PluginConfig
    diagnostics: Option<Diagnostics>,                            // Diagnostics
    plugins: seq<Plugin>,                                        // Plugins, in the order they are ranged over
    cnsiList: seq<CNSIRecord>,                                   // buildCNSIList(c), error ignored
    userAndToken: (string, string) -> Option<UserAndToken>,      // GetCNSIUserAndToken; None when !ok
    relations: Lookup<seq<Relation>>,                            // ListRelations()
    unmarshal: string -> JsonMap,                                // json.Unmarshal into a map
    pluginsStatus: map<string, bool>)                            // PluginsStatus
}
