# Info snapshot builder of the jetstream backend

This project models, in Dafny, how the jetstream backend (the broker behind the
Stratos console) builds the *info snapshot* it returns on every info request,
and proves properties of that model. The snapshot merges the endpoint registry,
the requesting user's tokens, the relation graph between endpoints and what the
plugins contribute. The model follows `src/jetstream/info.go`:

- `updateEndpointsWithRelations` sorts the rows of the relations table into
  each endpoint's `Provides` and `Receives` lists (`RelationIndex`,
  `relations.dfy`);
- `getInfo` runs three fatal lookups and sets the diagnostics for admins. It
  then creates one empty bucket per declared endpoint type and one detail per
  listed endpoint, attaches the relations and runs the plugin hooks. The
  plugin status is set last (`InfoBuilder`, `info.dfy`);
- `marshalEndpointMetadata` decodes an endpoint's metadata string only when
  it looks like a JSON object (`Metadata`, `metadata.dfy`).

The record shapes (`Endpoint`, `EndpointDetail`, `Info`, relations, token
records) are in `types.dfy`. Every collaborator that `getInfo` calls is a field
of the `Portal` value. A lookup that returns a value and an error answers a
`Lookup` value (`Found` or `Failed`), and a per-key lookup is a function. The
UAA user, and the user and token of a token lookup, are `Option`s, so a nil
answer there is one of the possible answers. Each property holds for every
answer of: versions, session user id, UAA user, endpoint list, token lookup,
relation list, plugin list, plugin hooks and the JSON decoder, within the
shapes `types.dfy` gives them (the nil answers it cannot express are listed
under "Left out").

Each loop of the source is a method with a `for` or `while` loop. Each method
is proved equal to a specification function. The lemmas state the properties
of those functions.

Where the code behaves differently from what a broker of this kind would be
expected to do, the model follows the code:

- A self-relation (provider = target) could be expected in both of its
  endpoint's lists. The code puts it in `Provides` only: the `else if` on
  info.go line 56 means the target test is never reached when the provider
  test succeeds.
- Diagnostics are meant for admins only, which would call for a privilege
  filter after the plugin hooks. The code has none: diagnostics are set for
  admins before the hooks run, and a hook can still set them for anyone
  (`HookCanExposeDiagnostics`).
- A fault in one plugin hook could be expected to stay inside that plugin.
  In the code a hook returns nothing, and a panic in a hook ends the request
  (`HookPanicFailsRequest`).
- The relations could be indexed in one pass. The code scans the whole
  relation list once per endpoint. The model keeps the nested loop.
- When a listed endpoint's type has no bucket, line 134 writes into a nil Go
  map, and Go panics. The model returns `Err(Panic(...))` for that request
  (`StoreAll`, `BucketsBeforeHooks`).
- A lookup may succeed and still hand back a nil pointer. A nil UAA user
  panics at line 98, where its `Admin` field is read. A nil token panics at
  line 130. A nil user next to a token is stored as a nil user
  (`GetInfo`, `NewDetail`, `StoreAll`).
- `len(metadata)` in Go counts UTF-8 bytes. The model counts bytes through
  `Utf8Length`, so a two-character string such as `{é` is handed to the
  decoder (`TwoCharactersThreeBytesDecoded`).

## Model

| member | source | states |
|---|---|---|
| `Metadata.Utf8Length` | src/jetstream/info.go:156 | the byte length that Go's `len` gives lies between the character count and four times that count, and equals the character count for ASCII text |
| `Metadata.Index` | src/jetstream/info.go:156 | `strings.Index` returns -1 exactly when the substring occurs nowhere; otherwise it returns the byte offset, in the UTF-8 encoding, of the first character position where it occurs |
| `Metadata.IndexCountsBytes` | src/jetstream/info.go:156 | the offset counts bytes: in `é{` the brace is at offset 2, although it is the second character |
| `Metadata.BraceFirst` | src/jetstream/info.go:156 | `strings.Index(s, "{") == 0` holds exactly when `s` starts with `{` |
| `Metadata.MarshalEndpointMetadata` | src/jetstream/info.go:155-163 | the string is handed to the decoder exactly when it is longer than 2 bytes and starts with `{`, and the decoder's result, nil map included, is returned; otherwise the string comes back unchanged |
| `Metadata.ShortAsciiKeptRaw` | src/jetstream/info.go:156-162 | an ASCII string of at most two characters, `{}` included, is returned unchanged |
| `Metadata.TwoCharactersThreeBytesDecoded` | src/jetstream/info.go:156-159 | the length test counts bytes, so `{é` (2 characters, 3 bytes) goes to the decoder |
| `RelationIndex.EntryFor` | src/jetstream/info.go:51-60 | a `Provides` entry names the target and a `Receives` entry names the provider; both carry the relation's type and metadata |
| `RelationIndex.MatchingIndices` | src/jetstream/info.go:48-62 | the positions of the relations that feed one list are strictly increasing, all in range, and include every relation that belongs there and no other |
| `RelationIndex.EntriesFollowMatches` | src/jetstream/info.go:48-62 | each list has exactly one entry per selected relation, in relation-list order, and entry k is the entry of the k-th selected relation |
| `RelationIndex.EntriesAppend` | src/jetstream/info.go:48-62 | scanning two relation lists one after the other gives the concatenation of their entries |
| `RelationIndex.UnrelatedRelationIgnored` | src/jetstream/info.go:48-62 | a relation whose provider and target are both other endpoints (for instance a deleted one) changes neither list |
| `RelationIndex.SelfRelationProvidesOnly` | src/jetstream/info.go:50-61 | a self-relation is selected for `Provides` and never for `Receives` |
| `RelationIndex.AddsAtItsPlace` | src/jetstream/info.go:48-62 | wherever a relation stands in the list, it adds its entry at that place, between the entries of the relations before it and those after it, exactly when it belongs to the list |
| `RelationIndex.RelationReachesBothEnds` | src/jetstream/info.go:48-62 | wherever it stands in the list, a relation between two endpoints gives the provider one `Provides` entry that names the target, and gives the target one `Receives` entry that names the provider; it adds nothing to the provider's `Receives` or the target's `Provides` |
| `RelationIndex.SelfRelationOnlyProvided` | src/jetstream/info.go:50-61 | wherever it stands in the list, a self-relation gives its endpoint one `Provides` entry and no `Receives` entry |
| `RelationIndex.AttachRelations` | src/jetstream/info.go:42-63 | a nil `Relations` starts as two empty lists; existing entries are kept and the new entries follow them; no other field of the detail changes |
| `RelationIndex.UpdateEndpointsWithRelations` | src/jetstream/info.go:35-68 | if the relation list cannot be read, it returns the error and leaves every detail untouched; otherwise every detail in every bucket gets its relations attached, in any visiting order, and no bucket or key is added or removed |
| `InfoBuilder.AddPluginBuckets` | src/jetstream/info.go:102-113 | after the bucket loop, a type has a bucket exactly when it had one before or some plugin with an endpoint capability declares it as a non-empty type; the buckets it creates are empty |
| `InfoBuilder.InitEndpointBuckets` | src/jetstream/info.go:102-113 | the snapshot has an empty bucket for exactly the non-empty types declared by plugins with an endpoint capability |
| `InfoBuilder.NewDetail` | src/jetstream/info.go:119-132 | a new detail has its record, its decoded metadata, an empty metadata map and no relations; when the token lookup fails, the user is nil, the token metadata empty and the shared flag false; when it succeeds, user (nil included), token metadata and shared flag come from its answer; a successful lookup with a nil token panics |
| `InfoBuilder.StoreAll` | src/jetstream/info.go:115-135 | the endpoint loop panics exactly when some listed endpoint's type has no bucket (a nil-map write) or some token lookup hands back a nil token (a nil dereference); otherwise it adds no bucket |
| `InfoBuilder.StoredLastListed` | src/jetstream/info.go:133-134 | each endpoint is stored at `Endpoints[type][guid]`; when a (type, GUID) pair is listed twice, the later detail wins |
| `InfoBuilder.StoredUntouched` | src/jetstream/info.go:133-134 | an existing detail that no listed endpoint overwrites stays as it was |
| `InfoBuilder.StoredOnlyListed` | src/jetstream/info.go:133-134 | the endpoint loop adds no (type, GUID) pair that is not listed |
| `InfoBuilder.StoreEndpoints` | src/jetstream/info.go:115-135 | the endpoint loop, with each detail built in place, fails exactly when some listed type has no bucket or some lookup hands back a nil token, and otherwise stores what `StoreAll` describes |
| `InfoBuilder.RunHooks` | src/jetstream/info.go:142-148 | the hook loop can fail only with a hook panic; when no plugin has an endpoint capability it leaves the snapshot as it is |
| `InfoBuilder.RunHooksAppend` | src/jetstream/info.go:142-148 | hooks run one after the other, in the order the plugin collection is ranged over: running a concatenated plugin list runs the first part, then the second part on its result |
| `InfoBuilder.HookPanicAbortsLoop` | src/jetstream/info.go:143-147 | when hook k panics on the snapshot the earlier hooks produced, the whole loop fails |
| `InfoBuilder.HooksKeepDiagnostics` | src/jetstream/info.go:142-148 | when no hook changes the diagnostics, the hook loop leaves them as they were |
| `InfoBuilder.RunPluginHooks` | src/jetstream/info.go:142-148 | the hook loop fails only with a hook panic; with no endpoint-capable plugin it changes nothing |
| `InfoBuilder.GetInfo` | src/jetstream/info.go:70-153 | a failed versions, session `user_id` or UAA user lookup returns its own error and no snapshot; a fatal error happens exactly when one of those lookups fails; a nil UAA user returned without an error panics; a snapshot always carries the proxy's plugin status, set last |
| `InfoBuilder.BucketsBeforeHooks` | src/jetstream/info.go:88-140 | before the hooks, the snapshot exists exactly when every listed endpoint's type has a bucket and no token lookup hands back a nil token; it has one bucket per declared type, even an empty one, and no other; diagnostics are set only for admins and are the proxy's diagnostics for an admin |
| `InfoBuilder.ListedEndpointStored` | src/jetstream/info.go:115-140 | before the hooks, the last listing of each endpoint sits at `[type][guid]`: built from its record and token lookup, with relations attached when the relation list could be read |
| `InfoBuilder.StoredEndpointListed` | src/jetstream/info.go:115-140 | before the hooks, every detail in the snapshot comes from the last listing of its type and GUID |
| `InfoBuilder.RelationFailureOnlyLogged` | src/jetstream/info.go:137-140 | if the relation list cannot be read, the snapshot is still built (when every type has a bucket and no token is nil), and no detail has relations |
| `InfoBuilder.DiagnosticsOnlyForAdmins` | src/jetstream/info.go:97-100 | when no hook touches the diagnostics, the final snapshot carries diagnostics only for an admin, and for an admin they are the proxy's |
| `InfoBuilder.HookCanExposeDiagnostics` | src/jetstream/info.go:142-148 | nothing filters after the hooks: a hook that sets the diagnostics hands them to a user who is not an admin |
| `InfoBuilder.HookPanicFailsRequest` | src/jetstream/info.go:142-148 | a panicking hook fails the whole request with a panic; hooks are not isolated |

## Left out

- The HTTP handler `info` (info.go lines 24-32) and the echo context are not modelled: that part is HTTP I/O and JSON response writing. The context `c` that hooks receive is not modelled either.
- The bodies of the collaborators are not modelled: `getVersionsData`, `GetSessionStringValue`, `GetUAAUser`, `buildCNSIList`, `GetCNSIUserAndToken`, `ListRelations`, `GetEndpointPlugin`, `UpdateMetadata` and `json.Unmarshal`. They are database, session, plugin and library calls. Each one is an input of the model. Where `getInfo` tests the error first (`getVersionsData`, `GetSessionStringValue`, `GetUAAUser`, `ListRelations`, `GetEndpointPlugin`), an error returned with a value counts as the error, which is all that `getInfo` looks at.
- Nil answers: only three are modelled. These are a nil UAA user, and a nil user or a nil token from a successful `GetCNSIUserAndToken`. The model has no value for the other nil answers, so it does not reach the panics they would cause:
  - a nil element of `p.Plugins`, whose `GetEndpointPlugin` call panics at line 104 (and line 144);
  - a nil endpoint capability returned without an error, whose `GetType` call panics at line 110 (or whose `UpdateMetadata` call panics at line 146);
  - a nil record in the list of `buildCNSIList`, if that list holds pointers, which panics at line 121;
  - a nil row in the list of `ListRelations`, if that list holds pointers, which panics at line 50.
- Whether a per-user token takes precedence over a system-shared one is decided inside `GetCNSIUserAndToken`, so this model cannot state it.
- `GetEndpointPlugin` is called twice per plugin (lines 104 and 144), and `GetType` twice per capability (lines 110 and 111). The model reads one capability per plugin and one `typeName` per capability, so it gives the same answer both times.
- The error of `buildCNSIList` is ignored by the source. The model takes the list it returns as given.
- The warning that `log.Warnf` writes when relations fail is not modelled. Only its effect is: the request goes on.
- `EndpointDetail` and `Info` are Go pointers, updated in place. The model updates them as values stored in maps. Each detail is freshly allocated and stored in a single map slot, so both readings agree. A hook that keeps pointers past its call is not modelled.
- A hook is a function from the snapshot to a new snapshot, or to a panic. Go's random map iteration order is modelled by letting `UpdateEndpointsWithRelations` visit keys in any order.
- Plugins: the type of `p.Plugins` is not part of this model, and it may be a map that Go ranges in random order. The model takes the plugins as one sequence per request, in the order they are ranged over. For the hook loop this covers every order, because the sequence is arbitrary. The bucket loop's result does not depend on the order (`AddPluginBuckets`). If the two loops range over a map in two different orders, the model does not capture it. It gives both loops the same sequence, and only the hook loop's order matters.
- JSON numbers keep their text. Floating point is not modelled. Go strings that hold invalid UTF-8 are not modelled.
- Concurrency, locking, timeouts and cancellation are not modelled. None of them appears in the modelled code.
- The repository interface in src/backend/app-core/repository/console_config/console_config.go declares methods but has no behaviour, so it is not modelled.
