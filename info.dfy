/**
 * `getInfo`: build the info snapshot for one request. Three lookups are
 * fatal; then the snapshot gets its diagnostics (admins only), one empty
 * bucket per endpoint type a plugin declares, one detail per listed endpoint,
 * the relations (a failure there is only logged), the plugins' metadata
 * hooks, and finally the plugin status.
 */
module InfoBuilder {
  import opened Types
  import opened Metadata
  import opened RelationIndex

  const VersionError := "Could not find database version"
  const SessionError := "Could not find session user_id"
  const UserError := "Could not load session user data"
  /** Go's runtime error for a store into the nil map of a missing bucket. */
  const NilMapWrite := "assignment to entry in nil map"
  /** Go's runtime error for reading a field through a nil pointer. */
  const NilDereference := "invalid memory address or nil pointer dereference"
  const HookPanic := "plugin UpdateMetadata panicked"

  // ---------------------------------------------------------------------
  // Buckets, one per declared endpoint type
  // ---------------------------------------------------------------------

  /** Plugin `pl` has an endpoint capability of type `t`. */
  predicate DeclaresType(pl: Plugin, t: string)
  {
    pl.endpointPlugin.Some? && pl.endpointPlugin.value.typeName == t
  }

  /** Some plugin of `plugins` declares the non-empty endpoint type `t`. */
  predicate Declared(plugins: seq<Plugin>, t: string)
  {
    t != "" && exists i | 0 <= i < |plugins| :: DeclaresType(plugins[i], t)
  }

  /** The buckets after the bucket loop has visited `plugins`, starting from `b`. */
  function AddPluginBuckets(b: Buckets, plugins: seq<Plugin>): (r: Buckets)
    ensures forall t :: t in r <==> t in b || Declared(plugins, t)
    ensures forall t | t in r :: r[t] == (if Declared(plugins, t) then map[] else b[t])
    decreases |plugins|
  {
    if plugins == [] then b
    else
      var pl := plugins[0];
      var b1 := if pl.endpointPlugin.Some? && |pl.endpointPlugin.value.typeName| > 0
                then b[pl.endpointPlugin.value.typeName := map[]] else b;
      DeclaredStep(plugins);
      AddPluginBuckets(b1, plugins[1..])
  }

  /** `Declared` over a non-empty plugin list, split at its first plugin. */
  lemma DeclaredStep(plugins: seq<Plugin>)
    requires plugins != []
    ensures forall t :: Declared(plugins, t) <==> (t != "" && DeclaresType(plugins[0], t)) || Declared(plugins[1..], t)
  {
  }

  /** The bucket loop: every plugin with an endpoint capability of a
      non-empty type gets an empty bucket for that type. */
  method InitEndpointBuckets(plugins: seq<Plugin>) returns (endpoints: Buckets)
    ensures forall t :: t in endpoints <==> Declared(plugins, t)
    ensures forall t | t in endpoints :: endpoints[t] == map[]
    ensures endpoints == AddPluginBuckets(map[], plugins)
  {
    endpoints := map[];
    for i := 0 to |plugins|
      invariant AddPluginBuckets(endpoints, plugins[i..]) == AddPluginBuckets(map[], plugins)
    {
      assert plugins[i..][1..] == plugins[i + 1..];
      var endpointPlugin := plugins[i].endpointPlugin;
      if endpointPlugin.None? {
        continue;
      }
      if |endpointPlugin.value.typeName| > 0 {
        endpoints := endpoints[endpointPlugin.value.typeName := map[]];
      }
    }
    assert plugins[|plugins|..] == [];
  }

  // ---------------------------------------------------------------------
  // One detail per listed endpoint
  // ---------------------------------------------------------------------

  /** The token lookup for `cnsi` reports success but hands back a nil
      token, whose `Metadata` the builder then reads. */
  predicate NilToken(p: Portal, cnsi: CNSIRecord, userGuid: string)
  {
    var found := p.userAndToken(cnsi.guid, userGuid);
    found.Some? && found.value.1.None?
  }

  /** The detail built for `cnsi`: default fields, then the user and token
      fields copied when the token lookup for (`cnsi.guid`, `userGuid`)
      succeeds. A successful lookup may hand back a nil user, which is
      copied as it is, or a nil token, which is dereferenced and panics. */
  function NewDetail(p: Portal, cnsi: CNSIRecord, userGuid: string): (r: Result<EndpointDetail>)
    ensures r.Err? <==> NilToken(p, cnsi, userGuid)
    ensures r.Err? ==> r.error == Panic(NilDereference)
    ensures r.Ok? ==>
      && r.value.record == cnsi && r.value.metadata == map[] && r.value.relations.None?
      && r.value.endpointMetadata == MarshalEndpointMetadata(cnsi.metadata, p.unmarshal)
    ensures p.userAndToken(cnsi.guid, userGuid).None? ==>
      r.Ok? && r.value.user.None? && r.value.tokenMetadata == "" && !r.value.systemSharedToken
    ensures r.Ok? && p.userAndToken(cnsi.guid, userGuid).Some? ==>
      var (u, token) := p.userAndToken(cnsi.guid, userGuid).value;
      r.value.user == u && r.value.tokenMetadata == token.value.metadata && r.value.systemSharedToken == token.value.systemShared
  {
    var d := EndpointDetail(cnsi, MarshalEndpointMetadata(cnsi.metadata, p.unmarshal), None, map[], "", false, None);
    match p.userAndToken(cnsi.guid, userGuid)
    case None => Ok(d)
    case Some((_, None)) => Err(Panic(NilDereference))
    case Some((u, Some(token))) => Ok(d.(user := u, tokenMetadata := token.metadata, systemSharedToken := token.systemShared))
  }

  /** Some entry of `cnsis` has type `t` and GUID `g`. */
  predicate Listed(cnsis: seq<CNSIRecord>, t: string, g: string)
  {
    exists i | 0 <= i < |cnsis| :: cnsis[i].cnsiType == t && cnsis[i].guid == g
  }

  /** Entry `i` is the last one of `cnsis` with its type and GUID. */
  predicate LastListed(cnsis: seq<CNSIRecord>, i: nat)
    requires i < |cnsis|
  {
    forall j | i < j < |cnsis| :: !(cnsis[j].cnsiType == cnsis[i].cnsiType && cnsis[j].guid == cnsis[i].guid)
  }

  /** Some entry of `cnsis` has a type with no bucket in `b`. */
  predicate MissingBucket(b: Buckets, cnsis: seq<CNSIRecord>)
  {
    exists i | 0 <= i < |cnsis| :: cnsis[i].cnsiType !in b
  }

  /** Some entry of `cnsis` meets a nil token. */
  predicate NilTokenListed(p: Portal, cnsis: seq<CNSIRecord>, userGuid: string)
  {
    exists i | 0 <= i < |cnsis| :: NilToken(p, cnsis[i], userGuid)
  }

  /** The endpoint loop, from buckets `b` over `cnsis`: each detail is built,
      then stored at `[type][guid]`; a type without a bucket is a store into
      a nil map. Either panic ends the loop. */
  function StoreAll(b: Buckets, cnsis: seq<CNSIRecord>, p: Portal, userGuid: string): (r: Result<Buckets>)
    ensures r.Err? <==> MissingBucket(b, cnsis) || NilTokenListed(p, cnsis, userGuid)
    ensures r.Err? && !NilTokenListed(p, cnsis, userGuid) ==> r.error == Panic(NilMapWrite)
    ensures r.Err? && !MissingBucket(b, cnsis) ==> r.error == Panic(NilDereference)
    ensures r.Err? ==> r.error == Panic(NilMapWrite) || r.error == Panic(NilDereference)
    ensures r.Ok? ==> r.value.Keys == b.Keys
    decreases |cnsis|
  {
    if cnsis == [] then Ok(b)
    else
      var cnsi := cnsis[0];
      assert forall i | 1 <= i < |cnsis| :: cnsis[i] == cnsis[1..][i - 1];
      match NewDetail(p, cnsi, userGuid)
      case Err(e) => Err(e)
      case Ok(d) =>
        if cnsi.cnsiType !in b then Err(Panic(NilMapWrite))
        else StoreAll(b[cnsi.cnsiType := b[cnsi.cnsiType][cnsi.guid := d]], cnsis[1..], p, userGuid)
  }

  /** A successful endpoint loop stores, at `[type][guid]`, the detail of
      the last entry listed with that type and GUID. */
  lemma {:induction false} StoredLastListed(b: Buckets, cnsis: seq<CNSIRecord>, p: Portal, userGuid: string, i: nat)
    requires StoreAll(b, cnsis, p, userGuid).Ok?
    requires i < |cnsis| && LastListed(cnsis, i)
    ensures var r := StoreAll(b, cnsis, p, userGuid).value;
      cnsis[i].cnsiType in r && cnsis[i].guid in r[cnsis[i].cnsiType] &&
      r[cnsis[i].cnsiType][cnsis[i].guid] == NewDetail(p, cnsis[i], userGuid).value
    decreases |cnsis|
  {
    var cnsi := cnsis[0];
    var rest := cnsis[1..];
    var b1 := b[cnsi.cnsiType := b[cnsi.cnsiType][cnsi.guid := NewDetail(p, cnsi, userGuid).value]];
    assert StoreAll(b, cnsis, p, userGuid) == StoreAll(b1, rest, p, userGuid);
    if i == 0 {
      assert !Listed(rest, cnsi.cnsiType, cnsi.guid) by {
        forall j | 0 <= j < |rest| ensures !(rest[j].cnsiType == cnsi.cnsiType && rest[j].guid == cnsi.guid) {
          assert rest[j] == cnsis[j + 1];
        }
      }
      StoredUntouched(b1, rest, p, userGuid, cnsi.cnsiType, cnsi.guid);
    } else {
      assert cnsis[i] == rest[i - 1];
      assert LastListed(rest, i - 1) by {
        forall j | i - 1 < j < |rest|
          ensures !(rest[j].cnsiType == rest[i - 1].cnsiType && rest[j].guid == rest[i - 1].guid)
        {
          assert rest[j] == cnsis[j + 1];
        }
      }
      StoredLastListed(b1, rest, p, userGuid, i - 1);
    }
  }

  /** A successful endpoint loop leaves an existing detail that no entry
      lists where it was. */
  lemma {:induction false} StoredUntouched(b: Buckets, cnsis: seq<CNSIRecord>, p: Portal, userGuid: string, t: string, g: string)
    requires StoreAll(b, cnsis, p, userGuid).Ok?
    requires t in b && g in b[t] && !Listed(cnsis, t, g)
    ensures var r := StoreAll(b, cnsis, p, userGuid).value;
      t in r && g in r[t] && r[t][g] == b[t][g]
    decreases |cnsis|
  {
    if cnsis != [] {
      var cnsi := cnsis[0];
      var rest := cnsis[1..];
      var b1 := b[cnsi.cnsiType := b[cnsi.cnsiType][cnsi.guid := NewDetail(p, cnsi, userGuid).value]];
      assert StoreAll(b, cnsis, p, userGuid) == StoreAll(b1, rest, p, userGuid);
      assert !(t == cnsi.cnsiType && g == cnsi.guid);
      assert !Listed(rest, t, g) by {
        forall j | 0 <= j < |rest| ensures !(rest[j].cnsiType == t && rest[j].guid == g) {
          assert rest[j] == cnsis[j + 1];
        }
      }
      StoredUntouched(b1, rest, p, userGuid, t, g);
    }
  }

  /** A successful endpoint loop adds no detail that no entry lists. */
  lemma {:induction false} StoredOnlyListed(b: Buckets, cnsis: seq<CNSIRecord>, p: Portal, userGuid: string, t: string, g: string)
    requires StoreAll(b, cnsis, p, userGuid).Ok?
    requires t in b && g !in b[t] && !Listed(cnsis, t, g)
    ensures g !in StoreAll(b, cnsis, p, userGuid).value[t]
    decreases |cnsis|
  {
    if cnsis != [] {
      var cnsi := cnsis[0];
      var rest := cnsis[1..];
      var b1 := b[cnsi.cnsiType := b[cnsi.cnsiType][cnsi.guid := NewDetail(p, cnsi, userGuid).value]];
      assert StoreAll(b, cnsis, p, userGuid) == StoreAll(b1, rest, p, userGuid);
      assert !(t == cnsi.cnsiType && g == cnsi.guid);
      assert !Listed(rest, t, g) by {
        forall j | 0 <= j < |rest| ensures !(rest[j].cnsiType == t && rest[j].guid == g) {
          assert rest[j] == cnsis[j + 1];
        }
      }
      StoredOnlyListed(b1, rest, p, userGuid, t, g);
    }
  }

  /** Every (type, GUID) that is listed at all has a last listing. */
  lemma {:induction false} LastListingExists(cnsis: seq<CNSIRecord>, t: string, g: string)
    requires Listed(cnsis, t, g)
    ensures exists i | 0 <= i < |cnsis| :: cnsis[i].cnsiType == t && cnsis[i].guid == g && LastListed(cnsis, i)
    decreases |cnsis|
  {
    var n := |cnsis| - 1;
    if cnsis[n].cnsiType == t && cnsis[n].guid == g {
      assert LastListed(cnsis, n);
    } else {
      var init := cnsis[..n];
      assert Listed(init, t, g) by {
        var j :| 0 <= j < |cnsis| && cnsis[j].cnsiType == t && cnsis[j].guid == g;
        assert j < n && init[j] == cnsis[j];
      }
      LastListingExists(init, t, g);
      var i :| 0 <= i < |init| && init[i].cnsiType == t && init[i].guid == g && LastListed(init, i);
      assert cnsis[i] == init[i];
      assert forall j | i < j < n :: cnsis[j] == init[j];
      assert LastListed(cnsis, i);
    }
  }

  /** The endpoint loop of `getInfo` (with the construction of each detail). */
  method StoreEndpoints(endpoints: Buckets, p: Portal, userGuid: string) returns (r: Result<Buckets>)
    ensures r.Err? <==> MissingBucket(endpoints, p.cnsiList) || NilTokenListed(p, p.cnsiList, userGuid)
    ensures r == StoreAll(endpoints, p.cnsiList, p, userGuid)
  {
    var b := endpoints;
    for i := 0 to |p.cnsiList|
      invariant StoreAll(b, p.cnsiList[i..], p, userGuid) == StoreAll(endpoints, p.cnsiList, p, userGuid)
    {
      assert p.cnsiList[i..][1..] == p.cnsiList[i + 1..];
      var cnsi := p.cnsiList[i];
      var endpoint := EndpointDetail(cnsi, MarshalEndpointMetadata(cnsi.metadata, p.unmarshal), None, map[], "", false, None);
      var found := p.userAndToken(cnsi.guid, userGuid);
      if found.Some? {
        var (cnsiUser, token) := found.value;
        if token.None? {
          return Err(Panic(NilDereference));
        }
        endpoint := endpoint.(user := cnsiUser, tokenMetadata := token.value.metadata, systemSharedToken := token.value.systemShared);
      }
      if cnsi.cnsiType !in b {
        return Err(Panic(NilMapWrite));
      }
      b := b[cnsi.cnsiType := b[cnsi.cnsiType][cnsi.guid := endpoint]];
    }
    assert p.cnsiList[|p.cnsiList|..] == [];
    r := Ok(b);
  }

  // ---------------------------------------------------------------------
  // Plugin hooks
  // ---------------------------------------------------------------------

  /** The hook loop from snapshot `s` over `plugins`: each plugin with an
      endpoint capability runs its hook; a panicking hook aborts everything. */
  function RunHooks(s: Info, plugins: seq<Plugin>, userGuid: string): (r: Result<Info>)
    ensures r.Err? ==> r.error == Panic(HookPanic)
    ensures (forall i | 0 <= i < |plugins| :: plugins[i].endpointPlugin.None?) ==> r == Ok(s)
    decreases |plugins|
  {
    if plugins == [] then Ok(s)
    else
      assert forall i | 0 <= i < |plugins[1..]| :: plugins[1..][i] == plugins[i + 1];
      match plugins[0].endpointPlugin
      case None => RunHooks(s, plugins[1..], userGuid)
      case Some(endpointPlugin) =>
        match endpointPlugin.updateMetadata(s, userGuid)
        case None => Err(Panic(HookPanic))
        case Some(s1) => RunHooks(s1, plugins[1..], userGuid)
  }

  /** Running the hooks of `a + b` runs those of `a`, then those of `b` on the result. */
  lemma {:induction false} RunHooksAppend(s: Info, a: seq<Plugin>, b: seq<Plugin>, userGuid: string)
    ensures RunHooks(s, a + b, userGuid) ==
      match RunHooks(s, a, userGuid)
      case Err(e) => Err(e)
      case Ok(s1) => RunHooks(s1, b, userGuid)
    decreases |a|
  {
    if a == [] {
      assert a + b == b;
    } else {
      assert (a + b)[1..] == a[1..] + b;
      match a[0].endpointPlugin
      case None => RunHooksAppend(s, a[1..], b, userGuid);
      case Some(endpointPlugin) =>
        match endpointPlugin.updateMetadata(s, userGuid)
        case None =>
        case Some(s1) => RunHooksAppend(s1, a[1..], b, userGuid);
    }
  }

  /** Hooks are not isolated from faults: when the hook of plugin `k` panics
      on the snapshot the earlier hooks produced, the whole loop fails. */
  lemma HookPanicAbortsLoop(s: Info, plugins: seq<Plugin>, userGuid: string, k: nat, before: Info)
    requires k < |plugins| && plugins[k].endpointPlugin.Some?
    requires RunHooks(s, plugins[..k], userGuid) == Ok(before)
    requires plugins[k].endpointPlugin.value.updateMetadata(before, userGuid).None?
    ensures RunHooks(s, plugins, userGuid) == Err(Panic(HookPanic))
  {
    assert plugins == plugins[..k] + plugins[k..];
    RunHooksAppend(s, plugins[..k], plugins[k..], userGuid);
  }

  /** Plugin `pl`'s hook, whenever it returns, leaves the diagnostics as they were. */
  ghost predicate KeepsDiagnostics(pl: Plugin)
  {
    pl.endpointPlugin.Some? ==>
      forall s: Info, u: string | pl.endpointPlugin.value.updateMetadata(s, u).Some? ::
        pl.endpointPlugin.value.updateMetadata(s, u).value.diagnostics == s.diagnostics
  }

  /** When no hook touches the diagnostics, the hook loop keeps them. */
  lemma {:induction false} HooksKeepDiagnostics(s: Info, plugins: seq<Plugin>, userGuid: string)
    requires forall i | 0 <= i < |plugins| :: KeepsDiagnostics(plugins[i])
    requires RunHooks(s, plugins, userGuid).Ok?
    ensures RunHooks(s, plugins, userGuid).value.diagnostics == s.diagnostics
    decreases |plugins|
  {
    if plugins != [] {
      assert KeepsDiagnostics(plugins[0]);
      assert forall i | 0 <= i < |plugins[1..]| :: plugins[1..][i] == plugins[i + 1];
      match plugins[0].endpointPlugin
      case None => HooksKeepDiagnostics(s, plugins[1..], userGuid);
      case Some(endpointPlugin) =>
        match endpointPlugin.updateMetadata(s, userGuid)
        case None =>
        case Some(s1) => HooksKeepDiagnostics(s1, plugins[1..], userGuid);
    }
  }

  /** The hook loop of `getInfo`. */
  method RunPluginHooks(s: Info, plugins: seq<Plugin>, userGuid: string) returns (r: Result<Info>)
    ensures r.Err? ==> r.error == Panic(HookPanic)
    ensures (forall i | 0 <= i < |plugins| :: plugins[i].endpointPlugin.None?) ==> r == Ok(s)
    ensures r == RunHooks(s, plugins, userGuid)
  {
    var current := s;
    for i := 0 to |plugins|
      invariant RunHooks(current, plugins[i..], userGuid) == RunHooks(s, plugins, userGuid)
      invariant (forall j | 0 <= j < |plugins| :: plugins[j].endpointPlugin.None?) ==> current == s
    {
      assert plugins[i..][1..] == plugins[i + 1..];
      var endpointPlugin := plugins[i].endpointPlugin;
      if endpointPlugin.Some? {
        var next := endpointPlugin.value.updateMetadata(current, userGuid);
        if next.None? {
          return Err(Panic(HookPanic));
        }
        current := next.value;
      }
    }
    assert plugins[|plugins|..] == [];
    r := Ok(current);
  }

  // ---------------------------------------------------------------------
  // The snapshot
  // ---------------------------------------------------------------------

  /** The snapshot right after the bucket loop. */
  function InitialInfo(p: Portal, versions: Versions, user: ConnectedUser): Info
  {
    Info(versions, user, AddPluginBuckets(map[], p.plugins), p.cloudFoundryInfo, p.pluginConfig,
         if user.admin then p.diagnostics else None, None)
  }

  /** The snapshot the hooks receive: endpoints stored, relations attached
      unless the relation list could not be read. */
  function BeforeHooks(p: Portal, versions: Versions, userGuid: string, user: ConnectedUser): Result<Info>
  {
    var s := InitialInfo(p, versions, user);
    match StoreAll(s.endpoints, p.cnsiList, p, userGuid)
    case Err(e) => Err(e)
    case Ok(b) => Ok(s.(endpoints := if p.relations.Found? then AttachAll(b, p.relations.value) else b))
  }

  /** What `getInfo` returns for the collaborators' answers in `p`. */
  function BuildInfo(p: Portal): Result<Info>
  {
    if p.versions.Failed? then Err(Fatal(VersionError))
    else if p.sessionUserId.Failed? then Err(Fatal(SessionError))
    else
      var userGuid := p.sessionUserId.value;
      match p.uaaUser(userGuid)
      case Failed(_) => Err(Fatal(UserError))
      case Found(None) => Err(Panic(NilDereference))
      case Found(Some(user)) =>
        match BeforeHooks(p, p.versions.value, userGuid, user)
        case Err(e) => Err(e)
        case Ok(s) =>
          match RunHooks(s, p.plugins, userGuid)
          case Err(e) => Err(e)
          case Ok(s1) => Ok(s1.(plugins := Some(p.pluginsStatus)))
  }

  /** The three fatal lookups all succeeded. */
  predicate LookupsSucceed(p: Portal)
  {
    p.versions.Found? && p.sessionUserId.Found? && p.uaaUser(p.sessionUserId.value).Found?
  }

  /** The three lookups succeeded and the UAA user is not nil. */
  predicate SessionUserKnown(p: Portal)
  {
    LookupsSucceed(p) && p.uaaUser(p.sessionUserId.value).value.Some?
  }

  /** The requesting user, once the lookups have found one. */
  function SessionUser(p: Portal): ConnectedUser
    requires SessionUserKnown(p)
  {
    p.uaaUser(p.sessionUserId.value).value.value
  }

  /** `getInfo`. */
  method GetInfo(p: Portal) returns (r: Result<Info>)
    ensures p.versions.Failed? ==> r == Err(Fatal(VersionError))
    ensures p.versions.Found? && p.sessionUserId.Failed? ==> r == Err(Fatal(SessionError))
    ensures p.versions.Found? && p.sessionUserId.Found? && p.uaaUser(p.sessionUserId.value).Failed? ==> r == Err(Fatal(UserError))
    ensures LookupsSucceed(p) && !SessionUserKnown(p) ==> r == Err(Panic(NilDereference))
    ensures r.Err? && r.error.Fatal? <==> !LookupsSucceed(p)
    ensures r.Ok? ==> r.value.plugins == Some(p.pluginsStatus)
    ensures r == BuildInfo(p)
  {
    if p.versions.Failed? {
      return Err(Fatal(VersionError));
    }
    var versions := p.versions.value;
    if p.sessionUserId.Failed? {
      return Err(Fatal(SessionError));
    }
    var userGuid := p.sessionUserId.value;
    var uaaUser := p.uaaUser(userGuid);
    if uaaUser.Failed? {
      return Err(Fatal(UserError));
    }
    // A nil user with no error: the admin test below reads its field.
    if uaaUser.value.None? {
      return Err(Panic(NilDereference));
    }
    var user := uaaUser.value.value;

    var s := Info(versions, user, map[], p.cloudFoundryInfo, p.pluginConfig, None, None);
    if user.admin {
      s := s.(diagnostics := p.diagnostics);
    }

    var buckets := InitEndpointBuckets(p.plugins);
    s := s.(endpoints := buckets);
    assert s == InitialInfo(p, versions, user);

    var stored := StoreEndpoints(s.endpoints, p, userGuid);
    if stored.Err? {
      return Err(stored.error);
    }
    s := s.(endpoints := stored.value);

    // A failure to read the relations is only logged.
    var updated, _ := UpdateEndpointsWithRelations(s.endpoints, p.relations);
    s := s.(endpoints := updated);
    assert BeforeHooks(p, versions, userGuid, user) == Ok(s);

    var hooked := RunPluginHooks(s, p.plugins, userGuid);
    if hooked.Err? {
      return Err(hooked.error);
    }
    s := hooked.value;

    s := s.(plugins := Some(p.pluginsStatus));
    r := Ok(s);
  }

  // ---------------------------------------------------------------------
  // Properties of the snapshot
  // ---------------------------------------------------------------------

  /** A detail as it stands once the relation step is over: relations
      attached when the list could be read, untouched otherwise. */
  function AfterRelations(p: Portal, d: EndpointDetail): EndpointDetail
  {
    if p.relations.Found? then WithRelations(d, p.relations.value) else d
  }

  /** The snapshot the hooks receive exists exactly when every listed
      endpoint's type has a bucket and no token lookup hands back a nil
      token; it then has one bucket per declared type (even an empty one)
      and no other, and its diagnostics are set only for an admin. */
  lemma BucketsBeforeHooks(p: Portal, versions: Versions, userGuid: string, user: ConnectedUser)
    ensures BeforeHooks(p, versions, userGuid, user).Err? <==>
      (exists i | 0 <= i < |p.cnsiList| :: !Declared(p.plugins, p.cnsiList[i].cnsiType)) ||
      NilTokenListed(p, p.cnsiList, userGuid)
    ensures BeforeHooks(p, versions, userGuid, user).Ok? ==>
      var s := BeforeHooks(p, versions, userGuid, user).value;
      && (forall t :: t in s.endpoints <==> Declared(p.plugins, t))
      && (s.diagnostics.Some? ==> user.admin)
      && (user.admin ==> s.diagnostics == p.diagnostics)
      && s.plugins.None?
  {
  }

  /** In the snapshot the hooks receive, the listed endpoint `i` (the last
      listing of its type and GUID) is at `[type][guid]`, built from its
      record and token lookup, relations attached. */
  lemma ListedEndpointStored(p: Portal, versions: Versions, userGuid: string, user: ConnectedUser, i: nat)
    requires BeforeHooks(p, versions, userGuid, user).Ok?
    requires i < |p.cnsiList| && LastListed(p.cnsiList, i)
    ensures var s := BeforeHooks(p, versions, userGuid, user).value;
      var cnsi := p.cnsiList[i];
      cnsi.cnsiType in s.endpoints && cnsi.guid in s.endpoints[cnsi.cnsiType] &&
      s.endpoints[cnsi.cnsiType][cnsi.guid] == AfterRelations(p, NewDetail(p, cnsi, userGuid).value)
  {
    StoredLastListed(AddPluginBuckets(map[], p.plugins), p.cnsiList, p, userGuid, i);
  }

  /** Every detail in the snapshot the hooks receive comes from the last
      listing of its type and GUID. */
  lemma StoredEndpointListed(p: Portal, versions: Versions, userGuid: string, user: ConnectedUser, t: string, g: string)
    requires BeforeHooks(p, versions, userGuid, user).Ok?
    requires t in BeforeHooks(p, versions, userGuid, user).value.endpoints
    requires g in BeforeHooks(p, versions, userGuid, user).value.endpoints[t]
    ensures exists i | 0 <= i < |p.cnsiList| ::
      p.cnsiList[i].cnsiType == t && p.cnsiList[i].guid == g && LastListed(p.cnsiList, i) &&
      BeforeHooks(p, versions, userGuid, user).value.endpoints[t][g] == AfterRelations(p, NewDetail(p, p.cnsiList[i], userGuid).value)
  {
    var b := AddPluginBuckets(map[], p.plugins);
    if !Listed(p.cnsiList, t, g) {
      StoredOnlyListed(b, p.cnsiList, p, userGuid, t, g);
    }
    LastListingExists(p.cnsiList, t, g);
    var i :| 0 <= i < |p.cnsiList| && p.cnsiList[i].cnsiType == t && p.cnsiList[i].guid == g && LastListed(p.cnsiList, i);
    StoredLastListed(b, p.cnsiList, p, userGuid, i);
  }

  /** When the relation list cannot be read the request goes on: the
      snapshot still exists (when the endpoint loop does not panic), and no
      detail has relations. */
  lemma RelationFailureOnlyLogged(p: Portal, versions: Versions, userGuid: string, user: ConnectedUser)
    requires p.relations.Failed?
    requires forall i | 0 <= i < |p.cnsiList| :: Declared(p.plugins, p.cnsiList[i].cnsiType)
    requires !NilTokenListed(p, p.cnsiList, userGuid)
    ensures BeforeHooks(p, versions, userGuid, user).Ok?
    ensures var s := BeforeHooks(p, versions, userGuid, user).value;
      forall t, g | t in s.endpoints && g in s.endpoints[t] :: s.endpoints[t][g].relations.None?
  {
    BucketsBeforeHooks(p, versions, userGuid, user);
    var s := BeforeHooks(p, versions, userGuid, user).value;
    forall t, g | t in s.endpoints && g in s.endpoints[t] ensures s.endpoints[t][g].relations.None? {
      StoredEndpointListed(p, versions, userGuid, user, t, g);
    }
  }

  /** When no hook touches the diagnostics, a snapshot carries them exactly
      when the user is an admin. */
  lemma DiagnosticsOnlyForAdmins(p: Portal)
    requires forall i | 0 <= i < |p.plugins| :: KeepsDiagnostics(p.plugins[i])
    requires BuildInfo(p).Ok?
    ensures SessionUserKnown(p)
    ensures (BuildInfo(p).value.diagnostics.Some? ==> SessionUser(p).admin) &&
      (SessionUser(p).admin ==> BuildInfo(p).value.diagnostics == p.diagnostics)
  {
    var userGuid := p.sessionUserId.value;
    var user := SessionUser(p);
    var s := BeforeHooks(p, p.versions.value, userGuid, user).value;
    HooksKeepDiagnostics(s, p.plugins, userGuid);
  }

  /** There is no privilege filter after the hooks: a hook that sets the
      diagnostics hands them to a user who is not an admin. */
  lemma HookCanExposeDiagnostics(p: Portal, d: Diagnostics)
    requires SessionUserKnown(p) && !SessionUser(p).admin
    requires BeforeHooks(p, p.versions.value, p.sessionUserId.value, SessionUser(p)).Ok?
    requires |p.plugins| == 1 && p.plugins[0].endpointPlugin.Some?
    requires forall s: Info, u: string :: p.plugins[0].endpointPlugin.value.updateMetadata(s, u) == Some(s.(diagnostics := Some(d)))
    ensures BuildInfo(p).Ok? && BuildInfo(p).value.diagnostics == Some(d)
  {
  }

  /** A hook that panics fails the whole request: hooks are not isolated. */
  lemma HookPanicFailsRequest(p: Portal, k: nat, before: Info)
    requires SessionUserKnown(p)
    requires BeforeHooks(p, p.versions.value, p.sessionUserId.value, SessionUser(p)).Ok?
    requires k < |p.plugins| && p.plugins[k].endpointPlugin.Some?
    requires RunHooks(BeforeHooks(p, p.versions.value, p.sessionUserId.value, SessionUser(p)).value,
                      p.plugins[..k], p.sessionUserId.value) == Ok(before)
    requires p.plugins[k].endpointPlugin.value.updateMetadata(before, p.sessionUserId.value).None?
    ensures BuildInfo(p) == Err(Panic(HookPanic))
  {
    var userGuid := p.sessionUserId.value;
    var s := BeforeHooks(p, p.versions.value, userGuid, SessionUser(p)).value;
    HookPanicAbortsLoop(s, p.plugins, userGuid, k, before);
  }
}
