/** Readiness of catalog entries, what may ship, and the counts of the shipped catalog. */
module CatalogShipping {
  import opened Wrappers
  import opened Sorting
  import opened CatalogMerge
  import opened CatalogImport

  // ---------------------------------------------------------------- audit evidence

  /** A served authorization-server document; an absent entry is the empty string. */
  datatype ServerDocument = ServerDocument(
    issuer: string, authorizationEndpoint: string, tokenEndpoint: string, registrationEndpoint: string,
    tokenAuthMethods: Option<seq<string>>)

  datatype Registration = Registration(isPost: bool, url: string, httpStatus: int)

  datatype AttemptKind = HeaderPointer | Pathful | AtOrigin | OtherAttempt

  /** One try at the protected-resource document. */
  datatype Attempt = Attempt(
    kind: AttemptKind, sourceUrl: string, available: bool, httpStatus: Option<int>, resource: Option<string>)

  datatype Evidence = Evidence(
    endpoint: string, serverAvailable: bool, document: Option<ServerDocument>, registration: Option<Registration>,
    pointerInProbe: bool, engineVisible: bool, selectedSource: Option<string>, attempts: seq<Attempt>)

  /** A live anonymous registration at the advertised endpoint was turned away. */
  predicate RegistrationGated(e: Evidence) {
    && e.registration.Some? && e.document.Some? && e.document.value.registrationEndpoint != ""
    && e.registration.value.isPost && e.registration.value.url == e.document.value.registrationEndpoint
    && (e.registration.value.httpStatus == 401 || e.registration.value.httpStatus == 403)
  }

  /** The first attempt at the source the engine selected. */
  function Selected(attempts: seq<Attempt>, source: Option<string>): (a: Option<Attempt>)
    ensures a.Some? ==> a.value in attempts && Some(a.value.sourceUrl) == source
    ensures a.None? <==> forall x <- attempts :: Some(x.sourceUrl) != source
  {
    if attempts == [] then None
    else if Some(attempts[0].sourceUrl) == source then Some(attempts[0])
    else Selected(attempts[1..], source)
  }

  /** The exact endpoint in its canonical form, or its origin with or without a slash. */
  predicate AudienceMatches(resource: string, endpoint: string, rules: Rules) {
    resource == rules.canonical(endpoint) || resource == rules.originOf(endpoint)
      || resource == rules.originOf(endpoint) + "/"
  }

  predicate AudienceMismatched(e: Evidence, rules: Rules) {
    var selected := Selected(e.attempts, e.selectedSource);
    if selected.None? || selected.value.resource.None? || selected.value.resource.value == "" then e.engineVisible
    else !AudienceMatches(selected.value.resource.value, e.endpoint, rules)
  }

  predicate WellKnown(a: Attempt) {
    a.kind == Pathful || a.kind == AtOrigin
  }

  predicate RefusedByClientError(a: Attempt) {
    a.httpStatus.Some? && 400 <= a.httpStatus.value < 500
  }

  /** No pointer was followed, no document found, and every well-known place answered with a 4xx. */
  predicate FallsBackToOrigin(e: Evidence) {
    && (forall a <- e.attempts :: a.kind != HeaderPointer) && !e.pointerInProbe
    && (forall a <- e.attempts :: WellKnown(a) ==> !a.available && RefusedByClientError(a))
  }

  predicate Coherent(e: Evidence, rules: Rules) {
    if !e.serverAvailable || e.document.None? then false
    else
      var d := e.document.value;
      if d.issuer == "" || d.authorizationEndpoint == "" || d.tokenEndpoint == "" || d.registrationEndpoint == ""
      then false
      else if RegistrationGated(e) then false
      else if e.engineVisible then !AudienceMismatched(e, rules)
      else FallsBackToOrigin(e)
  }

  predicate StandardOauth(e: Evidence, rules: Rules) {
    Coherent(e, rules) && rules.servesPublicClient(if e.document.Some? then e.document.value.tokenAuthMethods else None)
  }

  predicate UserRegisteredOauth(e: Evidence, rules: Rules) {
    var methods := if e.document.Some? then e.document.value.tokenAuthMethods else None;
    Coherent(e, rules) && !rules.servesPublicClient(methods) && rules.servesConfiguredClient(methods)
  }

  /** What the one-click flow can count on; stated of the attempts and documents alone. */
  lemma OneClickIsReachable(e: Evidence, rules: Rules)
    requires StandardOauth(e, rules)
    ensures e.document.Some? && e.document.value.registrationEndpoint != "" && !UserRegisteredOauth(e, rules)
    ensures e.registration.Some? && e.registration.value.isPost
            && e.registration.value.url == e.document.value.registrationEndpoint ==>
              e.registration.value.httpStatus !in {401, 403}
    ensures e.engineVisible ==>
              exists a <- e.attempts ::
                Some(a.sourceUrl) == e.selectedSource && a.resource.Some?
                && AudienceMatches(a.resource.value, e.endpoint, rules)
    ensures !e.engineVisible ==> forall a <- e.attempts :: WellKnown(a) ==> RefusedByClientError(a) && !a.available
  {
    hide AudienceMatches;
    var selected := Selected(e.attempts, e.selectedSource);
    if e.engineVisible {
      assert selected.Some? && selected.value in e.attempts;
    }
  }

  // ---------------------------------------------------------------- curated overrides

  function OverrideOf(e: Entry, rules: Rules): Option<Override> {
    if e.identity in rules.overrides then Some(rules.overrides[e.identity]) else None
  }

  function Or<T>(a: Option<T>, b: T): T {
    if a.Some? then a.value else b
  }

  function CuratedSetup(setup: Setup, o: Override): Setup {
    Setup(Or(o.ready, setup.ready), Or(o.fields, setup.fields),
          if o.requirement.Some? then o.requirement else setup.requirement,
          if o.readiness.Some? then o.readiness else setup.readiness)
  }

  function CuratedEntry(e: Entry, rules: Rules): Entry {
    if OverrideOf(e, rules).Some? then e.(setup := CuratedSetup(e.setup, OverrideOf(e, rules).value)) else e
  }

  // ---------------------------------------------------------------- readiness

  predicate Collects(fields: seq<Field>, kind: FieldKind) {
    exists f <- fields :: f.kind == kind
  }

  function DeriveRequirement(e: Entry): Option<Requirement> {
    if e.setup.ready then None
    else
      match e.transport
      case StdioTransport(_) => Some(LocalRuntime)
      case SseTransport(_) => Some(UnsupportedTransport)
      case HttpTemplate => Some(Tenant)
      case Http(_) =>
        if Collects(e.setup.fields, BearerToken) then Some(BearerTokenNeeded)
        else if Collects(e.setup.fields, ApiKey) then Some(ApiKeyNeeded)
        else if Collects(e.setup.fields, EnvVar) then Some(Tenant)
        else None
  }

  const OAUTH_USER_APP_FIELDS: seq<Field> :=
    [Field("oauthClientId", true, OtherKind, None), Field("oauthClientSecretEnvVar", true, OtherKind, None)]

  function Demoted(setup: Setup, rules: Rules): Setup {
    Setup(false, Dedupe(setup.fields + OAUTH_USER_APP_FIELDS, rules), Some(RegisteredClient), Some(UserSetup))
  }

  /** The setup the evidence leads to; none when the import stops on an entry without a requirement. */
  function AuditedSetup(e: Entry, audit: map<string, Evidence>, rules: Rules): Option<Setup> {
    var setup := e.setup;
    var requirement := if setup.requirement.Some? then setup.requirement else DeriveRequirement(e);
    if setup.readiness.Some? then Some(setup)
    else if !(e.transport.Http? || e.transport.SseTransport?) then
      if setup.ready then Some(setup.(readiness := Some(UnknownReadiness)))
      else Some(setup.(requirement := requirement, readiness := Some(UserSetup)))
    else if e.id !in audit then
      Some(if setup.ready then setup.(readiness := Some(UnknownReadiness)) else setup)
    else if setup.ready then
      if StandardOauth(audit[e.id], rules) then Some(setup.(readiness := Some(OauthReady)))
      else if UserRegisteredOauth(audit[e.id], rules) then Some(Demoted(setup, rules))
      else Some(setup.(readiness := Some(UnknownReadiness)))
    else if requirement.None? then None
    else
      Some(setup.(requirement := requirement,
                  readiness := Some(if requirement == Some(RegisteredClient) then PrimeRestricted else UserSetup)))
  }

  /** Both passes over the entries, in place: remote ones first, then the others. */
  method ApplyAudit(entries: seq<Entry>, audit: map<string, Evidence>, rules: Rules)
    returns (ok: bool, built: seq<Entry>)
    ensures ok ==> |built| == |entries|
                   && forall i | 0 <= i < |entries| ::
                        AuditedSetup(entries[i], audit, rules).Some?
                        && built[i] == entries[i].(setup := AuditedSetup(entries[i], audit, rules).value)
    ensures !ok ==> exists i | 0 <= i < |entries| :: AuditedSetup(entries[i], audit, rules).None?
  {
    hide Dedupe, StandardOauth, UserRegisteredOauth;
    built := entries;
    for i := 0 to |built|
      invariant |built| == |entries|
      invariant forall k | 0 <= k < |entries| ::
                built[k] == if k < i then AfterRemotePass(entries[k], audit, rules) else entries[k]
      invariant forall k | 0 <= k < i :: AuditedSetup(entries[k], audit, rules).Some?
    {
      var e := built[i];
      if !(e.transport.Http? || e.transport.SseTransport?) {
        continue;
      }
      if e.id !in audit {
        if e.setup.ready && e.setup.readiness.None? {
          built := built[i := e.(setup := e.setup.(readiness := Some(UnknownReadiness)))];
        }
        continue;
      }
      if e.setup.readiness.Some? {
        continue;
      }
      if e.setup.ready {
        if StandardOauth(audit[e.id], rules) {
          built := built[i := e.(setup := e.setup.(readiness := Some(OauthReady)))];
        } else if UserRegisteredOauth(audit[e.id], rules) {
          var fields := DedupeFields(e.setup.fields + OAUTH_USER_APP_FIELDS, rules);
          built := built[i := e.(setup := Setup(false, fields, Some(RegisteredClient), Some(UserSetup)))];
        } else {
          built := built[i := e.(setup := e.setup.(readiness := Some(UnknownReadiness)))];
        }
        continue;
      }
      var requirement := if e.setup.requirement.Some? then e.setup.requirement else DeriveRequirement(e);
      if requirement.None? {
        return false, built;
      }
      built := built[i := e.(setup := e.setup.(requirement := requirement,
                     readiness := Some(if requirement == Some(RegisteredClient) then PrimeRestricted else UserSetup)))];
    }
    for i := 0 to |built|
      invariant |built| == |entries|
      invariant forall k | 0 <= k < |entries| ::
                  AuditedSetup(entries[k], audit, rules).Some?
                  && built[k] == if k < i then entries[k].(setup := AuditedSetup(entries[k], audit, rules).value)
                                 else AfterRemotePass(entries[k], audit, rules)
    {
      var e := built[i];
      if e.transport.Http? || e.transport.SseTransport? || e.setup.readiness.Some? {
        continue;
      }
      if e.setup.ready {
        built := built[i := e.(setup := e.setup.(readiness := Some(UnknownReadiness)))];
        continue;
      }
      var requirement := if e.setup.requirement.Some? then e.setup.requirement else DeriveRequirement(e);
      built := built[i := e.(setup := e.setup.(requirement := requirement, readiness := Some(UserSetup)))];
    }
    ok := true;
  }

  function AfterRemotePass(e: Entry, audit: map<string, Evidence>, rules: Rules): Entry {
    if e.transport.Http? || e.transport.SseTransport? then
      match AuditedSetup(e, audit, rules) case Some(setup) => e.(setup := setup) case None => e
    else e
  }

  // ---------------------------------------------------------------- what may ship

  predicate IsCredential(f: Field) {
    f.kind == BearerToken || f.kind == ApiKey
  }

  function CredentialOf(f: Field): string {
    if f.credentialSet.Some? then f.credentialSet.value else f.id
  }

  /** At most one required credential, counting alternative names of one as one. */
  predicate OneCredential(fields: seq<Field>) {
    forall f <- fields, g <- fields | f.required && IsCredential(f) && g.required && IsCredential(g) ::
      CredentialOf(f) == CredentialOf(g)
  }

  /** One-click, or one pasted key or token with a field to paste it into. */
  predicate Shippable(e: Entry) {
    || e.setup.readiness == Some(OauthReady)
    || (&& e.setup.readiness == Some(UserSetup)
        && (e.setup.requirement == Some(BearerTokenNeeded) || e.setup.requirement == Some(ApiKeyNeeded))
        && (exists f <- e.setup.fields :: IsCredential(f))
        && OneCredential(e.setup.fields))
  }

  method CheckReadiness(entries: seq<Entry>) returns (ok: bool)
    ensures ok <==> forall e <- entries :: e.setup.readiness in {Some(OauthReady), Some(UserSetup)}
  {
    for i := 0 to |entries|
      invariant forall e <- entries[..i] :: e.setup.readiness in {Some(OauthReady), Some(UserSetup)}
    {
      var readiness := entries[i].setup.readiness;
      if readiness.None? || readiness.value == PrimeRestricted || readiness.value == UnknownReadiness {
        assert entries[i] in entries;
        return false;
      }
      assert entries[..i + 1] == entries[..i] + [entries[i]];
    }
    assert entries[..|entries|] == entries;
    ok := true;
  }

  method CheckCredentials(entries: seq<Entry>) returns (ok: bool)
    requires forall e <- entries :: e.setup.readiness in {Some(OauthReady), Some(UserSetup)}
    ensures ok <==> forall e <- entries :: Shippable(e)
  {
    hide OneCredential;
    for i := 0 to |entries|
      invariant forall e <- entries[..i] :: Shippable(e)
    {
      var e := entries[i];
      assert e in entries && entries[..i + 1] == entries[..i] + [e];
      if e.setup.readiness.value != UserSetup {
        continue;
      }
      if e.setup.requirement != Some(BearerTokenNeeded) && e.setup.requirement != Some(ApiKeyNeeded) {
        return false;
      }
      if !exists f <- e.setup.fields :: IsCredential(f) {
        return false;
      }
      var distinct := set f <- e.setup.fields | f.required && IsCredential(f) :: CredentialOf(f);
      OneCredentialCounted(e.setup.fields);
      if |distinct| > 1 {
        return false;
      }
    }
    assert entries[..|entries|] == entries;
    ok := true;
  }

  lemma OneCredentialCounted(fields: seq<Field>)
    ensures OneCredential(fields) <==> |set f <- fields | f.required && IsCredential(f) :: CredentialOf(f)| <= 1
  {
    var distinct := set f <- fields | f.required && IsCredential(f) :: CredentialOf(f);
    if OneCredential(fields) && distinct != {} {
      var c :| c in distinct;
      assert distinct == {c};
    }
    if |distinct| <= 1 {
      forall f <- fields, g <- fields | f.required && IsCredential(f) && g.required && IsCredential(g)
        ensures CredentialOf(f) == CredentialOf(g)
      {
        var a, b := CredentialOf(f), CredentialOf(g);
        assert a in distinct && b in distinct;
        assert |distinct - {a}| == |distinct| - 1;
        assert distinct - {a} == {};
      }
    }
  }

  predicate EndpointAllowed(e: Entry, rules: Rules) {
    e.transport.Http? || e.transport.SseTransport? ==>
      rules.isHttps(e.transport.url) && !rules.isLoopback(e.transport.url)
  }

  predicate DifferentIds(entries: seq<Entry>) {
    forall i, j | 0 <= i < j < |entries| :: entries[i].id != entries[j].id
  }

  method CheckIdsAndEndpoints(entries: seq<Entry>, rules: Rules) returns (ok: bool)
    ensures ok <==> DifferentIds(entries) && forall e <- entries :: EndpointAllowed(e, rules)
  {
    var seenIds: set<string> := {};
    for i := 0 to |entries|
      invariant seenIds == set e <- entries[..i] :: e.id
      invariant forall j, k | 0 <= j < k < i :: entries[j].id != entries[k].id
      invariant forall e <- entries[..i] :: EndpointAllowed(e, rules)
    {
      var e := entries[i];
      assert e in entries && entries[..i + 1] == entries[..i] + [e];
      if e.id in seenIds {
        var k :| 0 <= k < i && entries[..i][k].id == e.id;
        assert entries[k].id == entries[i].id;
        return false;
      }
      seenIds := seenIds + {e.id};
      if e.transport.Http? || e.transport.SseTransport? {
        if !rules.isHttps(e.transport.url) || rules.isLoopback(e.transport.url) {
          return false;
        }
      }
      forall j | 0 <= j < i ensures entries[j].id != entries[i].id {
        assert entries[..i][j] == entries[j];
      }
    }
    assert entries[..|entries|] == entries;
    ok := true;
  }

  // ---------------------------------------------------------------- shipped is earned

  predicate NotCurated(e: Entry, rules: Rules) {
    var o := OverrideOf(e, rules);
    o.None? || (o.value.readiness.None? && o.value.requirement.None?)
  }

  /**
   * What the importer may ship without a curated classification. A server-sent-events endpoint needs a
   * curated "ready" status; everything else is plain HTTP.
   */
  predicate Earned(e: Entry, audit: Option<map<string, Evidence>>, rules: Rules) {
    && audit.Some? && e.id in audit.value
    && (e.transport.Http?
        || (e.transport.SseTransport? && e.setup.readiness == Some(OauthReady) && OverrideOf(e, rules).Some?
            && OverrideOf(e, rules).value.ready == Some(true)))
    && (e.setup.readiness == Some(OauthReady) ==> e.setup.ready && StandardOauth(audit.value[e.id], rules))
    && (e.setup.readiness == Some(UserSetup) ==>
          !e.setup.ready
          && e.setup.requirement ==
             Some(if Collects(e.setup.fields, BearerToken) then BearerTokenNeeded else ApiKeyNeeded))
  }

  /** Fresh from the merge. */
  predicate Unclassified(e: Entry) {
    e.setup.readiness.None? && e.setup.requirement.None? && (e.setup.ready ==> e.transport.Http?)
  }

  /** An entry that nobody classified by hand ships only on evidence. */
  lemma ShippedIsEarned(e: Entry, shipped: Entry, audit: map<string, Evidence>, rules: Rules)
    requires Unclassified(e) && NotCurated(e, rules)
    requires var curated := CuratedEntry(e, rules);
             AuditedSetup(curated, audit, rules).Some?
             && shipped == curated.(setup := AuditedSetup(curated, audit, rules).value) && Shippable(shipped)
    ensures Earned(shipped, Some(audit), rules)
  {
    hide Dedupe, OneCredential, StandardOauth, UserRegisteredOauth;
  }

  /** An entry demoted to the user's own registered app never passes the shipping rules. */
  lemma DemotedNeverShips(e: Entry, setup: Setup, rules: Rules)
    ensures !Shippable(e.(setup := Demoted(setup, rules)))
  {
    hide Dedupe;
  }

  // ---------------------------------------------------------------- counts

  function CountWhere(p: Entry -> bool, entries: seq<Entry>): nat {
    if entries == [] then 0 else (if p(entries[0]) then 1 else 0) + CountWhere(p, entries[1..])
  }

  predicate IsHttp(e: Entry) { e.transport.Http? }
  predicate IsTemplate(e: Entry) { e.transport.HttpTemplate? }
  predicate IsSse(e: Entry) { e.transport.SseTransport? }
  predicate IsStdio(e: Entry) { e.transport.StdioTransport? }
  predicate IsReady(e: Entry) { e.setup.ready }
  predicate NeedsSetup(e: Entry) { !e.setup.ready }
  predicate IsOauthReady(e: Entry) { e.setup.readiness == Some(OauthReady) }
  predicate IsUserSetup(e: Entry) { e.setup.readiness == Some(UserSetup) }
  predicate IsPrimeRestricted(e: Entry) { e.setup.readiness == Some(PrimeRestricted) }
  predicate IsUnknown(e: Entry) { e.setup.readiness == Some(UnknownReadiness) }

  function SourcesOf(e: Entry): set<Source> {
    set p <- e.provenance | !p.Prime? :: if p.Upstream? then p.origin.source else Claude
  }

  predicate FromBoth(e: Entry) { |SourcesOf(e)| >= 2 }

  /** A group that took a template is counted as merged from both sources. */
  lemma AttachedMeansBoth(records: seq<Record>, templates: seq<Record>, rules: Rules)
    requires records != [] && templates != [] && forall t <- templates :: Wants(records, t)
    ensures FromBoth(HttpEntry(records, templates, rules))
  {
    hide Dedupe, Blocked;
    var e, t := HttpEntry(records, templates, rules), templates[0];
    assert t in templates && Wants(records, t);
    var r :| r in records && r.origin.plugin == t.origin.plugin && r.origin.source != t.origin.source;
    var k :| 0 <= k < |records| && records[k] == r;
    assert e.provenance[k] == Upstream(r.origin, false) && e.provenance[|records|] == Upstream(t.origin, true);
    assert {r.origin.source, t.origin.source} <= SourcesOf(e);
    SubsetSize({r.origin.source, t.origin.source}, SourcesOf(e));
  }

  lemma {:induction false} SubsetSize(a: set<Source>, b: set<Source>)
    requires a <= b
    ensures |a| <= |b|
  {
    assert b == a + (b - a);
  }

  datatype Counts = Counts(total: nat, http: nat, httpTemplate: nat, sse: nat, stdio: nat, ready: nat,
                           requiresSetup: nat,
                           merged: nat, oauthReady: nat, userSetup: nat, primeRestricted: nat, unknown: nat)

  function CountsOf(entries: seq<Entry>): Counts {
    Counts(|entries|, CountWhere(IsHttp, entries), CountWhere(IsTemplate, entries), CountWhere(IsSse, entries),
           CountWhere(IsStdio, entries), CountWhere(IsReady, entries), CountWhere(NeedsSetup, entries),
           CountWhere(FromBoth, entries), CountWhere(IsOauthReady, entries), CountWhere(IsUserSetup, entries),
           CountWhere(IsPrimeRestricted, entries), CountWhere(IsUnknown, entries))
  }

  lemma {:induction false} CountsAddUp(entries: seq<Entry>)
    requires forall e <- entries :: Shippable(e)
    ensures var c := CountsOf(entries);
            && c.http + c.httpTemplate + c.sse + c.stdio == c.total && c.ready + c.requiresSetup == c.total
            && c.oauthReady + c.userSetup == c.total && c.primeRestricted == 0 && c.unknown == 0
  {
    if entries != [] {
      assert Shippable(entries[0]);
      CountsAddUp(entries[1..]);
    }
  }

  // ---------------------------------------------------------------- the whole import

  lemma {:induction false} SameProvenance(a: seq<Entry>, b: seq<Entry>)
    requires |a| == |b| && forall i | 0 <= i < |a| :: a[i].provenance == b[i].provenance
    ensures Tally(OfEntry, a) == Tally(OfEntry, b)
  {
    if a != [] {
      SameProvenance(a[1..], b[1..]);
    }
  }

  lemma HttpEntryUnclassified(records: seq<Record>, templates: seq<Record>, rules: Rules)
    requires records != []
    ensures Unclassified(HttpEntry(records, templates, rules))
  {
    hide Dedupe, Blocked;
  }

  lemma {:induction false} HttpUnclassified(templates: seq<Record>, groups: seq<seq<Record>>, n: nat, rules: Rules)
    requires AllFull(groups) && n <= |groups|
    ensures forall e <- HttpEntries(templates, groups, n, rules) :: Unclassified(e)
  {
    hide Free, Wanted, HttpEntry, Unclassified;
    if n > 0 {
      HttpUnclassified(templates, groups, n - 1, rules);
      assert groups[n - 1] in groups;
      HttpEntryUnclassified(Sorted(groups[n - 1], rules),
                            Reversed(Wanted(Free(templates, groups, n - 1), groups[n - 1])), rules);
    }
  }

  method ApplyOverrides(entries: seq<Entry>, rules: Rules) returns (built: seq<Entry>)
    ensures |built| == |entries| && forall i | 0 <= i < |entries| :: built[i] == CuratedEntry(entries[i], rules)
  {
    built := entries;
    for i := 0 to |built|
      invariant |built| == |entries|
      invariant forall k | 0 <= k < |entries| ::
                built[k] == if k < i then CuratedEntry(entries[k], rules) else entries[k]
    {
      if built[i].identity in rules.overrides {
        built := built[i := built[i].(setup := CuratedSetup(built[i].setup, rules.overrides[built[i].identity]))];
      }
    }
  }

  /** Every uncurated shipped entry comes, classified by the evidence, from an entry of the merge. */
  ghost predicate AllEarned(entries: seq<Entry>, audit: Option<map<string, Evidence>>, rules: Rules) {
    forall e <- entries :: NotCurated(e, rules) ==> Earned(e, audit, rules)
  }

  /** What an entry of the merge becomes; none when the import stops on it. */
  function Classified(e: Entry, audit: Option<map<string, Evidence>>, rules: Rules): (c: Option<Entry>)
    ensures c.Some? ==> c.value.id == e.id && c.value.transport == e.transport && c.value.provenance == e.provenance
  {
    var curated := CuratedEntry(e, rules);
    if audit.None? then Some(curated)
    else
      match AuditedSetup(curated, audit.value, rules)
      case Some(setup) => Some(curated.(setup := setup))
      case None => None
  }

  /** An entry of the merge that the import lets through. */
  predicate Ships(e: Entry, audit: Option<map<string, Evidence>>, rules: Rules) {
    var c := Classified(e, audit, rules);
    c.Some? && Shippable(c.value)
  }

  method Classify(merged: seq<Entry>, audit: Option<map<string, Evidence>>, rules: Rules)
    returns (ok: bool, built: seq<Entry>)
    requires forall e <- merged :: Unclassified(e)
    ensures ok <==> forall e <- merged :: Ships(e, audit, rules)
    ensures ok ==> |built| == |merged|
                   && (forall i | 0 <= i < |merged| :: Classified(merged[i], audit, rules) == Some(built[i]))
                   && (forall e <- built :: Shippable(e)) && AllEarned(built, audit, rules)
  {
    hide OneCredential, AuditedSetup, Earned, Shippable;
    var curated := ApplyOverrides(merged, rules);
    ok, built := true, curated;
    if audit.Some? {
      ok, built := ApplyAudit(curated, audit.value, rules);
      if !ok {
        var i :| 0 <= i < |curated| && AuditedSetup(curated[i], audit.value, rules).None?;
        assert merged[i] in merged && !Ships(merged[i], audit, rules);
        return;
      }
    }
    assert forall i | 0 <= i < |merged| :: Classified(merged[i], audit, rules) == Some(built[i]);
    ShippedTogether(merged, built, audit, rules);
    ok := CheckReadiness(built);
    if !ok {
      NotReadyNotShippable(built);
      return;
    }
    ok := CheckCredentials(built);
    if ok {
      forall i | 0 <= i < |built| && NotCurated(built[i], rules) ensures Earned(built[i], audit, rules) {
        assert built[i] in built && merged[i] in merged;
        if audit.Some? {
          ShippedIsEarned(merged[i], built[i], audit.value, rules);
        } else {
          StaysUnclassified(merged[i], rules);
          assert false;
        }
      }
    }
  }

  lemma ShippedTogether(merged: seq<Entry>, built: seq<Entry>, audit: Option<map<string, Evidence>>, rules: Rules)
    requires |built| == |merged| && forall i | 0 <= i < |merged| ::
             Classified(merged[i], audit, rules) == Some(built[i])
    ensures (forall e <- merged :: Ships(e, audit, rules)) <==> forall e <- built :: Shippable(e)
  {
    hide Classified, Shippable;
    forall i | 0 <= i < |merged| ensures Ships(merged[i], audit, rules) <==> Shippable(built[i]) {}
    if forall e <- built :: Shippable(e) {
      forall e <- merged ensures Ships(e, audit, rules) {
        var i :| 0 <= i < |merged| && merged[i] == e;
        assert built[i] in built;
      }
    }
    if forall e <- merged :: Ships(e, audit, rules) {
      forall e <- built ensures Shippable(e) {
        var i :| 0 <= i < |built| && built[i] == e;
        assert merged[i] in merged;
      }
    }
  }

  lemma NotReadyNotShippable(entries: seq<Entry>)
    ensures (forall e <- entries :: Shippable(e)) ==>
              forall e <- entries :: e.setup.readiness in {Some(OauthReady), Some(UserSetup)}
  {
    hide OneCredential;
  }

  lemma StaysUnclassified(e: Entry, rules: Rules)
    requires Unclassified(e) && NotCurated(e, rules)
    ensures CuratedEntry(e, rules).setup.readiness == None
  {}

  /** The import: when it succeeds, nothing is lost, and what ships is allowed, unique and counted. */
  method BuildCatalog(importer: Importer, openAi: seq<Plugin>, claude: seq<Plugin>,
                      audit: Option<map<string, Evidence>>,
                      precedes: (Entry, Entry) -> bool)
    returns (ok: bool, entries: seq<Entry>, counts: Counts)
    requires importer.Empty()
    modifies importer
    ensures var servers := AllServers(OpenAi, openAi) + AllServers(Claude, claude);
            && (ok ==> Tally(OfExclusion, importer.excluded) + Tally(OfEntry, entries) ==
                       multiset(importer.rules.curatedOut) + Tally(OfListed, Uncurated(servers, importer.rules)))
            && (ok && DeclaredOnce(servers) && NamedOnce(importer.rules.curatedOut) ==>
                  forall l <- servers :: NamedExactlyOnce(l, importer.excluded, entries))
    ensures var merged := Merged(AllServers(OpenAi, openAi) + AllServers(Claude, claude),
                                 Adapters(claude, importer.rules), importer.rules);
            && (ok <==> DifferentIds(merged)
                        && forall e <- merged :: Ships(e, audit, importer.rules) && EndpointAllowed(e, importer.rules))
            && (ok ==> SortedShipments(merged, entries, audit, precedes, importer.rules))
    ensures ok ==> DifferentIds(entries) && forall e <- entries :: Shippable(e) && EndpointAllowed(e, importer.rules)
    ensures ok ==> AllEarned(entries, audit, importer.rules)
    ensures ok ==> counts == CountsOf(entries)
                   && counts.http + counts.httpTemplate + counts.sse + counts.stdio == counts.total
                   && counts.oauthReady + counts.userSetup == counts.total
  {
    hide TakeIn, AllServers, Adapters, Groups, Keys, HttpEntries, OwnEntries, Free, Unparsed, Tally, Uncurated;
    hide Shippable, EndpointAllowed, Earned, CountWhere, NotCurated, NamedExactlyOnce, Merged, Ships, Classified;
    hide DifferentIds;
    entries, counts := [], CountsOf([]);
    importer.Merge(openAi, claude);
    ghost var merged := importer.built;
    MergeUnclassified(importer.seen, Adapters(claude, importer.rules), importer.rules);
    var built;
    ok, built := Classify(importer.built, audit, importer.rules);
    if !ok {
      return;
    }
    entries := SortBy(precedes, built);
    SameProvenance(merged, built);
    ClassifiedTogether(merged, built, audit, precedes, importer.rules);
    TallySort(OfEntry, precedes, built);
    SortedMembers(precedes, built);
    ok := CheckIdsAndEndpoints(entries, importer.rules);
    counts := CountsOf(entries);
    CountsAddUp(entries);
    AllExactlyOnce(importer.seen, importer.excluded, entries, importer.rules);
  }

  /** The entries are the classified entries of the merge, sorted. */
  ghost predicate SortedShipments(merged: seq<Entry>, entries: seq<Entry>, audit: Option<map<string, Evidence>>,
                                  precedes: (Entry, Entry) -> bool, rules: Rules)
  {
    exists built: seq<Entry> ::
      && |built| == |merged| && (forall i | 0 <= i < |merged| :: Classified(merged[i], audit, rules) == Some(built[i]))
      && entries == SortBy(precedes, built)
  }

  function Ids(entries: seq<Entry>): set<string> {
    set e <- entries :: e.id
  }

  /** Ids differ exactly if there are as many of them as entries, in whatever order. */
  lemma {:induction false} DifferentIdsCounted(entries: seq<Entry>)
    ensures |Ids(entries)| <= |entries| && (DifferentIds(entries) <==> |Ids(entries)| == |entries|)
  {
    if entries != [] {
      var rest, e := entries[..|entries| - 1], entries[|entries| - 1];
      DifferentIdsCounted(rest);
      assert entries == rest + [e];
      assert Ids(entries) == Ids(rest) + {e.id};
      if e.id in Ids(rest) {
        var k :| 0 <= k < |rest| && rest[k].id == e.id;
        assert entries[k].id == entries[|rest|].id;
      }
    }
  }

  /** Neither classifying nor sorting changes which ids and endpoints there are. */
  lemma ClassifiedTogether(merged: seq<Entry>, built: seq<Entry>, audit: Option<map<string, Evidence>>,
                           precedes: (Entry, Entry) -> bool, rules: Rules)
    requires |built| == |merged| && forall i | 0 <= i < |merged| ::
             Classified(merged[i], audit, rules) == Some(built[i])
    ensures DifferentIds(merged) <==> DifferentIds(SortBy(precedes, built))
    ensures (forall e <- merged :: EndpointAllowed(e, rules)) <==>
              forall e <- SortBy(precedes, built) :: EndpointAllowed(e, rules)
  {
    hide Classified, SortBy, EndpointAllowed, DifferentIds;
    SortedMembers(precedes, built);
    SortedIds(precedes, built);
    assert forall i | 0 <= i < |merged| :: merged[i].id == built[i].id && merged[i].transport == built[i].transport;
    SameIds(merged, built);
    SameEndpoints(merged, built, rules);
  }

  lemma SortedIds(precedes: (Entry, Entry) -> bool, s: seq<Entry>)
    ensures DifferentIds(s) <==> DifferentIds(SortBy(precedes, s))
  {
    hide SortBy, DifferentIds;
    SortedMembers(precedes, s);
    DifferentIdsCounted(s);
    DifferentIdsCounted(SortBy(precedes, s));
    assert Ids(SortBy(precedes, s)) == Ids(s);
  }

  lemma SameIds(a: seq<Entry>, b: seq<Entry>)
    requires |a| == |b| && forall i | 0 <= i < |a| :: a[i].id == b[i].id
    ensures DifferentIds(a) <==> DifferentIds(b)
  {}

  lemma {:induction false} SameEndpoints(a: seq<Entry>, b: seq<Entry>, rules: Rules)
    requires |a| == |b| && forall i | 0 <= i < |a| :: a[i].transport == b[i].transport
    ensures (forall e <- a :: EndpointAllowed(e, rules)) <==> forall e <- b :: EndpointAllowed(e, rules)
  {
    if a != [] {
      SameEndpoints(a[1..], b[1..], rules);
      assert a == [a[0]] + a[1..] && b == [b[0]] + b[1..];
      assert EndpointAllowed(a[0], rules) <==> EndpointAllowed(b[0], rules);
    }
  }

  lemma AllExactlyOnce(listed: seq<Listed>, excluded: seq<Exclusion>, entries: seq<Entry>, rules: Rules)
    requires Tally(OfExclusion, excluded) + Tally(OfEntry, entries) ==
             multiset(rules.curatedOut) + Tally(OfListed, Uncurated(listed, rules))
    ensures DeclaredOnce(listed) && NamedOnce(rules.curatedOut) ==>
              forall l <- listed :: NamedExactlyOnce(l, excluded, entries)
  {
    hide Tally, Uncurated, NamedExactlyOnce;
    if DeclaredOnce(listed) && NamedOnce(rules.curatedOut) {
      forall l <- listed ensures NamedExactlyOnce(l, excluded, entries) {
        var k :| 0 <= k < |listed| && listed[k] == l;
        ExactlyOnce(listed, excluded, entries, rules, k);
      }
    }
  }

  lemma SortedMembers(precedes: (Entry, Entry) -> bool, s: seq<Entry>)
    ensures forall e :: e in SortBy(precedes, s) <==> e in s
  {
    forall e ensures e in SortBy(precedes, s) <==> e in s {
      assert e in SortBy(precedes, s) <==> e in multiset(SortBy(precedes, s));
      assert e in s <==> e in multiset(s);
    }
  }

  lemma MergeUnclassified(seen: seq<Listed>, stdio: seq<Adapter>, rules: Rules)
    ensures forall e <- Merged(seen, stdio, rules) :: Unclassified(e)
  {
    hide TakeIn, Groups, Keys, HttpEntries, Free, AllFull;
    var intake := TakeIn(seen, rules);
    var g := Groups(intake.remote, Keys(intake.remote, rules), rules);
    FullGroups(intake.remote, rules);
    HttpUnclassified(intake.template, g, |g|, rules);
  }
}
