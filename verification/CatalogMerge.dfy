/** Merging two upstream catalogs: every upstream server is excluded with a reason or kept in exactly one entry. */
module CatalogMerge {
  import opened Wrappers
  import opened Sorting

  datatype Source = OpenAi | Claude

  /** Where a server was declared. */
  datatype Origin = Origin(source: Source, plugin: string, server: string)

  datatype FieldKind = BearerToken | ApiKey | EnvVar | OtherKind
  datatype Field = Field(id: string, required: bool, kind: FieldKind, credentialSet: Option<string>)
  datatype Auth = Auth(blocks: seq<string>, fields: seq<Field>)

  datatype Server = Server(name: string, url: string, command: bool, sse: bool, auth: Auth, env: seq<Field>)
  datatype Plugin = Plugin(name: string, adapter: bool, servers: seq<Server>)
  datatype Listed = Listed(origin: Origin, server: Server)

  datatype Record = Record(origin: Origin, url: string, auth: Auth)
  datatype Adapter = Adapter(plugin: string, servers: seq<string>, fields: seq<Field>)

  datatype Reason = Curated | LocalStdio | Loopback | NotHttps | Unparsable
  datatype Exclusion = Exclusion(origin: Origin, reason: Reason)

  datatype Transport =
    | Http(url: string)
    | HttpTemplate
    | SseTransport(url: string)
    | StdioTransport(servers: seq<string>)
  datatype Requirement =
    ApiKeyNeeded | BearerTokenNeeded | RegisteredClient | Tenant | UnsupportedTransport | LocalRuntime
  datatype Readiness = OauthReady | UserSetup | PrimeRestricted | UnknownReadiness
  datatype Setup = Setup(ready: bool, fields: seq<Field>, requirement: Option<Requirement>,
                         readiness: Option<Readiness>)

  datatype Identity = OfServer(origin: Origin) | OfPlugin(plugin: string)
  datatype Provenance = Upstream(origin: Origin, templated: bool) | UpstreamPlugin(plugin: string) | Prime
  datatype Entry = Entry(id: string, identity: Identity, transport: Transport, provenance: seq<Provenance>,
                         setup: Setup)

  datatype Override = Override(id: Option<string>, ready: Option<bool>, fields: Option<seq<Field>>,
                               requirement: Option<Requirement>, readiness: Option<Readiness>)

  /** The curated data and the text helpers, left open. */
  datatype Rules = Rules(
    curatedOut: seq<Origin>,
    overrides: map<Identity, Override>,
    normalize: string -> string,
    isLoopback: string -> bool,
    isTemplate: string -> bool,
    resolve: string -> Option<string>,
    variables: string -> seq<Field>,
    isHttps: string -> bool,
    reviewed: string -> Option<string>,
    derive: Identity -> string,
    precedes: (Record, Record) -> bool,
    fieldPrecedes: (Field, Field) -> bool,
    canonical: string -> string,
    originOf: string -> string,
    servesPublicClient: Option<seq<string>> -> bool,
    servesConfiguredClient: Option<seq<string>> -> bool)

  // ---------------------------------------------------------------- tallies

  function Tally<T>(origins: T -> multiset<Origin>, s: seq<T>): multiset<Origin> {
    if s == [] then multiset{} else origins(s[0]) + Tally(origins, s[1..])
  }

  function OfRecord(r: Record): multiset<Origin> { multiset{r.origin} }
  function OfListed(l: Listed): multiset<Origin> { multiset{l.origin} }
  function OfExclusion(e: Exclusion): multiset<Origin> { multiset{e.origin} }
  function OfGroup(g: seq<Record>): multiset<Origin> { Tally(OfRecord, g) }
  function OfProvenance(p: Provenance): multiset<Origin> { if p.Upstream? then multiset{p.origin} else multiset{} }
  function OfEntry(e: Entry): multiset<Origin> { Tally(OfProvenance, e.provenance) }

  lemma {:induction false} TallyConcat<T>(origins: T -> multiset<Origin>, a: seq<T>, b: seq<T>)
    ensures Tally(origins, a + b) == Tally(origins, a) + Tally(origins, b)
  {
    if a == [] {
      assert a + b == b;
    } else {
      assert (a + b)[1..] == a[1..] + b;
      TallyConcat(origins, a[1..], b);
    }
  }

  lemma TallyMore<T>(origins: T -> multiset<Origin>, s: seq<T>, x: T)
    ensures Tally(origins, s + [x]) == Tally(origins, s) + origins(x)
  {
    TallyConcat(origins, s, [x]);
    assert Tally(origins, [x]) == origins(x) + Tally(origins, []);
  }

  lemma {:induction false} TallyInsert<T>(origins: T -> multiset<Origin>, le: (T, T) -> bool, x: T, s: seq<T>)
    ensures Tally(origins, Insert(le, x, s)) == origins(x) + Tally(origins, s)
  {
    if s == [] || le(x, s[0]) {
      assert ([x] + s)[1..] == s;
    } else {
      TallyInsert(origins, le, x, s[1..]);
      var rest := Insert(le, x, s[1..]);
      assert ([s[0]] + rest)[1..] == rest;
    }
  }

  lemma {:induction false} TallySort<T>(origins: T -> multiset<Origin>, le: (T, T) -> bool, s: seq<T>)
    ensures Tally(origins, SortBy(le, s)) == Tally(origins, s)
  {
    if s != [] {
      TallySort(origins, le, s[1..]);
      TallyInsert(origins, le, s[0], SortBy(le, s[1..]));
    }
  }

  lemma {:induction false} TallyReversed<T>(origins: T -> multiset<Origin>, s: seq<T>)
    ensures Tally(origins, Reversed(s)) == Tally(origins, s)
  {
    if s != [] {
      TallyReversed(origins, s[1..]);
      TallyMore(origins, Reversed(s[1..]), s[0]);
    }
  }

  // ---------------------------------------------------------------- reading the sources

  /** What becomes of one server. */
  datatype Fate = CuratedOut | Out(reason: Reason) | Remote(url: string) | Template(url: string) | Sse

  function FateOf(l: Listed, rules: Rules): Fate {
    var url := rules.normalize(l.server.url);
    if l.origin in rules.curatedOut then CuratedOut
    else if l.origin.source == OpenAi then Remote(l.server.url)
    else if l.server.command then Out(LocalStdio)
    else if l.server.sse then Sse
    else if rules.isLoopback(url) then Out(Loopback)
    else if rules.isTemplate(url) then
      (match rules.resolve(url) case Some(resolved) => Remote(resolved) case None => Template(url))
    else if !rules.isHttps(url) then Out(NotHttps)
    else Remote(url)
  }

  datatype Intake = Intake(excluded: seq<Exclusion>, remote: seq<Record>, template: seq<Record>, sse: seq<Record>)

  function Add(intake: Intake, l: Listed, fate: Fate): Intake {
    match fate
    case CuratedOut => intake
    case Out(reason) => intake.(excluded := intake.excluded + [Exclusion(l.origin, reason)])
    case Remote(url) => intake.(remote := intake.remote + [Record(l.origin, url, l.server.auth)])
    case Template(url) => intake.(template := intake.template + [Record(l.origin, url, l.server.auth)])
    case Sse => intake.(sse := intake.sse + [Record(l.origin, l.server.url, l.server.auth)])
  }

  /** The exclusion report starts with the curated list. */
  function CuratedExclusions(origins: seq<Origin>): (excluded: seq<Exclusion>)
    ensures |excluded| == |origins| && forall k | 0 <= k < |origins| :: excluded[k] == Exclusion(origins[k], Curated)
  {
    seq(|origins|, k requires 0 <= k < |origins| => Exclusion(origins[k], Curated))
  }

  lemma {:induction false} CuratedTally(origins: seq<Origin>)
    ensures Tally(OfExclusion, CuratedExclusions(origins)) == multiset(origins)
  {
    if origins != [] {
      CuratedTally(origins[1..]);
      assert CuratedExclusions(origins)[1..] == CuratedExclusions(origins[1..]);
      assert origins == [origins[0]] + origins[1..];
    }
  }

  function TakeIn(list: seq<Listed>, rules: Rules): Intake {
    if list == [] then Intake(CuratedExclusions(rules.curatedOut), [], [], [])
    else
      var last := |list| - 1;
      Add(TakeIn(list[..last], rules), list[last], FateOf(list[last], rules))
  }

  function Uncurated(list: seq<Listed>, rules: Rules): seq<Listed> {
    if list == [] then []
    else
      var last := |list| - 1;
      Uncurated(list[..last], rules) + (if list[last].origin in rules.curatedOut then [] else [list[last]])
  }

  lemma AddConserves(intake: Intake, l: Listed, fate: Fate)
    requires fate != CuratedOut
    ensures Held(Add(intake, l, fate)) == Held(intake) + multiset{l.origin}
  {
    hide Tally;
    match fate
    case CuratedOut =>
    case Out(reason) => TallyMore(OfExclusion, intake.excluded, Exclusion(l.origin, reason));
    case Remote(url) => TallyMore(OfRecord, intake.remote, Record(l.origin, url, l.server.auth));
    case Template(url) => TallyMore(OfRecord, intake.template, Record(l.origin, url, l.server.auth));
    case Sse => TallyMore(OfRecord, intake.sse, Record(l.origin, l.server.url, l.server.auth));
  }

  function Held(intake: Intake): multiset<Origin> {
    Tally(OfExclusion, intake.excluded) + Tally(OfRecord, intake.remote) + Tally(OfRecord, intake.template)
    + Tally(OfRecord, intake.sse)
  }

  lemma NothingHeld(rules: Rules)
    ensures Held(Intake(CuratedExclusions(rules.curatedOut), [], [], [])) == multiset(rules.curatedOut)
  {
    CuratedTally(rules.curatedOut);
  }

  lemma AddNothing(intake: Intake, l: Listed)
    ensures Add(intake, l, CuratedOut) == intake
  {}

  lemma FateWhenCurated(l: Listed, rules: Rules)
    ensures FateOf(l, rules) == CuratedOut <==> l.origin in rules.curatedOut
  {}

  lemma {:induction false} TakeInConserves(list: seq<Listed>, rules: Rules)
    ensures Held(TakeIn(list, rules)) == multiset(rules.curatedOut) + Tally(OfListed, Uncurated(list, rules))
  {
    hide Held, FateOf, Add;
    if list == [] {
      NothingHeld(rules);
      assert Tally(OfListed, []) == multiset{};
    } else {
      var last := |list| - 1;
      TakeInConserves(list[..last], rules);
      var before := Uncurated(list[..last], rules);
      FateWhenCurated(list[last], rules);
      if list[last].origin in rules.curatedOut {
        AddNothing(TakeIn(list[..last], rules), list[last]);
        assert before + [] == before;
      } else {
        TallyMore(OfListed, before, list[last]);
        AddConserves(TakeIn(list[..last], rules), list[last], FateOf(list[last], rules));
      }
    }
  }

  function ServersOf(source: Source, plugin: Plugin, n: nat): seq<Listed>
    requires n <= |plugin.servers|
  {
    seq(n, k requires 0 <= k < n => Listed(Origin(source, plugin.name, plugin.servers[k].name), plugin.servers[k]))
  }

  /** All servers of a source that are not part of a local adapter plugin. */
  function AllServers(source: Source, plugins: seq<Plugin>): seq<Listed> {
    if plugins == [] then []
    else
      var last := |plugins| - 1;
      AllServers(source, plugins[..last]) +
      (if source == Claude && plugins[last].adapter then []
       else ServersOf(source, plugins[last], |plugins[last].servers|))
  }

  // ---------------------------------------------------------------- grouping

  function KeyOf(r: Record, rules: Rules): Option<string> {
    rules.reviewed(r.url)
  }

  function Unparsed(records: seq<Record>, rules: Rules): seq<Exclusion> {
    if records == [] then []
    else
      var last := |records| - 1;
      Unparsed(records[..last], rules) +
      (if KeyOf(records[last], rules).None? then [Exclusion(records[last].origin, Unparsable)] else [])
  }

  /** The records with one reviewed URL, in their order. */
  function WithKey(records: seq<Record>, key: string, rules: Rules): seq<Record> {
    if records == [] then []
    else
      var last := |records| - 1;
      WithKey(records[..last], key, rules) + (if KeyOf(records[last], rules) == Some(key) then [records[last]] else [])
  }

  /** The reviewed URLs in the order of their first record. */
  function Keys(records: seq<Record>, rules: Rules): (keys: seq<string>)
    ensures forall i, j | 0 <= i < j < |keys| :: keys[i] != keys[j]
  {
    if records == [] then []
    else
      var last := |records| - 1;
      var before, key := Keys(records[..last], rules), KeyOf(records[last], rules);
      before + (if key.Some? && key.value !in before then [key.value] else [])
  }

  lemma {:induction false} KeysAreTheKeys(records: seq<Record>, rules: Rules, key: string)
    ensures key in Keys(records, rules) <==> WithKey(records, key, rules) != []
  {
    if records != [] {
      KeysAreTheKeys(records[..|records| - 1], rules, key);
    }
  }

  lemma {:induction false} WithKeyExactly(records: seq<Record>, rules: Rules, key: string, r: Record)
    ensures r in WithKey(records, key, rules) <==> r in records && KeyOf(r, rules) == Some(key)
  {
    hide KeyOf;
    if records != [] {
      var last := |records| - 1;
      WithKeyExactly(records[..last], rules, key, r);
      assert records == records[..last] + [records[last]];
    }
  }

  /** The groups of the first `n` keys. */
  function Groups(records: seq<Record>, keys: seq<string>, rules: Rules): (groups: seq<seq<Record>>)
    ensures |groups| == |keys|
  {
    if keys == [] then []
    else
      var last := |keys| - 1;
      Groups(records, keys[..last], rules) + [WithKey(records, keys[last], rules)]
  }

  lemma {:induction false} GroupAt(records: seq<Record>, keys: seq<string>, rules: Rules, k: nat)
    requires k < |keys|
    ensures Groups(records, keys, rules)[k] == WithKey(records, keys[k], rules)
    ensures Groups(records, keys, rules)[..k] == Groups(records, keys[..k], rules)
  {
    var last := |keys| - 1;
    if k < last {
      GroupAt(records, keys[..last], rules, k);
      assert keys[..last][..k] == keys[..k];
    }
  }

  /** Two parsable records end up in the same group exactly when their reviewed URLs are equal. */
  lemma SharingIffEqual(records: seq<Record>, rules: Rules, a: Record, b: Record)
    requires a in records && b in records && KeyOf(a, rules).Some?
    ensures var groups := Groups(records, Keys(records, rules), rules);
            KeyOf(a, rules) == KeyOf(b, rules) <==> exists k | 0 <= k < |groups| :: a in groups[k] && b in groups[k]
  {
    var keys := Keys(records, rules);
    var groups := Groups(records, keys, rules);
    if KeyOf(a, rules) == KeyOf(b, rules) {
      var key := KeyOf(a, rules).value;
      KeysAreTheKeys(records, rules, key);
      WithKeyExactly(records, rules, key, a);
      WithKeyExactly(records, rules, key, b);
      var k :| 0 <= k < |keys| && keys[k] == key;
      GroupAt(records, keys, rules, k);
      assert a in groups[k] && b in groups[k];
    }
    if k :| 0 <= k < |groups| && a in groups[k] && b in groups[k] {
      GroupAt(records, keys, rules, k);
      WithKeyExactly(records, rules, keys[k], a);
      WithKeyExactly(records, rules, keys[k], b);
    }
  }

  lemma {:induction false} GroupsMore(records: seq<Record>, keys: seq<string>, rules: Rules)
    requires records != [] && forall i, j | 0 <= i < j < |keys| :: keys[i] != keys[j]
    ensures var last := |records| - 1;
            var key := KeyOf(records[last], rules);
            Tally(OfGroup, Groups(records, keys, rules)) ==
            Tally(OfGroup, Groups(records[..last], keys, rules))
            + (if key.Some? && key.value in keys then multiset{records[last].origin} else multiset{})
  {
    hide Tally, WithKey, KeyOf, OfGroup;
    var last := |records| - 1;
    if keys == [] {
      assert Groups(records, keys, rules) == Groups(records[..last], keys, rules);
    } else {
      var end := |keys| - 1;
      GroupsMore(records, keys[..end], rules);
      TallyMore(OfGroup, Groups(records, keys[..end], rules), WithKey(records, keys[end], rules));
      TallyMore(OfGroup, Groups(records[..last], keys[..end], rules), WithKey(records[..last], keys[end], rules));
      GroupMore(records, keys[end], rules);
      assert keys == keys[..end] + [keys[end]];
    }
  }

  lemma GroupMore(records: seq<Record>, key: string, rules: Rules)
    requires records != []
    ensures var last := |records| - 1;
            OfGroup(WithKey(records, key, rules)) ==
            OfGroup(WithKey(records[..last], key, rules))
            + (if KeyOf(records[last], rules) == Some(key) then multiset{records[last].origin} else multiset{})
  {
    hide Tally;
    var before := WithKey(records[..|records| - 1], key, rules);
    TallyMore(OfRecord, before, records[|records| - 1]);
    assert before + [] == before;
  }

  lemma {:induction false} NoRecordsNoOrigins(keys: seq<string>, rules: Rules)
    ensures Tally(OfGroup, Groups([], keys, rules)) == multiset{}
  {
    if keys != [] {
      NoRecordsNoOrigins(keys[..|keys| - 1], rules);
      TallyMore(OfGroup, Groups([], keys[..|keys| - 1], rules), []);
    }
  }

  /** One more record joins a group or opens one, or has no key. */
  lemma KeysMore(before: seq<Record>, r: Record, rules: Rules)
    ensures var keys, key := Keys(before, rules), KeyOf(r, rules);
            Keys(before + [r], rules) == if key.Some? && key.value !in keys then keys + [key.value] else keys
  {
    assert (before + [r])[..|before|] == before;
    assert Keys(before, rules) + [] == Keys(before, rules);
  }

  lemma NewKeyIsEmpty(before: seq<Record>, key: string, rules: Rules)
    requires key !in Keys(before, rules)
    ensures Tally(OfGroup, Groups(before, Keys(before, rules) + [key], rules)) ==
            Tally(OfGroup, Groups(before, Keys(before, rules), rules))
  {
    hide Tally, Keys, WithKey;
    var keys := Keys(before, rules);
    KeysAreTheKeys(before, rules, key);
    assert (keys + [key])[..|keys|] == keys;
    TallyMore(OfGroup, Groups(before, keys, rules), []);
    EmptyTally(OfRecord);
  }

  lemma EmptyTally<T>(origins: T -> multiset<Origin>)
    ensures Tally(origins, []) == multiset{}
  {}

  function Grouped(records: seq<Record>, rules: Rules): multiset<Origin> {
    Tally(OfGroup, Groups(records, Keys(records, rules), rules))
  }

  lemma GroupedMore(before: seq<Record>, r: Record, rules: Rules)
    ensures Grouped(before + [r], rules) ==
            Grouped(before, rules) + (if KeyOf(r, rules).Some? then multiset{r.origin} else multiset{})
  {
    hide Tally, KeyOf, Keys, Groups, Unparsed;
    var records := before + [r];
    assert records[..|before|] == before;
    KeysMore(before, r, rules);
    if KeyOf(r, rules).Some? && KeyOf(r, rules).value !in Keys(before, rules) {
      NewKeyIsEmpty(before, KeyOf(r, rules).value, rules);
    }
    GroupsMore(records, Keys(records, rules), rules);
  }

  lemma UnparsedMore(before: seq<Record>, r: Record, rules: Rules)
    ensures Tally(OfExclusion, Unparsed(before + [r], rules)) ==
            Tally(OfExclusion, Unparsed(before, rules))
              + (if KeyOf(r, rules).None? then multiset{r.origin} else multiset{})
  {
    hide Tally, KeyOf;
    assert (before + [r])[..|before|] == before;
    assert Unparsed(before, rules) + [] == Unparsed(before, rules);
    TallyMore(OfExclusion, Unparsed(before, rules), Exclusion(r.origin, Unparsable));
  }

  lemma NothingGrouped(rules: Rules)
    ensures Unparsed([], rules) == [] && Grouped([], rules) == multiset{}
  {
    assert Keys([], rules) == [];
  }

  lemma SplitOff(all: multiset<Origin>, out: multiset<Origin>, kept: multiset<Origin>, own: multiset<Origin>)
    requires all == out + kept
    ensures all + own == (out + own) + kept && all + own == out + (kept + own)
  {}

  lemma {:induction false} GroupingConserves(records: seq<Record>, rules: Rules)
    ensures Tally(OfRecord, records) == Tally(OfExclusion, Unparsed(records, rules)) + Grouped(records, rules)
  {
    hide Tally, KeyOf, Keys, Groups, Unparsed, Grouped;
    if records == [] {
      NothingGrouped(rules);
      EmptyTally(OfRecord);
      EmptyTally(OfExclusion);
    } else {
      var last := |records| - 1;
      var before, r := records[..last], records[last];
      GroupingConserves(before, rules);
      assert records == before + [r];
      TallyMore(OfRecord, before, r);
      GroupedMore(before, r, rules);
      UnparsedMore(before, r, rules);
      SplitOff(Tally(OfRecord, before), Tally(OfExclusion, Unparsed(before, rules)), Grouped(before, rules),
               multiset{r.origin});
    }
  }

  // ---------------------------------------------------------------- templates

  /** A template belongs to a group that has its plugin from another source. */
  predicate Wants(group: seq<Record>, template: Record) {
    exists r <- group :: r.origin.plugin == template.origin.plugin && r.origin.source != template.origin.source
  }

  function Wanted(templates: seq<Record>, group: seq<Record>): seq<Record> {
    if templates == [] then []
    else (if Wants(group, templates[0]) then [templates[0]] else []) + Wanted(templates[1..], group)
  }

  function Unwanted(templates: seq<Record>, group: seq<Record>): seq<Record> {
    if templates == [] then []
    else (if Wants(group, templates[0]) then [] else [templates[0]]) + Unwanted(templates[1..], group)
  }

  lemma WantedNothing(group: seq<Record>)
    ensures Wanted([], group) == [] && Unwanted([], group) == []
  {}

  lemma WantedStep(templates: seq<Record>, group: seq<Record>)
    requires templates != []
    ensures var first, w, u := [templates[0]], Wanted(templates[1..], group), Unwanted(templates[1..], group);
            if Wants(group, templates[0])
            then Wanted(templates, group) == first + w && Unwanted(templates, group) == [] + u
            else Wanted(templates, group) == [] + w && Unwanted(templates, group) == first + u
  {}

  lemma OneTally(r: Record, s: seq<Record>)
    ensures Tally(OfRecord, [r] + s) == multiset{r.origin} + Tally(OfRecord, s)
  {
    assert ([r] + s)[1..] == s;
  }

  lemma {:induction false} WantedTally(templates: seq<Record>, group: seq<Record>)
    ensures Tally(OfRecord, templates) ==
            Tally(OfRecord, Wanted(templates, group)) + Tally(OfRecord, Unwanted(templates, group))
  {
    hide Wants, Tally, Wanted, Unwanted;
    if templates == [] {
      WantedNothing(group);
      EmptyTally(OfRecord);
    } else {
      WantedTally(templates[1..], group);
      var first, w, u := [templates[0]], Wanted(templates[1..], group), Unwanted(templates[1..], group);
      var own := multiset{templates[0].origin};
      OneTally(templates[0], w);
      OneTally(templates[0], u);
      OneTally(templates[0], templates[1..]);
      assert templates == first + templates[1..] && [] + w == w && [] + u == u;
      WantedStep(templates, group);
      assert own + (Tally(OfRecord, w) + Tally(OfRecord, u)) == (own + Tally(OfRecord, w)) + Tally(OfRecord, u);
      assert own + (Tally(OfRecord, w) + Tally(OfRecord, u)) == Tally(OfRecord, w) + (own + Tally(OfRecord, u));
    }
  }

  lemma {:induction false} WantedExactly(templates: seq<Record>, group: seq<Record>, t: Record)
    ensures t in Wanted(templates, group) <==> t in templates && Wants(group, t)
    ensures t in Unwanted(templates, group) <==> t in templates && !Wants(group, t)
  {
    hide Wants;
    if templates != [] {
      WantedExactly(templates[1..], group, t);
      assert templates == [templates[0]] + templates[1..];
    }
  }

  /** The templates still free after the first `n` groups have taken theirs. */
  function Free(templates: seq<Record>, groups: seq<seq<Record>>, n: nat): seq<Record>
    requires n <= |groups|
  {
    if n == 0 then templates else Unwanted(Free(templates, groups, n - 1), groups[n - 1])
  }

  /** A template goes to the first group that wants it, and stays free if none does. */
  lemma {:induction false} FirstGroupTakes(templates: seq<Record>, groups: seq<seq<Record>>, n: nat, t: Record)
    requires n <= |groups|
    ensures t in Free(templates, groups, n) <==> t in templates && forall k | 0 <= k < n :: !Wants(groups[k], t)
    ensures n < |groups| ==>
              (t in Wanted(Free(templates, groups, n), groups[n]) <==>
                 t in templates && Wants(groups[n], t) && forall k | 0 <= k < n :: !Wants(groups[k], t))
  {
    hide Wants, Wanted, Unwanted;
    if n > 0 {
      FirstGroupTakes(templates, groups, n - 1, t);
      WantedExactly(Free(templates, groups, n - 1), groups[n - 1], t);
    }
    if n < |groups| {
      WantedExactly(Free(templates, groups, n), groups[n], t);
    }
  }

  // ---------------------------------------------------------------- entries

  function IdOf(identity: Identity, rules: Rules): string {
    if identity in rules.overrides && rules.overrides[identity].id.Some? then rules.overrides[identity].id.value
    else rules.derive(identity)
  }

  function PrimeNote(identity: Identity, rules: Rules): seq<Provenance> {
    if identity in rules.overrides then [Prime] else []
  }

  function FieldsOf(records: seq<Record>): seq<Field> {
    if records == [] then []
    else FieldsOf(records[..|records| - 1]) + records[|records| - 1].auth.fields
  }

  /** The first field of each id. */
  function FirstOfEach(fields: seq<Field>): seq<Field> {
    if fields == [] then []
    else
      var last := |fields| - 1;
      FirstOfEach(fields[..last])
        + (if exists f <- fields[..last] :: f.id == fields[last].id then [] else [fields[last]])
  }

  predicate FirstAt(fields: seq<Field>, i: nat, f: Field)
    requires i < |fields|
  {
    fields[i] == f && forall j | 0 <= j < i :: fields[j].id != f.id
  }

  /** A field is kept exactly if none before it has its id. */
  lemma {:induction false} FirstOfEachExactly(fields: seq<Field>, f: Field)
    ensures f in FirstOfEach(fields) <==> exists i | 0 <= i < |fields| :: FirstAt(fields, i, f)
  {
    if fields != [] {
      var last := |fields| - 1;
      FirstOfEachExactly(fields[..last], f);
      if i :| 0 <= i < |fields| && FirstAt(fields, i, f) {
        if i < last {
          assert FirstAt(fields[..last], i, f);
        }
      }
      if f in FirstOfEach(fields[..last]) {
        var i :| 0 <= i < last && FirstAt(fields[..last], i, f);
        assert FirstAt(fields, i, f);
      }
      if f in FirstOfEach(fields) && f !in FirstOfEach(fields[..last]) {
        assert FirstAt(fields, last, f);
      }
    }
  }

  predicate DistinctIds(fields: seq<Field>) {
    forall i, j | 0 <= i < j < |fields| :: fields[i].id != fields[j].id
  }

  lemma DistinctMore(fields: seq<Field>, f: Field)
    requires DistinctIds(fields) && forall g <- fields :: g.id != f.id
    ensures DistinctIds(fields + [f])
  {}

  lemma {:induction false} FirstOfEachDistinct(fields: seq<Field>)
    ensures DistinctIds(FirstOfEach(fields)) && forall f <- FirstOfEach(fields) :: f in fields
  {
    hide DistinctIds;
    if fields == [] {
      NoFields();
    } else {
      var before, last := fields[..|fields| - 1], fields[|fields| - 1];
      FirstOfEachDistinct(before);
      if !exists f <- before :: f.id == last.id {
        DistinctMore(FirstOfEach(before), last);
      } else {
        assert FirstOfEach(before) + [] == FirstOfEach(before);
      }
    }
  }

  lemma NoFields()
    ensures DistinctIds([])
  {}

  function Dedupe(fields: seq<Field>, rules: Rules): seq<Field> {
    SortBy(rules.fieldPrecedes, FirstOfEach(fields))
  }

  function From(records: seq<Record>, templated: bool): (r: seq<Provenance>)
    ensures |r| == |records| && forall k | 0 <= k < |r| :: r[k] == Upstream(records[k].origin, templated)
  {
    seq(|records|, k requires 0 <= k < |records| => Upstream(records[k].origin, templated))
  }

  predicate Blocked(records: seq<Record>) {
    exists r <- records :: r.auth.blocks != []
  }

  /** The entry of one group, its records already sorted, with the templates attached to it. */
  function HttpEntry(records: seq<Record>, templates: seq<Record>, rules: Rules): Entry
    requires records != []
  {
    var identity := OfServer(records[0].origin);
    Entry(IdOf(identity, rules), identity, Http(records[0].url),
          From(records, false) + From(templates, true) + PrimeNote(identity, rules),
          if Blocked(records) || Blocked(templates)
          then Setup(false, Dedupe(FieldsOf(records) + FieldsOf(templates), rules), None, None)
          else Setup(true, [], None, None))
  }

  function TemplateEntry(t: Record, rules: Rules): Entry {
    var identity := OfServer(t.origin);
    Entry(IdOf(identity, rules), identity, HttpTemplate, [Upstream(t.origin, false)] + PrimeNote(identity, rules),
          Setup(false, Dedupe(t.auth.fields + rules.variables(t.url), rules), None, None))
  }

  function SseEntry(r: Record, rules: Rules): Entry {
    var identity := OfServer(r.origin);
    Entry(IdOf(identity, rules), identity, SseTransport(r.url),
          [Upstream(r.origin, false)] + PrimeNote(identity, rules),
          Setup(false, r.auth.fields, None, None))
  }

  function StdioEntry(a: Adapter, rules: Rules): Entry {
    var identity := OfPlugin(a.plugin);
    Entry(IdOf(identity, rules), identity, StdioTransport(a.servers),
          [UpstreamPlugin(a.plugin)] + PrimeNote(identity, rules),
          Setup(false, Dedupe(a.fields, rules), None, None))
  }

  predicate AllFull(groups: seq<seq<Record>>) {
    forall g <- groups :: g != []
  }

  function Sorted(group: seq<Record>, rules: Rules): (r: seq<Record>)
    ensures |r| == |group|
  {
    SortBy(rules.precedes, group)
  }

  /** The entries of the first `n` groups. */
  function HttpEntries(templates: seq<Record>, groups: seq<seq<Record>>, n: nat, rules: Rules): seq<Entry>
    requires n <= |groups| && AllFull(groups)
  {
    if n == 0 then []
    else
      assert groups[n - 1] in groups;
      HttpEntries(templates, groups, n - 1, rules) +
      [HttpEntry(Sorted(groups[n - 1], rules), Reversed(Wanted(Free(templates, groups, n - 1), groups[n - 1])), rules)]
  }

  lemma {:induction false} FromTallies(records: seq<Record>, templated: bool)
    ensures Tally(OfProvenance, From(records, templated)) == Tally(OfRecord, records)
  {
    if records != [] {
      FromTallies(records[1..], templated);
      assert From(records, templated)[1..] == From(records[1..], templated);
    }
  }

  lemma PrimeTalliesNothing(identity: Identity, rules: Rules)
    ensures Tally(OfProvenance, PrimeNote(identity, rules)) == multiset{}
  {
    assert Tally(OfProvenance, []) == multiset{};
    assert Tally(OfProvenance, [Prime]) == OfProvenance(Prime) + Tally(OfProvenance, []);
  }

  lemma HttpEntryKeepsAll(records: seq<Record>, templates: seq<Record>, rules: Rules)
    requires records != []
    ensures OfEntry(HttpEntry(records, templates, rules)) == Tally(OfRecord, records) + Tally(OfRecord, templates)
  {
    var identity := OfServer(records[0].origin);
    var a, b, c := From(records, false), From(templates, true), PrimeNote(identity, rules);
    TallyConcat(OfProvenance, a + b, c);
    TallyConcat(OfProvenance, a, b);
    FromTallies(records, false);
    FromTallies(templates, true);
    PrimeTalliesNothing(identity, rules);
  }

  lemma SortedTallies(group: seq<Record>, rules: Rules)
    ensures Tally(OfRecord, Sorted(group, rules)) == OfGroup(group)
  {
    TallySort(OfRecord, rules.precedes, group);
  }

  lemma Moved(entries: multiset<Origin>, taken: multiset<Origin>, left: multiset<Origin>, groups: multiset<Origin>,
              templates: multiset<Origin>, group: multiset<Origin>)
    requires entries + (taken + left) == groups + templates
    ensures (entries + (group + taken)) + left == (groups + group) + templates
  {
    assert (entries + (group + taken)) + left == (entries + (taken + left)) + group;
    assert (groups + group) + templates == (groups + templates) + group;
  }

  lemma {:induction false} HttpEntriesConserve(templates: seq<Record>, groups: seq<seq<Record>>, n: nat, rules: Rules)
    requires n <= |groups| && AllFull(groups)
    ensures Tally(OfEntry, HttpEntries(templates, groups, n, rules)) + Tally(OfRecord, Free(templates, groups, n)) ==
            Tally(OfGroup, groups[..n]) + Tally(OfRecord, templates)
  {
    hide HttpEntry, Wanted, Unwanted, OfEntry, OfGroup, Tally, Reversed, Sorted;
    if n == 0 {
      EmptyTally(OfEntry);
      EmptyTally(OfGroup);
      assert groups[..0] == [];
    } else {
      HttpEntriesConserve(templates, groups, n - 1, rules);
      assert groups[n - 1] in groups;
      var group, free := groups[n - 1], Free(templates, groups, n - 1);
      var attached := Reversed(Wanted(free, group));
      WantedTally(free, group);
      TallyReversed(OfRecord, Wanted(free, group));
      SortedTallies(group, rules);
      HttpEntryKeepsAll(Sorted(group, rules), attached, rules);
      TallyMore(OfEntry, HttpEntries(templates, groups, n - 1, rules),
                HttpEntry(Sorted(group, rules), attached, rules));
      assert groups[..n] == groups[..n - 1] + [group];
      TallyMore(OfGroup, groups[..n - 1], group);
      var entries, taken, left := Tally(OfEntry, HttpEntries(templates, groups, n - 1, rules)),
          Tally(OfRecord, Wanted(free, group)), Tally(OfRecord, Unwanted(free, group));
      assert Free(templates, groups, n) == Unwanted(free, group);
      var so, all := Tally(OfGroup, groups[..n - 1]), Tally(OfRecord, templates);
      assert entries + (taken + left) == so + all;
      Moved(entries, taken, left, so, all, OfGroup(group));
    }
  }

  function TemplateEntries(templates: seq<Record>, rules: Rules): (r: seq<Entry>)
    ensures |r| == |templates| && forall k | 0 <= k < |r| :: r[k] == TemplateEntry(templates[k], rules)
  {
    seq(|templates|, k requires 0 <= k < |templates| => TemplateEntry(templates[k], rules))
  }

  function SseEntries(sse: seq<Record>, rules: Rules): (r: seq<Entry>)
    ensures |r| == |sse| && forall k | 0 <= k < |r| :: r[k] == SseEntry(sse[k], rules)
  {
    seq(|sse|, k requires 0 <= k < |sse| => SseEntry(sse[k], rules))
  }

  function StdioEntries(stdio: seq<Adapter>, rules: Rules): (r: seq<Entry>)
    ensures |r| == |stdio| && forall k | 0 <= k < |r| :: r[k] == StdioEntry(stdio[k], rules)
  {
    seq(|stdio|, k requires 0 <= k < |stdio| => StdioEntry(stdio[k], rules))
  }

  function OwnEntries(templates: seq<Record>, sse: seq<Record>, stdio: seq<Adapter>, rules: Rules): seq<Entry> {
    TemplateEntries(templates, rules) + SseEntries(sse, rules) + StdioEntries(stdio, rules)
  }
}
