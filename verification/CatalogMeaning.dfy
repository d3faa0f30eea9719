/** What the catalog import comes to, said of the servers declared and of the rules alone. */
module CatalogMeaning {
  import opened Wrappers
  import opened Sorting
  import opened CatalogMerge
  import opened CatalogImport
  import opened CatalogShipping

  // ---------------------------------------------------------------- what is read

  /** The server is one of a plugin of this source; servers of local adapters are not read one by one. */
  predicate DeclaredIn(source: Source, plugins: seq<Plugin>, l: Listed) {
    exists p <- plugins, s <- p.servers ::
      !(source == Claude && p.adapter) && l == Listed(Origin(source, p.name, s.name), s)
  }

  lemma {:induction false} ReadExactly(source: Source, plugins: seq<Plugin>, l: Listed)
    ensures l in AllServers(source, plugins) <==> DeclaredIn(source, plugins, l)
  {
    if plugins != [] {
      var before, p := plugins[..|plugins| - 1], plugins[|plugins| - 1];
      ReadExactly(source, before, l);
      assert plugins == before + [p];
      PluginServers(source, p, l);
      assert DeclaredIn(source, plugins, l) <==> DeclaredIn(source, before, l) || DeclaredIn(source, [p], l);
    }
  }

  lemma PluginServers(source: Source, p: Plugin, l: Listed)
    ensures l in ServersOf(source, p, |p.servers|) <==>
              exists s <- p.servers :: l == Listed(Origin(source, p.name, s.name), s)
    ensures DeclaredIn(source, [p], l) <==>
              !(source == Claude && p.adapter) && l in ServersOf(source, p, |p.servers|)
  {
    var listed := ServersOf(source, p, |p.servers|);
    if s :| s in p.servers && l == Listed(Origin(source, p.name, s.name), s) {
      var k :| 0 <= k < |p.servers| && p.servers[k] == s;
      assert listed[k] == l;
    }
    if l in listed {
      var k :| 0 <= k < |listed| && listed[k] == l;
      assert p.servers[k] in p.servers;
    }
    assert p in [p];
  }

  /** The URL under which a server counts as a remote one, if it does. */
  function RemoteUrl(l: Listed, rules: Rules): Option<string> {
    var url := rules.normalize(l.server.url);
    if l.origin in rules.curatedOut then None
    else if l.origin.source == OpenAi then Some(l.server.url)
    else if l.server.command || l.server.sse || rules.isLoopback(url) then None
    else if rules.isTemplate(url) then rules.resolve(url)
    else if rules.isHttps(url) then Some(url)
    else None
  }

  /** Why a server that is not on the curated list is left out. */
  predicate ExcludedAs(l: Listed, rules: Rules, reason: Reason) {
    var url, s := rules.normalize(l.server.url), l.server;
    && l.origin !in rules.curatedOut
    && match reason
       case Curated => false
       case LocalStdio => l.origin.source == Claude && s.command
       case Loopback => l.origin.source == Claude && !s.command && !s.sse && rules.isLoopback(url)
       case NotHttps =>
         && l.origin.source == Claude && !s.command && !s.sse
         && !rules.isLoopback(url) && !rules.isTemplate(url) && !rules.isHttps(url)
       case Unparsable => RemoteUrl(l, rules).Some? && rules.reviewed(RemoteUrl(l, rules).value).None?
  }

  lemma {:induction false} RemotesExactly(seen: seq<Listed>, rules: Rules, r: Record)
    ensures r in TakeIn(seen, rules).remote <==>
              exists l <- seen :: Some(r.url) == RemoteUrl(l, rules) && r == Record(l.origin, r.url, l.server.auth)
  {
    if seen != [] {
      var before, l := seen[..|seen| - 1], seen[|seen| - 1];
      RemotesExactly(before, rules, r);
      assert seen == before + [l];
    }
  }

  lemma {:induction false} SseExactly(seen: seq<Listed>, rules: Rules, r: Record)
    ensures r in TakeIn(seen, rules).sse <==>
              exists l <- seen ::
                && l.origin !in rules.curatedOut && l.origin.source == Claude && !l.server.command && l.server.sse
                && r == Record(l.origin, l.server.url, l.server.auth)
  {
    if seen != [] {
      var before, l := seen[..|seen| - 1], seen[|seen| - 1];
      SseExactly(before, rules, r);
      assert seen == before + [l];
    }
  }

  /** A template that cannot be resolved. */
  predicate OpenTemplate(l: Listed, rules: Rules) {
    var url := rules.normalize(l.server.url);
    && l.origin !in rules.curatedOut && l.origin.source == Claude && !l.server.command && !l.server.sse
    && !rules.isLoopback(url) && rules.isTemplate(url) && rules.resolve(url).None?
  }

  lemma {:induction false} TemplatesExactly(seen: seq<Listed>, rules: Rules, r: Record)
    ensures r in TakeIn(seen, rules).template <==>
              exists l <- seen ::
                OpenTemplate(l, rules) && r == Record(l.origin, rules.normalize(l.server.url), l.server.auth)
  {
    if seen != [] {
      var before, l := seen[..|seen| - 1], seen[|seen| - 1];
      TemplatesExactly(before, rules, r);
      assert seen == before + [l];
    }
  }

  lemma {:induction false} ReadingExcludes(seen: seq<Listed>, rules: Rules, x: Exclusion)
    requires x.reason != Unparsable
    ensures x in TakeIn(seen, rules).excluded <==>
              (x.reason == Curated && x.origin in rules.curatedOut)
              || exists l <- seen :: l.origin == x.origin && ExcludedAs(l, rules, x.reason)
  {
    if seen == [] {
      var curated := CuratedExclusions(rules.curatedOut);
      if x.reason == Curated && x.origin in rules.curatedOut {
        var k :| 0 <= k < |rules.curatedOut| && rules.curatedOut[k] == x.origin;
        assert curated[k] == x;
      }
    } else {
      var before, l := seen[..|seen| - 1], seen[|seen| - 1];
      ReadingExcludes(before, rules, x);
      assert seen == before + [l];
    }
  }

  lemma {:induction false} ReadingIsParsing(seen: seq<Listed>, rules: Rules)
    ensures forall x <- TakeIn(seen, rules).excluded :: x.reason != Unparsable
  {
    if seen != [] {
      ReadingIsParsing(seen[..|seen| - 1], rules);
    }
  }

  lemma {:induction false} UnparsedExactly(records: seq<Record>, rules: Rules, x: Exclusion)
    ensures x in Unparsed(records, rules) <==>
              x.reason == Unparsable && exists r <- records :: r.origin == x.origin && rules.reviewed(r.url).None?
  {
    if records != [] {
      var before, r := records[..|records| - 1], records[|records| - 1];
      UnparsedExactly(before, rules, x);
      assert records == before + [r];
    }
  }

  /** The report has exactly the curated list, and every server that is left out under its reason. */
  lemma ReportExactly(seen: seq<Listed>, rules: Rules, x: Exclusion)
    ensures x in TakeIn(seen, rules).excluded + Unparsed(TakeIn(seen, rules).remote, rules) <==>
              (x.reason == Curated && x.origin in rules.curatedOut)
              || exists l <- seen :: l.origin == x.origin && ExcludedAs(l, rules, x.reason)
  {
    hide TakeIn, Unparsed;
    var remote := TakeIn(seen, rules).remote;
    ReadingIsParsing(seen, rules);
    UnparsedExactly(remote, rules, x);
    if x.reason == Unparsable {
      UnparsableRemotes(seen, rules, x.origin);
    } else {
      ReadingExcludes(seen, rules, x);
    }
  }

  lemma UnparsableRemotes(seen: seq<Listed>, rules: Rules, origin: Origin)
    ensures (exists r <- TakeIn(seen, rules).remote :: r.origin == origin && rules.reviewed(r.url).None?) <==>
              exists l <- seen :: l.origin == origin && ExcludedAs(l, rules, Unparsable)
  {
    hide TakeIn;
    var remote := TakeIn(seen, rules).remote;
    if r :| r in remote && r.origin == origin && rules.reviewed(r.url).None? {
      RemotesExactly(seen, rules, r);
      var l :| l in seen && Some(r.url) == RemoteUrl(l, rules) && r == Record(l.origin, r.url, l.server.auth);
      assert ExcludedAs(l, rules, Unparsable);
    }
    if l :| l in seen && l.origin == origin && ExcludedAs(l, rules, Unparsable) {
      var r := Record(l.origin, RemoteUrl(l, rules).value, l.server.auth);
      RemotesExactly(seen, rules, r);
    }
  }

  // ---------------------------------------------------------------- which entries there are

  predicate NamedIn(e: Entry, origin: Origin, templated: bool) {
    Upstream(origin, templated) in e.provenance
  }

  lemma SortKeeps<T>(le: (T, T) -> bool, s: seq<T>, x: T)
    ensures x in SortBy(le, s) <==> x in s
  {
    assert x in SortBy(le, s) <==> x in multiset(SortBy(le, s));
    assert x in s <==> x in multiset(s);
  }

  lemma {:induction false} HttpEntryAt(templates: seq<Record>, groups: seq<seq<Record>>, n: nat, rules: Rules, k: nat)
    requires n <= |groups| && AllFull(groups) && k < n
    ensures |HttpEntries(templates, groups, n, rules)| == n && groups[k] != []
    ensures HttpEntries(templates, groups, n, rules)[k] ==
            HttpEntry(Sorted(groups[k], rules), Reversed(Wanted(Free(templates, groups, k), groups[k])), rules)
  {
    hide HttpEntry, Wanted, Free, Reversed, Sorted;
    assert groups[k] in groups && groups[n - 1] in groups;
    if n == 1 {
      NoHttpEntries(templates, groups, rules);
    } else {
      HttpEntryAt(templates, groups, n - 1, rules, if k < n - 1 then k else 0);
    }
  }

  lemma NoHttpEntries(templates: seq<Record>, groups: seq<seq<Record>>, rules: Rules)
    requires AllFull(groups)
    ensures HttpEntries(templates, groups, 0, rules) == []
  {}

  lemma HttpEntryNames(records: seq<Record>, templates: seq<Record>, rules: Rules, r: Record, templated: bool)
    requires records != [] && r in (if templated then templates else records)
    ensures NamedIn(HttpEntry(records, templates, rules), r.origin, templated)
  {
    var e := HttpEntry(records, templates, rules);
    if templated {
      var k :| 0 <= k < |templates| && templates[k] == r;
      assert e.provenance[|records| + k] == Upstream(r.origin, true);
    } else {
      var k :| 0 <= k < |records| && records[k] == r;
      assert e.provenance[k] == Upstream(r.origin, false);
    }
  }

  /** A remote server with a reviewed URL is named in an HTTP entry. */
  lemma RemoteServerIsKept(seen: seq<Listed>, stdio: seq<Adapter>, rules: Rules, l: Listed) returns (k: nat)
    requires l in seen && RemoteUrl(l, rules).Some? && rules.reviewed(RemoteUrl(l, rules).value).Some?
    ensures var merged := Merged(seen, stdio, rules);
            k < |merged| && merged[k].transport.Http? && NamedIn(merged[k], l.origin, false)
  {
    hide TakeIn, Groups, HttpEntries, HttpEntry, Free, OwnEntries, Sorted, NamedIn, Keys, WithKey;
    var intake := TakeIn(seen, rules);
    var r := Record(l.origin, RemoteUrl(l, rules).value, l.server.auth);
    var key := rules.reviewed(r.url).value;
    RemotesExactly(seen, rules, r);
    WithKeyExactly(intake.remote, rules, key, r);
    KeysAreTheKeys(intake.remote, rules, key);
    var keys := Keys(intake.remote, rules);
    k :| 0 <= k < |keys| && keys[k] == key;
    var g := Groups(intake.remote, keys, rules);
    FullGroups(intake.remote, rules);
    GroupIs(intake.remote, keys, rules, k);
    HttpEntryAt(intake.template, g, |g|, rules, k);
    SortedKeeps(g[k], rules, r);
    var templates := Reversed(Wanted(Free(intake.template, g, k), g[k]));
    HttpEntryNames(Sorted(g[k], rules), templates, rules, r, false);
    HttpEntryIsHttp(Sorted(g[k], rules), templates, rules);
  }

  lemma SortedKeeps(group: seq<Record>, rules: Rules, r: Record)
    ensures r in Sorted(group, rules) <==> r in group
  {
    SortKeeps(rules.precedes, group, r);
  }

  lemma {:induction false} GroupIs(records: seq<Record>, keys: seq<string>, rules: Rules, k: nat)
    requires k < |keys|
    ensures |Groups(records, keys, rules)| == |keys|
            && Groups(records, keys, rules)[k] == WithKey(records, keys[k], rules)
  {
    hide WithKey;
    if k < |keys| - 1 {
      GroupIs(records, keys[..|keys| - 1], rules, k);
    }
  }

  lemma HttpEntryIsHttp(records: seq<Record>, templates: seq<Record>, rules: Rules)
    requires records != []
    ensures HttpEntry(records, templates, rules).transport.Http?
  {}

  /** A server-sent-events endpoint is named in an entry of its own, which needs setup. */
  lemma SseServerIsKept(seen: seq<Listed>, stdio: seq<Adapter>, rules: Rules, l: Listed) returns (k: nat)
    requires l in seen && l.origin !in rules.curatedOut && l.origin.source == Claude
    requires !l.server.command && l.server.sse
    ensures var merged := Merged(seen, stdio, rules);
            && k < |merged| && merged[k].transport == SseTransport(l.server.url) && !merged[k].setup.ready
            && NamedIn(merged[k], l.origin, false)
  {
    hide TakeIn, Groups, HttpEntries, Keys, Free, TemplateEntry, StdioEntry;
    var intake := TakeIn(seen, rules);
    var r := Record(l.origin, l.server.url, l.server.auth);
    SseExactly(seen, rules, r);
    var g := Groups(intake.remote, Keys(intake.remote, rules), rules);
    FullGroups(intake.remote, rules);
    var http, free := HttpEntries(intake.template, g, |g|, rules), Free(intake.template, g, |g|);
    var j :| 0 <= j < |intake.sse| && intake.sse[j] == r;
    k := |http| + |free| + j;
    var own := OwnEntries(free, intake.sse, stdio, rules);
    assert own[|free| + j] == SseEntry(r, rules);
    assert (http + own)[k] == own[|free| + j];
    assert SseEntry(r, rules).provenance[0] == Upstream(r.origin, false);
  }

  /** An open template is named in an HTTP entry that took it, or in a template entry of its own. */
  lemma TemplateIsKept(seen: seq<Listed>, stdio: seq<Adapter>, rules: Rules, l: Listed) returns (k: nat)
    requires l in seen && OpenTemplate(l, rules)
    ensures var merged := Merged(seen, stdio, rules);
            && k < |merged|
            && if merged[k].transport.Http? then NamedIn(merged[k], l.origin, true)
               else merged[k].transport == HttpTemplate && !merged[k].setup.ready && NamedIn(merged[k], l.origin, false)
  {
    hide TakeIn, Groups, Free, Merged, NamedIn, Keys;
    var intake := TakeIn(seen, rules);
    var r := Record(l.origin, rules.normalize(l.server.url), l.server.auth);
    TemplatesExactly(seen, rules, r);
    var g := Groups(intake.remote, Keys(intake.remote, rules), rules);
    if r in Free(intake.template, g, |g|) {
      k := FreeTemplate(seen, stdio, rules, r);
    } else {
      k := TakenTemplate(seen, stdio, rules, r);
    }
  }

  lemma FreeTemplate(seen: seq<Listed>, stdio: seq<Adapter>, rules: Rules, r: Record) returns (k: nat)
    requires var intake := TakeIn(seen, rules);
             var g := Groups(intake.remote, Keys(intake.remote, rules), rules);
             r in Free(intake.template, g, |g|)
    ensures var merged := Merged(seen, stdio, rules);
            && k < |merged| && merged[k].transport == HttpTemplate && !merged[k].setup.ready
            && NamedIn(merged[k], r.origin, false)
  {
    hide TakeIn, Groups, HttpEntries, Keys, SseEntry, StdioEntry, TemplateEntry, Free, NamedIn, AllFull;
    var intake := TakeIn(seen, rules);
    var g := Groups(intake.remote, Keys(intake.remote, rules), rules);
    FullGroups(intake.remote, rules);
    var http, free := HttpEntries(intake.template, g, |g|, rules), Free(intake.template, g, |g|);
    var own := OwnEntries(free, intake.sse, stdio, rules);
    var j :| 0 <= j < |free| && free[j] == r;
    k := |http| + j;
    TemplateEntryNames(r, rules);
    assert own[j] == TemplateEntry(r, rules) && (http + own)[k] == own[j];
  }

  lemma TakenTemplate(seen: seq<Listed>, stdio: seq<Adapter>, rules: Rules, r: Record) returns (k: nat)
    requires var intake := TakeIn(seen, rules);
             var g := Groups(intake.remote, Keys(intake.remote, rules), rules);
             r in intake.template && r !in Free(intake.template, g, |g|)
    ensures var merged := Merged(seen, stdio, rules);
            k < |merged| && merged[k].transport.Http? && NamedIn(merged[k], r.origin, true)
  {
    hide TakeIn, Groups, HttpEntries, Keys, OwnEntries, HttpEntry, Wants, Wanted, Free, Sorted, NamedIn, AllFull;
    var intake := TakeIn(seen, rules);
    var g := Groups(intake.remote, Keys(intake.remote, rules), rules);
    FullGroups(intake.remote, rules);
    k := TakenBy(intake.template, g, |g|, r);
    HttpEntryAt(intake.template, g, |g|, rules, k);
    var templates := Reversed(Wanted(Free(intake.template, g, k), g[k]));
    ReversedKeeps(Wanted(Free(intake.template, g, k), g[k]), r);
    HttpEntryNames(Sorted(g[k], rules), templates, rules, r, true);
    HttpEntryIsHttp(Sorted(g[k], rules), templates, rules);
  }

  lemma TemplateEntryNames(r: Record, rules: Rules)
    ensures var e := TemplateEntry(r, rules);
            e.transport == HttpTemplate && !e.setup.ready && NamedIn(e, r.origin, false)
  {
    assert TemplateEntry(r, rules).provenance[0] == Upstream(r.origin, false);
  }

  lemma ReversedKeeps<T>(s: seq<T>, x: T)
    requires x in s
    ensures x in Reversed(s)
  {
    var k :| 0 <= k < |s| && s[k] == x;
    assert Reversed(s)[|s| - 1 - k] == x;
  }

  lemma {:induction false} TakenBy(templates: seq<Record>, groups: seq<seq<Record>>, n: nat, t: Record) returns (k: nat)
    requires n <= |groups| && t in templates && t !in Free(templates, groups, n)
    ensures k < n && t in Wanted(Free(templates, groups, k), groups[k])
  {
    hide Wants, Wanted, Unwanted;
    if t in Free(templates, groups, n - 1) {
      k := n - 1;
      WantedExactly(Free(templates, groups, k), groups[k], t);
    } else {
      k := TakenBy(templates, groups, n - 1, t);
    }
  }

  lemma {:induction false} TallyTwo(entries: seq<Entry>, i: nat, j: nat, origin: Origin)
    requires i < j < |entries| && OfEntry(entries[i])[origin] >= 1 && OfEntry(entries[j])[origin] >= 1
    ensures Tally(OfEntry, entries)[origin] >= 2
  {
    hide OfEntry;
    if i > 0 {
      TallyTwo(entries[1..], i - 1, j - 1, origin);
    } else {
      TallyOne(entries[1..], j - 1, origin);
    }
  }

  lemma {:induction false} TallyOne(entries: seq<Entry>, j: nat, origin: Origin)
    requires j < |entries| && OfEntry(entries[j])[origin] >= 1
    ensures Tally(OfEntry, entries)[origin] >= 1
  {
    hide OfEntry;
    if j > 0 {
      TallyOne(entries[1..], j - 1, origin);
    }
  }

  lemma {:induction false} ProvenanceCounts(provenance: seq<Provenance>, p: Provenance)
    requires p.Upstream? && p in provenance
    ensures Tally(OfProvenance, provenance)[p.origin] >= 1
  {
    if provenance[0] != p {
      ProvenanceCounts(provenance[1..], p);
    }
  }

  /** With no server declared twice, and no key curated twice, a server is named in one entry at most. */
  lemma NamedInOneEntry(seen: seq<Listed>, stdio: seq<Adapter>, rules: Rules, l: Listed, i: nat, j: nat, a: bool,
                        b: bool)
    requires DeclaredOnce(seen) && NamedOnce(rules.curatedOut) && l in seen
    requires i < |Merged(seen, stdio, rules)| && NamedIn(Merged(seen, stdio, rules)[i], l.origin, a)
    requires j < |Merged(seen, stdio, rules)| && NamedIn(Merged(seen, stdio, rules)[j], l.origin, b)
    ensures i == j
  {
    hide Merged, TakeIn, Unparsed, Tally, Uncurated;
    var merged := Merged(seen, stdio, rules);
    var excluded := TakeIn(seen, rules).excluded + Unparsed(TakeIn(seen, rules).remote, rules);
    var k :| 0 <= k < |seen| && seen[k] == l;
    MergeConserves(seen, stdio, rules);
    ExactlyOnce(seen, excluded, merged, rules, k);
    ProvenanceCounts(merged[i].provenance, Upstream(l.origin, a));
    ProvenanceCounts(merged[j].provenance, Upstream(l.origin, b));
    if i < j {
      TallyTwo(merged, i, j, l.origin);
    } else if j < i {
      TallyTwo(merged, j, i, l.origin);
    }
  }

  /**
   * The entry of a group: it stands at the URL of its first record in the order of precedence, is named after
   * that record, and needs no setup exactly if neither a record nor an attached template has a block.
   */
  lemma EntryOfGroup(group: seq<Record>, templates: seq<Record>, rules: Rules) returns (first: Record)
    requires group != [] && TotalPreorder(rules.precedes)
    ensures first in group && forall r <- group :: rules.precedes(first, r)
    ensures var e := HttpEntry(Sorted(group, rules), templates, rules);
            && e.transport == Http(first.url) && e.identity == OfServer(first.origin)
            && (e.setup.ready <==> forall r <- group + templates :: r.auth.blocks == [])
            && e.setup.readiness.None? && e.setup.requirement.None?
  {
    hide Dedupe, FieldsOf, SortBy;
    var sorted := Sorted(group, rules);
    first := sorted[0];
    SortByOrders(rules.precedes, group);
    forall r ensures r in sorted <==> r in group {
      SortedKeeps(group, rules, r);
    }
    forall r <- group ensures rules.precedes(first, r) {
      var k :| 0 <= k < |sorted| && sorted[k] == r;
      assert rules.precedes(first, first);
    }
    assert forall r <- group + templates :: r in group || r in templates;
    assert forall r <- group :: r in group + templates;
    assert forall r <- templates :: r in group + templates;
  }

  lemma {:induction false} FieldsOfExactly(records: seq<Record>, f: Field)
    ensures f in FieldsOf(records) <==> exists r <- records :: f in r.auth.fields
  {
    if records != [] {
      FieldsOfExactly(records[..|records| - 1], f);
      assert records == records[..|records| - 1] + [records[|records| - 1]];
    }
  }

  lemma {:induction false} FirstOfEachKeepsIds(fields: seq<Field>, id: string)
    ensures (exists f <- FirstOfEach(fields) :: f.id == id) <==> exists f <- fields :: f.id == id
  {
    if fields != [] {
      var before, last := fields[..|fields| - 1], fields[|fields| - 1];
      FirstOfEachKeepsIds(before, id);
      assert fields == before + [last];
    }
  }

  predicate AsksFor(records: seq<Record>, id: string) {
    exists r <- records, f <- r.auth.fields :: f.id == id
  }

  /** An entry that needs setup asks for exactly what its records and its attached templates ask for, each once. */
  lemma FieldsOfEntry(records: seq<Record>, templates: seq<Record>, rules: Rules, id: string)
    requires records != [] && !HttpEntry(records, templates, rules).setup.ready
    ensures var fields := HttpEntry(records, templates, rules).setup.fields;
            && ((exists f <- fields :: f.id == id) <==> AsksFor(records, id) || AsksFor(templates, id))
            && DistinctIds(FirstOfEach(FieldsOf(records) + FieldsOf(templates)))
            && multiset(fields) == multiset(FirstOfEach(FieldsOf(records) + FieldsOf(templates)))
  {
    hide FieldsOf, FirstOfEach, SortBy, DistinctIds, Blocked;
    var asked := FieldsOf(records) + FieldsOf(templates);
    forall f
      ensures f in asked <==>
      (exists r <- records :: f in r.auth.fields) || exists r <- templates :: f in r.auth.fields
    {
      FieldsOfExactly(records, f);
      FieldsOfExactly(templates, f);
    }
    FirstOfEachKeepsIds(asked, id);
    FirstOfEachDistinct(asked);
    forall f ensures f in Dedupe(asked, rules) <==> f in FirstOfEach(asked) {
      SortKeeps(rules.fieldPrecedes, FirstOfEach(asked), f);
    }
  }

  // ---------------------------------------------------------------- what ships

  predicate IsKeyOrToken(f: Field) {
    f.kind == BearerToken || f.kind == ApiKey
  }

  function CredentialName(f: Field): string {
    match f.credentialSet case Some(name) => name case None => f.id
  }

  /** An entry ships one-click, or with exactly one key or token to paste under a requirement that says so. */
  lemma ShippableExactly(e: Entry)
    ensures Shippable(e) <==>
              || e.setup.readiness == Some(OauthReady)
              || (&& e.setup.readiness == Some(UserSetup)
                  && e.setup.requirement in {Some(BearerTokenNeeded), Some(ApiKeyNeeded)}
                  && (exists f <- e.setup.fields :: IsKeyOrToken(f))
                  && (forall f <- e.setup.fields, g <- e.setup.fields ::
                        f.required && g.required && IsKeyOrToken(f) && IsKeyOrToken(g) ==>
                          CredentialName(f) == CredentialName(g)))
  {
    assert forall f: Field :: IsCredential(f) == IsKeyOrToken(f) && CredentialOf(f) == CredentialName(f);
  }

  /** Curated data takes the place of what the merge found, item by item, and of nothing else. */
  lemma CuratedExactly(e: Entry, rules: Rules)
    ensures var c := CuratedEntry(e, rules);
            && c.id == e.id && c.identity == e.identity && c.transport == e.transport && c.provenance == e.provenance
            && (e.identity !in rules.overrides ==> c == e)
            && (e.identity in rules.overrides ==>
                  var o := rules.overrides[e.identity];
                  && c.setup.ready == (match o.ready case Some(ready) => ready case None => e.setup.ready)
                  && c.setup.fields == (match o.fields case Some(fields) => fields case None => e.setup.fields)
                  && (o.requirement.Some? ==> c.setup.requirement == o.requirement)
                  && (o.requirement.None? ==> c.setup.requirement == e.setup.requirement)
                  && (o.readiness.Some? ==> c.setup.readiness == o.readiness)
                  && (o.readiness.None? ==> c.setup.readiness == e.setup.readiness))
  {}

  predicate IsRemote(e: Entry) {
    e.transport.Http? || e.transport.SseTransport?
  }

  /** One-click means curated so, or a ready remote endpoint with standard OAuth evidence. */
  lemma OneClickExactly(e: Entry, audit: map<string, Evidence>, rules: Rules)
    ensures var s := AuditedSetup(e, audit, rules);
            (s.Some? && s.value.readiness == Some(OauthReady)) <==>
              || e.setup.readiness == Some(OauthReady)
              || (&& e.setup.readiness.None? && IsRemote(e) && e.setup.ready
                  && e.id in audit && StandardOauth(audit[e.id], rules))
  {
    hide StandardOauth, UserRegisteredOauth, Dedupe;
  }

  /**
   * An audited remote endpoint that is not ready gets the requirement curated for it, or else a token or a key
   * if it collects one, or a tenant for an environment variable; without any of them the import stops.
   */
  lemma RequirementExactly(e: Entry, audit: map<string, Evidence>, rules: Rules)
    requires e.transport.Http? && !e.setup.ready && e.setup.readiness.None? && e.id in audit
    ensures var s, fields := AuditedSetup(e, audit, rules), e.setup.fields;
            var needed :=
              if e.setup.requirement.Some? then e.setup.requirement
              else if exists f <- fields :: f.kind == BearerToken then Some(BearerTokenNeeded)
              else if exists f <- fields :: f.kind == ApiKey then Some(ApiKeyNeeded)
              else if exists f <- fields :: f.kind == EnvVar then Some(Tenant)
              else None;
            && (s.Some? <==> needed.Some?)
            && (s.Some? ==>
                  && s.value.requirement == needed && s.value.fields == fields && !s.value.ready
                  && s.value.readiness == Some(if needed == Some(RegisteredClient) then PrimeRestricted else UserSetup))
  {
    hide StandardOauth, UserRegisteredOauth, Dedupe;
  }

  /**
   * A ready remote endpoint without an audit, or with evidence of neither kind, is unknown; with the other it
   * is demoted.
   */
  lemma OtherReadyExactly(e: Entry, audit: map<string, Evidence>, rules: Rules)
    requires IsRemote(e) && e.setup.ready && e.setup.readiness.None?
    ensures var s := AuditedSetup(e, audit, rules);
            && s.Some?
            && (e.id !in audit ==> s.value.readiness == Some(UnknownReadiness))
            && (e.id in audit && !StandardOauth(audit[e.id], rules) ==>
                  if UserRegisteredOauth(audit[e.id], rules)
                  then !s.value.ready && s.value.requirement == Some(RegisteredClient)
                       && s.value.readiness == Some(UserSetup)
                  else s.value.readiness == Some(UnknownReadiness))
  {
    hide StandardOauth, UserRegisteredOauth, Dedupe;
  }

  /** The resource that the selected document names. */
  predicate NamesResource(attempts: seq<Attempt>, source: Option<string>, i: nat, resource: string) {
    && i < |attempts| && Some(attempts[i].sourceUrl) == source && attempts[i].resource == Some(resource)
    && forall j | 0 <= j < i :: Some(attempts[j].sourceUrl) != source
  }

  lemma {:induction false} SelectedIsFirst(attempts: seq<Attempt>, source: Option<string>, resource: string)
    ensures (Selected(attempts, source).Some? && Selected(attempts, source).value.resource == Some(resource)) <==>
              exists i: nat :: NamesResource(attempts, source, i, resource)
  {
    if attempts != [] {
      if Some(attempts[0].sourceUrl) == source {
        assert attempts[0].resource == Some(resource) ==> NamesResource(attempts, source, 0, resource);
      } else {
        SelectedIsFirst(attempts[1..], source, resource);
        if i: nat :| NamesResource(attempts[1..], source, i, resource) {
          assert NamesResource(attempts, source, i + 1, resource);
        }
        if i: nat :| NamesResource(attempts, source, i, resource) {
          assert NamesResource(attempts[1..], source, i - 1, resource);
        }
      }
    }
  }

  /**
   * Standard OAuth evidence, said of the document and the attempts: a complete authorization-server document
   * whose registration endpoint turned no anonymous registration away; either the engine sees a document and
   * the first attempt at its source names the endpoint or its origin, or nothing was pointed to and every
   * well-known place answered with a client error; and a public client is served.
   */
  lemma StandardOauthExactly(e: Evidence, rules: Rules)
    ensures StandardOauth(e, rules) <==>
              && e.serverAvailable && e.document.Some?
              && var d := e.document.value;
              && "" !in [d.issuer, d.authorizationEndpoint, d.tokenEndpoint, d.registrationEndpoint]
              && (e.registration.None? || !e.registration.value.isPost
                  || e.registration.value.url != d.registrationEndpoint
                  || e.registration.value.httpStatus !in {401, 403})
              && (if e.engineVisible then
                    exists i: nat, resource ::
                      && NamesResource(e.attempts, e.selectedSource, i, resource) && resource != ""
                      && resource in [rules.canonical(e.endpoint), rules.originOf(e.endpoint),
                                      rules.originOf(e.endpoint) + "/"]
                  else
                    && !e.pointerInProbe
                    && forall a <- e.attempts ::
                         && a.kind != HeaderPointer
                         && (a.kind in {Pathful, AtOrigin} ==>
                               !a.available && a.httpStatus.Some? && 400 <= a.httpStatus.value < 500))
              && rules.servesPublicClient(d.tokenAuthMethods)
  {
    if e.engineVisible {
      AudienceExactly(e, rules);
    }
  }

  lemma AudienceExactly(e: Evidence, rules: Rules)
    requires e.engineVisible
    ensures !AudienceMismatched(e, rules) <==>
              exists i: nat, resource ::
                && NamesResource(e.attempts, e.selectedSource, i, resource) && resource != ""
                && resource in [rules.canonical(e.endpoint), rules.originOf(e.endpoint),
                                rules.originOf(e.endpoint) + "/"]
  {
    hide NamesResource;
    var selected := Selected(e.attempts, e.selectedSource);
    if selected.Some? && selected.value.resource.Some? {
      SelectedIsFirst(e.attempts, e.selectedSource, selected.value.resource.value);
    }
    forall i: nat, resource | NamesResource(e.attempts, e.selectedSource, i, resource)
      ensures selected.Some? && selected.value.resource == Some(resource)
    {
      SelectedIsFirst(e.attempts, e.selectedSource, resource);
    }
  }

  /** An endpoint fits the user's own app if it would be standard for configured clients, and is not for public ones. */
  lemma UserRegisteredExactly(e: Evidence, rules: Rules)
    ensures UserRegisteredOauth(e, rules) <==>
              && StandardOauth(e, rules.(servesPublicClient := rules.servesConfiguredClient))
              && !rules.servesPublicClient(e.document.value.tokenAuthMethods)
  {
    SelectedDocument(e, rules);
  }

  lemma SelectedDocument(e: Evidence, rules: Rules)
    ensures Coherent(e, rules) == Coherent(e, rules.(servesPublicClient := rules.servesConfiguredClient))
    ensures Coherent(e, rules) ==> e.document.Some?
  {}

  /** Without an endpoint to connect to, an entry that is not ready waits for its runtime or its tenant. */
  lemma OtherTransportsExactly(e: Entry, audit: map<string, Evidence>, rules: Rules)
    requires !IsRemote(e) && e.setup.readiness.None?
    ensures var s := AuditedSetup(e, audit, rules);
            && s.Some? && s.value.ready == e.setup.ready && s.value.fields == e.setup.fields
            && (e.setup.ready ==> s.value.readiness == Some(UnknownReadiness))
            && (!e.setup.ready ==>
                  && s.value.readiness == Some(UserSetup)
                  && s.value.requirement ==
                     if e.setup.requirement.Some? then e.setup.requirement
                     else if e.transport == HttpTemplate then Some(Tenant) else Some(LocalRuntime))
  {}

  /** A command of an adapter plugin that is not on the curated list. */
  predicate KeptCommand(plugin: string, s: Server, rules: Rules) {
    s.command && Origin(Claude, plugin, s.name) !in rules.curatedOut
  }

  lemma {:induction false} KeptExactly(p: Plugin, n: nat, rules: Rules, s: Server)
    requires n <= |p.servers|
    ensures s in KeptCommands(p, n, rules) <==> s in p.servers[..n] && KeptCommand(p.name, s, rules)
  {
    if n > 0 {
      KeptExactly(p, n - 1, rules, s);
      assert p.servers[..n] == p.servers[..n - 1] + [p.servers[n - 1]];
    }
  }

  lemma {:induction false} NamesExactly(servers: seq<Server>, name: string)
    ensures name in Names(servers) <==> exists s <- servers :: s.name == name
  {
    if servers != [] {
      NamesExactly(servers[..|servers| - 1], name);
      assert servers == servers[..|servers| - 1] + [servers[|servers| - 1]];
    }
  }

  lemma {:induction false} AdapterOf(plugins: seq<Plugin>, rules: Rules, p: Plugin) returns (a: Adapter)
    requires p in plugins && p.adapter && exists s <- p.servers :: KeptCommand(p.name, s, rules)
    ensures a in Adapters(plugins, rules) && a.plugin == p.name
    ensures forall name :: name in a.servers <==>
            exists s <- p.servers :: KeptCommand(p.name, s, rules) && s.name == name
  {
    hide KeptCommand;
    var before, last := plugins[..|plugins| - 1], plugins[|plugins| - 1];
    if last == p {
      var kept := KeptCommands(p, |p.servers|, rules);
      assert p.servers[..|p.servers|] == p.servers;
      forall s ensures s in kept <==> s in p.servers && KeptCommand(p.name, s, rules) {
        KeptExactly(p, |p.servers|, rules, s);
      }
      forall name ensures name in Names(kept) <==> exists s <- kept :: s.name == name {
        NamesExactly(kept, name);
      }
      a := Adapter(p.name, Names(kept), Envs(kept));
    } else {
      assert plugins == before + [last];
      a := AdapterOf(before, rules, p);
    }
  }

  /** A local adapter that keeps a command becomes an entry that runs exactly its kept commands. */
  lemma AdapterIsKept(seen: seq<Listed>, plugins: seq<Plugin>, rules: Rules, p: Plugin) returns (k: nat)
    requires p in plugins && p.adapter && exists s <- p.servers :: KeptCommand(p.name, s, rules)
    ensures var merged := Merged(seen, Adapters(plugins, rules), rules);
            && k < |merged| && merged[k].transport.StdioTransport? && !merged[k].setup.ready
            && UpstreamPlugin(p.name) in merged[k].provenance
            && forall name ::
                 name in merged[k].transport.servers <==>
                   exists s <- p.servers :: KeptCommand(p.name, s, rules) && s.name == name
  {
    hide Merged, KeptCommand, Adapters, Dedupe;
    var a := AdapterOf(plugins, rules, p);
    k := AdapterEntryAt(seen, Adapters(plugins, rules), rules, a);
    assert StdioEntry(a, rules).provenance[0] == UpstreamPlugin(a.plugin);
  }

  lemma AdapterEntryAt(seen: seq<Listed>, stdio: seq<Adapter>, rules: Rules, a: Adapter) returns (k: nat)
    requires a in stdio
    ensures k < |Merged(seen, stdio, rules)| && Merged(seen, stdio, rules)[k] == StdioEntry(a, rules)
  {
    hide TakeIn, Groups, HttpEntries, Keys, SseEntry, TemplateEntry, StdioEntry, Free, AllFull;
    var intake := TakeIn(seen, rules);
    var g := Groups(intake.remote, Keys(intake.remote, rules), rules);
    FullGroups(intake.remote, rules);
    var http, free := HttpEntries(intake.template, g, |g|, rules), Free(intake.template, g, |g|);
    var own := OwnEntries(free, intake.sse, stdio, rules);
    var j :| 0 <= j < |stdio| && stdio[j] == a;
    k := |http| + |free| + |intake.sse| + j;
    assert own[|free| + |intake.sse| + j] == StdioEntry(a, rules);
    assert (http + own)[k] == own[|free| + |intake.sse| + j];
  }
}
