/** From manifest rows to lookup tables: what the loader accepts gives tables that are in order. */
module ScopeLoader {
  import opened Text
  import opened SupersessionGraph
  import opened ScopeManifest

  datatype Row = Row(scope: Scope, aliases: seq<string>)

  /** The parts of a manifest file that the lookups read. */
  datatype Manifest = Manifest(prefix: string, identity: set<string>, rows: seq<Row>, disclosures: set<string>,
                               policies: map<string, set<string>>,
                               presetOrder: seq<string>, presets: map<string, Preset>,
                               unknownRequestState: string, unknownVerificationState: string)

  const PREFIX := "https://www.googleapis.com/auth/"
  const IDENTITY := {"openid", "email", "profile"}
  const POLICIES := {"tinyhat-development", "tinyhat-production"}
  const REQUEST_STATES := {"approved", "review_required", "legacy_only"}
  const REVIEW_REQUIRED := "review_required"
  const EXACT_LEGACY := {"https://mail.google.com/", "https://www.google.com/calendar/feeds",
                         "https://www.google.com/m8/feeds"}
  const PRESETS := {"mail_reader", "mail_sender", "workspace_reader", "mail_writer", "inbox_manager",
                    "calendar_coordinator", "file_collaborator"}

  /** The scopes that each preset must have. */
  function RequiredScopes(preset: string): seq<string> {
    if preset == "mail_reader" then ["gmail.readonly"]
    else if preset == "mail_sender" then ["gmail.send"]
    else if preset == "workspace_reader" then ["gmail.readonly", "calendar.events.readonly", "drive.readonly"]
    else if preset == "mail_writer" then ["gmail.compose"]
    else if preset == "inbox_manager" then ["gmail.modify"]
    else if preset == "calendar_coordinator" then ["calendar.events"]
    else ["drive.file"]
  }

  // ---------------------------------------------------------------- the loader's checks

  predicate UnderPrefix(m: Manifest, url: string) {
    HasPrefix(url, m.prefix) && url != m.prefix
  }

  function Ids(rows: seq<Row>): set<string> {
    set i | 0 <= i < |rows| :: rows[i].scope.id
  }

  function Urls(rows: seq<Row>): set<string> {
    set i | 0 <= i < |rows| :: rows[i].scope.url
  }

  function Aliases(rows: seq<Row>): set<string> {
    set i, j | 0 <= i < |rows| && 0 <= j < |rows[i].aliases| :: rows[i].aliases[j]
  }

  predicate RowAccepted(m: Manifest, r: Row) {
    && (if r.scope.id in m.identity then r.scope.url == r.scope.id else UnderPrefix(m, r.scope.url))
    && (forall j | 0 <= j < |r.aliases| :: UnderPrefix(m, r.aliases[j]))
    && r.scope.clientStates.Keys == m.policies.Keys
    && (forall id | id in r.scope.supersedes :: id in Ids(m.rows) && id != r.scope.id)
  }

  ghost predicate Unique(rows: seq<Row>) {
    && (forall i, j | 0 <= i < j < |rows| ::
          rows[i].scope.id != rows[j].scope.id && rows[i].scope.url != rows[j].scope.url)
    && (forall i, j, k, l | 0 <= i < |rows| && 0 <= j < |rows[i].aliases|
                            && 0 <= k < |rows| && 0 <= l < |rows[k].aliases| && (i != k || j != l) ::
          rows[i].aliases[j] != rows[k].aliases[l])
  }

  /** The checks that compare parts of the manifest with each other. */
  ghost predicate Consistent(m: Manifest) {
    && (forall i | 0 <= i < |m.rows| :: RowAccepted(m, m.rows[i]))
    && Unique(m.rows)
    && Aliases(m.rows) !! Urls(m.rows)
    && m.disclosures !! Urls(m.rows) + Aliases(m.rows)
    && m.identity <= Ids(m.rows)
    && Acyclic(GraphOf(Load(m)))
    && (forall p | p in m.presetOrder :: p in m.presets)
    && (forall p | p in m.presets :: forall id | id in m.presets[p].scopeIds :: id in Ids(m.rows))
  }

  predicate StatesKnown(r: Row) {
    forall p | p in r.scope.clientStates :: r.scope.clientStates[p].requestState in REQUEST_STATES
  }

  /** The checks that compare it with what the loader expects. */
  ghost predicate Expected(m: Manifest) {
    && m.prefix == PREFIX && m.identity == IDENTITY && m.unknownRequestState == REVIEW_REQUIRED
    && m.policies.Keys == POLICIES
    && (forall p | p in m.policies :: m.policies[p] != {} && m.policies[p] <= REQUEST_STATES)
    && (forall i | 0 <= i < |m.rows| :: StatesKnown(m.rows[i]))
    && EXACT_LEGACY <= m.disclosures
    && (forall u | u in m.disclosures :: u in EXACT_LEGACY || UnderPrefix(m, u))
    && (set p | p in m.presetOrder) == m.presets.Keys == PRESETS && NoDuplicates(m.presetOrder)
    && (forall p | p in m.presets :: m.presets[p].scopeIds == RequiredScopes(p))
  }

  ghost predicate Accepted(m: Manifest) {
    Expected(m) && Consistent(m)
  }

  // ---------------------------------------------------------------- the tables

  function ById(rows: seq<Row>): map<string, Scope> {
    if rows == [] then map[]
    else ById(rows[..|rows| - 1])[rows[|rows| - 1].scope.id := rows[|rows| - 1].scope]
  }

  function ByUrl(rows: seq<Row>): map<string, Scope> {
    if rows == [] then map[]
    else ByUrl(rows[..|rows| - 1])[rows[|rows| - 1].scope.url := rows[|rows| - 1].scope]
  }

  function Order(rows: seq<Row>): seq<string> {
    seq(|rows|, i requires 0 <= i < |rows| => rows[i].scope.url)
  }

  function AliasesOf(aliases: seq<string>, url: string): map<string, string> {
    map a | a in aliases :: url
  }

  function AliasTable(rows: seq<Row>): map<string, string> {
    if rows == [] then map[]
    else
      var last := rows[|rows| - 1];
      AliasTable(rows[..|rows| - 1]) + AliasesOf(last.aliases, last.scope.url)
  }

  function Load(m: Manifest): Catalog {
    Catalog(m.prefix, m.identity, Order(m.rows), ById(m.rows), ByUrl(m.rows), AliasTable(m.rows), m.disclosures,
            m.policies, m.presetOrder, m.presets, m.unknownRequestState, m.unknownVerificationState)
  }

  predicate DistinctRows(rows: seq<Row>) {
    forall i, j | 0 <= i < j < |rows| ::
      rows[i].scope.id != rows[j].scope.id && rows[i].scope.url != rows[j].scope.url
  }

  lemma {:induction false} TableKeys(rows: seq<Row>, x: string)
    ensures x in ById(rows) <==> exists i | 0 <= i < |rows| :: rows[i].scope.id == x
    ensures x in ByUrl(rows) <==> exists i | 0 <= i < |rows| :: rows[i].scope.url == x
  {
    if rows != [] {
      TableKeys(rows[..|rows| - 1], x);
    }
  }

  lemma {:induction false} TableAt(rows: seq<Row>, i: nat)
    requires DistinctRows(rows) && i < |rows|
    ensures rows[i].scope.id in ById(rows) && ById(rows)[rows[i].scope.id] == rows[i].scope
    ensures rows[i].scope.url in ByUrl(rows) && ByUrl(rows)[rows[i].scope.url] == rows[i].scope
  {
    if i < |rows| - 1 {
      assert rows[i].scope.id != rows[|rows| - 1].scope.id && rows[i].scope.url != rows[|rows| - 1].scope.url;
      TableAt(rows[..|rows| - 1], i);
    }
  }

  lemma {:induction false} AliasesMean(rows: seq<Row>, a: string)
    ensures a in AliasTable(rows) <==> a in Aliases(rows)
    ensures a in AliasTable(rows) ==> AliasTable(rows)[a] in Urls(rows)
  {
    if rows != [] {
      var init, last := rows[..|rows| - 1], rows[|rows| - 1];
      AliasesMean(init, a);
      assert rows[|rows| - 1].scope.url in Urls(rows);
      if a in Aliases(init) {
        var i, j :| 0 <= i < |init| && 0 <= j < |init[i].aliases| && init[i].aliases[j] == a;
        assert rows[i].aliases[j] == a;
      }
      if a in last.aliases {
        var j :| 0 <= j < |last.aliases| && last.aliases[j] == a;
        assert rows[|rows| - 1].aliases[j] == a;
      }
    }
  }

  // ---------------------------------------------------------------- accepted manifests load

  lemma LoadedIndex(m: Manifest)
    requires DistinctRows(m.rows)
    ensures ValidIndex(Load(m))
  {
    var c := Load(m);
    forall id | id in c.byId
      ensures c.byId[id].id == id && c.byId[id].url in c.byUrl && c.byUrl[c.byId[id].url] == c.byId[id]
    {
      TableKeys(m.rows, id);
      var i :| 0 <= i < |m.rows| && m.rows[i].scope.id == id;
      TableAt(m.rows, i);
    }
    forall u | u in c.byUrl
      ensures c.byUrl[u].url == u && c.byUrl[u].id in c.byId && c.byId[c.byUrl[u].id] == c.byUrl[u]
    {
      TableKeys(m.rows, u);
      var i :| 0 <= i < |m.rows| && m.rows[i].scope.url == u;
      TableAt(m.rows, i);
    }
    forall u ensures u in c.order <==> u in c.byUrl {
      TableKeys(m.rows, u);
      if i :| 0 <= i < |m.rows| && m.rows[i].scope.url == u {
        assert c.order[i] == u;
      }
    }
  }

  /** The row of a scope in a table. */
  lemma RowOf(m: Manifest, u: string) returns (i: nat)
    requires DistinctRows(m.rows) && u in ByUrl(m.rows)
    ensures i < |m.rows| && m.rows[i].scope.url == u && ByUrl(m.rows)[u] == m.rows[i].scope
  {
    TableKeys(m.rows, u);
    i :| 0 <= i < |m.rows| && m.rows[i].scope.url == u;
    TableAt(m.rows, i);
  }

  /** The prefix and the identity scopes are plain text. */
  ghost predicate PlainParts(m: Manifest) {
    Plain(m.prefix) && forall id | id in m.identity :: Plain(id)
  }

  lemma PlainPrefix()
    ensures Plain(PREFIX)
  {
  }

  lemma PlainIdentity()
    ensures forall id | id in IDENTITY :: Plain(id)
  {
    assert Plain("openid");
    assert Plain("email");
    assert Plain("profile");
  }

  lemma LoadedAliases(m: Manifest, a: string)
    requires Consistent(m) && a in AliasTable(m.rows)
    ensures UnderPrefix(m, a) && a !in ByUrl(m.rows) && AliasTable(m.rows)[a] in ByUrl(m.rows)
  {
    AliasesMean(m.rows, a);
    var i, j :| 0 <= i < |m.rows| && 0 <= j < |m.rows[i].aliases| && m.rows[i].aliases[j] == a;
    assert RowAccepted(m, m.rows[i]);
    TableKeys(m.rows, a);
    TableKeys(m.rows, AliasTable(m.rows)[a]);
  }

  lemma LoadedIdentity(m: Manifest, id: string)
    requires Consistent(m) && id in m.identity
    ensures id in ByUrl(m.rows)
  {
    assert id in Ids(m.rows);
    var i :| 0 <= i < |m.rows| && m.rows[i].scope.id == id;
    assert RowAccepted(m, m.rows[i]);
    TableAt(m.rows, i);
  }

  lemma LoadedNames(m: Manifest)
    requires Consistent(m) && PlainParts(m)
    ensures ValidNames(Load(m))
  {
    var c := Load(m);
    forall id | id in c.identity ensures id in c.byUrl {
      LoadedIdentity(m, id);
    }
    forall u | u in c.byUrl && u !in c.identity ensures HasPrefix(u, c.prefix) && u != c.prefix {
      var i := RowOf(m, u);
      assert RowAccepted(m, m.rows[i]);
    }
    forall a | a in c.aliases ensures HasPrefix(a, c.prefix) && a !in c.byUrl && c.aliases[a] in c.byUrl {
      LoadedAliases(m, a);
    }
    forall u | u in c.historical ensures u !in c.byUrl && u !in c.aliases {
      TableKeys(m.rows, u);
      AliasesMean(m.rows, u);
    }
  }

  lemma LoadedGraph(m: Manifest)
    requires Consistent(m)
    ensures Closed(GraphOf(Load(m)))
  {
    var c := Load(m);
    forall id, child | id in c.byId && child in c.byId[id].supersedes ensures child in c.byId {
      TableKeys(m.rows, id);
      var i :| 0 <= i < |m.rows| && m.rows[i].scope.id == id;
      TableAt(m.rows, i);
      assert RowAccepted(m, m.rows[i]);
      TableKeys(m.rows, child);
    }
  }

  lemma LoadedPresets(m: Manifest)
    requires Consistent(m)
    ensures forall p | p in m.presetOrder :: PresetDefined(Load(m), p)
  {
    forall p, id | p in m.presets && id in m.presets[p].scopeIds ensures id in ById(m.rows) {
      TableKeys(m.rows, id);
    }
  }

  lemma ConsistentLoads(m: Manifest)
    requires Consistent(m) && PlainParts(m)
    ensures Valid(Load(m))
  {
    var c := Load(m);
    LoadedIndex(m);
    LoadedNames(m);
    LoadedGraph(m);
    LoadedPresets(m);
    forall policy, u | policy in c.policies && u in c.byUrl ensures policy in c.byUrl[u].clientStates {
      var i := RowOf(m, u);
      assert RowAccepted(m, m.rows[i]);
    }
  }

  /** Every manifest that the loader accepts gives lookup tables on which the results of ScopeManifest hold. */
  lemma LoadedIsValid(m: Manifest)
    requires Accepted(m)
    ensures Valid(Load(m))
  {
    assert PlainParts(m) by {
      PlainPrefix();
      PlainIdentity();
    }
    ConsistentLoads(m);
  }
}
