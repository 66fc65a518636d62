/** A manifest that the loader accepts and on which normalisation is not idempotent. */
module ScopeExample {
  import opened Text
  import opened SupersessionGraph
  import opened ScopeManifest
  import opened ScopeLoader

  const ACCENTED := PREFIX + "\U{00e9}"
  const PLAIN_ALIAS := PREFIX + "e"

  /** The scopes that the loader insists on, and one whose url is not ASCII and that has an ASCII alias. */
  const IDS := ["openid", "email", "profile", "gmail.readonly", "gmail.send", "calendar.events.readonly",
                "drive.readonly", "gmail.compose", "gmail.modify", "calendar.events", "drive.file", "accented"]

  function Url(k: nat): string
    requires k < 12
  {
    if k < 3 then IDS[k] else if k == 11 then ACCENTED else PREFIX + IDS[k]
  }

  function States(): map<string, ClientState> {
    map p | p in POLICIES :: ClientState(REVIEW_REQUIRED, "pending")
  }

  function ExampleRow(k: nat): Row
    requires k < 12
  {
    Row(Scope(IDS[k], Url(k), "name", "google", ["use"], true, "copy", [], States()),
        if k == 11 then [PLAIN_ALIAS] else [])
  }

  function Rows(): seq<Row> {
    seq(12, k requires 0 <= k < 12 => ExampleRow(k))
  }

  const PRESET_ORDER := ["mail_reader", "mail_sender", "workspace_reader", "mail_writer", "inbox_manager",
                         "calendar_coordinator", "file_collaborator"]

  function Example(): Manifest {
    Manifest(PREFIX, IDENTITY, Rows(), EXACT_LEGACY, map p | p in POLICIES :: {"approved"}, PRESET_ORDER,
             map p | p in PRESETS :: Preset(RequiredScopes(p), p, p), REVIEW_REQUIRED, "pending")
  }

  // ---------------------------------------------------------------- the strings

  function Length(k: nat): nat
    requires k < 12
  {
    [6, 5, 7, 14, 10, 24, 14, 13, 12, 15, 10, 8][k]
  }

  lemma Lengths(k: nat)
    requires k < 12
    ensures |IDS[k]| == Length(k)
  {
  }

  lemma IdsDistinct(i: nat, j: nat)
    requires i < j < 12
    ensures IDS[i] != IDS[j]
  {
    Lengths(i);
    Lengths(j);
    if i == 3 && j == 6 {
      assert IDS[3][0] == 'g' && IDS[6][0] == 'd';
    }
    if i == 4 && j == 10 {
      assert IDS[4][0] == 'g' && IDS[10][0] == 'd';
    }
  }

  lemma PrefixLength()
    ensures |PREFIX| == 32
  {
  }

  lemma UrlShape(k: nat)
    requires k < 12
    ensures |Url(k)| == if k < 3 then Length(k) else if k == 11 then 33 else 32 + Length(k)
    ensures k >= 3 ==> Url(k)[..32] == PREFIX
  {
    Lengths(k);
    PrefixLength();
  }

  lemma UrlsDistinct(i: nat, j: nat)
    requires i < j < 12
    ensures Url(i) != Url(j)
  {
    IdsDistinct(i, j);
    UrlShape(i);
    UrlShape(j);
    PrefixLength();
    if 3 <= i && j < 11 {
      assert Url(i)[32..] == IDS[i] && Url(j)[32..] == IDS[j];
    }
  }

  lemma AliasShape()
    ensures |PLAIN_ALIAS| == 33 && PLAIN_ALIAS[..32] == PREFIX && PLAIN_ALIAS[32] == 'e'
    ensures |ACCENTED| == 33 && ACCENTED[..32] == PREFIX && ACCENTED[32] == '\U{00e9}'
    ensures !IsAscii(ACCENTED) && PLAIN_ALIAS != ACCENTED
  {
    PrefixLength();
    assert !(ACCENTED[32] as int < 0x80);
  }

  lemma AliasIsNoUrl(k: nat)
    requires k < 12
    ensures Url(k) != PLAIN_ALIAS
  {
    UrlShape(k);
    AliasShape();
  }

  /** The legacy urls are not under the prefix, and are no identity scopes. */
  lemma LegacyApart(u: string)
    requires u in EXACT_LEGACY
    ensures |u| >= 24 && u[..19] != PREFIX[..19]
  {
    assert PREFIX[8] == 'w' && PREFIX[18] == 'a';
    if u == "https://mail.google.com/" {
      assert u[8] == 'm';
    } else {
      assert u[18] == '.';
    }
  }

  lemma OtherPrefix(u: string, v: string, prefix: string)
    requires |prefix| == 32 && |u| >= 19 && u[..19] != prefix[..19] && |v| >= 32 && v[..32] == prefix
    ensures u != v
  {
    assert v[..32][..19] == v[..19];
  }

  lemma LegacyIsNoUrl(u: string, k: nat)
    requires u in EXACT_LEGACY && k < 12
    ensures u != Url(k)
  {
    LegacyApart(u);
    UrlShape(k);
    PrefixLength();
    if k >= 3 {
      OtherPrefix(u, Url(k), PREFIX);
    }
  }

  lemma LegacyIsNoAlias(u: string)
    requires u in EXACT_LEGACY
    ensures u != PLAIN_ALIAS
  {
    LegacyApart(u);
    AliasShape();
    PrefixLength();
    OtherPrefix(u, PLAIN_ALIAS, PREFIX);
  }

  // ---------------------------------------------------------------- the loader accepts it

  lemma RowsIds(id: string)
    ensures id in Ids(Rows()) <==> id in IDS
  {
    if k :| 0 <= k < 12 && IDS[k] == id {
      assert Rows()[k].scope.id == id;
    }
  }

  lemma IdentityRows(k: nat)
    requires k < 12
    ensures IDS[k] in IDENTITY <==> k < 3
  {
    if k >= 3 {
      IdsDistinct(0, k);
      IdsDistinct(1, k);
      IdsDistinct(2, k);
      assert IDS[0] == "openid" && IDS[1] == "email" && IDS[2] == "profile";
    }
  }

  lemma Under(m: Manifest, url: string)
    requires |m.prefix| == 32 && |url| > 32 && url[..32] == m.prefix
    ensures UnderPrefix(m, url)
  {
  }

  lemma ExampleUnder(k: nat)
    requires 3 <= k < 12
    ensures UnderPrefix(Example(), Url(k)) && UnderPrefix(Example(), PLAIN_ALIAS)
  {
    UrlShape(k);
    AliasShape();
    PrefixLength();
    Under(Example(), Url(k));
    Under(Example(), PLAIN_ALIAS);
  }

  lemma ExampleRowAccepted(k: nat)
    requires k < 12
    ensures RowAccepted(Example(), ExampleRow(k)) && StatesKnown(ExampleRow(k))
  {
    IdentityRows(k);
    if k >= 3 {
      ExampleUnder(k);
    }
  }

  lemma ExampleUnique()
    ensures Unique(Rows())
  {
    forall i, j | 0 <= i < j < 12 ensures IDS[i] != IDS[j] && Url(i) != Url(j) {
      IdsDistinct(i, j);
      UrlsDistinct(i, j);
    }
  }

  lemma RequiredInRows(preset: string, id: string)
    requires id in RequiredScopes(preset)
    ensures id in IDS
  {
    assert IDS[3] == "gmail.readonly" && IDS[4] == "gmail.send" && IDS[5] == "calendar.events.readonly"
        && IDS[6] == "drive.readonly" && IDS[7] == "gmail.compose" && IDS[8] == "gmail.modify"
        && IDS[9] == "calendar.events" && IDS[10] == "drive.file";
  }

  /** A graph without edges has no cycle. */
  lemma EdgelessAcyclic(g: Graph)
    requires forall id | id in g :: g[id] == []
    ensures forall a, b :: !Reaches(g, a, b)
  {
    forall a, b ensures !Reaches(g, a, b) {
      if Reaches(g, a, b) {
        var child := ReachesFirst(g, a, b);
      }
    }
  }

  lemma NoEdges()
    ensures forall a, b :: !Reaches(GraphOf(Load(Example())), a, b)
  {
    ExampleUnique();
    forall id | id in ById(Rows()) ensures ById(Rows())[id].supersedes == [] {
      TableKeys(Rows(), id);
      var i :| 0 <= i < 12 && Rows()[i].scope.id == id;
      TableAt(Rows(), i);
    }
    EdgelessAcyclic(GraphOf(Load(Example())));
  }

  lemma ExampleNames()
    ensures Aliases(Rows()) !! Urls(Rows()) && EXACT_LEGACY !! Urls(Rows()) + Aliases(Rows())
  {
    forall a | a in Aliases(Rows()) ensures a == PLAIN_ALIAS {}
    forall k | 0 <= k < 12 ensures Url(k) != PLAIN_ALIAS {
      AliasIsNoUrl(k);
    }
    forall u, k | u in EXACT_LEGACY && 0 <= k < 12 ensures u != Url(k) {
      LegacyIsNoUrl(u, k);
    }
    forall u | u in EXACT_LEGACY ensures u != PLAIN_ALIAS {
      LegacyIsNoAlias(u);
    }
  }

  lemma ExampleIds()
    ensures IDENTITY <= Ids(Rows())
    ensures forall p, id | p in PRESETS && id in RequiredScopes(p) :: id in Ids(Rows())
  {
    forall id | id in IDENTITY ensures id in Ids(Rows()) {
      RowsIds(id);
      assert IDS[0] == "openid" && IDS[1] == "email" && IDS[2] == "profile";
    }
    forall p, id | p in PRESETS && id in RequiredScopes(p) ensures id in Ids(Rows()) {
      RequiredInRows(p, id);
      RowsIds(id);
    }
  }

  lemma ExampleConsistent()
    ensures Consistent(Example())
  {
    ExampleUnique();
    NoEdges();
    ExampleNames();
    ExampleIds();
    forall i | 0 <= i < 12 ensures RowAccepted(Example(), Rows()[i]) {
      ExampleRowAccepted(i);
    }
  }

  lemma PresetLengths(k: nat)
    requires k < 7
    ensures |PRESET_ORDER[k]| == [11, 11, 16, 11, 13, 20, 17][k]
  {
  }

  lemma PresetsDistinct()
    ensures NoDuplicates(PRESET_ORDER) && (set p | p in PRESET_ORDER) == PRESETS
  {
    forall i, j | 0 <= i < j < 7 ensures PRESET_ORDER[i] != PRESET_ORDER[j] {
      PresetLengths(i);
      PresetLengths(j);
      assert PRESET_ORDER[0][5] == 'r' && PRESET_ORDER[1][5] == 's' && PRESET_ORDER[3][5] == 'w';
    }
    assert PRESET_ORDER[0] == "mail_reader" && PRESET_ORDER[1] == "mail_sender"
        && PRESET_ORDER[2] == "workspace_reader" && PRESET_ORDER[3] == "mail_writer"
        && PRESET_ORDER[4] == "inbox_manager" && PRESET_ORDER[5] == "calendar_coordinator"
        && PRESET_ORDER[6] == "file_collaborator";
  }

  lemma ExampleExpected()
    ensures Expected(Example())
  {
    PresetsDistinct();
    forall i | 0 <= i < 12 ensures StatesKnown(Rows()[i]) {
      ExampleRowAccepted(i);
    }
  }

  lemma LastRowNames(rows: seq<Row>, a: string, url: string)
    requires rows != [] && rows[|rows| - 1].aliases == [a] && rows[|rows| - 1].scope.url == url
    ensures a in AliasTable(rows) && AliasTable(rows)[a] == url
  {
  }

  lemma AliasPlain()
    ensures IsAscii(PLAIN_ALIAS) && Strip(PLAIN_ALIAS) == PLAIN_ALIAS && PLAIN_ALIAS != ""
  {
    AliasShape();
    PlainPrefix();
    assert PLAIN_ALIAS[0] == PREFIX[0];
    StripFixed(PLAIN_ALIAS);
  }

  lemma AliasNames(c: Catalog, alias: string, url: string)
    requires IsAscii(alias) && Strip(alias) == alias && alias != "" && alias in c.aliases && c.aliases[alias] == url
    requires WellFormedSuffix(c, url)
    ensures Canonicalize(c, alias) == Ok(url)
  {
  }

  lemma AliasCanonical()
    ensures Canonicalize(Load(Example()), PLAIN_ALIAS) == Ok(ACCENTED)
  {
    AliasShape();
    AliasPlain();
    PrefixLength();
    LastRowNames(Rows(), PLAIN_ALIAS, ACCENTED);
    AliasNames(Load(Example()), PLAIN_ALIAS, ACCENTED);
  }

  /** The loader accepts the manifest; the first normalisation of a request succeeds, and normalising its
      own output is refused. */
  lemma AbsorptionCanFail()
    ensures var c := Load(Example());
            && Accepted(Example())
            && Canonicalizable(c, [PLAIN_ALIAS])
            && Normalized(c, Normalized(c, [PLAIN_ALIAS]).value) == Err(InvalidScope)
  {
    ExampleConsistent();
    ExampleExpected();
    LoadedIsValid(Example());
    AliasCanonical();
    AliasShape();
    NoEdges();
    AliasBreaksAbsorption(Load(Example()), PLAIN_ALIAS, ACCENTED);
  }
}
