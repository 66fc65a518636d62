/** Scope requests against a validated manifest: canonical form, normalisation, blocked scopes. */
module ScopeManifest {
  import opened Text
  import opened SupersessionGraph

  datatype ClientState = ClientState(requestState: string, verificationState: string)

  datatype Scope = Scope(id: string, url: string, displayName: string, service: string, capabilities: seq<string>,
                         readOnly: bool, userCopy: string, supersedes: seq<string>,
                         clientStates: map<string, ClientState>)

  datatype Preset = Preset(scopeIds: seq<string>, bundle: string, displayName: string)

  /** The lookup tables that the module builds from one validated manifest. */
  datatype Catalog = Catalog(prefix: string, identity: set<string>, order: seq<string>,
                             byId: map<string, Scope>, byUrl: map<string, Scope>,
                             aliases: map<string, string>, historical: set<string>,
                             policies: map<string, set<string>>,
                             presetOrder: seq<string>, presets: map<string, Preset>,
                             unknownRequestState: string, unknownVerificationState: string)

  datatype BlockedScope = BlockedScope(scopeUrl: string, scopeId: Option<string>, displayName: string,
                                       requestState: string, verificationState: string, reason: string)

  datatype Resolution = Resolution(scopeUrls: seq<string>, services: seq<string>, capabilities: seq<string>,
                                   scopeLabels: seq<string>, selectedPresets: seq<string>,
                                   approved: bool, blocked: seq<BlockedScope>, accessLabel: string,
                                   readOnly: bool, bundle: string)

  datatype ScopeError = InvalidScope | UnknownPreset | UnknownPolicy

  datatype Result<+T> = Ok(value: T) | Err(error: ScopeError)

  const UNLISTED := "This canonical Google scope is not listed in the public manifest."

  function GraphOf(c: Catalog): Graph {
    map id | id in c.byId :: c.byId[id].supersedes
  }

  ghost predicate NoDuplicates<T>(s: seq<T>) {
    forall i, j | 0 <= i < j < |s| :: s[i] != s[j]
  }

  /** Ids and canonical urls are unique, so the two indexes agree. */
  ghost predicate ValidIndex(c: Catalog) {
    && (forall id | id in c.byId :: c.byId[id].id == id
                                 && c.byId[id].url in c.byUrl && c.byUrl[c.byId[id].url] == c.byId[id])
    && (forall u | u in c.byUrl :: c.byUrl[u].url == u
                                && c.byUrl[u].id in c.byId && c.byId[c.byUrl[u].id] == c.byUrl[u])
    && NoDuplicates(c.order) && (forall u :: u in c.order <==> u in c.byUrl)
  }

  /** Supersedes lists name scopes, and the cycle check has accepted them. */
  ghost predicate ValidGraph(c: Catalog) {
    ValidIndex(c) && Closed(GraphOf(c)) && Acyclic(GraphOf(c))
  }

  predicate Plain(s: string) {
    s != "" && IsAscii(s) && !IsSpace(s[0]) && !IsSpace(s[|s| - 1])
  }

  /** The prefix and the identity scopes are fixed plain text; canonical urls, aliases and
      disclosure-only urls do not overlap. Nothing makes a canonical url ASCII. */
  ghost predicate ValidNames(c: Catalog) {
    && Plain(c.prefix)
    && (forall id | id in c.identity :: Plain(id) && id in c.byUrl)
    && (forall u | u in c.byUrl && u !in c.identity :: HasPrefix(u, c.prefix) && u != c.prefix)
    && (forall a | a in c.aliases :: HasPrefix(a, c.prefix) && a !in c.byUrl && c.aliases[a] in c.byUrl)
    && (forall u | u in c.historical :: u !in c.byUrl && u !in c.aliases)
  }

  /** Every scope declares a state for the policy. */
  predicate Covers(c: Catalog, policy: string) {
    policy in c.policies && forall u | u in c.byUrl :: policy in c.byUrl[u].clientStates
  }

  predicate PresetDefined(c: Catalog, preset: string) {
    preset in c.presets && forall id | id in c.presets[preset].scopeIds :: id in c.byId
  }

  /** What the manifest validator has established before any lookup happens. */
  ghost predicate Valid(c: Catalog) {
    && ValidGraph(c)
    && ValidNames(c)
    && (forall policy | policy in c.policies :: Covers(c, policy))
    && (forall preset | preset in c.presetOrder :: PresetDefined(c, preset))
  }

  // ---------------------------------------------------------------- canonical form

  function Unalias(c: Catalog, url: string): string {
    if url in c.aliases then c.aliases[url] else url
  }

  predicate WellFormedSuffix(c: Catalog, url: string) {
    && HasPrefix(url, c.prefix) && |url| > |c.prefix|
    && forall i | |c.prefix| <= i < |url| :: !IsSpace(url[i]) && url[i] as int >= 0x21
  }

  /** The trimming and ASCII checks look at the requested text, the rest at what its alias names. */
  function Canonicalize(c: Catalog, url: string): Result<string> {
    if Strip(url) != url || url == "" || !IsAscii(url) then Err(InvalidScope)
    else
      var value := Unalias(c, url);
      if value in c.identity || value in c.historical || WellFormedSuffix(c, value) then Ok(value)
      else Err(InvalidScope)
  }

  /** What is accepted, and as what: untrimmed-as-it-is ASCII text that is, or is an alias of, an identity scope,
      a disclosure-only scope, or the Google prefix with a rest that has neither spaces nor control characters. */
  lemma CanonicalizeMeans(c: Catalog, url: string, value: string)
    ensures Canonicalize(c, url) == Ok(value)
            <==>
            && url != "" && !IsSpace(url[0]) && !IsSpace(url[|url| - 1]) && IsAscii(url)
            && (if url in c.aliases then c.aliases[url] == value else url == value)
            && (|| value in c.identity || value in c.historical
                || (&& |c.prefix| < |value| && value[..|c.prefix|] == c.prefix
                    && forall i | |c.prefix| <= i < |value| :: !IsSpace(value[i]) && value[i] as int > 0x20))
  {
    StripFixed(url);
  }

  /** Canonicalising a canonical value gives it back if it is ASCII, and is refused if it is not. */
  lemma CanonicalizeTwice(c: Catalog, url: string)
    requires ValidNames(c) && Canonicalize(c, url).Ok?
    ensures var value := Canonicalize(c, url).value;
            Canonicalize(c, value) == if IsAscii(value) then Ok(value) else Err(InvalidScope)
  {
    var value := Canonicalize(c, url).value;
    StripFixed(value);
  }

  predicate Canonicalizable(c: Catalog, urls: seq<string>) {
    forall i | 0 <= i < |urls| :: Canonicalize(c, urls[i]).Ok?
  }

  /** The canonical values of the urls that have one. */
  function CanonicalSet(c: Catalog, urls: seq<string>): set<string> {
    set i | 0 <= i < |urls| && Canonicalize(c, urls[i]).Ok? :: Canonicalize(c, urls[i]).value
  }

  // ---------------------------------------------------------------- supersession on urls

  /** u supersedes v through one or more supersedes links. */
  ghost predicate Supersedes(c: Catalog, u: string, v: string) {
    u in c.byUrl && v in c.byUrl && Reaches(GraphOf(c), c.byUrl[u].id, c.byUrl[v].id)
  }

  function KnownIds(c: Catalog, selected: set<string>): set<string> {
    set u | u in selected && u in c.byUrl :: c.byUrl[u].id
  }

  ghost function SupersededUrls(c: Catalog, selected: set<string>): set<string> {
    set id | id in Closure(GraphOf(c), KnownIds(c, selected)) :: c.byId[id].url
  }

  lemma SupersededMeans(c: Catalog, selected: set<string>, v: string)
    requires ValidGraph(c)
    ensures v in SupersededUrls(c, selected) <==> exists u | u in selected :: Supersedes(c, u, v)
  {
    var g := GraphOf(c);
    if v in SupersededUrls(c, selected) {
      var id :| id in Closure(g, KnownIds(c, selected)) && c.byId[id].url == v;
      var s :| s in KnownIds(c, selected) && Reaches(g, s, id);
      var u :| u in selected && u in c.byUrl && c.byUrl[u].id == s;
      assert Supersedes(c, u, v);
    }
    if u :| u in selected && Supersedes(c, u, v) {
      var id := c.byUrl[v].id;
      assert c.byUrl[u].id in KnownIds(c, selected);
      assert id in Closure(g, KnownIds(c, selected));
    }
  }

  lemma SupersedesOrder(c: Catalog)
    requires ValidGraph(c)
    ensures forall u :: !Supersedes(c, u, u)
    ensures forall u, v, w | Supersedes(c, u, v) && Supersedes(c, v, w) :: Supersedes(c, u, w)
  {
    forall u, v, w | Supersedes(c, u, v) && Supersedes(c, v, w) ensures Supersedes(c, u, w) {
      ReachesTransitive(GraphOf(c), c.byUrl[u].id, c.byUrl[v].id, c.byUrl[w].id);
    }
  }

  /** What normalisation keeps of a selection. */
  ghost function Maximal(c: Catalog, selected: set<string>): set<string> {
    selected - SupersededUrls(c, selected)
  }

  ghost function Above(c: Catalog, selected: set<string>, v: string): set<string> {
    set u | u in selected && Supersedes(c, u, v)
  }

  /** Whatever some selected scope supersedes, a scope that is kept supersedes too. */
  lemma {:induction false} KeptDominates(c: Catalog, selected: set<string>, u: string, v: string)
    returns (w: string)
    requires ValidGraph(c) && u in selected && Supersedes(c, u, v)
    ensures w in Maximal(c, selected) && Supersedes(c, w, v)
    decreases |Above(c, selected, u)|
  {
    SupersededMeans(c, selected, u);
    SupersedesOrder(c);
    if u in Maximal(c, selected) {
      return u;
    }
    var t :| t in selected && Supersedes(c, t, u);
    var lower, upper := Above(c, selected, t), Above(c, selected, u);
    assert lower < upper by {
      assert t in upper && t !in lower;
    }
    SubsetSize(lower, upper);
    w := KeptDominates(c, selected, t, v);
  }

  lemma {:induction false} SubsetSize<T>(a: set<T>, b: set<T>)
    requires a < b
    ensures |a| < |b|
  {
    var x :| x in b && x !in a;
    SubsetAtMost(a, b - {x});
  }

  lemma {:induction false} SubsetAtMost<T>(a: set<T>, b: set<T>)
    requires a <= b
    ensures |a| <= |b|
    decreases a
  {
    if a != {} {
      var x :| x in a;
      SubsetAtMost(a - {x}, b - {x});
    }
  }

  /** Normalising one part first changes nothing for the union. */
  lemma MaximalAbsorbs(c: Catalog, s: set<string>, t: set<string>)
    requires ValidGraph(c)
    ensures Maximal(c, Maximal(c, s) + t) == Maximal(c, s + t)
  {
    var part, whole := Maximal(c, s) + t, s + t;
    forall v ensures v in SupersededUrls(c, part) <==> v in SupersededUrls(c, whole) {
      SupersededMeans(c, part, v);
      SupersededMeans(c, whole, v);
      if u :| u in whole && Supersedes(c, u, v) {
        if u in s {
          var w := KeptDominates(c, s, u, v);
          assert w in part;
        }
      }
    }
    forall v | v in s && v !in Maximal(c, s) ensures v in SupersededUrls(c, whole) {
      SupersededMeans(c, s, v);
      var u :| u in s && Supersedes(c, u, v);
      SupersededMeans(c, whole, v);
      assert u in whole;
    }
  }

  // ---------------------------------------------------------------- normalisation

  function KnownIn(order: seq<string>, selected: set<string>): seq<string> {
    if order == [] then []
    else (if order[0] in selected then [order[0]] else []) + KnownIn(order[1..], selected)
  }

  lemma {:induction false} KnownInMembers(order: seq<string>, selected: set<string>, u: string)
    ensures u in KnownIn(order, selected) <==> u in order && u in selected
  {
    if order != [] {
      KnownInMembers(order[1..], selected, u);
      assert order == [order[0]] + order[1..];
    }
  }

  /** x is listed before y. */
  ghost predicate Precedes(order: seq<string>, x: string, y: string) {
    exists i, j :: 0 <= i < j < |order| && order[i] == x && order[j] == y
  }

  lemma PrecedesTail(order: seq<string>, x: string, y: string)
    requires order != [] && (Precedes(order[1..], x, y) || (x == order[0] && y in order[1..]))
    ensures Precedes(order, x, y)
  {
    if Precedes(order[1..], x, y) {
      var i, j :| 0 <= i < j < |order[1..]| && order[1..][i] == x && order[1..][j] == y;
      assert order[i + 1] == x && order[j + 1] == y;
    } else {
      var j :| 0 <= j < |order[1..]| && order[1..][j] == y;
      assert order[0] == x && order[j + 1] == y;
    }
  }

  lemma {:induction false} KnownInOrder(order: seq<string>, selected: set<string>)
    ensures var known := KnownIn(order, selected);
            forall i, j | 0 <= i < j < |known| :: Precedes(order, known[i], known[j])
    ensures NoDuplicates(order) ==> NoDuplicates(KnownIn(order, selected))
  {
    if order != [] {
      var known, rest := KnownIn(order, selected), KnownIn(order[1..], selected);
      KnownInOrder(order[1..], selected);
      var skip := |known| - |rest|;
      forall i, j | 0 <= i < j < |known|
        ensures Precedes(order, known[i], known[j])
        ensures NoDuplicates(order) ==> known[i] != known[j]
      {
        assert known[j] == rest[j - skip] && rest[j - skip] in rest;
        KnownInMembers(order[1..], selected, known[j]);
        if i >= skip {
          assert known[i] == rest[i - skip];
        }
        PrecedesTail(order, known[i], known[j]);
      }
    }
  }

  /** Listed scopes come in manifest order and before the unlisted ones, which are sorted; none comes twice. */
  ghost predicate InOrder(c: Catalog, s: seq<string>) {
    forall i, j | 0 <= i < j < |s| ::
      && s[i] != s[j]
      && (s[i] in c.order && s[j] in c.order ==> Precedes(c.order, s[i], s[j]))
      && (s[i] !in c.order ==> s[j] !in c.order && Before(s[i], s[j]))
  }

  lemma ArrangeInOrder(c: Catalog, selected: set<string>)
    requires ValidIndex(c)
    ensures InOrder(c, Arrange(c, selected))
  {
    var known, unknown := KnownIn(c.order, selected), Sorted(selected - set u | u in c.order);
    var all := Arrange(c, selected);
    KnownInOrder(c.order, selected);
    forall i, j | 0 <= i < j < |all|
      ensures all[i] != all[j]
      ensures all[i] in c.order && all[j] in c.order ==> Precedes(c.order, all[i], all[j])
      ensures all[i] !in c.order ==> all[j] !in c.order && Before(all[i], all[j])
    {
      if j < |known| {
        KnownInMembers(c.order, selected, known[i]);
        assert all[i] == known[i] && all[j] == known[j] && known[i] in known;
      } else {
        assert all[j] == unknown[j - |known|] && unknown[j - |known|] in unknown;
        if i < |known| {
          assert known[i] in known;
          KnownInMembers(c.order, selected, known[i]);
        } else {
          assert all[i] == unknown[i - |known|] && unknown[i - |known|] in unknown;
          BeforeTotal(all[i], all[j]);
        }
      }
    }
  }

  /** Manifest order first, then the unlisted scopes sorted. */
  function Arrange(c: Catalog, selected: set<string>): seq<string> {
    KnownIn(c.order, selected) + Sorted(selected - set u | u in c.order)
  }

  lemma ArrangeMembers(c: Catalog, selected: set<string>, u: string)
    ensures u in Arrange(c, selected) <==> u in selected
  {
    KnownInMembers(c.order, selected, u);
  }

  ghost function Normalized(c: Catalog, urls: seq<string>): Result<seq<string>> {
    if Canonicalizable(c, urls)
    then Ok(Arrange(c, Maximal(c, c.identity + CanonicalSet(c, urls))))
    else Err(InvalidScope)
  }

  method CanonicalizeAll(c: Catalog, urls: seq<string>) returns (r: Result<set<string>>)
    ensures r == if Canonicalizable(c, urls) then Ok(CanonicalSet(c, urls)) else Err(InvalidScope)
  {
    var selected := {};
    for k := 0 to |urls|
      invariant Canonicalizable(c, urls[..k])
      invariant selected == CanonicalSet(c, urls[..k])
    {
      CanonicalSetAppend(c, urls[..k], urls[k]);
      assert urls[..k + 1] == urls[..k] + [urls[k]];
      var canonical := Canonicalize(c, urls[k]);
      if canonical.Err? {
        assert !Canonicalizable(c, urls);
        return Err(InvalidScope);
      }
      selected := selected + {canonical.value};
    }
    assert urls[..|urls|] == urls;
    return Ok(selected);
  }

  method NormalizeScopeUrls(c: Catalog, urls: seq<string>) returns (r: Result<seq<string>>)
    requires Valid(c)
    ensures r == Normalized(c, urls)
  {
    var canonical := CanonicalizeAll(c, urls);
    if canonical.Err? {
      return Err(canonical.error);
    }
    var selected := c.identity + canonical.value;
    var starts := Sorted(KnownIds(c, selected));
    assert (set id | id in starts) == KnownIds(c, selected);
    var superseded := TransitivelySuperseded(GraphOf(c), starts);
    selected := selected - set id | id in superseded :: c.byId[id].url;
    return Ok(Arrange(c, selected));
  }

  lemma CanonicalSetAppend(c: Catalog, urls: seq<string>, url: string)
    ensures Canonicalizable(c, urls + [url]) <==> Canonicalizable(c, urls) && Canonicalize(c, url).Ok?
    ensures Canonicalize(c, url).Ok? ==>
              CanonicalSet(c, urls + [url]) == CanonicalSet(c, urls) + {Canonicalize(c, url).value}
  {
    CanonicalSetConcat(c, urls, [url]);
    assert [url][0] == url;
  }

  lemma CanonicalSetConcat(c: Catalog, a: seq<string>, b: seq<string>)
    ensures Canonicalizable(c, a + b) <==> Canonicalizable(c, a) && Canonicalizable(c, b)
    ensures CanonicalSet(c, a + b) == CanonicalSet(c, a) + CanonicalSet(c, b)
  {
    var both := a + b;
    assert forall i | 0 <= i < |a| :: both[i] == a[i];
    assert forall i | 0 <= i < |b| :: both[|a| + i] == b[i];
    forall v | v in CanonicalSet(c, b) ensures v in CanonicalSet(c, both) {
      var i :| 0 <= i < |b| && Canonicalize(c, b[i]) == Ok(v);
      assert both[|a| + i] == b[i];
    }
    if Canonicalizable(c, both) {
      forall i | 0 <= i < |b| ensures Canonicalize(c, b[i]).Ok? {
        assert both[|a| + i] == b[i];
      }
    }
  }

  /** Normalisation keeps exactly the selected scopes that no selected scope supersedes, and each
      scope that it drops is superseded, in one or more steps, by one that it keeps. */
  lemma NormalizedIsMaximal(c: Catalog, urls: seq<string>)
    requires Valid(c) && Canonicalizable(c, urls)
    ensures var selected := c.identity + CanonicalSet(c, urls);
            var kept := Normalized(c, urls).value;
            && (forall u :: u in kept <==> u in selected && !exists w | w in selected :: Supersedes(c, w, u))
            && (forall u | u in selected && u !in kept :: exists w | w in kept :: Supersedes(c, w, u))
  {
    var selected := c.identity + CanonicalSet(c, urls);
    var kept := Normalized(c, urls).value;
    forall u ensures u in kept <==> u in selected && !exists w | w in selected :: Supersedes(c, w, u) {
      ArrangeMembers(c, Maximal(c, selected), u);
      SupersededMeans(c, selected, u);
    }
    forall u | u in selected && u !in kept ensures exists w | w in kept :: Supersedes(c, w, u) {
      var t :| t in selected && Supersedes(c, t, u);
      var w := KeptDominates(c, selected, t, u);
      ArrangeMembers(c, Maximal(c, selected), w);
    }
  }

  /** The normal form comes in the one order that the manifest fixes. */
  lemma NormalizedInOrder(c: Catalog, urls: seq<string>)
    requires Valid(c) && Canonicalizable(c, urls)
    ensures InOrder(c, Normalized(c, urls).value)
  {
    ArrangeInOrder(c, Maximal(c, c.identity + CanonicalSet(c, urls)));
  }

  /** Order, duplicates and aliases do not matter: only the set of canonical scopes does. */
  lemma NormalizedIgnoresSpelling(c: Catalog, a: seq<string>, b: seq<string>)
    requires Canonicalizable(c, a) && Canonicalizable(c, b)
    requires CanonicalSet(c, a) == CanonicalSet(c, b)
    ensures Normalized(c, a) == Normalized(c, b)
  {
  }

  lemma KeptCanonical(c: Catalog, urls: seq<string>, u: string)
    requires Valid(c) && Canonicalizable(c, urls) && u in Normalized(c, urls).value
    ensures Canonicalize(c, u) == if IsAscii(u) then Ok(u) else Err(InvalidScope)
  {
    var selected := c.identity + CanonicalSet(c, urls);
    ArrangeMembers(c, Maximal(c, selected), u);
    StripFixed(u);
    if u in c.identity {
      assert u !in c.aliases by { assert u in c.byUrl; }
    } else {
      var i :| 0 <= i < |urls| && Canonicalize(c, urls[i]).value == u;
      CanonicalizeTwice(c, urls[i]);
    }
  }

  /** The output of a normalisation can be normalised again exactly when it is all ASCII. */
  lemma KeptCanonicalizable(c: Catalog, urls: seq<string>)
    requires Valid(c) && Canonicalizable(c, urls)
    ensures var kept := Normalized(c, urls).value;
            && (Canonicalizable(c, kept) <==> AllAscii(kept))
            && (Canonicalizable(c, kept) ==>
                  CanonicalSet(c, kept) == Maximal(c, c.identity + CanonicalSet(c, urls)))
  {
    var kept := Normalized(c, urls).value;
    forall u | u in kept ensures Canonicalize(c, u) == if IsAscii(u) then Ok(u) else Err(InvalidScope) {
      KeptCanonical(c, urls, u);
    }
    if Canonicalizable(c, kept) {
      forall u | u in kept ensures IsAscii(u) {
        var i :| 0 <= i < |kept| && kept[i] == u;
        assert Canonicalize(c, kept[i]).Ok?;
      }
      forall u ensures u in CanonicalSet(c, kept) <==> u in Maximal(c, c.identity + CanonicalSet(c, urls)) {
        ArrangeMembers(c, Maximal(c, c.identity + CanonicalSet(c, urls)), u);
        if u in kept {
          var i :| 0 <= i < |kept| && kept[i] == u;
          assert Canonicalize(c, kept[i]) == Ok(u);
        }
      }
    }
  }

  /** What is to be looked up before the first normalisation: no requested alias names a scope with a
      non-ASCII url, unless something else in the request supersedes that scope. */
  ghost predicate AliasesCovered(c: Catalog, urls: seq<string>) {
    forall a | a in urls && a in c.aliases && !IsAscii(c.aliases[a]) ::
      exists u | u in c.identity + CanonicalSet(c, urls) :: Supersedes(c, u, c.aliases[a])
  }

  lemma OnlyAliasesLeaveAscii(c: Catalog, urls: seq<string>, u: string)
    requires Valid(c) && Canonicalizable(c, urls) && u in c.identity + CanonicalSet(c, urls) && !IsAscii(u)
    ensures exists a | a in urls && a in c.aliases :: c.aliases[a] == u
  {
    var i :| 0 <= i < |urls| && Canonicalize(c, urls[i]) == Ok(u);
    assert urls[i] in urls && urls[i] in c.aliases;
  }

  lemma RequestedAlias(c: Catalog, urls: seq<string>, a: string)
    requires Canonicalizable(c, urls) && a in urls && a in c.aliases
    ensures c.aliases[a] in CanonicalSet(c, urls)
  {
    var i :| 0 <= i < |urls| && urls[i] == a;
    assert Canonicalize(c, urls[i]) == Ok(c.aliases[a]);
  }

  /** The normal form is all ASCII exactly under that condition. */
  lemma KeptAsciiIff(c: Catalog, urls: seq<string>)
    requires Valid(c) && Canonicalizable(c, urls)
    ensures AllAscii(Normalized(c, urls).value) <==> AliasesCovered(c, urls)
  {
    var selected := c.identity + CanonicalSet(c, urls);
    var kept := Normalized(c, urls).value;
    NormalizedIsMaximal(c, urls);
    if AliasesCovered(c, urls) {
      forall u | u in kept ensures IsAscii(u) {
        if !IsAscii(u) {
          OnlyAliasesLeaveAscii(c, urls, u);
        }
      }
    }
    if AllAscii(kept) {
      forall a | a in urls && a in c.aliases && !IsAscii(c.aliases[a])
        ensures exists u | u in selected :: Supersedes(c, u, c.aliases[a])
      {
        RequestedAlias(c, urls, a);
        assert c.aliases[a] !in kept;
      }
    }
  }

  /** Union absorption, and exactly when it holds: normalising a part first gives the same answer
      for the union just when that part names no uncovered non-ASCII scope through an alias. */
  lemma UnionAbsorption(c: Catalog, a: seq<string>, b: seq<string>)
    requires Valid(c) && Canonicalizable(c, a) && Canonicalizable(c, b)
    ensures Normalized(c, Normalized(c, a).value + b) == Normalized(c, a + b) <==> AliasesCovered(c, a)
  {
    var kept := Normalized(c, a).value;
    KeptAsciiIff(c, a);
    KeptCanonicalizable(c, a);
    CanonicalSetConcat(c, kept, b);
    CanonicalSetConcat(c, a, b);
    if Canonicalizable(c, kept) {
      var s, t := c.identity + CanonicalSet(c, a), c.identity + CanonicalSet(c, b);
      MaximalAbsorbs(c, s, t);
      assert s + t == c.identity + CanonicalSet(c, a + b);
      assert Maximal(c, s) + t == c.identity + CanonicalSet(c, kept + b);
    }
  }

  /** The special case of an empty second part. */
  lemma NormalizedIdempotent(c: Catalog, urls: seq<string>)
    requires Valid(c) && Canonicalizable(c, urls)
    ensures var kept := Normalized(c, urls).value;
            Normalized(c, kept) == Ok(kept) <==> AliasesCovered(c, urls)
  {
    var kept := Normalized(c, urls).value;
    UnionAbsorption(c, urls, []);
    assert kept + [] == kept;
    assert urls + [] == urls;
    assert Normalized(c, urls) == Ok(kept);
  }

  /** A manifest whose aliases all name ASCII urls absorbs, and is idempotent, for every request. */
  lemma AsciiAliasesAbsorb(c: Catalog, a: seq<string>, b: seq<string>)
    requires Valid(c) && Canonicalizable(c, a) && Canonicalizable(c, b)
    requires forall alias | alias in c.aliases :: IsAscii(c.aliases[alias])
    ensures Normalized(c, Normalized(c, a).value + b) == Normalized(c, a + b)
    ensures Normalized(c, Normalized(c, a).value) == Normalized(c, a)
  {
    UnionAbsorption(c, a, b);
    NormalizedIdempotent(c, a);
  }

  // ---------------------------------------------------------------- blocked scopes

  function BlockedEntry(c: Catalog, policy: string, url: string): Option<BlockedScope>
    requires Covers(c, policy)
  {
    if url !in c.byUrl then
      Some(BlockedScope(url, None, url, c.unknownRequestState, c.unknownVerificationState, UNLISTED))
    else
      var scope := c.byUrl[url];
      var state := scope.clientStates[policy];
      if state.requestState in c.policies[policy] then None
      else Some(BlockedScope(url, Some(scope.id), scope.displayName, state.requestState,
                             state.verificationState, scope.userCopy))
  }

  function BlockedEntries(c: Catalog, policy: string, urls: seq<string>): seq<BlockedScope>
    requires Covers(c, policy)
  {
    if urls == [] then []
    else
      var rest := BlockedEntries(c, policy, urls[..|urls| - 1]);
      match BlockedEntry(c, policy, urls[|urls| - 1])
      case None => rest
      case Some(entry) => rest + [entry]
  }

  /** The loop over the normalised scopes. */
  method CollectBlocked(c: Catalog, policy: string, kept: seq<string>) returns (blocked: seq<BlockedScope>)
    requires Covers(c, policy)
    ensures blocked == BlockedEntries(c, policy, kept)
  {
    blocked := [];
    for k := 0 to |kept|
      invariant blocked == BlockedEntries(c, policy, kept[..k])
    {
      assert kept[..k + 1][..k] == kept[..k];
      var entry := BlockedEntry(c, policy, kept[k]);
      if entry.Some? {
        blocked := blocked + [entry.value];
      }
    }
    assert kept[..|kept|] == kept;
  }

  method BlockedScopeDetails(c: Catalog, urls: seq<string>, policy: string)
    returns (r: Result<seq<BlockedScope>>)
    requires Valid(c)
    ensures policy !in c.policies ==> r == Err(UnknownPolicy)
    ensures policy in c.policies && !Canonicalizable(c, urls) ==> r == Err(InvalidScope)
    ensures policy in c.policies && Canonicalizable(c, urls) ==>
              r == Ok(BlockedEntries(c, policy, Normalized(c, urls).value))
  {
    if policy !in c.policies {
      return Err(UnknownPolicy);
    }
    var normalized := NormalizeScopeUrls(c, urls);
    if normalized.Err? {
      return Err(normalized.error);
    }
    var blocked := CollectBlocked(c, policy, normalized.value);
    return Ok(blocked);
  }

  /** A scope may be requested when the manifest lists it and the policy allows its state. */
  predicate Requestable(c: Catalog, policy: string, url: string)
    requires Covers(c, policy)
  {
    url in c.byUrl && c.byUrl[url].clientStates[policy].requestState in c.policies[policy]
  }

  /** The blocked list names exactly the members that may not be requested. */
  lemma {:induction false} BlockedEntriesMeaning(c: Catalog, policy: string, urls: seq<string>, url: string)
    requires Covers(c, policy)
    ensures (exists e | e in BlockedEntries(c, policy, urls) :: e.scopeUrl == url)
            <==> url in urls && !Requestable(c, policy, url)
    ensures BlockedEntries(c, policy, urls) == [] <==> forall u | u in urls :: Requestable(c, policy, u)
  {
    if urls != [] {
      var init, last := urls[..|urls| - 1], urls[|urls| - 1];
      BlockedEntriesMeaning(c, policy, init, url);
      assert urls == init + [last];
      var entries, before := BlockedEntries(c, policy, urls), BlockedEntries(c, policy, init);
      var entry := BlockedEntry(c, policy, last);
      if entry.Some? {
        assert entries == before + [entry.value];
        assert entry.value in entries;
        assert last in urls && !Requestable(c, policy, last);
      } else {
        assert entries == before;
      }
    }
  }

  /** What an entry says: for an unlisted scope its url and the states that the manifest gives to unknown scopes,
      for a listed one its own id, name and explanation with its states under the policy. */
  predicate Explains(c: Catalog, policy: string, e: BlockedScope)
    requires Covers(c, policy)
  {
    if e.scopeUrl in c.byUrl then
      var scope := c.byUrl[e.scopeUrl];
      && e.scopeId == Some(scope.id) && e.displayName == scope.displayName && e.reason == scope.userCopy
      && ClientState(e.requestState, e.verificationState) == scope.clientStates[policy]
      && e.requestState !in c.policies[policy]
    else
      && e.scopeId == None && e.displayName == e.scopeUrl && e.reason == UNLISTED
      && e.requestState == c.unknownRequestState && e.verificationState == c.unknownVerificationState
  }

  function UrlsIn(entries: seq<BlockedScope>): seq<string> {
    seq(|entries|, i requires 0 <= i < |entries| => entries[i].scopeUrl)
  }

  lemma {:induction false} KnownInAppend(order: seq<string>, x: string, selected: set<string>)
    ensures KnownIn(order + [x], selected) == KnownIn(order, selected) + if x in selected then [x] else []
  {
    if order == [] {
      assert order + [x] == [x];
    } else {
      KnownInAppend(order[1..], x, selected);
      assert (order + [x])[1..] == order[1..] + [x] && (order + [x])[0] == order[0];
    }
  }

  /** One entry, with the right explanation, for each member that may not be requested, in their order. */
  lemma {:induction false} BlockedEntriesExplain(c: Catalog, policy: string, urls: seq<string>, blocked: set<string>)
    requires Covers(c, policy)
    requires forall u | u in urls :: u in blocked <==> !Requestable(c, policy, u)
    ensures forall e | e in BlockedEntries(c, policy, urls) :: Explains(c, policy, e)
    ensures UrlsIn(BlockedEntries(c, policy, urls)) == KnownIn(urls, blocked)
  {
    if urls != [] {
      var init, last := urls[..|urls| - 1], urls[|urls| - 1];
      assert urls == init + [last] && last in urls;
      BlockedEntriesExplain(c, policy, init, blocked);
      KnownInAppend(init, last, blocked);
      var before, entry := BlockedEntries(c, policy, init), BlockedEntry(c, policy, last);
      assert BlockedEntries(c, policy, urls) == if entry.Some? then before + [entry.value] else before;
      if entry.Some? {
        assert UrlsIn(before + [entry.value]) == UrlsIn(before) + [last];
      }
    }
  }

  // ---------------------------------------------------------------- resolution

  function SelectedPresets(order: seq<string>, requested: set<string>): seq<string> {
    KnownIn(order, requested)
  }

  function UrlsOf(c: Catalog, ids: seq<string>): seq<string>
    requires forall id | id in ids :: id in c.byId
  {
    seq(|ids|, i requires 0 <= i < |ids| => c.byId[ids[i]].url)
  }

  function PresetUrls(c: Catalog, presets: seq<string>): seq<string>
    requires forall p | p in presets :: PresetDefined(c, p)
  {
    if presets == [] then []
    else
      assert PresetDefined(c, presets[|presets| - 1]);
      var ids := c.presets[presets[|presets| - 1]].scopeIds;
      PresetUrls(c, presets[..|presets| - 1]) + UrlsOf(c, ids)
  }

  /** Everything the request asks for: the urls of its presets, then its explicit urls. */
  function Combined(c: Catalog, presetIds: set<string>, urls: seq<string>): seq<string>
    requires forall p | p in c.presetOrder :: PresetDefined(c, p)
  {
    PresetsKnown(c, presetIds);
    PresetUrls(c, SelectedPresets(c.presetOrder, presetIds)) + urls
  }

  lemma PresetsKnown(c: Catalog, presetIds: set<string>)
    requires forall p | p in c.presetOrder :: PresetDefined(c, p)
    ensures forall p | p in SelectedPresets(c.presetOrder, presetIds) :: PresetDefined(c, p)
  {
    forall p | p in SelectedPresets(c.presetOrder, presetIds) ensures PresetDefined(c, p) {
      KnownInMembers(c.presetOrder, presetIds, p);
    }
  }

  /** The request asks for the scope: explicitly, or through a preset of the manifest. */
  ghost predicate AskedFor(c: Catalog, presetIds: set<string>, urls: seq<string>, u: string)
    requires forall p | p in c.presetOrder :: PresetDefined(c, p)
  {
    u in urls || exists p | p in c.presetOrder && p in presetIds :: OfPreset(c, p, u)
  }

  /** The url of a scope that the preset lists. */
  ghost predicate OfPreset(c: Catalog, p: string, u: string)
    requires PresetDefined(c, p)
  {
    exists id | id in c.presets[p].scopeIds :: c.byId[id].url == u
  }

  lemma {:induction false} PresetUrlsMeans(c: Catalog, presets: seq<string>, u: string)
    requires forall p | p in presets :: PresetDefined(c, p)
    ensures u in PresetUrls(c, presets) <==> exists p | p in presets :: OfPreset(c, p, u)
  {
    if presets != [] {
      var init, last := presets[..|presets| - 1], presets[|presets| - 1];
      assert presets == init + [last] && last in presets;
      PresetUrlsMeans(c, init, u);
      var ids := c.presets[last].scopeIds;
      assert u in UrlsOf(c, ids) <==> OfPreset(c, last, u) by {
        if OfPreset(c, last, u) {
          var id :| id in ids && c.byId[id].url == u;
          var i :| 0 <= i < |ids| && ids[i] == id;
          assert UrlsOf(c, ids)[i] == u;
        }
      }
    }
  }

  /** The combined request is what is asked for, and nothing else. */
  lemma CombinedMeans(c: Catalog, presetIds: set<string>, urls: seq<string>, u: string)
    requires forall p | p in c.presetOrder :: PresetDefined(c, p)
    ensures u in Combined(c, presetIds, urls) <==> AskedFor(c, presetIds, urls, u)
  {
    PresetsKnown(c, presetIds);
    PresetUrlsMeans(c, SelectedPresets(c.presetOrder, presetIds), u);
    forall p ensures p in SelectedPresets(c.presetOrder, presetIds) <==> p in c.presetOrder && p in presetIds {
      KnownInMembers(c.presetOrder, presetIds, p);
    }
  }

  method CombineRequest(c: Catalog, presetIds: set<string>, urls: seq<string>) returns (combined: seq<string>)
    requires forall p | p in c.presetOrder :: PresetDefined(c, p)
    ensures combined == Combined(c, presetIds, urls)
    ensures forall u :: u in combined <==> AskedFor(c, presetIds, urls, u)
  {
    PresetsKnown(c, presetIds);
    var presets := SelectedPresets(c.presetOrder, presetIds);
    combined := [];
    for k := 0 to |presets|
      invariant forall p | p in presets[..k] :: PresetDefined(c, p)
      invariant combined == PresetUrls(c, presets[..k])
    {
      assert presets[k] in presets;
      assert presets[..k + 1][..k] == presets[..k];
      combined := combined + UrlsOf(c, c.presets[presets[k]].scopeIds);
    }
    assert presets[..|presets|] == presets;
    combined := combined + urls;
    forall u ensures u in Combined(c, presetIds, urls) <==> AskedFor(c, presetIds, urls, u) {
      CombinedMeans(c, presetIds, urls, u);
    }
  }

  ghost predicate ReadOnlyAll(c: Catalog, urls: seq<string>) {
    forall i | 0 <= i < |urls| :: urls[i] in c.byUrl && c.byUrl[urls[i]].readOnly
  }

  method CheckReadOnly(c: Catalog, urls: seq<string>) returns (readOnly: bool)
    ensures readOnly <==> ReadOnlyAll(c, urls)
  {
    readOnly := true;
    for k := 0 to |urls|
      invariant readOnly <==> ReadOnlyAll(c, urls[..k])
    {
      assert forall i | 0 <= i < k :: urls[..k + 1][i] == urls[..k][i];
      if urls[k] !in c.byUrl || !c.byUrl[urls[k]].readOnly {
        readOnly := false;
        assert urls[..k + 1][k] == urls[k];
      }
    }
    assert urls[..|urls|] == urls;
  }

  function AddNew(s: seq<string>, x: string): seq<string> {
    if x in s then s else s + [x]
  }

  function AddAllNew(s: seq<string>, xs: seq<string>): seq<string> {
    if xs == [] then s else AddNew(AddAllNew(s, xs[..|xs| - 1]), xs[|xs| - 1])
  }

  /** What one scope adds to the services, capabilities and labels of a resolution. */
  function ServiceOf(c: Catalog, url: string): string {
    if url in c.byUrl then c.byUrl[url].service else "google"
  }

  function CapabilitiesOf(c: Catalog, url: string): seq<string> {
    if url in c.byUrl then c.byUrl[url].capabilities else []
  }

  function LabelsOf(c: Catalog, url: string): seq<string> {
    if url in c.byUrl then [c.byUrl[url].displayName] else []
  }

  /** The values that a list of scopes adds, each once and in order of first appearance. */
  function Collected(f: string -> seq<string>, urls: seq<string>): seq<string> {
    if urls == [] then [] else AddAllNew(Collected(f, urls[..|urls| - 1]), f(urls[|urls| - 1]))
  }

  lemma {:induction false} AddAllNewMeans(s: seq<string>, xs: seq<string>, x: string)
    ensures x in AddAllNew(s, xs) <==> x in s || x in xs
    ensures NoDuplicates(s) ==> NoDuplicates(AddAllNew(s, xs))
  {
    if xs != [] {
      AddAllNewMeans(s, xs[..|xs| - 1], x);
      assert xs == xs[..|xs| - 1] + [xs[|xs| - 1]];
    }
  }

  /** Nothing is collected twice, and exactly what some scope of the list has is collected. */
  lemma {:induction false} CollectedMeans(f: string -> seq<string>, urls: seq<string>, x: string)
    ensures NoDuplicates(Collected(f, urls))
    ensures x in Collected(f, urls) <==> exists u | u in urls :: x in f(u)
  {
    if urls != [] {
      var init, last := urls[..|urls| - 1], urls[|urls| - 1];
      CollectedMeans(f, init, x);
      AddAllNewMeans(Collected(f, init), f(last), x);
      assert urls == init + [last] && last in urls;
    }
  }

  lemma {:induction false} AddAllNewGrows(s: seq<string>, xs: seq<string>, k: nat)
    requires k <= |xs|
    ensures AddAllNew(s, xs[..k]) <= AddAllNew(s, xs)
  {
    if k < |xs| {
      AddAllNewGrows(s, xs[..|xs| - 1], k);
      assert xs[..|xs| - 1][..k] == xs[..k];
    } else {
      assert xs[..k] == xs;
    }
  }

  /** First come, first: what the first scopes have comes before everything else. */
  lemma {:induction false} CollectedInOrder(f: string -> seq<string>, urls: seq<string>, k: nat)
    requires k <= |urls|
    ensures Collected(f, urls[..k]) <= Collected(f, urls)
  {
    if k < |urls| {
      var init := urls[..|urls| - 1];
      CollectedInOrder(f, init, k);
      assert init[..k] == urls[..k];
      AddAllNewGrows(Collected(f, init), f(urls[|urls| - 1]), 0);
    } else {
      assert urls[..k] == urls;
    }
  }

  /** The loop over the normalised scopes, for one of the three lists. */
  method Collect(f: string -> seq<string>, urls: seq<string>) returns (r: seq<string>)
    ensures r == Collected(f, urls)
  {
    r := [];
    for k := 0 to |urls|
      invariant r == Collected(f, urls[..k])
    {
      var xs := f(urls[k]);
      ghost var before := r;
      for j := 0 to |xs|
        invariant r == AddAllNew(before, xs[..j])
      {
        assert xs[..j + 1][..j] == xs[..j];
        if xs[j] !in r {
          r := r + [xs[j]];
        }
      }
      assert xs[..|xs|] == xs && urls[..k + 1][..k] == urls[..k];
    }
    assert urls[..|urls|] == urls;
  }

  const IDENTITY_BUNDLE := "google_workspace_identity_v1"
  const CUSTOM_BUNDLE := "google_workspace_custom_v1"

  /** Nothing asked for is identity, one preset alone is that preset, and anything else is custom. */
  function BundleAndLabel(c: Catalog, presets: seq<string>, urls: seq<string>): (string, string) {
    if presets == [] && urls == [] then (IDENTITY_BUNDLE, "Identity only")
    else if |presets| == 1 && urls == [] && presets[0] in c.presets then
      (c.presets[presets[0]].bundle, c.presets[presets[0]].displayName)
    else (CUSTOM_BUNDLE, "Custom Google access")
  }

  /** What a resolution says about its own scope urls. */
  ghost predicate Faithful(c: Catalog, policy: string, r: Resolution) {
    && Covers(c, policy)
    && r.blocked == BlockedEntries(c, policy, r.scopeUrls)
    && (r.approved <==> forall u | u in r.scopeUrls :: Requestable(c, policy, u))
    && (r.readOnly <==> ReadOnlyAll(c, r.scopeUrls))
    && r.services == Collected(u => [ServiceOf(c, u)], r.scopeUrls)
    && r.capabilities == Collected(u => CapabilitiesOf(c, u), r.scopeUrls)
    && r.scopeLabels == Collected(u => LabelsOf(c, u), r.scopeUrls)
  }

  ghost predicate AllAscii(urls: seq<string>) {
    forall u | u in urls :: IsAscii(u)
  }

  /** The scopes of a resolution are what was asked for: the canonical value of everything asked for, and every
      identity scope, is there or superseded by one that is; there is nothing else; and nothing twice. */
  ghost predicate Grants(c: Catalog, presetIds: set<string>, urls: seq<string>, scopes: seq<string>)
    requires forall p | p in c.presetOrder :: PresetDefined(c, p)
  {
    && (forall u | AskedFor(c, presetIds, urls, u) ::
          Canonicalize(c, u).Ok? && GrantedOrSuperseded(c, scopes, Canonicalize(c, u).value))
    && (forall u | u in c.identity :: GrantedOrSuperseded(c, scopes, u))
    && (forall v | v in scopes :: v in c.identity || AskedAs(c, presetIds, urls, v))
    && (forall v, w | v in scopes && w in scopes :: !Supersedes(c, v, w))
    && InOrder(c, scopes)
  }

  ghost predicate GrantedOrSuperseded(c: Catalog, scopes: seq<string>, v: string) {
    v in scopes || exists w | w in scopes :: Supersedes(c, w, v)
  }

  ghost predicate AskedAs(c: Catalog, presetIds: set<string>, urls: seq<string>, v: string)
    requires forall p | p in c.presetOrder :: PresetDefined(c, p)
  {
    exists u | AskedFor(c, presetIds, urls, u) :: Canonicalize(c, u) == Ok(v)
  }

  lemma NormalizedGrants(c: Catalog, presetIds: set<string>, urls: seq<string>)
    requires Valid(c) && Canonicalizable(c, Combined(c, presetIds, urls))
    ensures Grants(c, presetIds, urls, Normalized(c, Combined(c, presetIds, urls)).value)
  {
    var combined := Combined(c, presetIds, urls);
    var kept, selected := Normalized(c, combined).value, c.identity + CanonicalSet(c, combined);
    NormalizedIsMaximal(c, combined);
    NormalizedInOrder(c, combined);
    forall u | AskedFor(c, presetIds, urls, u)
      ensures Canonicalize(c, u).Ok? && GrantedOrSuperseded(c, kept, Canonicalize(c, u).value)
    {
      CombinedMeans(c, presetIds, urls, u);
      var i :| 0 <= i < |combined| && combined[i] == u;
      assert Canonicalize(c, combined[i]).Ok? && Canonicalize(c, combined[i]).value in selected;
    }
    forall v | v in kept ensures v in c.identity || AskedAs(c, presetIds, urls, v) {
      if v !in c.identity {
        var i :| 0 <= i < |combined| && Canonicalize(c, combined[i]) == Ok(v);
        assert combined[i] in combined;
        CombinedMeans(c, presetIds, urls, combined[i]);
      }
    }
  }

  lemma SomethingRefused(c: Catalog, presetIds: set<string>, urls: seq<string>)
    requires forall p | p in c.presetOrder :: PresetDefined(c, p)
    ensures !Canonicalizable(c, Combined(c, presetIds, urls))
            <==> exists u | AskedFor(c, presetIds, urls, u) :: Canonicalize(c, u).Err?
  {
    var combined := Combined(c, presetIds, urls);
    if !Canonicalizable(c, combined) {
      var i :| 0 <= i < |combined| && Canonicalize(c, combined[i]).Err?;
      assert combined[i] in combined;
      CombinedMeans(c, presetIds, urls, combined[i]);
    }
    if u :| AskedFor(c, presetIds, urls, u) && Canonicalize(c, u).Err? {
      CombinedMeans(c, presetIds, urls, u);
      var i :| 0 <= i < |combined| && combined[i] == u;
      assert Canonicalize(c, combined[i]).Err?;
    }
  }

  /** What the resolution is called: as its one preset if that is all there is, as identity only if nothing was
      asked for, and as custom otherwise. */
  ghost predicate Called(c: Catalog, presetIds: set<string>, urls: seq<string>, r: Resolution) {
    && (forall p :: p in r.selectedPresets <==> p in presetIds && p in c.presetOrder)
    && (forall i, j | 0 <= i < j < |r.selectedPresets| ::
          Precedes(c.presetOrder, r.selectedPresets[i], r.selectedPresets[j]))
    && (urls == [] && |r.selectedPresets| == 1 && r.selectedPresets[0] in c.presets ==>
          r.bundle == c.presets[r.selectedPresets[0]].bundle
          && r.accessLabel == c.presets[r.selectedPresets[0]].displayName)
    && (urls == [] && r.selectedPresets == [] ==>
          r.bundle == IDENTITY_BUNDLE && r.accessLabel == "Identity only")
    && (urls != [] || |r.selectedPresets| > 1 ==>
          r.bundle == CUSTOM_BUNDLE && r.accessLabel == "Custom Google access")
  }

  lemma PresetsInOrder(c: Catalog, presetIds: set<string>)
    ensures var presets := SelectedPresets(c.presetOrder, presetIds);
            && (forall p :: p in presets <==> p in presetIds && p in c.presetOrder)
            && (forall i, j | 0 <= i < j < |presets| :: Precedes(c.presetOrder, presets[i], presets[j]))
  {
    var presets := SelectedPresets(c.presetOrder, presetIds);
    KnownInOrder(c.presetOrder, presetIds);
    forall i, j | 0 <= i < j < |presets| ensures Precedes(c.presetOrder, presets[i], presets[j]) {
      assert KnownIn(c.presetOrder, presetIds)[i] == presets[i];
    }
    forall p ensures p in KnownIn(c.presetOrder, presetIds) <==> p in presetIds && p in c.presetOrder {
      KnownInMembers(c.presetOrder, presetIds, p);
    }
  }

  /** Resolution normalises the combined request, and normalises it again to list what is blocked. It
      fails on an unknown preset, then on a request that is not canonical, then on an unknown policy, and
      last on an alias that leaves a non-ASCII scope to be normalised again. */
  method ResolveScopeRequest(c: Catalog, presetIds: set<string>, urls: seq<string>, policy: string)
    returns (r: Result<Resolution>)
    requires Valid(c)
    ensures if exists p | p in presetIds :: p !in c.presets then r == Err(UnknownPreset)
            else if exists u | AskedFor(c, presetIds, urls, u) :: Canonicalize(c, u).Err? then r == Err(InvalidScope)
            else if policy !in c.policies then r == Err(UnknownPolicy)
            else if !AliasesCovered(c, Combined(c, presetIds, urls)) then r == Err(InvalidScope)
            else
              && r.Ok?
              && Normalized(c, Combined(c, presetIds, urls)) == Ok(r.value.scopeUrls)
              && Grants(c, presetIds, urls, r.value.scopeUrls)
              && Called(c, presetIds, urls, r.value)
              && Faithful(c, policy, r.value)
  {
    if p :| p in presetIds && p !in c.presets {
      return Err(UnknownPreset);
    }
    SomethingRefused(c, presetIds, urls);
    var combined := CombineRequest(c, presetIds, urls);
    var normalized := NormalizeScopeUrls(c, combined);
    if normalized.Err? {
      return Err(normalized.error);
    }
    var kept := normalized.value;
    NormalizedAgain(c, combined);
    NormalizedGrants(c, presetIds, urls);
    var blocked := BlockedScopeDetails(c, kept, policy);
    if blocked.Err? {
      return Err(blocked.error);
    }
    r := Describe(c, presetIds, urls, policy, kept, blocked.value);
  }

  /** The last part: what is said about the scopes. */
  method Describe(c: Catalog, presetIds: set<string>, urls: seq<string>, policy: string, kept: seq<string>,
                  blocked: seq<BlockedScope>)
    returns (r: Result<Resolution>)
    requires Covers(c, policy) && blocked == BlockedEntries(c, policy, kept)
    ensures r.Ok? && r.value.scopeUrls == kept && Called(c, presetIds, urls, r.value) && Faithful(c, policy, r.value)
  {
    var readOnly := CheckReadOnly(c, kept);
    BlockedEntriesMeaning(c, policy, kept, "");
    PresetsInOrder(c, presetIds);
    var presets := SelectedPresets(c.presetOrder, presetIds);
    var services := Collect(u => [ServiceOf(c, u)], kept);
    var capabilities := Collect(u => CapabilitiesOf(c, u), kept);
    var labels := Collect(u => LabelsOf(c, u), kept);
    var (bundle, title) := BundleAndLabel(c, presets, urls);
    return Ok(Resolution(kept, services, capabilities, labels, presets, blocked == [], blocked, title,
                         readOnly, bundle));
  }

  /** The second normalisation of a resolution. */
  lemma NormalizedAgain(c: Catalog, urls: seq<string>)
    requires Valid(c) && Canonicalizable(c, urls)
    ensures var kept := Normalized(c, urls).value;
            && (Canonicalizable(c, kept) <==> AliasesCovered(c, urls))
            && (Canonicalizable(c, kept) ==> Normalized(c, kept) == Ok(kept))
  {
    KeptCanonicalizable(c, urls);
    KeptAsciiIff(c, urls);
    NormalizedIdempotent(c, urls);
  }

  /** A resolution lists, once each, the services, capabilities and labels of its own scope urls. */
  lemma ResolutionDescribes(c: Catalog, policy: string, r: Resolution, x: string)
    requires Faithful(c, policy, r)
    ensures NoDuplicates(r.services) && NoDuplicates(r.capabilities) && NoDuplicates(r.scopeLabels)
    ensures x in r.services
            <==> exists u | u in r.scopeUrls :: if u in c.byUrl then x == c.byUrl[u].service else x == "google"
    ensures x in r.capabilities <==> exists u | u in r.scopeUrls && u in c.byUrl :: x in c.byUrl[u].capabilities
    ensures x in r.scopeLabels <==> exists u | u in r.scopeUrls && u in c.byUrl :: x == c.byUrl[u].displayName
  {
    CollectedMeans(u => [ServiceOf(c, u)], r.scopeUrls, x);
    CollectedMeans(u => CapabilitiesOf(c, u), r.scopeUrls, x);
    CollectedMeans(u => LabelsOf(c, u), r.scopeUrls, x);
  }

  /** The blocked list of a resolution names exactly the unlisted or disallowed members of its own
      scope urls. */
  lemma ResolutionBlocked(c: Catalog, policy: string, r: Resolution, url: string)
    requires Faithful(c, policy, r)
    ensures (exists e | e in r.blocked :: e.scopeUrl == url)
            <==> url in r.scopeUrls && !Requestable(c, policy, url)
    ensures forall e | e in r.blocked :: Explains(c, policy, e)
    ensures UrlsIn(r.blocked) == KnownIn(r.scopeUrls, set u | u in r.scopeUrls && !Requestable(c, policy, u))
  {
    BlockedEntriesMeaning(c, policy, r.scopeUrls, url);
    BlockedEntriesExplain(c, policy, r.scopeUrls, set u | u in r.scopeUrls && !Requestable(c, policy, u));
  }

  // ---------------------------------------------------------------- where absorption fails

  /** Normalising an alias of a non-ASCII scope that nothing else selected supersedes gives a result
      that normalisation itself refuses. */
  lemma AliasBreaksAbsorption(c: Catalog, alias: string, value: string)
    requires Valid(c) && Canonicalize(c, alias) == Ok(value) && !IsAscii(value)
    requires forall u | u in c.identity :: !Supersedes(c, u, value)
    ensures Canonicalizable(c, [alias])
    ensures Normalized(c, Normalized(c, [alias]).value) == Err(InvalidScope)
  {
    assert [alias][0] == alias;
    AliasKept(c, alias, value);
    KeptCanonicalizable(c, [alias]);
  }

  lemma AliasKept(c: Catalog, alias: string, value: string)
    requires Valid(c) && Canonicalize(c, alias) == Ok(value)
    requires forall u | u in c.identity :: !Supersedes(c, u, value)
    ensures Canonicalizable(c, [alias]) && value in Normalized(c, [alias]).value
  {
    assert [alias][0] == alias;
    var selected := c.identity + CanonicalSet(c, [alias]);
    SupersededMeans(c, selected, value);
    SupersedesOrder(c);
    ArrangeMembers(c, Maximal(c, selected), value);
  }
}
