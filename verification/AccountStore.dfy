/** The owner-only account store: one list of credentials, unique by connection and by Google account. */
module AccountStore {
  import opened Text

  datatype Grant = Grant(bundle: string, services: seq<string>, scopes: seq<string>)

  /** One saved connection. connectedAt is the time at which this Computer decrypted the grant. */
  datatype Credential = Credential(connection: string, grant: Grant, clientId: string, subject: string,
                                   email: string, connectedAt: nat, binding: nat, refreshToken: string,
                                   tokenType: string, accessToken: string, expiresAt: nat, renewal: Option<string>)

  /** The fingerprints, taken as injective: each is the fields that it digests. */
  datatype InstallPrint = InstallPrint(connection: string, grant: Grant, clientId: string, subject: string,
                                       email: string, connectedAt: nat, binding: nat)

  datatype RefreshPrint = RefreshPrint(install: InstallPrint, refreshToken: string, tokenType: string)

  datatype DisconnectPrint = DisconnectPrint(connection: string, bundle: string, clientId: string,
                                             refreshToken: string, subject: string, email: string,
                                             connectedAt: nat, binding: nat)

  function InstallGeneration(c: Credential): InstallPrint {
    InstallPrint(c.connection, c.grant, c.clientId, c.subject, c.email, c.connectedAt, c.binding)
  }

  function RefreshGeneration(c: Credential): RefreshPrint {
    RefreshPrint(InstallGeneration(c), c.refreshToken, c.tokenType)
  }

  /** Keyed by the intent's owner token in the source; only compared within one intent. */
  function DisconnectGeneration(c: Credential): DisconnectPrint {
    DisconnectPrint(c.connection, c.grant.bundle, c.clientId, c.refreshToken, c.subject, c.email,
                    c.connectedAt, c.binding)
  }

  /** Same credential but for the tokens, and same grant. */
  predicate SameLineage(c: Credential, d: Credential) {
    && c.connection == d.connection && c.grant == d.grant && c.clientId == d.clientId && c.subject == d.subject
    && c.email == d.email && c.connectedAt == d.connectedAt && c.binding == d.binding
  }

  /** What two credentials with the same fingerprint have in common: the lineage, for the install fingerprint; the
      refresh token and its type besides, for that of a refresh; and for a disconnect all of it but the type,
      with only the bundle of the grant. */
  lemma FingerprintsMean(c: Credential, d: Credential)
    ensures InstallGeneration(c) == InstallGeneration(d) <==> SameLineage(c, d)
    ensures RefreshGeneration(c) == RefreshGeneration(d)
            <==> SameLineage(c, d) && c.refreshToken == d.refreshToken && c.tokenType == d.tokenType
    ensures DisconnectGeneration(c) == DisconnectGeneration(d)
            <==> SameLineage(c, d.(grant := c.grant)) && c.grant.bundle == d.grant.bundle
                 && c.refreshToken == d.refreshToken
  {
  }

  // ---------------------------------------------------------------- what the store means

  type Accounts = map<string, Credential>

  ghost predicate Keyed(a: Accounts) {
    forall id | id in a :: a[id].connection == id
  }

  ghost predicate SubjectsUnique(a: Accounts) {
    forall x, y | x in a && y in a && x != y :: a[x].subject != a[y].subject
  }

  ghost predicate ValidAccounts(a: Accounts) {
    Keyed(a) && SubjectsUnique(a)
  }

  /** The guard of an added connection. */
  ghost predicate AddAllowed(a: Accounts, c: Credential) {
    c.connection !in a && forall id | id in a :: a[id].subject != c.subject
  }

  /** The guard of a replaced connection: the same account under the same id. */
  predicate ReplaceAllowed(a: Accounts, target: string, c: Credential) {
    c.connection == target && target in a && a[target].subject == c.subject
  }

  /** The one token type that a normalised credential or a refresh answer has. */
  const BEARER := "Bearer"

  /** New tokens for an unchanged connection. */
  function Refreshed(c: Credential, accessToken: string, expiresAt: nat, rotated: Option<string>): Credential {
    c.(accessToken := accessToken, expiresAt := expiresAt, tokenType := BEARER,
       refreshToken := if rotated.Some? then rotated.value else c.refreshToken)
  }

  /** A refresh keeps the install lineage and the connection time, whatever it rotates. */
  lemma RefreshKeepsLineage(c: Credential, accessToken: string, expiresAt: nat, rotated: Option<string>)
    ensures var r := Refreshed(c, accessToken, expiresAt, rotated);
            && r.accessToken == accessToken && r.expiresAt == expiresAt && r.tokenType == BEARER
            && r.refreshToken == (if rotated.Some? then rotated.value else c.refreshToken)
            && r.(accessToken := c.accessToken, expiresAt := c.expiresAt, tokenType := c.tokenType,
                  refreshToken := c.refreshToken) == c
            && InstallGeneration(r) == InstallGeneration(c)
            && (DisconnectGeneration(r) == DisconnectGeneration(c)
                <==> rotated.None? || rotated.value == c.refreshToken)
            && (RefreshGeneration(r) == RefreshGeneration(c)
                <==> (rotated.None? || rotated.value == c.refreshToken) && c.tokenType == BEARER)
  {
  }

  // ---------------------------------------------------------------- operations on the store

  /** What the lock sections do to the store; the save itself refuses a repeated id or subject. */
  datatype Op =
    | Add(c: Credential)
    | Replace(target: string, c: Credential)
    | Refresh(expected: Credential, accessToken: string, expiresAt: nat, rotated: Option<string>)
    | MarkRenewal(expected: Credential, note: string)
    | Delete(id: string)
    | DeleteAll

  datatype Outcome = Saved | Refused | SaveFailed

  /** The account that the store holds is still the one that was read before. */
  predicate Unchanged(a: Accounts, expected: Credential) {
    expected.connection in a && RefreshGeneration(a[expected.connection]) == RefreshGeneration(expected)
  }

  ghost predicate Guarded(a: Accounts, op: Op) {
    match op
    case Add(c) => AddAllowed(a, c)
    case Replace(target, c) => ReplaceAllowed(a, target, c)
    case Refresh(expected, _, _, _) => Unchanged(a, expected)
    case MarkRenewal(expected, _) => Unchanged(a, expected)
    case Delete(id) => id in a
    case DeleteAll => true
  }

  /** The store that the operation asks to save. */
  function Proposed(a: Accounts, op: Op): Accounts {
    match op
    case Add(c) => a[c.connection := c]
    case Replace(_, c) => a[c.connection := c]
    case Refresh(e, accessToken, expiresAt, rotated) =>
      if e.connection in a then a[e.connection := Refreshed(a[e.connection], accessToken, expiresAt, rotated)] else a
    case MarkRenewal(e, note) =>
      if e.connection in a then a[e.connection := a[e.connection].(renewal := Some(note))] else a
    case Delete(id) => a - {id}
    case DeleteAll => map[]
  }

  ghost function Result(a: Accounts, op: Op): Outcome {
    if !Guarded(a, op) then Refused else if SubjectsUnique(Proposed(a, op)) then Saved else SaveFailed
  }

  ghost function AfterOp(a: Accounts, op: Op): Accounts {
    if Result(a, op) == Saved then Proposed(a, op) else a
  }

  function Touched(op: Op): string {
    match op
    case Add(c) => c.connection
    case Replace(_, c) => c.connection
    case Refresh(expected, _, _, _) => expected.connection
    case MarkRenewal(expected, _) => expected.connection
    case Delete(id) => id
    case DeleteAll => ""
  }

  /** On a valid store the guards are enough: a guarded operation never fails to save, keeps the store
      valid, and changes no other account. */
  lemma GuardsSuffice(a: Accounts, op: Op)
    requires ValidAccounts(a)
    ensures Result(a, op) != SaveFailed
    ensures ValidAccounts(AfterOp(a, op))
    ensures !op.DeleteAll? ==>
              forall id | id != Touched(op) :: (id in AfterOp(a, op) <==> id in a)
                                             && (id in a ==> AfterOp(a, op)[id] == a[id])
  {
  }

  ghost function RunOps(a: Accounts, ops: seq<Op>): Accounts
    decreases ops
  {
    if ops == [] then a else RunOps(AfterOp(a, ops[0]), ops[1..])
  }

  ghost predicate SomeSaveFails(a: Accounts, ops: seq<Op>)
    decreases ops
  {
    ops != [] && (Result(a, ops[0]) == SaveFailed || SomeSaveFails(AfterOp(a, ops[0]), ops[1..]))
  }

  /** Every store reachable from an empty one is valid, and no save on the way failed. */
  lemma {:induction false} ReachableStoresValid(a: Accounts, ops: seq<Op>)
    requires ValidAccounts(a)
    ensures ValidAccounts(RunOps(a, ops)) && !SomeSaveFails(a, ops)
    decreases ops
  {
    if ops != [] {
      GuardsSuffice(a, ops[0]);
      ReachableStoresValid(AfterOp(a, ops[0]), ops[1..]);
    }
  }

  // ---------------------------------------------------------------- the stored list

  predicate DistinctIds(s: seq<Credential>) {
    forall i, j | 0 <= i < j < |s| :: s[i].connection != s[j].connection
  }

  predicate DistinctSubjects(s: seq<Credential>) {
    forall i, j | 0 <= i < j < |s| :: s[i].subject != s[j].subject
  }

  /** The list as the map it stands for. */
  function AsAccounts(s: seq<Credential>): Accounts {
    if s == [] then map[] else AsAccounts(s[..|s| - 1])[s[|s| - 1].connection := s[|s| - 1]]
  }

  lemma {:induction false} AsAccountsMeans(s: seq<Credential>)
    requires DistinctIds(s)
    ensures forall i | 0 <= i < |s| :: s[i].connection in AsAccounts(s) && AsAccounts(s)[s[i].connection] == s[i]
    ensures forall id | id in AsAccounts(s) :: exists i | 0 <= i < |s| :: s[i].connection == id
    ensures Keyed(AsAccounts(s))
  {
    if s != [] {
      AsAccountsMeans(s[..|s| - 1]);
    }
  }

  lemma SubjectsOfList(s: seq<Credential>)
    requires DistinctIds(s)
    ensures DistinctSubjects(s) <==> SubjectsUnique(AsAccounts(s))
  {
    AsAccountsMeans(s);
    var a := AsAccounts(s);
    if DistinctSubjects(s) {
      forall x, y | x in a && y in a && x != y ensures a[x].subject != a[y].subject {
        var i :| 0 <= i < |s| && s[i].connection == x;
        var j :| 0 <= j < |s| && s[j].connection == y;
        assert if i < j then s[i].subject != s[j].subject else s[j].subject != s[i].subject;
      }
    } else {
      var i, j :| 0 <= i < j < |s| && s[i].subject == s[j].subject;
      assert s[i].connection != s[j].connection;
    }
  }

  lemma UpdatesCommute(a: Accounts, c: Credential, d: Credential)
    requires c.connection != d.connection
    ensures a[c.connection := c][d.connection := d] == a[d.connection := d][c.connection := c]
  {
  }

  lemma UpdateKeepsDistinct(s: seq<Credential>, k: nat, c: Credential)
    requires DistinctIds(s) && k < |s| && s[k].connection == c.connection
    ensures DistinctIds(s[k := c])
  {
    assert forall i | 0 <= i < |s| :: s[k := c][i].connection == s[i].connection;
  }

  lemma {:induction false} UpdateInList(s: seq<Credential>, k: nat, c: Credential)
    requires DistinctIds(s) && k < |s| && s[k].connection == c.connection
    ensures DistinctIds(s[k := c])
    ensures AsAccounts(s[k := c]) == AsAccounts(s)[c.connection := c]
  {
    var t, n := s[k := c], |s| - 1;
    UpdateKeepsDistinct(s, k, c);
    if k == n {
      assert t[..n] == s[..n];
    } else {
      UpdateInList(s[..n], k, c);
      assert t[..n] == s[..n][k := c];
      UpdatesCommute(AsAccounts(s[..n]), c, s[n]);
    }
  }

  /** The list comprehension that drops one id. */
  function Without(s: seq<Credential>, id: string): seq<Credential> {
    if s == [] then []
    else Without(s[..|s| - 1], id) + if s[|s| - 1].connection == id then [] else [s[|s| - 1]]
  }

  lemma {:induction false} WithoutMembers(s: seq<Credential>, id: string, c: Credential)
    ensures c in Without(s, id) <==> c in s && c.connection != id
  {
    if s != [] {
      WithoutMembers(s[..|s| - 1], id, c);
      assert s == s[..|s| - 1] + [s[|s| - 1]];
    }
  }

  lemma {:induction false} WithoutDistinct(s: seq<Credential>, id: string)
    requires DistinctIds(s) && DistinctSubjects(s)
    ensures DistinctIds(Without(s, id)) && DistinctSubjects(Without(s, id))
  {
    if s != [] {
      var init, last := s[..|s| - 1], s[|s| - 1];
      WithoutDistinct(init, id);
      var rest := Without(init, id);
      forall i | 0 <= i < |rest| ensures rest[i].connection != last.connection && rest[i].subject != last.subject {
        WithoutMembers(init, id, rest[i]);
        var j :| 0 <= j < |init| && init[j] == rest[i];
        assert s[j] == rest[i];
      }
      assert rest + [] == rest;
    }
  }

  lemma PutThenRemove(a: Accounts, c: Credential, id: string)
    ensures a[c.connection := c] - {id} == if c.connection == id then a - {id} else (a - {id})[c.connection := c]
  {
  }

  lemma AsAccountsAppend(s: seq<Credential>, c: Credential)
    ensures AsAccounts(s + [c]) == AsAccounts(s)[c.connection := c]
  {
    assert (s + [c])[..|s|] == s;
  }

  lemma {:induction false} WithoutView(s: seq<Credential>, id: string)
    ensures AsAccounts(Without(s, id)) == AsAccounts(s) - {id}
  {
    if s != [] {
      var init, last := s[..|s| - 1], s[|s| - 1];
      WithoutView(init, id);
      PutThenRemove(AsAccounts(init), last, id);
      if last.connection != id {
        AsAccountsAppend(Without(init, id), last);
      } else {
        assert Without(init, id) + [] == Without(init, id);
      }
    }
  }

  lemma {:induction false} WithoutLength(s: seq<Credential>, id: string)
    ensures |Without(s, id)| <= |s|
    ensures |Without(s, id)| == |s| <==> id !in AsAccounts(s)
  {
    if s != [] {
      WithoutLength(s[..|s| - 1], id);
    }
  }

  // ---------------------------------------------------------------- the stored document

  /** Checking and normalising one entry; None raises. */
  type Normaliser = Credential -> Option<Credential>

  /** A normalised entry is normalised as it is. */
  ghost predicate Stable(normal: Normaliser) {
    forall c :: normal(c).Some? ==> normal(normal(c).value) == normal(c)
  }

  function NormalAll(normal: Normaliser, accounts: seq<Credential>): (r: Option<seq<Credential>>)
    ensures r.Some? <==> forall i | 0 <= i < |accounts| :: normal(accounts[i]).Some?
    ensures r.Some? ==> |r.value| == |accounts|
                        && forall i | 0 <= i < |accounts| :: normal(accounts[i]) == Some(r.value[i])
  {
    if accounts == [] then Some([])
    else
      var n := |accounts| - 1;
      match (NormalAll(normal, accounts[..n]), normal(accounts[n]))
      case (Some(init), Some(last)) => Some(init + [last])
      case _ => None
  }

  function InsertById(s: seq<Credential>, c: Credential): seq<Credential> {
    if s == [] || Before(c.connection, s[0].connection) then [c] + s else [s[0]] + InsertById(s[1..], c)
  }

  /** sorted, by connection id. */
  function SortById(s: seq<Credential>): seq<Credential> {
    if s == [] then [] else InsertById(SortById(s[..|s| - 1]), s[|s| - 1])
  }

  /** In strict order of their ids, so that they are distinct. */
  predicate Ascending(s: seq<Credential>) {
    forall i, j | 0 <= i < j < |s| :: Before(s[i].connection, s[j].connection)
  }

  /** The document that is written, and that a stored list is read as. */
  function Document(normal: Normaliser, accounts: seq<Credential>): Option<seq<Credential>> {
    match NormalAll(normal, accounts)
    case None => None
    case Some(all) => if DistinctIds(all) && DistinctSubjects(all) then Some(SortById(all)) else None
  }

  lemma {:induction false} InsertMembers(s: seq<Credential>, c: Credential, x: Credential)
    ensures x in InsertById(s, c) <==> x in s || x == c
  {
    if s != [] && !Before(c.connection, s[0].connection) {
      InsertMembers(s[1..], c, x);
      assert s == [s[0]] + s[1..];
    }
  }

  lemma {:induction false} SortMembers(s: seq<Credential>, x: Credential)
    ensures x in SortById(s) <==> x in s
  {
    if s != [] {
      SortMembers(s[..|s| - 1], x);
      InsertMembers(SortById(s[..|s| - 1]), s[|s| - 1], x);
      assert s == s[..|s| - 1] + [s[|s| - 1]];
    }
  }

  lemma {:induction false} InsertAscends(s: seq<Credential>, c: Credential)
    requires Ascending(s) && forall i | 0 <= i < |s| :: s[i].connection != c.connection
    ensures Ascending(InsertById(s, c))
  {
    if s == [] {
    } else if Before(c.connection, s[0].connection) {
      forall j | 1 <= j < |s| ensures Before(c.connection, s[j].connection) {
        BeforeTransitive(c.connection, s[0].connection, s[j].connection);
      }
    } else {
      InsertAscends(s[1..], c);
      var rest := InsertById(s[1..], c);
      forall j | 0 <= j < |rest| ensures Before(s[0].connection, rest[j].connection) {
        InsertMembers(s[1..], c, rest[j]);
        BeforeTotal(c.connection, s[0].connection);
      }
    }
  }

  lemma {:induction false} SortAscends(s: seq<Credential>)
    requires DistinctIds(s)
    ensures Ascending(SortById(s))
  {
    if s != [] {
      var init, last := s[..|s| - 1], s[|s| - 1];
      SortAscends(init);
      forall i | 0 <= i < |SortById(init)| ensures SortById(init)[i].connection != last.connection {
        SortMembers(init, SortById(init)[i]);
      }
      InsertAscends(SortById(init), last);
    }
  }

  lemma AscendingDistinct(s: seq<Credential>)
    requires Ascending(s)
    ensures DistinctIds(s)
  {
    forall i, j | 0 <= i < j < |s| ensures s[i].connection != s[j].connection {
      BeforeTotal(s[i].connection, s[j].connection);
    }
  }

  lemma HeadLeast(s: seq<Credential>, x: Credential)
    requires Ascending(s) && x in s
    ensures x == s[0] || Before(s[0].connection, x.connection)
  {
    var i :| 0 <= i < |s| && s[i] == x;
  }

  /** An ascending list is determined by its entries. */
  lemma {:induction false} AscendingUnique(a: seq<Credential>, b: seq<Credential>)
    requires Ascending(a) && Ascending(b) && forall x :: x in a <==> x in b
    ensures a == b
  {
    assert forall i | 0 <= i < |b| :: b[i] in a;
    assert forall i | 0 <= i < |a| :: a[i] in b;
    if a != [] && b != [] {
      HeadLeast(b, a[0]);
      HeadLeast(a, b[0]);
      BeforeTotal(a[0].connection, b[0].connection);
      AscendingDistinct(a);
      AscendingDistinct(b);
      forall x ensures x in a[1..] <==> x in b[1..] {
        TailMembers(a, x);
        TailMembers(b, x);
      }
      AscendingUnique(a[1..], b[1..]);
      assert a == [a[0]] + a[1..] && b == [b[0]] + b[1..];
    }
  }

  lemma TailMembers(s: seq<Credential>, x: Credential)
    requires s != [] && DistinctIds(s)
    ensures x in s[1..] <==> x in s && x != s[0]
  {
    assert s == [s[0]] + s[1..];
    if x in s[1..] {
      var i :| 0 <= i < |s[1..]| && s[1..][i] == x;
      assert s[i + 1] == x;
    }
  }

  /** Lists with the same entries stand for the same accounts. */
  lemma SameAccounts(a: seq<Credential>, b: seq<Credential>)
    requires DistinctIds(a) && DistinctIds(b) && forall x :: x in a <==> x in b
    ensures AsAccounts(a) == AsAccounts(b)
  {
    AsAccountsMeans(a);
    AsAccountsMeans(b);
    forall id | id in AsAccounts(a) ensures id in AsAccounts(b) && AsAccounts(b)[id] == AsAccounts(a)[id] {
      var i :| 0 <= i < |a| && a[i].connection == id;
      assert a[i] in b;
      var j :| 0 <= j < |b| && b[j] == a[i];
    }
    forall id | id in AsAccounts(b) ensures id in AsAccounts(a) {
      var j :| 0 <= j < |b| && b[j].connection == id;
      assert b[j] in a;
      var i :| 0 <= i < |a| && a[i] == b[j];
    }
  }

  lemma SameSubjects(a: seq<Credential>, b: seq<Credential>)
    requires DistinctIds(a) && DistinctIds(b) && (forall x :: x in a <==> x in b) && DistinctSubjects(a)
    ensures DistinctSubjects(b)
  {
    SameAccounts(a, b);
    SubjectsOfList(a);
    SubjectsOfList(b);
  }

  predicate AllNormal(normal: Normaliser, s: seq<Credential>) {
    forall i | 0 <= i < |s| :: normal(s[i]) == Some(s[i])
  }

  lemma NormalFixed(normal: Normaliser, s: seq<Credential>)
    requires AllNormal(normal, s)
    ensures NormalAll(normal, s) == Some(s)
  {
    var all := NormalAll(normal, s).value;
    assert forall i | 0 <= i < |s| :: all[i] == s[i];
    assert all == s;
  }

  lemma SortMeans(s: seq<Credential>)
    requires DistinctIds(s)
    ensures Ascending(SortById(s)) && DistinctIds(SortById(s)) && forall x :: x in SortById(s) <==> x in s
    ensures AsAccounts(SortById(s)) == AsAccounts(s)
    ensures DistinctSubjects(s) ==> DistinctSubjects(SortById(s))
  {
    SortAscends(s);
    AscendingDistinct(SortById(s));
    forall x ensures x in SortById(s) <==> x in s {
      SortMembers(s, x);
    }
    SameAccounts(SortById(s), s);
    if DistinctSubjects(s) {
      SameSubjects(s, SortById(s));
    }
  }

  /** Round trip: a written document is read back as it is. */
  lemma DocumentReadsBack(normal: Normaliser, accounts: seq<Credential>)
    requires Stable(normal) && Document(normal, accounts).Some?
    ensures var written := Document(normal, accounts).value;
            Document(normal, written) == Some(written) && AllNormal(normal, written)
  {
    var all := NormalAll(normal, accounts).value;
    var written := SortById(all);
    SortMeans(all);
    forall i | 0 <= i < |written| ensures normal(written[i]) == Some(written[i]) {
      assert written[i] in all;
      var j :| 0 <= j < |all| && all[j] == written[i];
      assert normal(accounts[j]) == Some(all[j]);
    }
    NormalFixed(normal, written);
    SortMeans(written);
    AscendingUnique(SortById(written), written);
  }

  /** The order of the list does not matter: the same entries are written as the same document. */
  lemma DocumentIgnoresOrder(normal: Normaliser, a: seq<Credential>, b: seq<Credential>)
    requires AllNormal(normal, a) && AllNormal(normal, b) && DistinctIds(a) && DistinctIds(b)
    requires forall x :: x in a <==> x in b
    ensures Document(normal, a) == Document(normal, b)
  {
    NormalFixed(normal, a);
    NormalFixed(normal, b);
    SortMeans(a);
    SortMeans(b);
    AscendingUnique(SortById(a), SortById(b));
    if DistinctSubjects(a) {
      SameSubjects(a, b);
    } else if DistinctSubjects(b) {
      SameSubjects(b, a);
    }
  }

  lemma NormalUpdate(normal: Normaliser, s: seq<Credential>, c: Credential, k: nat)
    requires AllNormal(normal, s) && normal(c) == Some(c) && k < |s|
    ensures AllNormal(normal, s[k := c])
  {
    var r := s[k := c];
    forall i | 0 <= i < |r| ensures normal(r[i]) == Some(r[i]) {
      assert i != k ==> r[i] == s[i];
    }
  }

  lemma NormalAppend(normal: Normaliser, s: seq<Credential>, c: Credential)
    requires AllNormal(normal, s) && normal(c) == Some(c)
    ensures AllNormal(normal, s + [c])
  {
    var r := s + [c];
    forall i | 0 <= i < |r| ensures normal(r[i]) == Some(r[i]) {
      assert i < |s| ==> r[i] == s[i];
    }
  }

  lemma AppendDistinct(s: seq<Credential>, c: Credential)
    requires DistinctIds(s) && forall i | 0 <= i < |s| :: s[i].connection != c.connection
    ensures DistinctIds(s + [c]) && AsAccounts(s + [c]) == AsAccounts(s)[c.connection := c]
  {
    AsAccountsAppend(s, c);
    var r := s + [c];
    assert forall i | 0 <= i < |s| :: r[i] == s[i];
  }

  class AccountFile {
    const normal: Normaliser
    var stored: seq<Credential>

    constructor (normal: Normaliser)
      ensures stored == [] && this.normal == normal
      ensures Stable(normal) ==> Valid()
    {
      this.normal, stored := normal, [];
    }

    /** The file reads back as it is. */
    ghost predicate Valid()
      reads this
    {
      Stable(normal) && AllNormal(normal, stored) && Ascending(stored) && DistinctIds(stored)
      && DistinctSubjects(stored) && Document(normal, stored) == Some(stored)
    }

    ghost function View(): Accounts
      reads this
    {
      AsAccounts(stored)
    }

    /** The save normalises, refuses a list with a repeated id or subject, and sorts by id; a list that is
        refused leaves the file alone. */
    method SaveAccounts(accounts: seq<Credential>) returns (ok: bool)
      requires Valid()
      modifies this
      ensures Valid()
      ensures ok <==> Document(normal, accounts).Some?
      ensures stored == if ok then Document(normal, accounts).value else old(stored)
      ensures AllNormal(normal, accounts) ==>
                && (ok <==> DistinctIds(accounts) && DistinctSubjects(accounts))
                && (ok ==> View() == AsAccounts(accounts))
    {
      if AllNormal(normal, accounts) {
        NormalFixed(normal, accounts);
      }
      var checked := NormalAll(normal, accounts);
      if checked.None? {
        return false;
      }
      ok := AllDistinct(checked.value);
      if ok {
        stored := SortById(checked.value);
        SortMeans(checked.value);
        DocumentReadsBack(normal, accounts);
      }
    }

    /** The loop over the ids and subjects. */
    static method AllDistinct(accounts: seq<Credential>) returns (ok: bool)
      ensures ok <==> DistinctIds(accounts) && DistinctSubjects(accounts)
    {
      var ids: set<string>, subjects: set<string> := {}, {};
      for k := 0 to |accounts|
        invariant forall x :: x in ids <==> exists i | 0 <= i < k :: accounts[i].connection == x
        invariant forall x :: x in subjects <==> exists i | 0 <= i < k :: accounts[i].subject == x
        invariant DistinctIds(accounts[..k]) && DistinctSubjects(accounts[..k])
      {
        var c := accounts[k];
        if c.connection in ids || c.subject in subjects {
          return false;
        }
        ids, subjects := ids + {c.connection}, subjects + {c.subject};
      }
      assert accounts[..|accounts|] == accounts;
      return true;
    }

    /** The upsert loop: replace the first entry with the id, or append. */
    method Upserted(c: Credential) returns (accounts: seq<Credential>)
      requires Valid() && normal(c) == Some(c)
      ensures DistinctIds(accounts) && AllNormal(normal, accounts)
      ensures AsAccounts(accounts) == View()[c.connection := c]
    {
      for index := 0 to |stored|
        invariant forall i | 0 <= i < index :: stored[i].connection != c.connection
      {
        if stored[index].connection == c.connection {
          UpdateInList(stored, index, c);
          NormalUpdate(normal, stored, c, index);
          return stored[index := c];
        }
      }
      AppendDistinct(stored, c);
      NormalAppend(normal, stored, c);
      accounts := stored + [c];
    }

    /** One credential is normalised and set; one that is not in order, or would repeat a subject, is refused. */
    method SaveCredential(c: Credential) returns (ok: bool)
      requires Valid()
      modifies this
      ensures Valid()
      ensures ok <==> normal(c).Some?
                      && SubjectsUnique(old(View())[normal(c).value.connection := normal(c).value])
      ensures View() == if ok then old(View())[normal(c).value.connection := normal(c).value] else old(View())
    {
      if normal(c).None? {
        return false;
      }
      var accounts := Upserted(normal(c).value);
      SubjectsOfList(accounts);
      ok := SaveAccounts(accounts);
    }

    /** Remove one connection, or raise when it is not there. */
    method DeleteConnection(id: string) returns (ok: bool)
      requires Valid()
      modifies this
      ensures Valid()
      ensures ok <==> id in old(View())
      ensures View() == old(View()) - {id}
    {
      var remaining := Remaining(id);
      WithoutDistinct(stored, id);
      WithoutView(stored, id);
      WithoutLength(stored, id);
      if |remaining| == |stored| {
        assert View() - {id} == View();
        return false;
      }
      forall i | 0 <= i < |remaining| ensures normal(remaining[i]) == Some(remaining[i]) {
        WithoutMembers(stored, id, remaining[i]);
      }
      if remaining == [] {
        stored := [];
      } else {
        var saved := SaveAccounts(remaining);
      }
      return true;
    }

    /** The list comprehension. */
    method Remaining(id: string) returns (remaining: seq<Credential>)
      ensures remaining == Without(stored, id)
    {
      remaining := [];
      for k := 0 to |stored|
        invariant remaining == Without(stored[..k], id)
      {
        assert stored[..k + 1][..k] == stored[..k];
        if stored[k].connection != id {
          remaining := remaining + [stored[k]];
        }
      }
      assert stored[..|stored|] == stored;
    }

    /** The guard of an added connection, as the any() over the accounts. */
    method MayAdd(c: Credential) returns (allowed: bool)
      requires Valid()
      ensures allowed <==> AddAllowed(View(), c)
    {
      AsAccountsMeans(stored);
      for k := 0 to |stored|
        invariant forall i | 0 <= i < k :: stored[i].connection != c.connection && stored[i].subject != c.subject
      {
        if stored[k].subject == c.subject || stored[k].connection == c.connection {
          return false;
        }
      }
      return true;
    }
  }
}
