/** Whether a stored message is authenticated mail of the owner. */
module OwnerMail {
  import opened Text
  import opened AuthResults

  /** A JSON value where a list is expected. */
  datatype Entries<+T> = NotAList | Entries(items: seq<T>)

  /** The parts of a message that are looked at. A sender that is not an object, and a result that is not a
      text, are None. */
  datatype Message = Message(senders: Entries<Option<string>>, fromHeaders: Entries<string>,
                             results: Entries<Option<string>>)

  datatype Reason = InvalidOwner | SenderMismatch | Results(failure: Failure)

  // ---------------------------------------------------------------- the regular expressions

  function LowerChar(ch: char): char {
    if 'A' <= ch <= 'Z' then (ch as int + 32) as char else ch
  }

  /** Equality but for the case of ASCII letters. */
  predicate Same(a: string, b: string) {
    |a| == |b| && forall i | 0 <= i < |a| :: LowerChar(a[i]) == LowerChar(b[i])
  }

  predicate Blank(s: string) {
    forall i | 0 <= i < |s| :: s[i] == ' ' || 9 <= s[i] as int <= 13
  }

  predicate WordChar(ch: char) {
    'a' <= ch <= 'z' || 'A' <= ch <= 'Z' || '0' <= ch <= '9' || ch == '_'
  }

  /** The configured server, with an optional version 1. */
  predicate NamesServer(authserv: string, c: string) {
    |authserv| <= |c| && Same(c[..|authserv|], authserv)
    && var rest := c[|authserv|..];
       rest == "" || (|rest| >= 2 && rest[|rest| - 1] == '1' && Blank(rest[..|rest| - 1]))
  }

  /** It starts with the word dmarc. */
  predicate ClaimsDmarc(c: string) {
    |c| >= 5 && Same(c[..5], "dmarc") && (|c| == 5 || !WordChar(c[5]))
  }

  predicate Policy(s: string) {
    s == ""
    || exists n | 1 <= n <= |s| ::
         && Blank(s[..n])
         && (Same(s[n..], "policy.dmarc=none") || Same(s[n..], "policy.dmarc=quarantine")
             || Same(s[n..], "policy.dmarc=reject"))
  }

  /** The one form of a pass for the domain, which may be quoted. */
  function PassText(a: string, b: string, c: string, d: string, e: string, domain: string): string {
    "dmarc" + a + "=" + b + "pass" + c + "header.from" + d + "=" + e + domain
  }

  ghost predicate PassForm(clause: string, domain: string, tail: string) {
    exists a, b, c, d, e |
      Blank(a) && Blank(b) && Blank(c) && Blank(d) && Blank(e) && c != "" ::
        Same(clause, PassText(a, b, c, d, e, domain) + tail)
  }

  ghost predicate PassesDmarc(domain: string, clause: string) {
    exists tail | Policy(tail) :: PassForm(clause, domain, tail) || PassForm(clause, "\"" + domain + "\"", tail)
  }

  lemma PassTextStarts(a: string, b: string, c: string, d: string, e: string, named: string, tail: string)
    requires Blank(a)
    ensures var text := PassText(a, b, c, d, e, named) + tail;
            |text| > 5 && text[..5] == "dmarc" && (text[5] == '=' || Blank([text[5]]))
  {
    var text := PassText(a, b, c, d, e, named) + tail;
    assert text == "dmarc" + (a + "=" + (b + "pass" + c + "header.from" + d + "=" + e + named + tail));
    assert text[5] == (if a == "" then '=' else a[0]);
  }

  lemma SameClaims(clause: string, text: string)
    requires Same(clause, text) && |text| > 5 && text[..5] == "dmarc" && (text[5] == '=' || Blank([text[5]]))
    ensures ClaimsDmarc(clause)
  {
    assert forall i | 0 <= i < 5 :: clause[..5][i] == clause[i] && text[..5][i] == text[i];
    assert Blank([text[5]]) ==> [text[5]][0] == text[5] && !WordChar(text[5]);
    assert LowerChar(clause[5]) == LowerChar(text[5]) == text[5];
  }

  lemma FormClaims(clause: string, named: string, tail: string)
    requires PassForm(clause, named, tail)
    ensures ClaimsDmarc(clause)
  {
    var a, b, c, d, e :| Blank(a) && Blank(b) && Blank(c) && Blank(d) && Blank(e) && c != ""
                         && Same(clause, PassText(a, b, c, d, e, named) + tail);
    PassTextStarts(a, b, c, d, e, named, tail);
    SameClaims(clause, PassText(a, b, c, d, e, named) + tail);
  }

  /** A clause that passes claims DMARC, so that it is the one that is counted. */
  lemma PassClaims(domain: string, clause: string)
    requires PassesDmarc(domain, clause)
    ensures ClaimsDmarc(clause)
  {
    var tail :| Policy(tail) && (PassForm(clause, domain, tail) || PassForm(clause, "\"" + domain + "\"", tail));
    if PassForm(clause, domain, tail) {
      FormClaims(clause, domain, tail);
    } else {
      FormClaims(clause, "\"" + domain + "\"", tail);
    }
  }

  // ---------------------------------------------------------------- what passes and what does not

  const PASS_FOR := "dmarc=pass header.from="

  lemma PlainPass(named: string)
    ensures PassText("", "", " ", "", "", named) == PASS_FOR + named
  {
    assert "dmarc" + "" + "=" + "" + "pass" + " " + "header.from" + "" + "=" + "" == PASS_FOR;
  }

  lemma PolicyForms(policy: string)
    requires policy in {"", " policy.dmarc=none", " policy.dmarc=quarantine", " policy.dmarc=reject"}
    ensures Policy(policy)
  {
    if policy != "" {
      assert policy[..1] == " ";
      assert policy[1..] in {"policy.dmarc=none", "policy.dmarc=quarantine", "policy.dmarc=reject"};
    }
  }

  lemma SameItself(s: string)
    ensures Same(s, s)
  {
  }

  /** The forms that the receiving server writes are accepted: plain or quoted, with each policy or with none. */
  lemma FormPasses(domain: string, named: string, policy: string)
    requires policy in {"", " policy.dmarc=none", " policy.dmarc=quarantine", " policy.dmarc=reject"}
    requires named == domain || named == "\"" + domain + "\""
    ensures PassesDmarc(domain, PASS_FOR + named + policy)
  {
    PolicyForms(policy);
    PlainPass(named);
    SameItself(PASS_FOR + named + policy);
    assert Blank("") && Blank(" ");
    assert PassForm(PASS_FOR + named + policy, named, policy);
  }

  /** So is the server's name, alone or with its version. */
  lemma ServerForms(authserv: string)
    ensures NamesServer(authserv, authserv) && NamesServer(authserv, authserv + " 1")
  {
    var one := authserv + " 1";
    assert one[..|authserv|] == authserv && one[|authserv|..] == " 1" && " 1"[..1] == " ";
    assert authserv[..|authserv|] == authserv && authserv[|authserv|..] == "";
  }

  /** Equal beginnings leave equal rests. */
  lemma SameRest(word: string, x: string, y: string)
    requires Same(word + x, word + y)
    ensures Same(x, y)
  {
    forall i | 0 <= i < |x| ensures LowerChar(x[i]) == LowerChar(y[i]) {
      assert (word + x)[|word| + i] == x[i] && (word + y)[|word| + i] == y[i];
    }
  }

  predicate Dark(s: string) {
    s != "" && !Blank([s[0]])
  }

  lemma FirstOf(x: string, y: string)
    ensures x != "" ==> (x + y)[0] == x[0]
  {
  }

  /** A gap before text that does not start with white space is empty. */
  lemma NoGap(x: string, gap: string, y: string)
    requires Dark(x) && Blank(gap) && Same(x, gap + y)
    ensures gap == "" && Same(x, y)
  {
    FirstOf(gap, y);
    assert [x[0]][0] == x[0] && LowerChar(x[0]) == LowerChar((gap + y)[0]);
    assert "" + y == y;
  }

  /** And one that has to be there is one character wide. */
  lemma OneGap(x: string, gap: string, y: string)
    requires Dark(x) && Blank(gap) && gap != "" && Same(" " + x, gap + y)
    ensures Same(x, y)
  {
    var first, more := gap[..1], gap[1..];
    assert gap + y == first + (more + y);
    forall i | 0 <= i < |x| ensures LowerChar(x[i]) == LowerChar((more + y)[i]) {
      assert (" " + x)[1 + i] == x[i] && (first + (more + y))[1 + i] == (more + y)[i];
    }
    NoGap(x, more, y);
  }

  lemma Regroup(x: string, y: string, z: string)
    ensures x + y + z == x + (y + z)
  {
  }

  /** The parts of a pass, each with what follows it. */
  lemma Nested(a: string, b: string, c: string, d: string, e: string, named: string, tail: string)
    ensures PassText(a, b, c, d, e, named) + tail
            == "dmarc" + (a + ("=" + (b + ("pass" + (c + ("header.from" + (d + ("=" + (e + (named + tail))))))))))
  {
    var n9 := e + (named + tail);
    Regroup("dmarc" + a + "=" + b + "pass" + c + "header.from" + d + "=" + e, named, tail);
    Regroup("dmarc" + a + "=" + b + "pass" + c + "header.from" + d + "=", e, named + tail);
    Regroup("dmarc" + a + "=" + b + "pass" + c + "header.from" + d, "=", n9);
    Regroup("dmarc" + a + "=" + b + "pass" + c + "header.from", d, "=" + n9);
    Regroup("dmarc" + a + "=" + b + "pass" + c, "header.from", d + ("=" + n9));
    Regroup("dmarc" + a + "=" + b + "pass", c, "header.from" + (d + ("=" + n9)));
    Regroup("dmarc" + a + "=" + b, "pass", c + ("header.from" + (d + ("=" + n9))));
    Regroup("dmarc" + a + "=", b, "pass" + (c + ("header.from" + (d + ("=" + n9)))));
    Regroup("dmarc" + a, "=", b + ("pass" + (c + ("header.from" + (d + ("=" + n9))))));
    Regroup("dmarc", a, "=" + (b + ("pass" + (c + ("header.from" + (d + ("=" + n9)))))));
  }

  lemma NestedClause(name: string)
    ensures PASS_FOR + name == "dmarc" + ("=" + ("pass" + (" " + ("header.from" + ("=" + name)))))
  {
    Nested("", "", " ", "", "", name, "");
    PlainPass(name);
    assert PASS_FOR + name + "" == PASS_FOR + name && name + "" == name && "" + name == name;
    assert "" + ("=" + name) == "=" + name;
    var rest := "pass" + (" " + ("header.from" + ("=" + name)));
    assert "" + rest == rest && "" + ("=" + rest) == "=" + rest;
  }

  /** No white space and no quotes. */
  predicate Bare(s: string) {
    s != "" && forall i | 0 <= i < |s| :: s[i] != '"' && !Blank([s[i]])
  }

  lemma Darks(rest: string)
    ensures Dark("=" + rest) && Dark("pass" + rest) && Dark("header.from" + rest) && Dark("fail" + rest)
  {
    assert ["="[0]][0] == '=' && ["p"[0]][0] == 'p' && ["h"[0]][0] == 'h' && ["f"[0]][0] == 'f';
  }

  /** In a clause for a bare name each gap is as narrow as it looks. */
  lemma GapsAreTight(name: string, a: string, b: string, c: string, d: string, e: string, rest: string)
    requires Bare(name) && Blank(a) && Blank(b) && Blank(c) && Blank(d) && Blank(e) && c != ""
    requires Same("dmarc" + ("=" + ("pass" + (" " + ("header.from" + ("=" + name))))),
                  "dmarc" + (a + ("=" + (b + ("pass" + (c + ("header.from" + (d + ("=" + (e + rest))))))))))
    ensures Same(name, rest)
  {
    var x1, y1 := "=" + name, "=" + (e + rest);
    var x2, y2 := "header.from" + x1, "header.from" + (d + y1);
    var x3, y3 := "pass" + (" " + x2), "pass" + (c + y2);
    var x4, y4 := "=" + x3, "=" + (b + y3);
    Darks(name);
    Darks(x1);
    Darks(" " + x2);
    Darks(x3);
    SameRest("dmarc", x4, a + y4);
    NoGap(x4, a, y4);
    SameRest("=", x3, b + y3);
    NoGap(x3, b, y3);
    SameRest("pass", " " + x2, c + y2);
    OneGap(x2, c, y2);
    SameRest("header.from", x1, d + y1);
    NoGap(x1, d, y1);
    SameRest("=", name, e + rest);
    NoGap(name, e, rest);
  }

  /** A pass that names a domain, bare and without more, is a pass for that domain only. */
  lemma PassIsForItsDomain(domain: string, name: string)
    requires Bare(domain) && Bare(name)
    ensures PassesDmarc(domain, PASS_FOR + name) <==> Same(name, domain)
  {
    if Same(name, domain) {
      SamePasses(domain, name);
    }
    if tail :| Policy(tail) && PassForm(PASS_FOR + name, domain, tail) {
      FormNames(domain, domain, name, tail);
    } else if tail :| Policy(tail) && PassForm(PASS_FOR + name, "\"" + domain + "\"", tail) {
      FormNames(domain, "\"" + domain + "\"", name, tail);
    }
  }

  lemma SameJoin(word: string, x: string, y: string)
    requires Same(x, y)
    ensures Same(word + x, word + y)
  {
  }

  lemma SamePasses(domain: string, name: string)
    requires Same(name, domain)
    ensures PassesDmarc(domain, PASS_FOR + name)
  {
    PlainPass(domain);
    SameJoin(PASS_FOR, name, domain);
    assert Blank("") && Blank(" ") && Policy("");
    assert PASS_FOR + domain + "" == PASS_FOR + domain;
    assert PassForm(PASS_FOR + name, domain, "");
  }

  lemma FormNames(domain: string, named: string, name: string, tail: string)
    requires Bare(domain) && Bare(name) && (named == domain || named == "\"" + domain + "\"")
    requires Policy(tail) && PassForm(PASS_FOR + name, named, tail)
    ensures named == domain && Same(name, domain)
  {
    var a, b, c, d, e :| Blank(a) && Blank(b) && Blank(c) && Blank(d) && Blank(e) && c != ""
                         && Same(PASS_FOR + name, PassText(a, b, c, d, e, named) + tail);
    Nested(a, b, c, d, e, named, tail);
    NestedClause(name);
    GapsAreTight(name, a, b, c, d, e, named + tail);
    NameAlone(domain, named, name, tail);
  }

  lemma NameAlone(domain: string, named: string, name: string, tail: string)
    requires Bare(domain) && Bare(name) && (named == domain || named == "\"" + domain + "\"")
    requires Policy(tail) && Same(name, named + tail)
    ensures named == domain && Same(name, domain)
  {
    var text := named + tail;
    FirstOf(named, tail);
    assert LowerChar(name[0]) == LowerChar(text[0]);
    if tail != "" {
      var n :| 1 <= n <= |tail| && Blank(tail[..n]);
      assert tail[..n][0] == tail[0] && text[|named|] == tail[0];
      assert LowerChar(name[|named|]) == LowerChar(tail[0]);
      assert [name[|named|]][0] == name[|named|];
      assert Blank([name[|named|]]);
    }
    assert text == named;
  }

  /** A clause that does not say pass is none, whatever follows. */
  lemma FailIsNoPass(domain: string, rest: string)
    ensures !PassesDmarc(domain, "dmarc" + ("=" + ("fail" + rest)))
  {
    forall named, tail ensures !PassForm("dmarc" + ("=" + ("fail" + rest)), named, tail) {
      FailHasNoForm(named, rest, tail);
    }
  }

  lemma FailHasNoForm(named: string, rest: string, tail: string)
    ensures !PassForm("dmarc" + ("=" + ("fail" + rest)), named, tail)
  {
    var clause := "dmarc" + ("=" + ("fail" + rest));
    if PassForm(clause, named, tail) {
      var a, b, c, d, e :| Blank(a) && Blank(b) && Blank(c) && Blank(d) && Blank(e) && c != ""
                           && Same(clause, PassText(a, b, c, d, e, named) + tail);
      Nested(a, b, c, d, e, named, tail);
      var y3 := "pass" + (c + ("header.from" + (d + ("=" + (e + (named + tail))))));
      SaysPass(rest, a, b, y3);
    }
  }

  lemma SaysPass(rest: string, a: string, b: string, y: string)
    requires Blank(a) && Blank(b) && y != "" && y[0] == 'p'
    ensures !Same("dmarc" + ("=" + ("fail" + rest)), "dmarc" + (a + ("=" + (b + y))))
  {
    FirstOf("fail", rest);
    if Same("dmarc" + ("=" + ("fail" + rest)), "dmarc" + (a + ("=" + (b + y)))) {
      Darks("fail" + rest);
      Darks(rest);
      SameRest("dmarc", "=" + ("fail" + rest), a + ("=" + (b + y)));
      NoGap("=" + ("fail" + rest), a, "=" + (b + y));
      SameRest("=", "fail" + rest, b + y);
      NoGap("fail" + rest, b, y);
    }
  }

  ghost function PatternsFor(authserv: string, domain: string): Patterns {
    Patterns(c => NamesServer(authserv, c), c => ClaimsDmarc(c), c => PassesDmarc(domain, c))
  }

  // ---------------------------------------------------------------- the verdict on a message

  /** What follows the last at sign. */
  function DomainOf(email: string): string {
    if email == "" then ""
    else if email[|email| - 1] == '@' then ""
    else DomainOf(email[..|email| - 1]) + [email[|email| - 1]]
  }

  /** The results as the scanner takes them: what is not a text has no clauses. */
  function Texts(results: Entries<Option<string>>): seq<string> {
    match results
    case NotAList => []
    case Entries(items) => seq(|items|, i requires 0 <= i < |items| => if items[i].Some? then items[i].value else "")
  }

  predicate FromOwner(m: Message, owner: string, lower: string -> string) {
    && m.senders.Entries? && |m.senders.items| == 1 && m.senders.items[0].Some?
    && lower(m.senders.items[0].value) == lower(owner)
    && m.fromHeaders.Entries? && |m.fromHeaders.items| == 1
  }

  /** None for authenticated mail of the owner, and otherwise the first reason against it. lower is
      Unicode lower-casing. */
  ghost function AuthenticationFailure(m: Message, owner: string, authserv: string, lower: string -> string)
    : (r: Option<Reason>)
  {
    if '@' !in owner || authserv == "" then Some(InvalidOwner)
    else if !FromOwner(m, owner, lower) then Some(SenderMismatch)
    else
      match ResultFailure(Texts(m.results), PatternsFor(authserv, lower(DomainOf(owner))))
      case None => None
      case Some(failure) => Some(Results(failure))
  }

  lemma NoClauses()
    ensures |Clauses("")| <= 1
  {
  }

  /** The domain of an address: there is no other at sign behind it. */
  lemma {:induction false} DomainMeans(local: string, domain: string)
    requires '@' !in domain
    ensures DomainOf(local + "@" + domain) == domain
  {
    var email := local + "@" + domain;
    if domain == "" {
      assert email[|email| - 1] == '@';
    } else {
      var init := domain[..|domain| - 1];
      DomainMeans(local, init);
      assert email[..|email| - 1] == local + "@" + init;
      assert email[|email| - 1] == domain[|domain| - 1] && domain[|domain| - 1] in domain;
      assert domain == init + [domain[|domain| - 1]];
    }
  }

  /** A message is taken for the owner's exactly if there is one sender, who is the owner, one From header and
      one result, which cuts into clauses of which the first names the server, the last is a pass for the
      owner's domain, and no other claims DMARC. */
  lemma OwnerMailMeans(m: Message, local: string, domain: string, authserv: string, lower: string -> string)
    requires '@' !in domain
    ensures AuthenticationFailure(m, local + "@" + domain, authserv, lower) == None
            <==> && authserv != ""
                 && m.senders.Entries? && |m.senders.items| == 1 && m.senders.items[0].Some?
                 && lower(m.senders.items[0].value) == lower(local + "@" + domain)
                 && m.fromHeaders.Entries? && |m.fromHeaders.items| == 1
                 && m.results.Entries? && |m.results.items| == 1 && m.results.items[0].Some?
                 && var clauses := Clauses(m.results.items[0].value);
                    var n := |clauses|;
                    && n >= 2 && NamesServer(authserv, clauses[0])
                    && PassesDmarc(lower(domain), clauses[n - 1])
                    && forall i | 1 <= i < n - 1 :: !ClaimsDmarc(clauses[i])
  {
    var owner := local + "@" + domain;
    DomainMeans(local, domain);
    assert owner[|local|] == '@';
    var values, patterns := Texts(m.results), PatternsFor(authserv, lower(domain));
    AcceptedMeans(values, patterns);
    NoClauses();
    if |values| == 1 && |Clauses(values[0])| >= 2 {
      var clauses := Clauses(values[0]);
      var last := clauses[|clauses| - 1];
      if PassesDmarc(lower(domain), last) {
        PassClaims(lower(domain), last);
      }
    }
  }

  /** Otherwise the first reason against it is told: the configuration, then the sender, then the results. */
  lemma OwnerMailReason(m: Message, owner: string, authserv: string, lower: string -> string)
    ensures var r := AuthenticationFailure(m, owner, authserv, lower);
            && (r == Some(InvalidOwner) <==> '@' !in owner || authserv == "")
            && (r == Some(SenderMismatch) <==> '@' in owner && authserv != "" && !FromOwner(m, owner, lower))
  {
  }
}
