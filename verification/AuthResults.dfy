/** The Authentication-Results scanner and the verdict drawn from it (section 2.2 of RFC 8601, with
    the quoted strings and nested comments of sections 3.2.4 and 3.2.2 of RFC 5322). */
module AuthResults {
  import opened Text

  const MAX_AUTH_HEADER_CHARS := 16384

  /** Where the scanner stands: inside how many comments, inside quotes, just after a backslash. */
  datatype Scan = Scan(depth: nat, quoted: bool, escaped: bool)

  const START := Scan(0, false, false)

  predicate Control(ch: char) {
    ch as int < 32 && ch != '\r' && ch != '\n' && ch != '\t'
  }

  /** One character; None rejects the header. */
  function Step(s: Scan, ch: char): Option<Scan> {
    if Control(ch) then None
    else if s.escaped then Some(s.(escaped := false))
    else if ch == '\\' && (s.quoted || s.depth > 0) then Some(s.(escaped := true))
    else if ch == '"' && s.depth == 0 then Some(s.(quoted := !s.quoted))
    else if s.quoted then Some(s)
    else if ch == '(' then Some(s.(depth := s.depth + 1))
    else if ch == ')' then if s.depth == 0 then None else Some(s.(depth := s.depth - 1))
    else Some(s)
  }

  /** A semicolon ends a clause only outside quotes, comments and escapes. */
  predicate Cuts(s: Scan, ch: char) {
    s == START && ch == ';'
  }

  function Prepend(head: seq<string>, rest: Option<seq<string>>): Option<seq<string>> {
    match rest
    case None => None
    case Some(tail) => Some(head + tail)
  }

  /** The untrimmed segments of the text still to be read, given the segment being collected. */
  function Segments(text: string, s: Scan, current: string): Option<seq<string>> {
    if text == "" then if s == START then Some([current]) else None
    else
      match Step(s, text[0])
      case None => None
      case Some(next) =>
        if Cuts(s, text[0]) then Prepend([current], Segments(text[1..], next, ""))
        else Segments(text[1..], next, current + [text[0]])
  }

  function StripAll(segments: seq<string>): (r: seq<string>)
    ensures |r| == |segments| && forall i | 0 <= i < |r| :: r[i] == Strip(segments[i])
  {
    seq(|segments|, i requires 0 <= i < |segments| => Strip(segments[i]))
  }

  function Clauses(value: string): seq<string> {
    if |value| > MAX_AUTH_HEADER_CHARS then []
    else
      match Segments(value, START, "")
      case None => []
      case Some(segments) => StripAll(segments)
  }

  /** After index characters: the segments completed, and the rest still to be found from here. */
  ghost predicate Reading(value: string, segments: seq<string>, index: nat, start: nat, s: Scan)
    requires start <= index <= |value|
  {
    Segments(value, START, "") == Prepend(segments, Segments(value[index..], s, value[start..index]))
  }

  lemma ReadingStarts(value: string)
    ensures Reading(value, [], 0, 0, START)
  {
    assert value[0..] == value && value[0..0] == "";
    PrependNothing(Segments(value, START, ""));
  }

  lemma ReadOn(value: string, segments: seq<string>, index: nat, start: nat, s: Scan)
    requires start <= index < |value| && Reading(value, segments, index, start, s)
    ensures match Step(s, value[index])
            case None => Clauses(value) == []
            case Some(next) =>
              if Cuts(s, value[index])
              then Reading(value, segments + [value[start..index]], index + 1, index + 1, next)
              else Reading(value, segments, index + 1, start, next)
  {
    var rest := value[index..];
    assert rest[0] == value[index] && rest[1..] == value[index + 1..];
    if Step(s, value[index]).Some? {
      if Cuts(s, value[index]) {
        var next := Step(s, value[index]).value;
        assert value[index + 1..index + 1] == "";
        PrependTwice(segments, [value[start..index]], Segments(rest[1..], next, ""));
      } else {
        assert value[start..index] + [value[index]] == value[start..index + 1];
      }
    }
  }

  /** The scanning loop. The length limit counts characters, although its name says bytes. */
  method AuthClauses(value: string) returns (clauses: seq<string>)
    ensures clauses == Clauses(value)
  {
    if |value| > MAX_AUTH_HEADER_CHARS {
      return [];
    }
    clauses := [];
    var start, depth, quoted, escaped := 0, 0, false, false;
    ghost var segments: seq<string> := [];
    ReadingStarts(value);
    for index := 0 to |value|
      invariant 0 <= start <= index && depth >= 0
      invariant clauses == StripAll(segments)
      invariant Reading(value, segments, index, start, Scan(depth, quoted, escaped))
    {
      var ch := value[index];
      ReadOn(value, segments, index, start, Scan(depth, quoted, escaped));
      if Control(ch) {
        return [];
      }
      if escaped {
        escaped := false;
      } else if ch == '\\' && (quoted || depth > 0) {
        escaped := true;
      } else if ch == '"' && depth == 0 {
        quoted := !quoted;
      } else if !quoted {
        if ch == '(' {
          depth := depth + 1;
        } else if ch == ')' {
          if depth == 0 {
            return [];
          }
          depth := depth - 1;
        } else if ch == ';' && depth == 0 {
          clauses := clauses + [Strip(value[start..index])];
          segments := segments + [value[start..index]];
          start := index + 1;
        }
      }
    }
    assert value[|value|..] == "" && value[start..|value|] == value[start..];
    if depth > 0 || quoted || escaped {
      return [];
    }
    clauses := clauses + [Strip(value[start..])];
    assert clauses == StripAll(segments + [value[start..]]);
  }

  lemma PrependNothing(rest: Option<seq<string>>)
    ensures Prepend([], rest) == rest
  {
    if rest.Some? {
      assert [] + rest.value == rest.value;
    }
  }

  lemma PrependTwice(a: seq<string>, b: seq<string>, rest: Option<seq<string>>)
    ensures Prepend(a, Prepend(b, rest)) == Prepend(a + b, rest)
  {
    if rest.Some? {
      assert a + (b + rest.value) == (a + b) + rest.value;
    }
  }

  /** Reading w from s ends outside everything and passes no top-level semicolon. */
  ghost predicate Uncut(w: string, s: Scan) {
    if w == "" then s == START
    else
      match Step(s, w[0])
      case None => false
      case Some(next) => !Cuts(s, w[0]) && Uncut(w[1..], next)
  }

  /** One clause: balanced quotes, escapes and comments, and no top-level semicolon. */
  ghost predicate Clause(w: string) {
    Uncut(w, START)
  }

  // ---------------------------------------------------------------- the grammar of a clause

  /** A backslash and the character after it. */
  predicate Pair(w: string) {
    |w| >= 2 && w[0] == '\\' && !Control(w[1])
  }

  /** The inside of a quoted string. */
  predicate QuotedBody(w: string)
    decreases |w|
  {
    || w == ""
    || (!Control(w[0]) && w[0] != '"' && w[0] != '\\' && QuotedBody(w[1..]))
    || (Pair(w) && QuotedBody(w[2..]))
  }

  /** The inside of a comment, in which comments nest. */
  ghost predicate CommentBody(w: string)
    decreases |w|
  {
    || w == ""
    || (!Control(w[0]) && w[0] != '(' && w[0] != ')' && w[0] != '\\' && CommentBody(w[1..]))
    || (Pair(w) && CommentBody(w[2..]))
    || (w[0] == '(' && exists k | 1 <= k < |w| :: w[k] == ')' && CommentBody(w[1..k]) && CommentBody(w[k + 1..]))
  }

  /** Plain characters other than a semicolon, quoted strings and comments. */
  ghost predicate Balanced(w: string)
    decreases |w|
  {
    || w == ""
    || (!Control(w[0]) && w[0] != '"' && w[0] != '(' && w[0] != ')' && w[0] != ';' && Balanced(w[1..]))
    || (w[0] == '"' && exists k | 1 <= k < |w| :: w[k] == '"' && QuotedBody(w[1..k]) && Balanced(w[k + 1..]))
    || (w[0] == '(' && exists k | 1 <= k < |w| :: w[k] == ')' && CommentBody(w[1..k]) && Balanced(w[k + 1..]))
  }

  /** Reading a quoted body and its closing quote leads out of the quotes. */
  lemma {:induction false} QuotedReads(body: string, rest: string)
    requires QuotedBody(body)
    ensures Uncut(body + "\"" + rest, Scan(0, true, false)) <==> Uncut(rest, START)
    decreases |body|
  {
    var w := body + "\"" + rest;
    if body == "" {
      assert w[0] == '"' && w[1..] == rest;
    } else if Pair(body) {
      assert w[0] == body[0] && w[1] == body[1] && w[1..][0] == w[1];
      assert w[1..][1..] == body[2..] + "\"" + rest;
      QuotedReads(body[2..], rest);
    } else {
      assert w[0] == body[0] && w[1..] == body[1..] + "\"" + rest;
      QuotedReads(body[1..], rest);
    }
  }

  lemma Regroup(a: string, b: string, rest: string)
    ensures (a + ")" + b) + ")" + rest == a + ")" + (b + ")" + rest)
  {
  }

  /** Where the comment that a comment body begins with ends. */
  lemma NestedEnds(body: string) returns (k: nat)
    requires body != "" && body[0] == '(' && CommentBody(body)
    ensures 1 <= k < |body| && body[k] == ')' && CommentBody(body[1..k]) && CommentBody(body[k + 1..])
    ensures body[1..] == body[1..k] + ")" + body[k + 1..]
  {
    k :| 1 <= k < |body| && body[k] == ')' && CommentBody(body[1..k]) && CommentBody(body[k + 1..]);
  }

  lemma PairReads(w: string, s: Scan)
    requires Pair(w) && !s.escaped && (s.quoted || s.depth > 0)
    ensures Uncut(w, s) <==> Uncut(w[2..], s)
  {
    assert w[1..][0] == w[1] && w[1..][1..] == w[2..];
  }

  /** Reading a comment body and its closing bracket leads one comment out. */
  lemma {:induction false} CommentReads(body: string, rest: string, depth: nat)
    requires CommentBody(body)
    ensures Uncut(body + ")" + rest, Scan(depth + 1, false, false)) <==> Uncut(rest, Scan(depth, false, false))
    decreases |body|
  {
    var w := body + ")" + rest;
    if body == "" {
      assert w[0] == ')' && w[1..] == rest;
    } else if body[0] == '\\' {
      assert w[0] == body[0] && w[1] == body[1] && w[2..] == body[2..] + ")" + rest;
      PairReads(w, Scan(depth + 1, false, false));
      CommentReads(body[2..], rest, depth);
    } else if body[0] == '(' {
      var k := NestedEnds(body);
      assert w[0] == '(' && w[1..] == body[1..] + ")" + rest;
      Regroup(body[1..k], body[k + 1..], rest);
      CommentReads(body[1..k], body[k + 1..] + ")" + rest, depth + 1);
      CommentReads(body[k + 1..], rest, depth);
    } else {
      assert w[0] == body[0] && w[1..] == body[1..] + ")" + rest;
      CommentReads(body[1..], rest, depth);
    }
  }

  /** Whatever is read out of quotes begins with a quoted body and its closing quote. */
  lemma {:induction false} QuotedFound(w: string) returns (k: nat)
    requires Uncut(w, Scan(0, true, false))
    ensures k < |w| && w[k] == '"' && QuotedBody(w[..k]) && Uncut(w[k + 1..], START)
    decreases |w|
  {
    if w[0] == '"' {
      k := 0;
    } else if w[0] == '\\' {
      assert w[1..] != "" && Uncut(w[1..][1..], Scan(0, true, false));
      assert w[1..][1..] == w[2..] && w[1..][0] == w[1];
      var j := QuotedFound(w[2..]);
      k := j + 2;
      assert w[..k][2..] == w[2..][..j] && w[k + 1..] == w[2..][j + 1..];
    } else {
      var j := QuotedFound(w[1..]);
      k := j + 1;
      assert w[..k][1..] == w[1..][..j] && w[k + 1..] == w[1..][j + 1..];
    }
  }

  lemma PairBody(pair: string, body: string)
    requires Pair(pair) && |pair| == 2 && CommentBody(body)
    ensures CommentBody(pair + body)
  {
    assert (pair + body)[2..] == body;
  }

  lemma PlainBody(ch: char, body: string)
    requires !Control(ch) && ch != '(' && ch != ')' && ch != '\\' && CommentBody(body)
    ensures CommentBody([ch] + body)
  {
    assert ([ch] + body)[1..] == body;
  }

  lemma NestedBody(inner: string, body: string)
    requires CommentBody(inner) && CommentBody(body)
    ensures CommentBody("(" + inner + ")" + body)
  {
    var w, k := "(" + inner + ")" + body, |inner| + 1;
    assert w[k] == ')' && w[1..k] == inner && w[k + 1..] == body;
  }

  lemma HeadWhole(w: string, n: nat, tail: string, rest: string)
    requires n <= |w| && w[n..] == tail + ")" + rest
    ensures w == (w[..n] + tail) + ")" + rest
  {
    assert w == w[..n] + w[n..];
  }

  lemma NestedWhole(w: string, inner: string, after: string, tail: string, rest: string)
    requires w != "" && w[0] == '(' && w[1..] == inner + ")" + after && after == tail + ")" + rest
    ensures w == ("(" + inner + ")" + tail) + ")" + rest
  {
    assert w == "(" + w[1..];
    Regroup("(" + inner, tail, rest);
  }

  /** Whatever is read out of a comment begins with a comment body and its closing bracket. */
  lemma {:induction false} CommentFound(w: string, depth: nat) returns (body: string, rest: string)
    requires Uncut(w, Scan(depth + 1, false, false))
    ensures w == body + ")" + rest && CommentBody(body) && Uncut(rest, Scan(depth, false, false))
    decreases |w|
  {
    if w[0] == ')' {
      body, rest := "", w[1..];
    } else if w[0] == '\\' {
      assert w[1..] != "" && w[1..][0] == w[1];
      PairReads(w, Scan(depth + 1, false, false));
      var tail;
      tail, rest := CommentFound(w[2..], depth);
      PairBody(w[..2], tail);
      body := w[..2] + tail;
      HeadWhole(w, 2, tail, rest);
    } else if w[0] == '(' {
      var inner, after := CommentFound(w[1..], depth + 1);
      var tail;
      tail, rest := CommentFound(after, depth);
      NestedBody(inner, tail);
      body := "(" + inner + ")" + tail;
      NestedWhole(w, inner, after, tail, rest);
    } else {
      var tail;
      tail, rest := CommentFound(w[1..], depth);
      PlainBody(w[0], tail);
      body := [w[0]] + tail;
      HeadWhole(w, 1, tail, rest);
      assert w[..1] == [w[0]];
    }
  }

  lemma QuotedThen(w: string, k: nat)
    requires 1 <= k < |w| && w[0] == '"' && w[k] == '"' && QuotedBody(w[1..k]) && Clause(w[k + 1..])
    ensures Clause(w)
  {
    QuotedReads(w[1..k], w[k + 1..]);
    assert w[1..] == w[1..k] + "\"" + w[k + 1..];
  }

  lemma CommentThen(w: string, k: nat)
    requires 1 <= k < |w| && w[0] == '(' && w[k] == ')' && CommentBody(w[1..k]) && Clause(w[k + 1..])
    ensures Clause(w)
  {
    CommentReads(w[1..k], w[k + 1..], 0);
    assert w[1..] == w[1..k] + ")" + w[k + 1..];
  }

  /** Where the quotes or the comment that the text begins with end. */
  lemma OpenEnds(w: string) returns (k: nat)
    requires w != "" && Balanced(w) && (w[0] == '"' || w[0] == '(')
    ensures 1 <= k < |w| && Balanced(w[k + 1..])
    ensures if w[0] == '"' then w[k] == '"' && QuotedBody(w[1..k]) else w[k] == ')' && CommentBody(w[1..k])
  {
    if w[0] == '"' {
      k :| 1 <= k < |w| && w[k] == '"' && QuotedBody(w[1..k]) && Balanced(w[k + 1..]);
    } else {
      k :| 1 <= k < |w| && w[k] == ')' && CommentBody(w[1..k]) && Balanced(w[k + 1..]);
    }
  }

  lemma {:induction false} BalancedReads(w: string)
    requires Balanced(w)
    ensures Clause(w)
    decreases |w|
  {
    if w == "" {
    } else if w[0] == '"' || w[0] == '(' {
      var k := OpenEnds(w);
      BalancedReads(w[k + 1..]);
      if w[0] == '"' {
        QuotedThen(w, k);
      } else {
        CommentThen(w, k);
      }
    } else {
      BalancedReads(w[1..]);
    }
  }

  lemma OpenBalanced(w: string, k: nat)
    requires 1 <= k < |w| && (w[0] == '"' || w[0] == '(') && Balanced(w[k + 1..])
    requires if w[0] == '"' then w[k] == '"' && QuotedBody(w[1..k]) else w[k] == ')' && CommentBody(w[1..k])
    ensures Balanced(w)
  {
  }

  /** Quotes or a comment that the text begins with, if it is read to the end. */
  lemma OpenFound(w: string) returns (k: nat)
    requires w != "" && Clause(w) && (w[0] == '"' || w[0] == '(')
    ensures 1 <= k < |w| && Clause(w[k + 1..])
    ensures if w[0] == '"' then w[k] == '"' && QuotedBody(w[1..k]) else w[k] == ')' && CommentBody(w[1..k])
  {
    if w[0] == '"' {
      var j := QuotedFound(w[1..]);
      k := j + 1;
      assert w[1..k] == w[1..][..j] && w[k + 1..] == w[1..][j + 1..];
    } else {
      var body, rest := CommentFound(w[1..], 0);
      k := |body| + 1;
      assert w[1..] == body + ")" + rest;
      assert w[k] == w[1..][|body|] && w[1..k] == w[1..][..|body|] == body;
      assert w[k + 1..] == w[1..][|body| + 1..] == rest;
    }
  }

  lemma {:induction false} ReadsBalanced(w: string)
    requires Clause(w)
    ensures Balanced(w)
    decreases |w|
  {
    if w == "" {
    } else if w[0] == '"' || w[0] == '(' {
      var k := OpenFound(w);
      ReadsBalanced(w[k + 1..]);
      OpenBalanced(w, k);
    } else {
      ReadsBalanced(w[1..]);
    }
  }

  /** The scanner's flags recognise the grammar: a text is read from the start to the start again, without a
      top-level semicolon, exactly if it is balanced. */
  lemma ClauseIffBalanced(w: string)
    ensures Clause(w) <==> Balanced(w)
  {
    if Clause(w) {
      ReadsBalanced(w);
    }
    if Balanced(w) {
      BalancedReads(w);
    }
  }

  // ---------------------------------------------------------------- joining and splitting

  function Join(segments: seq<string>): string
    requires segments != []
  {
    if |segments| == 1 then segments[0] else segments[0] + ";" + Join(segments[1..])
  }

  lemma {:induction false} UncutLast(w: string, s: Scan, current: string)
    requires Uncut(w, s)
    ensures Segments(w, s, current) == Some([current + w])
  {
    if w == "" {
      assert current + w == current;
    } else {
      UncutLast(w[1..], Step(s, w[0]).value, current + [w[0]]);
      assert current + [w[0]] + w[1..] == current + w;
    }
  }

  lemma {:induction false} UncutThen(w: string, rest: string, s: Scan, current: string)
    requires Uncut(w, s)
    ensures Segments(w + ";" + rest, s, current) == Prepend([current + w], Segments(rest, START, ""))
  {
    var text := w + ";" + rest;
    if w == "" {
      assert text[0] == ';' && text[1..] == rest && current + w == current;
    } else {
      assert text[0] == w[0] && text[1..] == w[1..] + ";" + rest;
      UncutThen(w[1..], rest, Step(s, w[0]).value, current + [w[0]]);
      assert current + [w[0]] + w[1..] == current + w;
    }
  }

  /** Reading a join of clauses gives the clauses back. */
  lemma {:induction false} SegmentsOfJoin(segments: seq<string>)
    requires segments != [] && forall i | 0 <= i < |segments| :: Clause(segments[i])
    ensures Segments(Join(segments), START, "") == Some(segments)
  {
    assert "" + segments[0] == segments[0];
    if |segments| == 1 {
      UncutLast(segments[0], START, "");
      assert segments == [segments[0]];
    } else {
      UncutThen(segments[0], Join(segments[1..]), START, "");
      SegmentsOfJoin(segments[1..]);
      assert segments == [segments[0]] + segments[1..];
    }
  }

  /** The segments found from a given point: the first continues the one being collected, the others
      are clauses, and together they rebuild the text. */
  ghost predicate Rebuilds(r: seq<string>, text: string, s: Scan, current: string) {
    && r != [] && Join(r) == current + text
    && current <= r[0] && Uncut(r[0][|current|..], s)
    && forall i | 1 <= i < |r| :: Clause(r[i])
  }

  lemma JoinCons(current: string, tail: seq<string>)
    requires tail != []
    ensures Join([current] + tail) == current + ";" + Join(tail)
  {
    assert ([current] + tail)[1..] == tail;
  }

  lemma CutWhole(text: string, current: string)
    requires text != "" && text[0] == ';'
    ensures current + ";" + ("" + text[1..]) == current + text
  {
    assert text == ";" + text[1..];
  }

  lemma RebuildsCut(tail: seq<string>, text: string, current: string)
    requires text != "" && text[0] == ';' && Rebuilds(tail, text[1..], START, "")
    ensures Rebuilds([current] + tail, text, START, current)
  {
    var r := [current] + tail;
    JoinCons(current, tail);
    CutWhole(text, current);
    assert current[|current|..] == "" && tail[0][0..] == tail[0];
    forall i | 1 <= i < |r| ensures Clause(r[i]) {
      assert r[i] == tail[i - 1];
    }
  }

  lemma RebuildsRead(r: seq<string>, text: string, s: Scan, current: string)
    requires text != "" && Step(s, text[0]).Some? && !Cuts(s, text[0])
    requires Rebuilds(r, text[1..], Step(s, text[0]).value, current + [text[0]])
    ensures Rebuilds(r, text, s, current)
  {
    assert current + [text[0]] + text[1..] == current + text;
    var w := r[0][|current|..];
    assert w[0] == text[0] && w[1..] == r[0][|current + [text[0]]|..];
  }

  lemma {:induction false} SegmentsRebuild(text: string, s: Scan, current: string)
    requires Segments(text, s, current).Some?
    ensures Rebuilds(Segments(text, s, current).value, text, s, current)
  {
    if text == "" {
      assert current[|current|..] == "" && current + text == current;
    } else {
      var next := Step(s, text[0]).value;
      if Cuts(s, text[0]) {
        SegmentsRebuild(text[1..], next, "");
        RebuildsCut(Segments(text[1..], next, "").value, text, current);
      } else {
        SegmentsRebuild(text[1..], next, current + [text[0]]);
        RebuildsRead(Segments(text, s, current).value, text, s, current);
      }
    }
  }

  /** Splitting undoes joining, for any non-empty list of trimmed clauses within the size limit. */
  lemma JoinThenSplit(clauses: seq<string>)
    requires clauses != []
    requires forall i | 0 <= i < |clauses| :: Clause(clauses[i]) && Strip(clauses[i]) == clauses[i]
    requires |Join(clauses)| <= MAX_AUTH_HEADER_CHARS
    ensures Clauses(Join(clauses)) == clauses
  {
    SegmentsOfJoin(clauses);
    assert StripAll(clauses) == clauses;
  }

  /** The clauses found in a text are given by a list of segments that rejoin to the text and pass no
      top-level semicolon. */
  ghost predicate CutsInto(value: string, segments: seq<string>) {
    && segments != [] && Join(segments) == value
    && forall i | 0 <= i < |segments| :: Clause(segments[i])
  }

  /** A header is accepted exactly when it is short enough and can be cut at its top-level
      semicolons; the cut is unique and the result is its trimmed segments. */
  lemma SplitIsTheCut(value: string, clauses: seq<string>)
    ensures clauses != [] && Clauses(value) == clauses
            <==> |value| <= 16384
                 && exists segments :: CutsInto(value, segments) && clauses == StripAll(segments)
    ensures forall a, b | CutsInto(value, a) && CutsInto(value, b) :: a == b
  {
    forall segments | CutsInto(value, segments)
      ensures Segments(value, START, "") == Some(segments)
    {
      SegmentsOfJoin(segments);
    }
    if Segments(value, START, "").Some? {
      SegmentsRebuild(value, START, "");
      var segments := Segments(value, START, "").value;
      assert "" + value == value && segments[0][0..] == segments[0];
      assert CutsInto(value, segments);
    }
  }

  // ---------------------------------------------------------------- the verdict

  datatype Failure = MissingOrAmbiguous | Malformed | AuthservMismatch | NonfinalDmarc | DmarcNotPass

  /** The three regular expressions of the verdict, as predicates on one trimmed clause. */
  datatype Patterns = Patterns(authserv: string -> bool, dmarc: string -> bool, pass: string -> bool)

  function Filter(p: string -> bool, clauses: seq<string>): seq<string> {
    if clauses == [] then []
    else (if p(clauses[0]) then [clauses[0]] else []) + Filter(p, clauses[1..])
  }

  function ResultFailure(values: seq<string>, patterns: Patterns): Option<Failure> {
    if |values| != 1 then Some(MissingOrAmbiguous)
    else
      var clauses := Clauses(values[0]);
      if |clauses| < 2 then Some(Malformed)
      else if !patterns.authserv(clauses[0]) then Some(AuthservMismatch)
      else
        var dmarc := Filter(patterns.dmarc, clauses[1..]);
        if |dmarc| != 1 || dmarc != clauses[|clauses| - 1..] then Some(NonfinalDmarc)
        else if !patterns.pass(dmarc[0]) then Some(DmarcNotPass)
        else None
  }

  lemma {:induction false} FilterAppend(p: string -> bool, a: seq<string>, b: seq<string>)
    ensures Filter(p, a + b) == Filter(p, a) + Filter(p, b)
  {
    if a == [] {
      assert a + b == b;
    } else {
      FilterAppend(p, a[1..], b);
      assert (a + b)[1..] == a[1..] + b && (a + b)[0] == a[0];
      var head := if p(a[0]) then [a[0]] else [];
      assert head + (Filter(p, a[1..]) + Filter(p, b)) == (head + Filter(p, a[1..])) + Filter(p, b);
    }
  }

  lemma {:induction false} FilterNone(p: string -> bool, a: seq<string>)
    ensures Filter(p, a) == [] <==> forall i | 0 <= i < |a| :: !p(a[i])
  {
    if a != [] {
      FilterNone(p, a[1..]);
    }
  }

  lemma {:induction false} FilterSubset(p: string -> bool, a: seq<string>)
    ensures forall i | 0 <= i < |Filter(p, a)| :: p(Filter(p, a)[i])
  {
    if a != [] {
      FilterSubset(p, a[1..]);
    }
  }

  /** The clauses after the first that match are the last one alone. */
  lemma LastOnly(p: string -> bool, clauses: seq<string>)
    requires |clauses| >= 2
    ensures var n, found := |clauses|, Filter(p, clauses[1..]);
            && (|found| == 1 && found == clauses[n - 1..]
                <==> p(clauses[n - 1]) && forall i | 1 <= i < n - 1 :: !p(clauses[i]))
            && (|found| == 1 && found == clauses[n - 1..] ==> found[0] == clauses[n - 1])
  {
    var n := |clauses|;
    var middle, last := clauses[1..n - 1], clauses[n - 1..];
    assert clauses[1..] == middle + last && last == [clauses[n - 1]];
    FilterAppend(p, middle, last);
    FilterNone(p, middle);
    assert forall i | 1 <= i < n - 1 :: clauses[i] == middle[i - 1];
    assert last[1..] == [];
    if p(clauses[n - 1]) {
      assert Filter(p, last) == last;
      assert |Filter(p, middle) + last| == |Filter(p, middle)| + 1;
      if Filter(p, middle) == [] {
        assert [] + last == last;
      }
    } else {
      assert Filter(p, last) == [];
      FilterSubset(p, clauses[1..]);
    }
  }

  /** Mail is accepted exactly when its one header cuts into two or more clauses of which the first
      names the server, the last is the only DMARC clause, and that clause is a pass. */
  lemma AcceptedMeans(values: seq<string>, patterns: Patterns)
    ensures ResultFailure(values, patterns) == None
            <==> |values| == 1
                 && var clauses := Clauses(values[0]);
                    var n := |clauses|;
                    && n >= 2 && patterns.authserv(clauses[0])
                    && patterns.dmarc(clauses[n - 1]) && patterns.pass(clauses[n - 1])
                    && forall i | 1 <= i < n - 1 :: !patterns.dmarc(clauses[i])
  {
    if |values| == 1 && |Clauses(values[0])| >= 2 {
      LastOnly(patterns.dmarc, Clauses(values[0]));
    }
  }

  /** And otherwise the reason is the first of these that fails, in this order. */
  lemma RefusedMeans(values: seq<string>, patterns: Patterns)
    requires |values| == 1 && |Clauses(values[0])| >= 2
    ensures var clauses, r := Clauses(values[0]), ResultFailure(values, patterns);
            var n := |clauses|;
            var named := patterns.authserv(clauses[0]);
            var final := patterns.dmarc(clauses[n - 1]) && forall i | 1 <= i < n - 1 :: !patterns.dmarc(clauses[i]);
            && (r == Some(AuthservMismatch) <==> !named)
            && (r == Some(NonfinalDmarc) <==> named && !final)
            && (r == Some(DmarcNotPass) <==> named && final && !patterns.pass(clauses[n - 1]))
  {
    LastOnly(patterns.dmarc, Clauses(values[0]));
  }

  lemma RefusedEarly(values: seq<string>, patterns: Patterns)
    ensures ResultFailure(values, patterns) == Some(MissingOrAmbiguous) <==> |values| != 1
    ensures ResultFailure(values, patterns) == Some(Malformed) <==> |values| == 1 && |Clauses(values[0])| < 2
  {
  }

  /** A clause added after an accepted header is never swallowed: the longer header is refused. */
  lemma LaterClauseRefused(value: string, extra: string, patterns: Patterns)
    requires ResultFailure([value], patterns) == None && Clause(extra)
    ensures ResultFailure([value + ";" + extra], patterns).Some?
  {
    AcceptedMeans([value], patterns);
    AcceptedMeans([value + ";" + extra], patterns);
    SplitIsTheCut(value, Clauses(value));
    var segments :| CutsInto(value, segments) && Clauses(value) == StripAll(segments);
    JoinAppend(segments, extra);
    var longer := segments + [extra];
    SegmentsOfJoin(longer);
    var n := |segments|;
    if |value + ";" + extra| <= MAX_AUTH_HEADER_CHARS {
      assert Clauses(value + ";" + extra) == StripAll(longer);
      assert StripAll(longer)[n - 1] == Strip(segments[n - 1]) == Clauses(value)[n - 1];
    }
  }

  lemma {:induction false} JoinAppend(segments: seq<string>, extra: string)
    requires segments != []
    ensures Join(segments + [extra]) == Join(segments) + ";" + extra
  {
    var longer := segments + [extra];
    if |segments| == 1 {
      assert longer[1..] == [extra];
    } else {
      JoinAppend(segments[1..], extra);
      assert longer[1..] == segments[1..] + [extra];
    }
  }
}
