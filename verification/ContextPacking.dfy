/** Packing the onboarding context under the hook's size cap, by priority and then source order. */
module ContextPacking {

  const SPILL_SAFE_CHARS := 9500

  function Take(s: string, n: nat): string {
    if n <= |s| then s[..n] else s
  }

  // ---------------------------------------------------------------- cutting the context into bullets

  predicate BulletAt(context: string, i: int) {
    0 <= i <= |context| - 3 && context[i] == '\n' && context[i + 1] == '-' && context[i + 2] == ' '
  }

  /** Where bullets start; two starts cannot overlap. */
  function Starts(context: string, from: nat): (r: seq<nat>)
    requires from <= |context|
    ensures forall k | 0 <= k < |r| :: from <= r[k] < |context|
    ensures forall j, k | 0 <= j < k < |r| :: r[j] < r[k]
    ensures forall i :: i in r <==> from <= i && BulletAt(context, i)
    decreases |context| - from
  {
    if from == |context| then []
    else (if BulletAt(context, from) then [from] else []) + Starts(context, from + 1)
  }

  /** A bullet starts exactly where a line begins with a dash and a space. */
  lemma StartsMean(context: string, i: nat)
    requires i + 3 <= |context|
    ensures i in Starts(context, 0) <==> context[i..i + 3] == "\n- "
  {
    var three := context[i..i + 3];
    IsMark(three);
    assert three[0] == context[i] && three[1] == context[i + 1] && three[2] == context[i + 2];
    assert i in Starts(context, 0) <==> BulletAt(context, i);
  }

  lemma IsMark(s: string)
    requires |s| == 3
    ensures s == "\n- " <==> s[0] == '\n' && s[1] == '-' && s[2] == ' '
  {
  }

  /** Each bullet runs to the next start, the last one to the end. */
  function Bullets(context: string, starts: seq<nat>): (r: seq<string>)
    requires forall k | 0 <= k < |starts| :: starts[k] < |context|
    requires forall j, k | 0 <= j < k < |starts| :: starts[j] < starts[k]
    ensures |r| == |starts|
  {
    var bounds := starts + [|context|];
    seq(|starts|, k requires 0 <= k < |starts| => context[bounds[k]..bounds[k + 1]])
  }

  function Indices(n: nat): (r: set<nat>)
    ensures forall i: nat :: i in r <==> i < n
  {
    if n == 0 then {} else Indices(n - 1) + {n - 1}
  }

  function Concat(bullets: seq<string>, kept: set<nat>): string {
    if bullets == [] then ""
    else
      var n := |bullets| - 1;
      Concat(bullets[..n], kept) + if n in kept then bullets[n] else ""
  }

  lemma ExtendsPrefix(context: string, head: string, middle: string, i: nat, j: nat)
    requires i <= j <= |context| && head + middle == context[..i]
    ensures head + (middle + context[i..j]) == context[..j]
  {
    assert head + (middle + context[i..j]) == (head + middle) + context[i..j];
  }

  /** Cutting loses nothing: the heading and all the bullets make up the context again. */
  lemma {:induction false} BulletsRebuild(context: string, starts: seq<nat>, n: nat)
    requires forall k | 0 <= k < |starts| :: starts[k] < |context|
    requires forall j, k | 0 <= j < k < |starts| :: starts[j] < starts[k]
    requires 0 < n <= |starts|
    ensures var all := Indices(|starts|);
            var end := (starts + [|context|])[n];
            context[..starts[0]] + Concat(Bullets(context, starts)[..n], all) == context[..end]
  {
    var bounds := starts + [|context|];
    var bullets := Bullets(context, starts);
    var all := Indices(|starts|);
    assert bullets[..n][..n - 1] == bullets[..n - 1];
    if n > 1 {
      BulletsRebuild(context, starts, n - 1);
    }
    ExtendsPrefix(context, context[..starts[0]], Concat(bullets[..n - 1], all), bounds[n - 1], bounds[n]);
  }

  // ---------------------------------------------------------------- what a good packing is

  /** The characters of the kept bullets among the first n. */
  function Total(bullets: seq<string>, kept: set<nat>, n: nat): nat
    requires n <= |bullets|
  {
    if n == 0 then 0
    else Total(bullets, kept, n - 1) + if n - 1 in kept then |bullets[n - 1]| else 0
  }

  /** i is considered before j: a better class first, and source order within a class. */
  predicate Before(ranks: seq<nat>, i: nat, j: nat)
    requires i < |ranks| && j < |ranks|
  {
    ranks[i] < ranks[j] || (ranks[i] == ranks[j] && i < j)
  }

  function KeptBefore(ranks: seq<nat>, kept: set<nat>, j: nat): set<nat>
    requires j < |ranks|
  {
    set i | i in kept && i < |ranks| && Before(ranks, i, j)
  }

  /** Bullet j fits next to the kept bullets that are considered before it. */
  predicate Fits(bullets: seq<string>, ranks: seq<nat>, room: int, kept: set<nat>, j: nat)
    requires |ranks| == |bullets| && j < |bullets|
  {
    Total(bullets, KeptBefore(ranks, kept, j), |bullets|) + |bullets[j]| <= room
  }

  /** The packing keeps a bullet exactly when it fits next to the kept bullets considered before it. */
  ghost predicate Packed(bullets: seq<string>, ranks: seq<nat>, room: int, kept: set<nat>)
    requires |ranks| == |bullets|
  {
    && (forall i | i in kept :: i < |bullets|)
    && forall j: nat | j < |bullets| :: j in kept <==> Fits(bullets, ranks, room, kept, j)
  }

  lemma {:induction false} TotalAdd(bullets: seq<string>, kept: set<nat>, i: nat, n: nat)
    requires i !in kept && n <= |bullets|
    ensures Total(bullets, kept + {i}, n) == Total(bullets, kept, n) + if i < n then |bullets[i]| else 0
  {
    if n > 0 {
      TotalAdd(bullets, kept, i, n - 1);
    }
  }

  lemma {:induction false} TotalMonotone(bullets: seq<string>, a: set<nat>, b: set<nat>, n: nat)
    requires n <= |bullets| && forall i | i in a && i < n :: i in b
    ensures Total(bullets, a, n) <= Total(bullets, b, n)
  {
    if n > 0 {
      TotalMonotone(bullets, a, b, n - 1);
    }
  }

  lemma {:induction false} ConcatLength(bullets: seq<string>, kept: set<nat>, n: nat)
    requires n <= |bullets|
    ensures |Concat(bullets[..n], kept)| == Total(bullets, kept, n)
  {
    if n > 0 {
      ConcatLength(bullets, kept, n - 1);
      assert bullets[..n][..n - 1] == bullets[..n - 1];
    }
  }

  /** Only one set of bullets is packed for given ranks and room. */
  lemma PackedUnique(bullets: seq<string>, ranks: seq<nat>, room: int, a: set<nat>, b: set<nat>)
    requires |ranks| == |bullets| && Packed(bullets, ranks, room, a) && Packed(bullets, ranks, room, b)
    ensures a == b
  {
    forall j: nat | j < |bullets| ensures j in a <==> j in b {
      PackedUniqueAt(bullets, ranks, room, a, b, j);
    }
  }

  lemma {:induction false} PackedUniqueAt(bullets: seq<string>, ranks: seq<nat>, room: int,
                                          a: set<nat>, b: set<nat>, j: nat)
    requires |ranks| == |bullets| && Packed(bullets, ranks, room, a) && Packed(bullets, ranks, room, b)
    requires j < |bullets|
    ensures j in a <==> j in b
    decreases ranks[j], j
  {
    forall i: nat | i < |bullets| && Before(ranks, i, j) ensures i in a <==> i in b {
      PackedUniqueAt(bullets, ranks, room, a, b, i);
    }
    assert KeptBefore(ranks, a, j) == KeptBefore(ranks, b, j);
  }

  /** No dropped bullet would still fit, and if the bullets of a class and of the better ones fit together they
      are all kept. */
  lemma PackedMeans(bullets: seq<string>, ranks: seq<nat>, room: int, kept: set<nat>, r: nat)
    requires |ranks| == |bullets| && Packed(bullets, ranks, room, kept)
    ensures forall j: nat | j < |bullets| && j !in kept ::
              Total(bullets, kept, |bullets|) + |bullets[j]| > room
    ensures var best := set i: nat | i < |bullets| && ranks[i] <= r;
            Total(bullets, best, |bullets|) <= room ==> best <= kept
  {
    forall j: nat | j < |bullets| && j !in kept
      ensures Total(bullets, kept, |bullets|) + |bullets[j]| > room
    {
      TotalMonotone(bullets, KeptBefore(ranks, kept, j), kept, |bullets|);
    }
    var best := set i: nat | i < |bullets| && ranks[i] <= r;
    if Total(bullets, best, |bullets|) <= room {
      forall j | j in best ensures j in kept {
        var earlier := KeptBefore(ranks, kept, j);
        TotalAdd(bullets, earlier, j, |bullets|);
        TotalMonotone(bullets, earlier + {j}, best, |bullets|);
      }
    }
  }

  // ---------------------------------------------------------------- the packing loops

  /** The class of a bullet: explicit intent, owner of the request, matching term, anything else. */
  function Rank(intent: string -> bool, owns: string -> bool, matches: string -> bool, bullet: string): nat {
    if intent(bullet) then 0 else if owns(bullet) then 1 else if matches(bullet) then 2 else 3
  }

  /** A pass takes the bullets it wants, and ranks say which earlier pass wanted the others. */
  ghost predicate WantsRank(bullets: seq<string>, ranks: seq<nat>, wanted: string -> bool, r: nat)
    requires |ranks| == |bullets|
  {
    forall i | 0 <= i < |bullets| ::
      (ranks[i] == r ==> wanted(bullets[i])) && (wanted(bullets[i]) ==> ranks[i] <= r)
  }

  /** Everything considered so far is decided as a packing decides it. */
  ghost predicate Progress(bullets: seq<string>, ranks: seq<nat>, room: int, kept: set<nat>, used: int,
                           r: nat, k: nat)
    requires |ranks| == |bullets|
  {
    && (forall i | i in kept :: i < |bullets| && (ranks[i] < r || (ranks[i] == r && i < k)))
    && (forall j: nat | j < |bullets| && (ranks[j] < r || (ranks[j] == r && j < k)) ::
          j in kept <==> Fits(bullets, ranks, room, kept, j))
    && used == Total(bullets, kept, |bullets|)
  }

  lemma ProgressStep(bullets: seq<string>, ranks: seq<nat>, room: int, kept: set<nat>, used: int, r: nat, k: nat)
    requires |ranks| == |bullets| && k < |bullets| && Progress(bullets, ranks, room, kept, used, r, k)
    ensures ranks[k] != r ==> Progress(bullets, ranks, room, kept, used, r, k + 1)
    ensures ranks[k] == r && used + |bullets[k]| <= room ==>
              k !in kept && Progress(bullets, ranks, room, kept + {k}, used + |bullets[k]|, r, k + 1)
    ensures ranks[k] == r && used + |bullets[k]| > room ==>
              k !in kept && Progress(bullets, ranks, room, kept, used, r, k + 1)
    ensures ranks[k] < r && k !in kept ==> used + |bullets[k]| > room
  {
    if ranks[k] == r {
      assert KeptBefore(ranks, kept, k) == kept;
      if used + |bullets[k]| <= room {
        var more := kept + {k};
        TotalAdd(bullets, kept, k, |bullets|);
        forall j: nat | j < |bullets| && (ranks[j] < r || (ranks[j] == r && j < k + 1))
          ensures KeptBefore(ranks, more, j) == KeptBefore(ranks, kept, j)
        {
        }
        forall j: nat | j < |bullets| && (ranks[j] < r || (ranks[j] == r && j < k + 1))
          ensures j in more <==> Fits(bullets, ranks, room, more, j)
        {
          assert KeptBefore(ranks, more, j) == KeptBefore(ranks, kept, j);
        }
      }
    } else if ranks[k] < r && k !in kept {
      assert !Fits(bullets, ranks, room, kept, k);
      TotalMonotone(bullets, KeptBefore(ranks, kept, k), kept, |bullets|);
    }
  }

  /** One of the four passes over the bullets. */
  method Pass(bullets: seq<string>, wanted: string -> bool, room: int, kept0: set<nat>, used0: nat,
              ghost ranks: seq<nat>, ghost r: nat)
    returns (kept: set<nat>, used: nat)
    requires |ranks| == |bullets| && WantsRank(bullets, ranks, wanted, r)
    requires Progress(bullets, ranks, room, kept0, used0, r, 0)
    ensures Progress(bullets, ranks, room, kept, used, r + 1, 0)
  {
    kept, used := kept0, used0;
    for i := 0 to |bullets|
      invariant Progress(bullets, ranks, room, kept, used, r, i)
    {
      ProgressStep(bullets, ranks, room, kept, used, r, i);
      if i in kept {
        continue;
      }
      if wanted(bullets[i]) {
        if used + |bullets[i]| <= room {
          kept := kept + {i};
          used := used + |bullets[i]|;
        }
      }
    }
  }

  function Ranks(bullets: seq<string>, intent: string -> bool, owns: string -> bool, matches: string -> bool)
    : (r: seq<nat>)
    ensures |r| == |bullets|
  {
    seq(|bullets|, i requires 0 <= i < |bullets| => Rank(intent, owns, matches, bullets[i]))
  }

  /** The kept bullets of a better class, or of this class and earlier in the source. */
  function Ahead(bullets: seq<string>, kept: set<nat>, better: string -> bool, class_: string -> bool, j: nat)
    : set<nat>
  {
    set i | i in kept && i < |bullets| && (better(bullets[i]) || (class_(bullets[i]) && i < j))
  }

  /** A bullet of the class, and of no better one, is kept exactly if it fits next to those ahead of it. */
  ghost predicate Decided(bullets: seq<string>, room: int, kept: set<nat>, better: string -> bool,
                          class_: string -> bool)
  {
    forall j: nat | j < |bullets| && class_(bullets[j]) && !better(bullets[j]) ::
      j in kept <==> Total(bullets, Ahead(bullets, kept, better, class_, j), |bullets|) + |bullets[j]| <= room
  }

  /** The classes in their order: explicit intent, then owners of the request, then matching terms, then the rest. */
  ghost predicate ByClass(bullets: seq<string>, room: int, kept: set<nat>, intent: string -> bool,
                          owns: string -> bool, matches: string -> bool)
  {
    && Decided(bullets, room, kept, _ => false, intent)
    && Decided(bullets, room, kept, intent, owns)
    && Decided(bullets, room, kept, b => intent(b) || owns(b), matches)
    && Decided(bullets, room, kept, b => intent(b) || owns(b) || matches(b), _ => true)
  }

  lemma PackedDecides(bullets: seq<string>, ranks: seq<nat>, room: int, kept: set<nat>, better: string -> bool,
                      class_: string -> bool, r: nat)
    requires |ranks| == |bullets| && Packed(bullets, ranks, room, kept)
    requires forall i | 0 <= i < |bullets| :: better(bullets[i]) <==> ranks[i] < r
    requires forall i | 0 <= i < |bullets| && !better(bullets[i]) :: class_(bullets[i]) <==> ranks[i] == r
    ensures Decided(bullets, room, kept, better, class_)
  {
    forall j: nat | j < |bullets| && class_(bullets[j]) && !better(bullets[j])
      ensures Ahead(bullets, kept, better, class_, j) == KeptBefore(ranks, kept, j)
    {
    }
  }

  lemma PackedByClass(bullets: seq<string>, room: int, kept: set<nat>, intent: string -> bool, owns: string -> bool,
                      matches: string -> bool)
    requires Packed(bullets, Ranks(bullets, intent, owns, matches), room, kept)
    ensures ByClass(bullets, room, kept, intent, owns, matches)
  {
    var ranks := Ranks(bullets, intent, owns, matches);
    PackedDecides(bullets, ranks, room, kept, _ => false, intent, 0);
    PackedDecides(bullets, ranks, room, kept, intent, owns, 1);
    PackedDecides(bullets, ranks, room, kept, b => intent(b) || owns(b), matches, 2);
    PackedDecides(bullets, ranks, room, kept, b => intent(b) || owns(b) || matches(b), _ => true, 3);
  }

  /** The four passes, each in source order: intent, owners, matching terms, everything else. */
  method PackBullets(bullets: seq<string>, room: nat, intent: string -> bool, owns: string -> bool,
                     matches: string -> bool)
    returns (kept: set<nat>)
    ensures Packed(bullets, Ranks(bullets, intent, owns, matches), room, kept)
    ensures ByClass(bullets, room, kept, intent, owns, matches)
    ensures |Concat(bullets, kept)| <= room
  {
    ghost var ranks := Ranks(bullets, intent, owns, matches);
    var used := 0;
    kept := {};
    NothingKept(bullets, |bullets|);
    kept, used := Pass(bullets, intent, room, kept, used, ranks, 0);
    kept, used := Pass(bullets, owns, room, kept, used, ranks, 1);
    kept, used := Pass(bullets, matches, room, kept, used, ranks, 2);
    kept, used := Pass(bullets, _ => true, room, kept, used, ranks, 3);
    PackedWithinRoom(bullets, ranks, room, kept);
    PackedByClass(bullets, room, kept, intent, owns, matches);
    ConcatLength(bullets, kept, |bullets|);
    assert bullets[..|bullets|] == bullets;
  }

  /** What is kept of the context when it has to be cut to a budget. */
  ghost predicate Trimmed(context: string, budget: nat, intent: string -> bool, owns: string -> bool,
                          matches: string -> bool, kept: set<nat>, text: string) {
    var starts := Starts(context, 0);
    if starts == [] || starts[0] > budget then text == Take(context, budget)
    else
      var bullets := Bullets(context, starts);
      && Packed(bullets, Ranks(bullets, intent, owns, matches), budget - starts[0], kept)
      && ByClass(bullets, budget - starts[0], kept, intent, owns, matches)
      && text == context[..starts[0]] + Concat(bullets, kept)
  }

  method Trim(context: string, budget: nat, intent: string -> bool, owns: string -> bool, matches: string -> bool)
    returns (text: string, kept: set<nat>)
    requires |context| > budget
    ensures Trimmed(context, budget, intent, owns, matches, kept, text)
    ensures |text| <= budget
  {
    kept := {};
    var starts := Starts(context, 0);
    if starts == [] {
      return context[..budget], {};
    }
    var heading := context[..starts[0]];
    if |heading| > budget {
      assert heading[..budget] == context[..budget];
      return heading[..budget], {};
    }
    var bullets := Bullets(context, starts);
    kept := PackBullets(bullets, budget - |heading|, intent, owns, matches);
    text := heading + Concat(bullets, kept);
  }

  /** The composed text never exceeds the cap, and is everything when everything fits. */
  method ComposeOnboardingContext(directive: string, context: string, intent: string -> bool,
                                  owns: string -> bool, matches: string -> bool)
    returns (text: string, kept: set<nat>)
    ensures |text| <= SPILL_SAFE_CHARS
    ensures var budget := SPILL_SAFE_CHARS - |directive| - 1;
            if |directive| + 1 + |context| <= SPILL_SAFE_CHARS then text == directive + "\n" + context
            else if budget <= 0 then text == Take(directive, SPILL_SAFE_CHARS)
            else exists trimmed :: text == directive + "\n" + trimmed
                                && Trimmed(context, budget, intent, owns, matches, kept, trimmed)
  {
    kept := {};
    if |directive| + 1 + |context| <= SPILL_SAFE_CHARS {
      text := directive + "\n" + context;
      return;
    }
    var budget := SPILL_SAFE_CHARS - |directive| - 1;
    if budget <= 0 {
      text := Take(directive, SPILL_SAFE_CHARS);
      return;
    }
    var trimmed;
    trimmed, kept := Trim(context, budget, intent, owns, matches);
    text := directive + "\n" + trimmed;
  }

  lemma {:induction false} NothingKept(bullets: seq<string>, n: nat)
    requires n <= |bullets|
    ensures Total(bullets, {}, n) == 0
  {
    if n > 0 {
      NothingKept(bullets, n - 1);
    }
  }

  /** A packing never exceeds its room: the bullet considered last fitted next to all the others. */
  lemma PackedWithinRoom(bullets: seq<string>, ranks: seq<nat>, room: int, kept: set<nat>)
    requires |ranks| == |bullets| && room >= 0 && Packed(bullets, ranks, room, kept)
    ensures Total(bullets, kept, |bullets|) <= room
  {
    if kept == {} {
      NothingKept(bullets, |bullets|);
    } else {
      var j := LastConsidered(ranks, kept);
      var others := KeptBefore(ranks, kept, j);
      assert others + {j} == kept;
      TotalAdd(bullets, others, j, |bullets|);
    }
  }

  lemma {:induction false} LastConsidered(ranks: seq<nat>, kept: set<nat>) returns (j: nat)
    requires kept != {} && forall i | i in kept :: i < |ranks|
    ensures j in kept && forall i | i in kept && i != j :: Before(ranks, i, j)
    decreases kept
  {
    j :| j in kept;
    if kept != {j} {
      var k := LastConsidered(ranks, kept - {j});
      var first := j;
      if Before(ranks, first, k) {
        j := k;
      }
      forall i | i in kept && i != j ensures Before(ranks, i, j) {
        assert i == first || i == k || i in kept - {first};
      }
    }
  }
}
