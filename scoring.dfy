/**
  The metric calculators of the evaluation matrix (services/scoring.ts): exact
  match, JSON validity, length, keyword containment, unigram BLEU, ROUGE-L over a
  longest-common-subsequence table, the custom metric, the LLM-judge score, and
  the dispatcher that writes one score per selected metric.

  Ratios are exact reals. JSON parsing, the custom evaluator and the judge model
  are oracles held in `Oracles`.
*/
module Scoring {

  import opened Types
  import opened Text
  import opened Ratios

  /** What the user-supplied evaluator returned, or that it threw. */
  datatype CustomOutcome = ReturnedNumber(x: real) | ReturnedBoolean(b: bool) | ReturnedOther | Raised

  /**
    The calls the scoring code makes into code outside the model: `JSON.parse`
    (does it accept the text?), the judge model's completion for a prompt
    (`generateCompletion` never throws: failures come back as reply text), and
    the custom evaluator applied to (input, output, reference, code).
  */
  datatype Oracles = Oracles(
    parsesAsJson: string -> bool,
    judge: (LLMModel, string) -> string,
    custom: (string, string, Option<string>, string) -> CustomOutcome)

  /** `reference || ''`. */
  function OrEmpty(reference: Option<string>): string
  {
    match reference
    case None => ""
    case Some(s) => s
  }

  /** The number of elements of `xs` that satisfy `p` (`xs.filter(p).length`). */
  function CountIf<T>(xs: seq<T>, p: T -> bool): (n: nat)
    ensures n <= |xs|
  {
    if xs == [] then 0
    else CountIf(xs[..|xs| - 1], p) + (if p(xs[|xs| - 1]) then 1 else 0)
  }

  /** Every element is counted exactly when every element satisfies `p`. */
  lemma {:induction false} CountIfAll<T>(xs: seq<T>, p: T -> bool)
    ensures CountIf(xs, p) == |xs| <==> forall i :: 0 <= i < |xs| ==> p(xs[i])
  {
    if xs != [] {
      var init := xs[..|xs| - 1];
      CountIfAll(init, p);
      assert forall i :: 0 <= i < |init| ==> init[i] == xs[i];
      if forall i :: 0 <= i < |xs| ==> p(xs[i]) {
        assert forall i :: 0 <= i < |init| ==> p(init[i]);
      }
    }
  }

  /** Nothing is counted exactly when no element satisfies `p`. */
  lemma {:induction false} CountIfNone<T>(xs: seq<T>, p: T -> bool)
    ensures CountIf(xs, p) == 0 <==> forall i :: 0 <= i < |xs| ==> !p(xs[i])
  {
    if xs != [] {
      var init := xs[..|xs| - 1];
      CountIfNone(init, p);
      assert forall i :: 0 <= i < |init| ==> init[i] == xs[i];
      if forall i :: 0 <= i < |xs| ==> !p(xs[i]) {
        assert forall i :: 0 <= i < |init| ==> !p(init[i]);
      }
    }
  }

  // ---- exact match ----

  /** `output.trim() === (reference || '').trim()`. */
  function ExactMatchScore(output: string, reference: Option<string>): bool
  {
    Trim(output) == Trim(OrEmpty(reference))
  }

  /** Surrounding whitespace on either side never changes the exact-match verdict. */
  lemma {:induction false} ExactMatchIgnoresPadding(pre: string, output: string, post: string, reference: Option<string>)
    requires AllSatisfy(pre, IsSpace) && AllSatisfy(post, IsSpace)
    ensures ExactMatchScore(pre + output + post, reference) == ExactMatchScore(output, reference)
  {
    TrimIgnoresPadding(pre, output, post);
  }

  /** With no reference, an output matches exactly when it is all whitespace. */
  lemma {:induction false} ExactMatchWithoutReference(output: string)
    ensures ExactMatchScore(output, None) <==> AllSatisfy(output, IsSpace)
  {
    assert Trim("") == "";
    TrimEmptyIff(output);
  }

  // ---- keyword containment ----

  function FoundIn(output: string): string -> bool
  {
    k => Contains(output, k)
  }

  /**
    CONTAINS_KEYWORD: 0 without a (truthy) reference; otherwise the share of the
    reference's space-separated pieces that occur in the output. An empty piece,
    from two adjacent spaces, always occurs.
  */
  function KeywordScore(output: string, reference: Option<string>): (r: real)
    ensures 0.0 <= r <= 1.0
  {
    if reference.None? || reference.value == "" then 0.0
    else
      var keywords := Split(reference.value, ' ');
      RatioBounds(CountIf(keywords, FoundIn(output)), |keywords|);
      Ratio(CountIf(keywords, FoundIn(output)), |keywords|)
  }

  /** Every keyword occurs in the output. */
  predicate AllFound(output: string, keywords: seq<string>)
  {
    forall k :: k in keywords ==> Contains(output, k)
  }

  /** No keyword occurs in the output. */
  predicate NoneFound(output: string, keywords: seq<string>)
  {
    forall k :: k in keywords ==> !Contains(output, k)
  }

  lemma {:induction false} CountFound(output: string, keywords: seq<string>)
    ensures CountIf(keywords, FoundIn(output)) == |keywords| <==> AllFound(output, keywords)
    ensures CountIf(keywords, FoundIn(output)) == 0 <==> NoneFound(output, keywords)
  {
    CountIfAll(keywords, FoundIn(output));
    CountIfNone(keywords, FoundIn(output));
    assert forall i :: 0 <= i < |keywords| ==> FoundIn(output)(keywords[i]) == Contains(output, keywords[i]);
    if AllFound(output, keywords) {
      assert forall i :: 0 <= i < |keywords| ==> FoundIn(output)(keywords[i]);
    }
    if NoneFound(output, keywords) {
      assert forall i :: 0 <= i < |keywords| ==> !FoundIn(output)(keywords[i]);
    }
  }

  /** The keyword score is 1 exactly when every keyword occurs in the output. */
  lemma {:induction false} KeywordScoreFull(output: string, reference: string)
    requires reference != ""
    ensures KeywordScore(output, Some(reference)) == 1.0 <==> AllFound(output, Split(reference, ' '))
  {
    var keywords := Split(reference, ' ');
    RatioOne(CountIf(keywords, FoundIn(output)), |keywords|);
    CountFound(output, keywords);
  }

  /** The keyword score is 0 exactly when no keyword occurs in the output. */
  lemma {:induction false} KeywordScoreNone(output: string, reference: string)
    requires reference != ""
    ensures KeywordScore(output, Some(reference)) == 0.0 <==> NoneFound(output, Split(reference, ' '))
  {
    var keywords := Split(reference, ' ');
    var n := CountIf(keywords, FoundIn(output));
    assert Ratio(n, |keywords|) == 0.0 <==> n == 0;
    CountFound(output, keywords);
  }

  /** A reference scored against itself contains all its keywords. */
  lemma {:induction false} KeywordScoreSelf(reference: string)
    requires reference != ""
    ensures KeywordScore(reference, Some(reference)) == 1.0
  {
    var keywords := Split(reference, ' ');
    JoinSplit(reference, ' ');
    forall k | k in keywords ensures Contains(reference, k) {
      var i :| 0 <= i < |keywords| && keywords[i] == k;
      JoinContainsParts(keywords, ' ', i);
    }
    KeywordScoreFull(reference, reference);
  }

  lemma {:induction false} OccursShift(u: string, t: string, k: string, j: int)
    requires OccursAt(t, k, j)
    ensures OccursAt(u + t, k, |u| + j)
  {
    assert (u + t)[|u| + j..|u| + j + |k|] == t[j..j + |k|];
  }

  lemma {:induction false} OccursPrefix(t: string, u: string, k: string, j: int)
    requires OccursAt(t, k, j)
    ensures OccursAt(t + u, k, j)
  {
    assert (t + u)[j..j + |k|] == t[j..j + |k|];
  }

  /** Every piece occurs in the joined text. */
  lemma {:induction false} JoinContainsParts(parts: seq<string>, sep: char, i: nat)
    requires i < |parts|
    ensures Contains(Join(parts, sep), parts[i])
  {
    var joined := Join(parts, sep);
    if |parts| == 1 {
      assert OccursAt(joined, parts[0], 0);
    } else {
      var u := parts[0] + [sep];
      var rest := Join(parts[1..], sep);
      assert joined == parts[0] + ([sep] + rest);
      if i == 0 {
        assert OccursAt(parts[0], parts[0], 0);
        OccursPrefix(parts[0], [sep] + rest, parts[0], 0);
      } else {
        JoinContainsParts(parts[1..], sep, i - 1);
        ContainsIff(rest, parts[i]);
        var j :| OccursAt(rest, parts[i], j);
        assert joined == u + rest;
        OccursShift(u, rest, parts[i], j);
      }
    }
    ContainsIff(joined, parts[i]);
  }

  // ---- BLEU ----

  /** `s.toLowerCase().replace(/[^\w\s]/g, '').split(/\s+/).filter(Boolean)`. */
  function BleuTokens(s: string): seq<string>
  {
    NonEmpty(SplitWs(StripNonWord(ToLower(s))))
  }

  function MemberOf(tokens: seq<string>): string -> bool
  {
    t => t in tokens
  }

  /**
    Unigram BLEU without clipping: the share of output tokens (with repetition)
    that appear anywhere among the reference tokens.
  */
  function BleuScore(output: string, reference: string): (r: real)
    ensures 0.0 <= r <= 1.0
    ensures reference == "" || output == "" || BleuTokens(output) == [] ==> r == 0.0
  {
    if reference == "" || output == "" then 0.0
    else
      var outTokens := BleuTokens(output);
      if |outTokens| == 0 then 0.0
      else
        var matches := CountIf(outTokens, MemberOf(BleuTokens(reference)));
        RatioBounds(matches, |outTokens|);
        Ratio(matches, |outTokens|)
  }

  /** `calculateBleu`: counts the matching output tokens one by one. */
  method CalculateBleu(output: string, reference: string) returns (score: real)
    ensures score == BleuScore(output, reference)
  {
    if reference == "" || output == "" {
      return 0.0;
    }
    var outTokens := BleuTokens(output);
    var refTokens := BleuTokens(reference);
    if |outTokens| == 0 {
      return 0.0;
    }
    var matches := 0;
    for i := 0 to |outTokens|
      invariant matches == CountIf(outTokens[..i], MemberOf(refTokens))
    {
      assert outTokens[..i + 1][..i] == outTokens[..i];
      if outTokens[i] in refTokens {
        matches := matches + 1;
      }
    }
    assert outTokens[..|outTokens|] == outTokens;
    score := Ratio(matches, if |outTokens| > 1 then |outTokens| else 1);
  }

  /** BLEU is 1 exactly when every output token is also a reference token. */
  lemma {:induction false} BleuFull(output: string, reference: string)
    requires output != "" && reference != "" && BleuTokens(output) != []
    ensures BleuScore(output, reference) == 1.0 <==>
            forall t :: t in BleuTokens(output) ==> t in BleuTokens(reference)
  {
    var outTokens := BleuTokens(output);
    var matches := CountIf(outTokens, MemberOf(BleuTokens(reference)));
    RatioOne(matches, |outTokens|);
    CountIfAll(outTokens, MemberOf(BleuTokens(reference)));
  }

  /** An output that has tokens scores 1 against itself. */
  lemma {:induction false} BleuSelf(output: string)
    requires output != "" && BleuTokens(output) != []
    ensures BleuScore(output, output) == 1.0
  {
    BleuFull(output, output);
  }

  // ---- ROUGE-L ----

  /** `s.toLowerCase().split(/\s+/)`: empty first and last tokens are kept. */
  function RougeTokens(s: string): (r: seq<string>)
    ensures |r| >= 1
  {
    SplitWs(ToLower(s))
  }

  function Max(x: nat, y: nat): nat
  {
    if x >= y then x else y
  }

  /** The length of a longest common subsequence, by the recurrence the DP table fills. */
  function Lcs<T(==)>(a: seq<T>, b: seq<T>): (r: nat)
    ensures r <= |a| && r <= |b|
    decreases |a| + |b|
  {
    if |a| == 0 || |b| == 0 then 0
    else if a[|a| - 1] == b[|b| - 1] then Lcs(a[..|a| - 1], b[..|b| - 1]) + 1
    else Max(Lcs(a[..|a| - 1], b), Lcs(a, b[..|b| - 1]))
  }

  /** `c` can be obtained from `a` by deleting elements. */
  predicate IsSubseq<T(==)>(c: seq<T>, a: seq<T>)
    decreases |a|
  {
    c == [] ||
    (a != [] &&
     ((c[|c| - 1] == a[|a| - 1] && IsSubseq(c[..|c| - 1], a[..|a| - 1])) ||
      IsSubseq(c, a[..|a| - 1])))
  }

  lemma {:induction false} SubseqDropLast<T>(c: seq<T>, a: seq<T>)
    requires c != [] && IsSubseq(c, a)
    ensures IsSubseq(c[..|c| - 1], a)
    decreases |a|
  {
    if !(c[|c| - 1] == a[|a| - 1] && IsSubseq(c[..|c| - 1], a[..|a| - 1])) {
      SubseqDropLast(c, a[..|a| - 1]);
    }
  }

  /** A common subsequence as long as `Lcs` says: the length is attained. */
  ghost function CommonSubseq<T>(a: seq<T>, b: seq<T>): (c: seq<T>)
    ensures |c| == Lcs(a, b) && IsSubseq(c, a) && IsSubseq(c, b)
    decreases |a| + |b|
  {
    if |a| == 0 || |b| == 0 then []
    else if a[|a| - 1] == b[|b| - 1] then
      var c0 := CommonSubseq(a[..|a| - 1], b[..|b| - 1]);
      var c := c0 + [a[|a| - 1]];
      assert c[..|c| - 1] == c0;
      c
    else if Lcs(a[..|a| - 1], b) >= Lcs(a, b[..|b| - 1]) then CommonSubseq(a[..|a| - 1], b)
    else CommonSubseq(a, b[..|b| - 1])
  }

  /** No common subsequence is longer than `Lcs`: the length is optimal. */
  lemma {:induction false} LcsOptimal<T>(c: seq<T>, a: seq<T>, b: seq<T>)
    requires IsSubseq(c, a) && IsSubseq(c, b)
    ensures |c| <= Lcs(a, b)
    decreases |a| + |b|
  {
    if c != [] {
      var a0, b0, c0 := a[..|a| - 1], b[..|b| - 1], c[..|c| - 1];
      if IsSubseq(c, a0) {
        if a[|a| - 1] != b[|b| - 1] {
          LcsOptimal(c, a0, b);
        } else if IsSubseq(c, b0) {
          LcsOptimal(c, a0, b0);
        } else {
          SubseqDropLast(c, a0);
          LcsOptimal(c0, a0, b0);
        }
      } else if IsSubseq(c, b0) {
        if a[|a| - 1] != b[|b| - 1] {
          LcsOptimal(c, a, b0);
        } else {
          SubseqDropLast(c, b0);
          LcsOptimal(c0, a0, b0);
        }
      } else {
        LcsOptimal(c0, a0, b0);
      }
    }
  }

  lemma {:induction false} LcsSymmetric<T>(a: seq<T>, b: seq<T>)
    ensures Lcs(a, b) == Lcs(b, a)
    decreases |a| + |b|
  {
    if |a| > 0 && |b| > 0 {
      if a[|a| - 1] == b[|b| - 1] {
        LcsSymmetric(a[..|a| - 1], b[..|b| - 1]);
      } else {
        LcsSymmetric(a[..|a| - 1], b);
        LcsSymmetric(a, b[..|b| - 1]);
      }
    }
  }

  lemma {:induction false} LcsSelf<T>(a: seq<T>)
    ensures Lcs(a, a) == |a|
  {
    if |a| > 0 {
      LcsSelf(a[..|a| - 1]);
    }
  }

  lemma {:induction false} SubseqSingleton<T>(x: T, a: seq<T>)
    requires x in a
    ensures IsSubseq([x], a)
    decreases |a|
  {
    if a[|a| - 1] != x {
      assert a == a[..|a| - 1] + [a[|a| - 1]];
      SubseqSingleton(x, a[..|a| - 1]);
    } else {
      assert [x][..0] == [];
    }
  }

  lemma {:induction false} SubseqLast<T>(c: seq<T>, a: seq<T>)
    requires c != [] && IsSubseq(c, a)
    ensures c[|c| - 1] in a
    decreases |a|
  {
    if c[|c| - 1] != a[|a| - 1] {
      SubseqLast(c, a[..|a| - 1]);
    }
  }

  /** The LCS is empty exactly when the two sequences share no element. */
  lemma {:induction false} LcsZeroIff<T>(a: seq<T>, b: seq<T>)
    ensures Lcs(a, b) == 0 <==> forall x :: x in a ==> x !in b
  {
    if Lcs(a, b) > 0 {
      var c := CommonSubseq(a, b);
      SubseqLast(c, a);
      SubseqLast(c, b);
    }
    if exists x :: x in a && x in b {
      var x :| x in a && x in b;
      SubseqSingleton(x, a);
      SubseqSingleton(x, b);
      LcsOptimal([x], a, b);
    }
  }

  /**
    ROUGE-L: 0 when either text is empty; otherwise the F1 of LCS precision
    (over the output's tokens) and LCS recall (over the reference's tokens).
  */
  function RougeScore(output: string, reference: string): (r: real)
    ensures 0.0 <= r <= 1.0
  {
    if reference == "" || output == "" then 0.0
    else
      var s1 := RougeTokens(output);
      var s2 := RougeTokens(reference);
      var lcs := Lcs(s1, s2);
      RatioBounds(lcs, |s1|);
      RatioBounds(lcs, |s2|);
      F1Bounds(Ratio(lcs, |s1|), Ratio(lcs, |s2|));
      F1(Ratio(lcs, |s1|), Ratio(lcs, |s2|))
  }

  /** One cell of the table, by the recurrence `Lcs` follows on prefixes. */
  lemma {:induction false} LcsPrefixStep<T>(a: seq<T>, b: seq<T>, i: nat, j: nat)
    requires 1 <= i <= |a| && 1 <= j <= |b|
    ensures Lcs(a[..i], b[..j]) ==
            if a[i - 1] == b[j - 1] then Lcs(a[..i - 1], b[..j - 1]) + 1
            else Max(Lcs(a[..i - 1], b[..j]), Lcs(a[..i], b[..j - 1]))
  {
    assert a[..i][..i - 1] == a[..i - 1];
    assert b[..j][..j - 1] == b[..j - 1];
  }

  /** The DP table of `calculateRougeL`: `dp[i][j]` is the LCS length of the first i and first j tokens. */
  method LcsTable(s1: seq<string>, s2: seq<string>) returns (lcs: nat)
    ensures lcs == Lcs(s1, s2)
  {
    var m, n := |s1|, |s2|;
    var dp := new nat[m + 1, n + 1]((i, j) => 0);
    for i := 1 to m + 1
      invariant forall ii, jj :: 0 <= ii < i && 0 <= jj <= n ==> dp[ii, jj] == Lcs(s1[..ii], s2[..jj])
      invariant forall ii :: i <= ii <= m ==> dp[ii, 0] == 0
    {
      for j := 1 to n + 1
        invariant forall ii, jj :: 0 <= ii < i && 0 <= jj <= n ==> dp[ii, jj] == Lcs(s1[..ii], s2[..jj])
        invariant forall jj :: 0 <= jj < j ==> dp[i, jj] == Lcs(s1[..i], s2[..jj])
        invariant forall ii :: i < ii <= m ==> dp[ii, 0] == 0
      {
        LcsPrefixStep(s1, s2, i, j);
        if s1[i - 1] == s2[j - 1] {
          dp[i, j] := dp[i - 1, j - 1] + 1;
        } else {
          dp[i, j] := Max(dp[i - 1, j], dp[i, j - 1]);
        }
      }
    }
    assert s1[..m] == s1 && s2[..n] == s2;
    lcs := dp[m, n];
  }

  /** `calculateRougeL`: tokenises, fills the table, and combines precision and recall. */
  method CalculateRougeL(output: string, reference: string) returns (score: real)
    ensures score == RougeScore(output, reference)
  {
    if reference == "" || output == "" {
      return 0.0;
    }
    var s1 := RougeTokens(output);
    var s2 := RougeTokens(reference);
    var lcs := LcsTable(s1, s2);
    var p := Ratio(lcs, |s1|);
    var r := Ratio(lcs, |s2|);
    assert RougeScore(output, reference) == F1(p, r);
    if p + r == 0.0 {
      return 0.0;
    }
    F1Nonzero(p, r);
    score := (2.0 * p * r) / (p + r);
  }

  /** ROUGE-L does not care which text is the output and which the reference. */
  lemma {:induction false} RougeSymmetric(output: string, reference: string)
    ensures RougeScore(output, reference) == RougeScore(reference, output)
  {
    if reference != "" && output != "" {
      var s1, s2 := RougeTokens(output), RougeTokens(reference);
      LcsSymmetric(s1, s2);
      F1Symmetric(Ratio(Lcs(s1, s2), |s1|), Ratio(Lcs(s1, s2), |s2|));
    }
  }

  /** Identical token sequences score 1. */
  lemma {:induction false} RougeIdentical(output: string, reference: string)
    requires output != "" && reference != ""
    requires RougeTokens(output) == RougeTokens(reference)
    ensures RougeScore(output, reference) == 1.0
  {
    var s := RougeTokens(output);
    LcsSelf(s);
    RatioOne(|s|, |s|);
  }

  /** Two non-empty texts score 0 exactly when they share no token. */
  lemma {:induction false} RougeZeroIff(output: string, reference: string)
    requires output != "" && reference != ""
    ensures RougeScore(output, reference) == 0.0 <==>
            forall t :: t in RougeTokens(output) ==> t !in RougeTokens(reference)
  {
    var s1, s2 := RougeTokens(output), RougeTokens(reference);
    var lcs := Lcs(s1, s2);
    assert RougeScore(output, reference) == F1(Ratio(lcs, |s1|), Ratio(lcs, |s2|));
    F1RatiosZeroIff(lcs, |s1|, |s2|);
    LcsZeroIff(s1, s2);
  }

  // ---- LLM judge ----

  const Indent: string := "            "

  /** The prompt sent to the judge model; a missing or empty reference reads "N/A". */
  function JudgePrompt(input: string, reference: Option<string>, output: string): string
  {
    var refText := if reference.Some? && reference.value != "" then reference.value else "N/A";
    "\n" + Indent + "Act as an impartial judge. Evaluate the quality of the AI response based on the user input and reference answer.\n"
    + Indent + "User Input: " + input + "\n"
    + Indent + "Reference Answer: " + refText + "\n"
    + Indent + "AI Response: " + output + "\n"
    + Indent + "\n"
    + Indent + "Rate the AI Response on a scale from 1 to 10. Return ONLY the number.\n"
    + Indent
  }

  /** The first position holding a decimal digit. */
  function FirstDigit(s: string): (r: Option<nat>)
    ensures r.Some? ==> r.value < |s| && IsDigit(s[r.value]) &&
                        forall k :: 0 <= k < r.value ==> !IsDigit(s[k])
    ensures r.None? ==> forall k :: 0 <= k < |s| ==> !IsDigit(s[k])
  {
    if s == [] then None
    else if IsDigit(s[0]) then Some(0)
    else
      match FirstDigit(s[1..])
      case None => None
      case Some(i) => Some(i + 1)
  }

  /** The length of the run of digits `s` starts with. */
  function DigitRun(s: string): (n: nat)
    ensures n <= |s|
    ensures forall k :: 0 <= k < n ==> IsDigit(s[k])
    ensures n < |s| ==> !IsDigit(s[n])
  {
    if s != [] && IsDigit(s[0]) then 1 + DigitRun(s[1..]) else 0
  }

  /** `s.match(/\d+/)?.[0]`: the first maximal run of digits, if any. */
  function MatchDigits(s: string): (r: Option<string>)
    ensures r.Some? ==> r.value != [] && AllSatisfy(r.value, IsDigit)
  {
    match FirstDigit(s)
    case None => None
    case Some(i) => Some(s[i..i + DigitRun(s[i..])])
  }

  /** `parseInt` of a run of decimal digits. */
  function DecimalValue(d: string): nat
    requires AllSatisfy(d, IsDigit)
  {
    if d == [] then 0
    else DecimalValue(d[..|d| - 1]) * 10 + (d[|d| - 1] as int - '0' as int)
  }

  /**
    `parseInt(reply.match(/\d+/)?.[0] || "0")`: the value of the first run of
    digits, and 0 when the reply holds no digit.
  */
  function ParseJudgeReply(reply: string): (r: nat)
    ensures (forall k :: 0 <= k < |reply| ==> !IsDigit(reply[k])) ==> r == 0
  {
    match MatchDigits(reply)
    case None => 0
    case Some(run) => DecimalValue(run)
  }

  /** The decimal rendering of a natural number, with no leading zeros. */
  function ShowNat(n: nat): (r: string)
    ensures r != [] && AllSatisfy(r, IsDigit)
  {
    var last := [('0' as int + n % 10) as char];
    if n < 10 then last else ShowNat(n / 10) + last
  }

  lemma {:induction false} DecimalShowNat(n: nat)
    ensures DecimalValue(ShowNat(n)) == n
  {
    var d := ShowNat(n);
    if n >= 10 {
      DecimalShowNat(n / 10);
      assert d[..|d| - 1] == ShowNat(n / 10);
    } else {
      assert d[..0] == [];
    }
  }

  lemma {:induction false} FirstDigitAfter(pre: string, t: string)
    requires forall k :: 0 <= k < |pre| ==> !IsDigit(pre[k])
    requires t != [] && IsDigit(t[0])
    ensures FirstDigit(pre + t) == Some(|pre|)
  {
    var x := pre + t;
    assert x[|pre|] == t[0];
    assert forall k :: 0 <= k < |pre| ==> x[k] == pre[k];
  }

  lemma {:induction false} DigitRunOf(d: string, post: string)
    requires AllSatisfy(d, IsDigit)
    requires post == [] || !IsDigit(post[0])
    ensures DigitRun(d + post) == |d|
  {
    var x := d + post;
    assert forall k :: 0 <= k < |d| ==> x[k] == d[k];
    if |d| < |x| {
      assert x[|d|] == post[0];
    }
  }

  /**
    A reply whose first digits spell `n` (after digit-free text, and before
    anything that is not a digit) is read as `n`.
  */
  lemma {:induction false} ParseJudgeReplyReads(pre: string, n: nat, post: string)
    requires forall k :: 0 <= k < |pre| ==> !IsDigit(pre[k])
    requires post == [] || !IsDigit(post[0])
    ensures ParseJudgeReply(pre + ShowNat(n) + post) == n
  {
    var d := ShowNat(n);
    var reply := pre + d + post;
    assert reply == pre + (d + post);
    FirstDigitAfter(pre, d + post);
    assert reply[|pre|..] == d + post;
    DigitRunOf(d, post);
    assert reply[|pre|..|pre| + |d|] == d;
    DecimalShowNat(n);
  }

  /** A natural number read as a real is a non-negative whole number. */
  lemma WholeReal(n: nat)
    ensures 0.0 <= n as real && (n as real).Floor as real == n as real
  {
  }

  /** `parseFloat` of the reply's first digit run, or 0: a non-negative whole number. */
  function ReplyScore(reply: string): (r: real)
    ensures 0.0 <= r && r == r.Floor as real
    ensures r == ParseJudgeReply(reply) as real
  {
    var n := ParseJudgeReply(reply);
    WholeReal(n);
    n as real
  }

  /** LLM_JUDGE: 0 without a judge model, otherwise the parsed reply to the prompt. */
  function JudgeScore(input: string, output: string, reference: Option<string>,
                      judge: Option<LLMModel>, env: Oracles): (r: real)
    ensures 0.0 <= r && r == r.Floor as real
    ensures judge.None? ==> r == 0.0
  {
    if judge.None? then 0.0 else ReplyScore(env.judge(judge.value, JudgePrompt(input, reference, output)))
  }

  /** CUSTOM: 0 without code, and 0 when the evaluator throws or returns anything but a number or a boolean. */
  function CustomScore(input: string, output: string, reference: Option<string>,
                       code: string, env: Oracles): Score
  {
    if code == "" then Num(0.0)
    else
      match env.custom(input, output, reference, code)
      case ReturnedNumber(x) => Num(x)
      case ReturnedBoolean(b) => Flag(b)
      case ReturnedOther => Num(0.0)
      case Raised => Num(0.0)
  }

  /** The score of one metric, as the dispatcher's `switch` computes it. */
  function MetricValue(metric: MetricType, input: string, output: string, reference: Option<string>,
                       judge: Option<LLMModel>, code: string, env: Oracles): Score
  {
    match metric
    case ExactMatch => Flag(ExactMatchScore(output, reference))
    case JsonValidity => Num(if env.parsesAsJson(output) then 1.0 else 0.0)
    case Length => Num(Utf16Length(output) as real)
    case ContainsKeyword => Num(KeywordScore(output, reference))
    case Bleu => Num(BleuScore(output, OrEmpty(reference)))
    case Rouge => Num(RougeScore(output, OrEmpty(reference)))
    case Custom => CustomScore(input, output, reference, code, env)
    case LlmJudge => Num(JudgeScore(input, output, reference, judge, env))
  }

  /** Exact match scores a verdict, not a number. */
  lemma ExactMatchVerdict(input: string, output: string, reference: Option<string>,
                          judge: Option<LLMModel>, code: string, env: Oracles)
    ensures MetricValue(ExactMatch, input, output, reference, judge, code, env).Flag?
  {
  }

  /** JSON validity, keyword hits, BLEU and ROUGE-L are numbers between 0 and 1. */
  lemma RatioMetricsBounded(metric: MetricType, input: string, output: string, reference: Option<string>,
                            judge: Option<LLMModel>, code: string, env: Oracles)
    requires metric == JsonValidity || metric == ContainsKeyword || metric == Bleu || metric == Rouge
    ensures var v := MetricValue(metric, input, output, reference, judge, code, env);
            v.Num? && 0.0 <= v.n <= 1.0
  {
    if metric == ContainsKeyword {
      var k := KeywordScore(output, reference);
      assert MetricValue(metric, input, output, reference, judge, code, env) == Num(k);
    } else if metric == Bleu {
      var b := BleuScore(output, OrEmpty(reference));
      assert MetricValue(metric, input, output, reference, judge, code, env) == Num(b);
    } else if metric == Rouge {
      var r := RougeScore(output, OrEmpty(reference));
      assert MetricValue(metric, input, output, reference, judge, code, env) == Num(r);
    }
  }

  /** LENGTH is a whole number of UTF-16 code units, at least the number of characters and at most twice it. */
  lemma LengthWhole(input: string, output: string, reference: Option<string>,
                    judge: Option<LLMModel>, code: string, env: Oracles)
    ensures var v := MetricValue(Length, input, output, reference, judge, code, env);
            && v.Num? && 0.0 <= v.n && v.n == v.n.Floor as real
            && |output| as real <= v.n <= 2.0 * |output| as real
  {
    WholeReal(Utf16Length(output));
  }

  /**
    The body of the dispatcher's `switch` for one metric. BLEU and ROUGE-L run
    their loop methods; the other cases are single expressions, the same ones
    `MetricValue` names.
  */
  method ScoreMetric(metric: MetricType, input: string, output: string, reference: Option<string>,
                     judge: Option<LLMModel>, code: string, env: Oracles)
    returns (score: Score)
    ensures score == MetricValue(metric, input, output, reference, judge, code, env)
  {
    if metric == Bleu {
      var b := CalculateBleu(output, OrEmpty(reference));
      score := Num(b);
    } else if metric == Rouge {
      var r := CalculateRougeL(output, OrEmpty(reference));
      score := Num(r);
    } else {
      score := MetricValue(metric, input, output, reference, judge, code, env);
    }
  }

  /**
    `calculateScores`: one entry per selected metric and nothing else, each
    holding that metric's score; a metric listed twice is scored twice and the
    later write wins, with the same value.
  */
  method CalculateScores(input: string, output: string, reference: Option<string>,
                         metrics: seq<MetricType>, judge: Option<LLMModel>,
                         code: string, env: Oracles)
    returns (results: map<MetricType, Score>)
    ensures results.Keys == set m | m in metrics
    ensures forall m :: m in results ==>
              results[m] == MetricValue(m, input, output, reference, judge, code, env)
  {
    results := map[];
    for i := 0 to |metrics|
      invariant results.Keys == set m | m in metrics[..i]
      invariant forall m :: m in results ==>
                  results[m] == MetricValue(m, input, output, reference, judge, code, env)
    {
      var score := ScoreMetric(metrics[i], input, output, reference, judge, code, env);
      results := results[metrics[i] := score];
      assert metrics[..i + 1] == metrics[..i] + [metrics[i]];
    }
    assert metrics[..|metrics|] == metrics;
  }
}
