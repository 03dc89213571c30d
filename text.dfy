/**
  String primitives the scoring code and the upload paths rely on: the ASCII
  character classes of JavaScript's `\s`, `\w` and `\d` (and of Python's
  `str.isspace`), lower-casing, `trim`/`strip`, `split` on one character and on
  `/\s+/`, `includes`, and `replace` of the first occurrence.
*/
module Text {

  import opened Types

  /** JavaScript `\s` (and the characters `String.prototype.trim` removes), restricted to ASCII. */
  predicate IsSpace(c: char)
  {
    c == ' ' || 9 <= c as int <= 13
  }

  /** Python `str.isspace`, restricted to ASCII: it also counts the separators 0x1C-0x1F. */
  predicate IsPySpace(c: char)
  {
    c == ' ' || 9 <= c as int <= 13 || 28 <= c as int <= 31
  }

  /** JavaScript `\w`: ASCII letters, digits and underscore. */
  predicate IsWordChar(c: char)
  {
    ('a' <= c <= 'z') || ('A' <= c <= 'Z') || ('0' <= c <= '9') || c == '_'
  }

  /** JavaScript `\d`. */
  predicate IsDigit(c: char)
  {
    '0' <= c <= '9'
  }

  /** `toLowerCase` on one ASCII character. */
  function LowerChar(c: char): (r: char)
    ensures 'A' <= c <= 'Z' ==> r as int == c as int + 32
    ensures !('A' <= c <= 'Z') ==> r == c
  {
    if 'A' <= c <= 'Z' then (c as int + 32) as char else c
  }

  function ToLower(s: string): (r: string)
    ensures |r| == |s|
    ensures forall i :: 0 <= i < |s| ==> r[i] == LowerChar(s[i])
  {
    seq(|s|, i requires 0 <= i < |s| => LowerChar(s[i]))
  }

  /**
    `String.prototype.length`: the number of UTF-16 code units, two for a
    character outside the Basic Multilingual Plane and one for any other.
  */
  function Utf16Length(s: string): (n: nat)
    ensures |s| <= n <= 2 * |s|
    ensures (forall i :: 0 <= i < |s| ==> s[i] as int < 0x1_0000) ==> n == |s|
  {
    if s == [] then 0
    else (if s[0] as int >= 0x1_0000 then 2 else 1) + Utf16Length(s[1..])
  }

  /** The count adds up over concatenation. */
  lemma {:induction false} Utf16LengthConcat(a: string, b: string)
    ensures Utf16Length(a + b) == Utf16Length(a) + Utf16Length(b)
  {
    if a == [] {
      assert a + b == b;
    } else {
      assert (a + b)[0] == a[0];
      assert (a + b)[1..] == a[1..] + b;
      Utf16LengthConcat(a[1..], b);
    }
  }

  /** An emoji is one character here and two code units in JavaScript. */
  lemma Utf16LengthEmoji()
    ensures |"\U{1F600}"| == 1 && Utf16Length("\U{1F600}") == 2
  {
  }

  /** `replace(/[^\w\s]/g, '')`: keep only word characters and whitespace. */
  function StripNonWord(s: string): (r: string)
    ensures forall c :: c in r ==> IsWordChar(c) || IsSpace(c)
    ensures forall c :: c in s && (IsWordChar(c) || IsSpace(c)) ==> c in r
    ensures |r| <= |s|
  {
    if s == [] then []
    else if IsWordChar(s[0]) || IsSpace(s[0]) then [s[0]] + StripNonWord(s[1..])
    else StripNonWord(s[1..])
  }

  /** The strip keeps order: it distributes over concatenation. */
  lemma {:induction false} StripNonWordConcat(a: string, b: string)
    ensures StripNonWord(a + b) == StripNonWord(a) + StripNonWord(b)
  {
    if a == [] {
      assert a + b == b;
    } else {
      assert (a + b)[0] == a[0];
      assert (a + b)[1..] == a[1..] + b;
      StripNonWordConcat(a[1..], b);
    }
  }

  /** A string of word characters and whitespace only is kept whole. */
  lemma {:induction false} StripNonWordKeeps(s: string)
    requires forall i :: 0 <= i < |s| ==> IsWordChar(s[i]) || IsSpace(s[i])
    ensures StripNonWord(s) == s
  {
    if s != [] {
      StripNonWordKeeps(s[1..]);
    }
  }

  predicate AllSatisfy(s: string, p: char -> bool)
  {
    forall i :: 0 <= i < |s| ==> p(s[i])
  }

  /** The number of leading characters of `s` in the class `isWs`. */
  function LeadCount(s: string, isWs: char -> bool): (n: nat)
    ensures n <= |s|
    ensures forall k :: 0 <= k < n ==> isWs(s[k])
    ensures n < |s| ==> !isWs(s[n])
  {
    if s != [] && isWs(s[0]) then 1 + LeadCount(s[1..], isWs) else 0
  }

  /** The number of trailing characters of `s` in the class `isWs`. */
  function TrailCount(s: string, isWs: char -> bool): (n: nat)
    ensures n <= |s|
    ensures forall k :: |s| - n <= k < |s| ==> isWs(s[k])
    ensures n < |s| ==> !isWs(s[|s| - 1 - n])
  {
    if s != [] && isWs(s[|s| - 1]) then 1 + TrailCount(s[..|s| - 1], isWs) else 0
  }

  /** Removes the leading characters that satisfy `isWs`. */
  function TrimStart(s: string, isWs: char -> bool): string
  {
    s[LeadCount(s, isWs)..]
  }

  /** Removes the trailing characters that satisfy `isWs`. */
  function TrimEnd(s: string, isWs: char -> bool): string
  {
    s[..|s| - TrailCount(s, isWs)]
  }

  /** JavaScript `trim()`. */
  function Trim(s: string): string
  {
    TrimEnd(TrimStart(s, IsSpace), IsSpace)
  }

  /** Python `strip()` with no argument. */
  function PyStrip(s: string): string
  {
    TrimEnd(TrimStart(s, IsPySpace), IsPySpace)
  }

  lemma {:induction false} AllSatisfyConcat(a: string, b: string, p: char -> bool)
    requires AllSatisfy(a, p) && AllSatisfy(b, p)
    ensures AllSatisfy(a + b, p)
  {
    forall i | 0 <= i < |a + b| ensures p((a + b)[i]) {
      if i < |a| { assert (a + b)[i] == a[i]; } else { assert (a + b)[i] == b[i - |a|]; }
    }
  }

  /** A run of class characters followed by a non-class character (or nothing) is exactly the leading run. */
  lemma {:induction false} LeadCountOf(pad: string, rest: string, isWs: char -> bool)
    requires AllSatisfy(pad, isWs)
    requires rest == [] || !isWs(rest[0])
    ensures LeadCount(pad + rest, isWs) == |pad|
  {
    var x := pad + rest;
    assert forall k :: 0 <= k < |pad| ==> x[k] == pad[k];
    if rest != [] {
      assert x[|pad|] == rest[0];
    }
  }

  /** The mirror image of `LeadCountOf` at the end of the text. */
  lemma {:induction false} TrailCountOf(rest: string, pad: string, isWs: char -> bool)
    requires AllSatisfy(pad, isWs)
    requires rest == [] || !isWs(rest[|rest| - 1])
    ensures TrailCount(rest + pad, isWs) == |pad|
  {
    var x := rest + pad;
    assert forall k :: |rest| <= k < |x| ==> x[k] == pad[k - |rest|];
    if rest != [] {
      assert x[|rest| - 1] == rest[|rest| - 1];
    }
  }

  /**
    Padding a text that neither starts nor ends with whitespace by whitespace
    on both sides, `trim` gives back the text.
  */
  lemma {:induction false} TrimCharacterized(pre: string, t: string, post: string, isWs: char -> bool)
    requires AllSatisfy(pre, isWs) && AllSatisfy(post, isWs)
    requires t != [] ==> !isWs(t[0]) && !isWs(t[|t| - 1])
    ensures TrimEnd(TrimStart(pre + t + post, isWs), isWs) == t
  {
    var x := pre + t + post;
    if t == [] {
      assert x == (pre + post) + [];
      AllSatisfyConcat(pre, post, isWs);
      LeadCountOf(pre + post, [], isWs);
      assert TrimStart(x, isWs) == [];
    } else {
      assert x == pre + (t + post);
      assert (t + post)[0] == t[0];
      LeadCountOf(pre, t + post, isWs);
      assert TrimStart(x, isWs) == t + post;
      TrailCountOf(t, post, isWs);
    }
  }

  /** Trimming a class keeps a middle part that neither starts nor ends in the class, and drops the class around it. */
  lemma {:induction false} TrimSplit(s: string, isWs: char -> bool) returns (lead: string, trail: string)
    ensures s == lead + (TrimEnd(TrimStart(s, isWs), isWs) + trail)
    ensures AllSatisfy(lead, isWs) && AllSatisfy(trail, isWs)
    ensures var t := TrimEnd(TrimStart(s, isWs), isWs); t != [] ==> !isWs(t[0]) && !isWs(t[|t| - 1])
  {
    var l := LeadCount(s, isWs);
    var mid := s[l..];
    var tc := TrailCount(mid, isWs);
    lead := s[..l];
    trail := mid[|mid| - tc..];
    var t := mid[..|mid| - tc];
    assert TrimEnd(TrimStart(s, isWs), isWs) == t;
    assert AllSatisfy(lead, isWs) by {
      forall i | 0 <= i < |lead| ensures isWs(lead[i]) { assert lead[i] == s[i]; }
    }
    assert AllSatisfy(trail, isWs) by {
      forall i | 0 <= i < |trail| ensures isWs(trail[i]) { assert trail[i] == mid[|mid| - tc + i]; }
    }
    assert mid == t + trail;
    assert s == lead + mid;
    if t != [] {
      assert t[0] == s[l];
      assert t[|t| - 1] == mid[|mid| - 1 - tc];
    }
  }

  /** `trim` keeps a middle part that neither starts nor ends with whitespace, and drops whitespace around it. */
  lemma TrimParts(s: string) returns (lead: string, trail: string)
    ensures s == lead + (Trim(s) + trail)
    ensures AllSatisfy(lead, IsSpace) && AllSatisfy(trail, IsSpace)
    ensures Trim(s) != [] ==> !IsSpace(Trim(s)[0]) && !IsSpace(Trim(s)[|Trim(s)| - 1])
  {
    lead, trail := TrimSplit(s, IsSpace);
  }

  /** Trimming is idempotent. */
  lemma {:induction false} TrimIdempotent(s: string)
    ensures Trim(Trim(s)) == Trim(s)
  {
    var lead, trail := TrimParts(s);
    var t := Trim(s);
    TrimCharacterized([], t, [], IsSpace);
    assert [] + t + [] == t;
  }

  lemma {:induction false} Reassociate(p: string, l: string, t: string, tr: string, q: string)
    ensures p + (l + (t + tr)) + q == (p + l) + t + (tr + q)
  {
  }

  /** The core of `TrimIgnoresPadding`, stated over the pieces of the padded text. */
  lemma {:induction false} TrimPieces(pre: string, lead: string, t: string, trail: string, post: string)
    requires AllSatisfy(pre, IsSpace) && AllSatisfy(lead, IsSpace)
    requires AllSatisfy(trail, IsSpace) && AllSatisfy(post, IsSpace)
    requires t != [] ==> !IsSpace(t[0]) && !IsSpace(t[|t| - 1])
    ensures Trim(pre + (lead + (t + trail)) + post) == t
  {
    Reassociate(pre, lead, t, trail, post);
    AllSatisfyConcat(pre, lead, IsSpace);
    AllSatisfyConcat(trail, post, IsSpace);
    TrimCharacterized(pre + lead, t, trail + post, IsSpace);
  }

  /** Whitespace around a text does not change what `trim` keeps. */
  lemma {:induction false} TrimIgnoresPadding(pre: string, s: string, post: string)
    requires AllSatisfy(pre, IsSpace) && AllSatisfy(post, IsSpace)
    ensures Trim(pre + s + post) == Trim(s)
  {
    var lead, trail := TrimParts(s);
    TrimPieces(pre, lead, Trim(s), trail, post);
  }

  /** `trim` leaves nothing exactly when the text is all whitespace. */
  lemma {:induction false} TrimEmptyIff(s: string)
    ensures Trim(s) == "" <==> AllSatisfy(s, IsSpace)
  {
    var lead, trail := TrimParts(s);
    if Trim(s) == "" {
      assert s == lead + trail;
      AllSatisfyConcat(lead, trail, IsSpace);
    }
    if AllSatisfy(s, IsSpace) {
      TrimCharacterized(s, [], [], IsSpace);
      assert s + [] + [] == s;
    }
  }

  // ---- split on one character ----

  /** `s.split(sep)` for a one-character separator (JavaScript and Python agree). */
  function Split(s: string, sep: char): (r: seq<string>)
    ensures |r| >= 1
    ensures forall i :: 0 <= i < |r| ==> sep !in r[i]
  {
    if s == [] then [""]
    else
      var rest := Split(s[1..], sep);
      if s[0] == sep then [""] + rest
      else [[s[0]] + rest[0]] + rest[1..]
  }

  /** `parts.join(sep)`. */
  function Join(parts: seq<string>, sep: char): string
  {
    if |parts| == 0 then ""
    else if |parts| == 1 then parts[0]
    else parts[0] + [sep] + Join(parts[1..], sep)
  }

  /** Splitting loses nothing: joining the pieces back gives the string. */
  lemma {:induction false} JoinSplit(s: string, sep: char)
    ensures Join(Split(s, sep), sep) == s
  {
    if s != [] {
      var rest := Split(s[1..], sep);
      JoinSplit(s[1..], sep);
      if s[0] == sep {
        assert Split(s, sep) == [""] + rest;
        assert ([""] + rest)[1..] == rest;
      } else {
        var r := Split(s, sep);
        assert r == [[s[0]] + rest[0]] + rest[1..];
        if |rest| == 1 {
          assert Join(r, sep) == [s[0]] + rest[0];
        } else {
          assert r[1..] == rest[1..];
          assert Join(rest, sep) == rest[0] + [sep] + Join(rest[1..], sep);
          assert Join(r, sep) == [s[0]] + rest[0] + [sep] + Join(rest[1..], sep);
        }
        assert s == [s[0]] + s[1..];
      }
    }
  }

  lemma {:induction false} SplitPrefix(w: string, s: string, sep: char)
    requires sep !in w
    ensures Split(w + s, sep) == [w + Split(s, sep)[0]] + Split(s, sep)[1..]
  {
    if w != [] {
      assert (w + s)[0] == w[0] && w[0] != sep;
      assert (w + s)[1..] == w[1..] + s;
      assert sep !in w[1..];
      SplitPrefix(w[1..], s, sep);
      var r := Split(s, sep);
      var inner := Split(w[1..] + s, sep);
      assert inner[0] == w[1..] + r[0] && inner[1..] == r[1..];
      assert Split(w + s, sep) == [[w[0]] + inner[0]] + inner[1..];
      assert [w[0]] + (w[1..] + r[0]) == w + r[0];
    } else {
      var r := Split(s, sep);
      assert r == [r[0]] + r[1..];
      assert w + r[0] == r[0];
      assert w + s == s;
    }
  }

  /** The other direction: separator-free pieces come back from a split of their join. */
  lemma {:induction false} SplitJoin(parts: seq<string>, sep: char)
    requires |parts| >= 1
    requires forall i :: 0 <= i < |parts| ==> sep !in parts[i]
    ensures Split(Join(parts, sep), sep) == parts
  {
    if |parts| == 1 {
      SplitPrefix(parts[0], "", sep);
      assert parts[0] + "" == parts[0];
    } else {
      var tail := Join(parts[1..], sep);
      SplitJoin(parts[1..], sep);
      assert parts[0] + [sep] + tail == parts[0] + ([sep] + tail);
      SplitPrefix(parts[0], [sep] + tail, sep);
      assert ([sep] + tail)[1..] == tail;
      assert Split([sep] + tail, sep) == [""] + parts[1..];
      assert parts[0] + "" == parts[0];
    }
  }

  // ---- split on /\s+/ ----

  predicate NoSpace(t: string)
  {
    forall i :: 0 <= i < |t| ==> !IsSpace(t[i])
  }

  /**
    `s.split(/\s+/)`: maximal runs of whitespace separate the tokens, and a
    leading or trailing run yields an empty first or last token.
  */
  function SplitWs(s: string): (r: seq<string>)
    ensures |r| >= 1
    ensures forall i :: 0 <= i < |r| ==> NoSpace(r[i])
    decreases |s|
  {
    if s == [] then [""]
    else if IsSpace(s[0]) then
      [""] + SplitWs(TrimStart(s[1..], IsSpace))
    else
      var rest := SplitWs(s[1..]);
      [[s[0]] + rest[0]] + rest[1..]
  }

  /** The characters of `s` that are not whitespace, in order. */
  function RemoveSpaces(s: string): string
  {
    if s == [] then ""
    else if IsSpace(s[0]) then RemoveSpaces(s[1..])
    else [s[0]] + RemoveSpaces(s[1..])
  }

  function Concat(ts: seq<string>): string
  {
    if ts == [] then "" else ts[0] + Concat(ts[1..])
  }

  lemma {:induction false} RemoveSpacesSkips(pad: string, rest: string)
    requires AllSatisfy(pad, IsSpace)
    ensures RemoveSpaces(pad + rest) == RemoveSpaces(rest)
  {
    if pad != [] {
      assert (pad + rest)[0] == pad[0] && IsSpace(pad[0]);
      assert (pad + rest)[1..] == pad[1..] + rest;
      assert AllSatisfy(pad[1..], IsSpace) by {
        forall i | 0 <= i < |pad[1..]| ensures IsSpace(pad[1..][i]) { assert pad[1..][i] == pad[i + 1]; }
      }
      RemoveSpacesSkips(pad[1..], rest);
    } else {
      assert pad + rest == rest;
    }
  }

  /** Tokenising on `/\s+/` keeps every non-whitespace character, in order, and nothing else. */
  lemma {:induction false} SplitWsKeepsText(s: string)
    ensures Concat(SplitWs(s)) == RemoveSpaces(s)
    decreases |s|
  {
    if s != [] {
      if IsSpace(s[0]) {
        var t := s[1..];
        var l := LeadCount(t, IsSpace);
        var rest := TrimStart(t, IsSpace);
        SplitWsKeepsText(rest);
        var lead := t[..l];
        assert t == lead + rest;
        assert s == [s[0]] + lead + rest;
        AllSatisfyConcat([s[0]], lead, IsSpace);
        RemoveSpacesSkips([s[0]] + lead, rest);
        assert ([""] + SplitWs(rest))[1..] == SplitWs(rest);
      } else {
        var rest := SplitWs(s[1..]);
        SplitWsKeepsText(s[1..]);
        var r := [[s[0]] + rest[0]] + rest[1..];
        assert r[1..] == rest[1..];
        assert Concat(rest) == rest[0] + Concat(rest[1..]);
      }
    }
  }

  /** Only the first and the last token of a `/\s+/` split can be empty. */
  lemma {:induction false} SplitWsInnerTokens(s: string)
    ensures forall i :: 0 < i < |SplitWs(s)| - 1 ==> SplitWs(s)[i] != ""
    decreases |s|
  {
    if s != [] {
      if IsSpace(s[0]) {
        var rest := TrimStart(s[1..], IsSpace);
        SplitWsInnerTokens(rest);
        if rest != [] {
          assert rest[0] == s[1..][LeadCount(s[1..], IsSpace)];
          assert SplitWs(rest)[0] != "";
        }
      } else {
        SplitWsInnerTokens(s[1..]);
      }
    }
  }

  /** `tokens.filter(Boolean)`: drop the empty tokens. */
  function NonEmpty(ts: seq<string>): (r: seq<string>)
    ensures |r| <= |ts|
    ensures forall i :: 0 <= i < |r| ==> r[i] != "" && r[i] in ts
    ensures forall t :: t in ts && t != "" ==> t in r
  {
    if ts == [] then []
    else if ts[0] == "" then NonEmpty(ts[1..])
    else [ts[0]] + NonEmpty(ts[1..])
  }

  // ---- substrings ----

  predicate StartsWith(s: string, p: string)
  {
    |p| <= |s| && s[..|p|] == p
  }

  /** True iff `k` occurs in `s` at position `i`. */
  predicate OccursAt(s: string, k: string, i: int)
  {
    0 <= i && i + |k| <= |s| && s[i..i + |k|] == k
  }

  /** `s.includes(k)`. */
  function Contains(s: string, k: string): bool
  {
    StartsWith(s, k) || (s != [] && Contains(s[1..], k))
  }

  lemma {:induction false} ContainsIff(s: string, k: string)
    ensures Contains(s, k) <==> exists i :: OccursAt(s, k, i)
  {
    if s != [] {
      ContainsIff(s[1..], k);
    }
    if Contains(s, k) {
      if StartsWith(s, k) {
        assert OccursAt(s, k, 0);
      } else {
        var i :| OccursAt(s[1..], k, i);
        assert s[1..][i..i + |k|] == s[i + 1..i + 1 + |k|];
        assert OccursAt(s, k, i + 1);
      }
    }
    if exists i :: OccursAt(s, k, i) {
      var i :| OccursAt(s, k, i);
      if i == 0 {
        assert StartsWith(s, k);
      } else {
        assert s[1..][i - 1..i - 1 + |k|] == s[i..i + |k|];
        assert OccursAt(s[1..], k, i - 1);
      }
    }
  }

  /** `s.indexOf(p)`: the first position where `p` occurs. */
  function IndexOf(s: string, p: string): (r: Option<nat>)
    ensures r.Some? ==> OccursAt(s, p, r.value) && forall j :: 0 <= j < r.value ==> !OccursAt(s, p, j)
    ensures r.None? ==> forall j :: !OccursAt(s, p, j)
  {
    if StartsWith(s, p) then Some(0)
    else if s == [] then None
    else
      var r := IndexOf(s[1..], p);
      assert forall j :: 1 <= j ==> (OccursAt(s, p, j) <==> OccursAt(s[1..], p, j - 1)) by {
        forall j | 1 <= j ensures (OccursAt(s, p, j) <==> OccursAt(s[1..], p, j - 1)) {
          if j + |p| <= |s| { assert s[1..][j - 1..j - 1 + |p|] == s[j..j + |p|]; }
        }
      }
      assert !OccursAt(s, p, 0);
      match r
      case None => None
      case Some(i) => Some(i + 1)
  }

  /** `s.replace(p, rep)` with a string pattern: only the first occurrence is replaced. */
  function ReplaceFirst(s: string, p: string, rep: string): string
  {
    match IndexOf(s, p)
    case None => s
    case Some(i) => s[..i] + rep + s[i + |p|..]
  }

  /** Python `s.replace(c, rep)` for one character: every occurrence is replaced. */
  function ReplaceAllChar(s: string, c: char, rep: string): (r: string)
    ensures c !in rep ==> c !in r
    ensures c !in s ==> r == s
  {
    if s == [] then ""
    else (if s[0] == c then rep else [s[0]]) + ReplaceAllChar(s[1..], c, rep)
  }
}
