/**
 * The string keys facts and edges are deduplicated by, and the canonical form of relation
 * names. A joined key stands for its tuple only if no two tuples share a key.
 */
module Keys {
  /** A deduplication key of a fact: free text first, then three fields without a bar. */
  function FactKey(content: string, memoryType: string, role: string, time: string): string {
    content + "|" + memoryType + "|" + role + "|" + time
  }

  /** A deduplication key of an edge: free text between two decimal ids. */
  function EdgeKey(source: nat, relation: string, target: nat): string {
    Decimal(source) + "|" + relation + "|" + Decimal(target)
  }

  function Digit(d: nat): char
    requires d < 10
  {
    "0123456789"[d]
  }

  predicate IsDigit(c: char) {
    '0' <= c <= '9'
  }

  function Decimal(n: nat): (s: string)
    ensures s != "" && forall c :: c in s ==> IsDigit(c)
  {
    if n < 10 then [Digit(n)] else Decimal(n / 10) + [Digit(n % 10)]
  }

  /** The number a digit string denotes. */
  function Value(s: string): nat
    requires forall c :: c in s ==> IsDigit(c)
  {
    if s == "" then 0
    else
      assert IsDigit(s[|s| - 1]);
      Value(s[..|s| - 1]) * 10 + (s[|s| - 1] - '0') as nat
  }

  lemma DigitValue(d: nat)
    requires d < 10
    ensures IsDigit(Digit(d)) && (Digit(d) - '0') as nat == d
  {
  }

  lemma {:induction false} ValueOfDecimal(n: nat)
    ensures Value(Decimal(n)) == n
  {
    hide Digit;
    DigitValue(n % 10);
    if n < 10 {
      assert Decimal(n)[..0] == "";
    } else {
      ValueOfDecimal(n / 10);
      assert Decimal(n)[..|Decimal(n)| - 1] == Decimal(n / 10);
    }
  }

  predicate BarFree(s: string) {
    '|' !in s
  }

  /** Where the first bar is, or the length if there is none. */
  function FirstBar(s: string): nat {
    if s == "" || s[0] == '|' then 0 else 1 + FirstBar(s[1..])
  }

  function LastBar(s: string): int {
    if s == "" || s[|s| - 1] == '|' then |s| - 1 else LastBar(s[..|s| - 1])
  }

  lemma {:induction false} FirstBarAfter(a: string, x: string)
    requires BarFree(a)
    ensures FirstBar(a + "|" + x) == |a|
  {
    var s := a + "|" + x;
    if a != "" {
      assert s[0] == a[0] && s[0] in a;
      assert s[1..] == a[1..] + "|" + x;
      FirstBarAfter(a[1..], x);
    }
  }

  lemma {:induction false} LastBarBefore(x: string, a: string)
    requires BarFree(a)
    ensures LastBar(x + "|" + a) == |x|
  {
    var s := x + "|" + a;
    if a != "" {
      assert s[|s| - 1] == a[|a| - 1] && s[|s| - 1] in a;
      assert s[..|s| - 1] == x + "|" + a[..|a| - 1];
      LastBarBefore(x, a[..|a| - 1]);
    }
  }

  lemma SplitAtFirstBar(a: string, x: string, b: string, y: string)
    requires BarFree(a) && BarFree(b) && a + "|" + x == b + "|" + y
    ensures a == b && x == y
  {
    var s, t := a + "|" + x, b + "|" + y;
    FirstBarAfter(a, x);
    FirstBarAfter(b, y);
    assert a == s[..|a|] && b == t[..|b|];
    assert x == s[|a| + 1..] && y == t[|b| + 1..];
  }

  lemma SplitAtLastBar(x: string, a: string, y: string, b: string)
    requires BarFree(a) && BarFree(b) && x + "|" + a == y + "|" + b
    ensures a == b && x == y
  {
    var s, t := x + "|" + a, y + "|" + b;
    LastBarBefore(x, a);
    LastBarBefore(y, b);
    assert x == s[..|x|] && y == t[..|y|];
    assert a == s[|x| + 1..] && b == t[|y| + 1..];
  }

  /** Deduplicating facts by joined key is deduplicating by tuple, whatever bars the content holds. */
  lemma FactKeyInjective(c1: string, t1: string, r1: string, i1: string, c2: string, t2: string, r2: string, i2: string)
    requires BarFree(t1) && BarFree(r1) && BarFree(i1) && BarFree(t2) && BarFree(r2) && BarFree(i2)
    ensures FactKey(c1, t1, r1, i1) == FactKey(c2, t2, r2, i2) <==> c1 == c2 && t1 == t2 && r1 == r2 && i1 == i2
  {
    if FactKey(c1, t1, r1, i1) == FactKey(c2, t2, r2, i2) {
      SplitAtLastBar(c1 + "|" + t1 + "|" + r1, i1, c2 + "|" + t2 + "|" + r2, i2);
      SplitAtLastBar(c1 + "|" + t1, r1, c2 + "|" + t2, r2);
      SplitAtLastBar(c1, t1, c2, t2);
    }
  }

  /** Deduplicating edges by joined key is deduplicating by triple, whatever bars the relation holds. */
  lemma EdgeKeyInjective(s1: nat, rel1: string, o1: nat, s2: nat, rel2: string, o2: nat)
    ensures EdgeKey(s1, rel1, o1) == EdgeKey(s2, rel2, o2) <==> s1 == s2 && rel1 == rel2 && o1 == o2
  {
    if EdgeKey(s1, rel1, o1) == EdgeKey(s2, rel2, o2) {
      var tail1, tail2 := rel1 + "|" + Decimal(o1), rel2 + "|" + Decimal(o2);
      assert EdgeKey(s1, rel1, o1) == Decimal(s1) + "|" + tail1;
      assert EdgeKey(s2, rel2, o2) == Decimal(s2) + "|" + tail2;
      SplitAtFirstBar(Decimal(s1), tail1, Decimal(s2), tail2);
      SplitAtLastBar(rel1, Decimal(o1), rel2, Decimal(o2));
      ValueOfDecimal(s1);
      ValueOfDecimal(s2);
      ValueOfDecimal(o1);
      ValueOfDecimal(o2);
    }
  }

  /* ---- relation names ---- */

  /** The character tables: which characters are white space, and the upper case of each. */
  datatype Chars = Chars(space: char -> bool, upper: char -> string)

  /**
   * What the names need of the tables: upper-casing is idempotent, keeps `_` as it is, and
   * makes neither white space nor a hyphen out of anything else.
   */
  ghost predicate Lawful(t: Chars) {
    && !t.space('_') && t.upper('_') == "_"
    && (forall c, d :: d in t.upper(c) ==> t.upper(d) == [d])
    && (forall c, d :: !t.space(c) && c != '-' && d in t.upper(c) ==> !t.space(d) && d != '-')
  }

  function TrimLeft(t: Chars, s: string): string {
    if s != "" && t.space(s[0]) then TrimLeft(t, s[1..]) else s
  }

  function TrimRight(t: Chars, s: string): string {
    if s != "" && t.space(s[|s| - 1]) then TrimRight(t, s[..|s| - 1]) else s
  }

  function Dashes(s: string): string {
    if s == "" then "" else [if s[0] == '-' then '_' else s[0]] + Dashes(s[1..])
  }

  /** The maximal stretches without white space, in order. */
  function Words(t: Chars, s: string, word: string): seq<string>
    decreases |s|
  {
    if s == "" then if word == "" then [] else [word]
    else if t.space(s[0]) then (if word == "" then [] else [word]) + Words(t, s[1..], "")
    else Words(t, s[1..], word + [s[0]])
  }

  function Joined(words: seq<string>): string {
    if words == [] then ""
    else if |words| == 1 then words[0]
    else words[0] + "_" + Joined(words[1..])
  }

  function Upper(t: Chars, s: string): string {
    if s == "" then "" else t.upper(s[0]) + Upper(t, s[1..])
  }

  function CollapseUnderscores(s: string): string {
    if |s| < 2 then s
    else if s[0] == '_' && s[1] == '_' then CollapseUnderscores(s[1..])
    else [s[0]] + CollapseUnderscores(s[1..])
  }

  function RelationName(t: Chars, s: string): string {
    CollapseUnderscores(Upper(t, Joined(Words(t, Dashes(TrimRight(t, TrimLeft(t, s))), ""))))
  }

  /** Upper case throughout, no white space, no hyphen. */
  ghost predicate Plain(t: Chars, s: string) {
    forall c :: c in s ==> t.upper(c) == [c] && !t.space(c) && c != '-'
  }

  ghost predicate NoDoubleUnderscore(s: string) {
    forall i :: 0 <= i < |s| - 1 ==> !(s[i] == '_' && s[i + 1] == '_')
  }

  ghost predicate Canonical(t: Chars, s: string) {
    Plain(t, s) && NoDoubleUnderscore(s)
  }

  ghost predicate NoSpace(t: Chars, s: string) {
    forall c :: c in s ==> !t.space(c) && c != '-'
  }

  lemma {:induction false} DashesGone(s: string)
    ensures '-' !in Dashes(s) && |Dashes(s)| == |s|
    ensures '-' !in s ==> Dashes(s) == s
  {
    if s != "" {
      DashesGone(s[1..]);
      assert '-' !in s ==> '-' !in s[1..];
    }
  }

  lemma TailIn(s: string)
    requires s != ""
    ensures forall c :: c in s[1..] ==> c in s
  {
  }

  lemma {:induction false} WordsClean(t: Chars, s: string, word: string)
    requires '-' !in s && NoSpace(t, word)
    ensures forall w :: w in Words(t, s, word) ==> NoSpace(t, w)
    decreases |s|
  {
    if s != "" {
      TailIn(s);
      if t.space(s[0]) {
        WordsClean(t, s[1..], "");
      } else {
        WordsClean(t, s[1..], word + [s[0]]);
      }
    }
  }

  lemma {:induction false} JoinedClean(t: Chars, words: seq<string>)
    requires !t.space('_') && forall w :: w in words ==> NoSpace(t, w)
    ensures NoSpace(t, Joined(words))
  {
    if words != [] {
      assert words[0] in words;
      JoinedClean(t, words[1..]);
    }
  }

  lemma {:induction false} UpperPlain(t: Chars, s: string)
    requires Lawful(t) && NoSpace(t, s)
    ensures Plain(t, Upper(t, s))
  {
    if s != "" {
      TailIn(s);
      UpperPlain(t, s[1..]);
      forall d | d in t.upper(s[0]) ensures t.upper(d) == [d] && !t.space(d) && d != '-' {
        assert s[0] in s;
      }
    }
  }

  lemma {:induction false} CollapseKeepsPlain(t: Chars, s: string)
    requires Plain(t, s)
    ensures Canonical(t, CollapseUnderscores(s))
    ensures s != "" ==> CollapseUnderscores(s) != "" && CollapseUnderscores(s)[0] == s[0]
  {
    if |s| >= 2 {
      TailIn(s);
      CollapseKeepsPlain(t, s[1..]);
      var rest := CollapseUnderscores(s[1..]);
      assert rest[0] == s[1];
      if !(s[0] == '_' && s[1] == '_') {
        var r := [s[0]] + rest;
        assert s[0] in s && forall c :: c in r ==> c == s[0] || c in rest;
        forall i | 0 <= i < |r| - 1 ensures !(r[i] == '_' && r[i + 1] == '_') {
          if i > 0 {
            assert r[i] == rest[i - 1] && r[i + 1] == rest[i];
          }
        }
      }
    }
  }

  lemma {:induction false} CanonicalFixed(t: Chars, s: string)
    requires Canonical(t, s)
    ensures Upper(t, s) == s && CollapseUnderscores(s) == s
  {
    if s != "" {
      assert s[0] in s;
      TailIn(s);
      assert NoDoubleUnderscore(s[1..]) by {
        forall i | 0 <= i < |s[1..]| - 1 ensures !(s[1..][i] == '_' && s[1..][i + 1] == '_') {
          assert s[1..][i] == s[i + 1] && s[1..][i + 1] == s[i + 1 + 1];
        }
      }
      CanonicalFixed(t, s[1..]);
      assert [s[0]] + s[1..] == s;
    }
  }

  lemma {:induction false} OneWord(t: Chars, s: string, word: string)
    requires NoSpace(t, s)
    ensures Words(t, s, word) == if word + s == "" then [] else [word + s]
    decreases |s|
  {
    if s == "" {
      assert word + s == word;
    } else {
      assert s[0] in s;
      TailIn(s);
      OneWord(t, s[1..], word + [s[0]]);
      assert word + [s[0]] + s[1..] == word + s;
    }
  }

  /** A canonical name is left alone by every pass. */
  lemma RelationNameOfCanonical(t: Chars, s: string)
    requires Canonical(t, s)
    ensures RelationName(t, s) == s
  {
    assert NoSpace(t, s);
    assert TrimLeft(t, s) == s && TrimRight(t, s) == s by {
      if s != "" {
        assert s[0] in s && s[|s| - 1] in s;
      }
    }
    DashesGone(s);
    OneWord(t, s, "");
    assert "" + s == s;
    CanonicalFixed(t, s);
  }

  /**
   * Canonical relation names hold no white space, no hyphen and no double underscore, and
   * canonicalising is idempotent: two spellings agree once if and only if they always do.
   */
  lemma RelationNameCanonical(t: Chars, s: string)
    requires Lawful(t)
    ensures Canonical(t, RelationName(t, s))
    ensures RelationName(t, RelationName(t, s)) == RelationName(t, s)
  {
    var dashed := Dashes(TrimRight(t, TrimLeft(t, s)));
    DashesGone(TrimRight(t, TrimLeft(t, s)));
    WordsClean(t, dashed, "");
    JoinedClean(t, Words(t, dashed, ""));
    UpperPlain(t, Joined(Words(t, dashed, "")));
    CollapseKeepsPlain(t, Upper(t, Joined(Words(t, dashed, ""))));
    RelationNameOfCanonical(t, RelationName(t, s));
  }

  /** A name is unchanged exactly when it is canonical already. */
  lemma UnchangedIffCanonical(t: Chars, s: string)
    requires Lawful(t)
    ensures RelationName(t, s) == s <==> Canonical(t, s)
  {
    RelationNameCanonical(t, s);
    if Canonical(t, s) {
      RelationNameOfCanonical(t, s);
    }
  }

  /* ---- the same name in one pass ---- */

  /** `s` without the white space at its two ends. */
  ghost predicate IsTrimmed(t: Chars, s: string, i: nat, j: nat) {
    && i <= j <= |s|
    && (forall k :: 0 <= k < i || j <= k < |s| ==> t.space(s[k]))
    && (i < j ==> !t.space(s[i]) && !t.space(s[j - 1]))
  }

  /** One character of the canonical name: white space and hyphens become underscores, the rest upper case. */
  function Mapped(t: Chars, s: string): string {
    if s == "" then ""
    else (if t.space(s[0]) || s[0] == '-' then "_" else t.upper(s[0])) + Mapped(t, s[1..])
  }

  /** A run of underscores collapses like a single one. */
  lemma {:induction false} CollapseRun(a: string, b: string)
    ensures CollapseUnderscores(a + "__" + b) == CollapseUnderscores(a + "_" + b)
    decreases |a|
  {
    var s, r := a + "__" + b, a + "_" + b;
    if a == "" {
      assert s[1..] == r;
    } else {
      assert s[1..] == a[1..] + "__" + b && r[1..] == a[1..] + "_" + b;
      CollapseRun(a[1..], b);
      assert s[0] == r[0] == a[0];
      assert |a| > 1 ==> s[1] == a[1] == r[1];
      assert |a| == 1 ==> s[1] == '_' == r[1];
    }
  }

  lemma {:induction false} WordsNonEmpty(t: Chars, s: string, word: string)
    requires word != "" || (s != "" && !t.space(s[|s| - 1]))
    ensures Words(t, s, word) != []
    decreases |s|
  {
    if s != "" {
      if t.space(s[0]) {
        if word == "" {
          WordsNonEmpty(t, s[1..], "");
        }
      } else {
        WordsNonEmpty(t, s[1..], word + [s[0]]);
      }
    }
  }

  lemma {:induction false} UpperConcat(t: Chars, a: string, b: string)
    ensures Upper(t, a + b) == Upper(t, a) + Upper(t, b)
  {
    if a == "" {
      assert a + b == b;
    } else {
      assert (a + b)[1..] == a[1..] + b;
      UpperConcat(t, a[1..], b);
    }
  }

  lemma UpperOne(t: Chars, c: char)
    ensures Upper(t, [c]) == t.upper(c)
  {
    assert [c][1..] == "";
    assert t.upper(c) + "" == t.upper(c);
  }

  lemma UpperJoined(t: Chars, word: string, rest: seq<string>)
    requires rest != [] && t.upper('_') == "_"
    ensures Upper(t, Joined([word] + rest)) == Upper(t, word) + "_" + Upper(t, Joined(rest))
  {
    assert ([word] + rest)[1..] == rest;
    UpperConcat(t, word + "_", Joined(rest));
    UpperConcat(t, word, "_");
    UpperOne(t, '_');
  }

  /** Splitting into words, joining and upper-casing is mapping character by character, up to runs of underscores. */
  lemma {:induction false} JoinedIsMapped(t: Chars, p: string, word: string, x: string)
    requires t.upper('_') == "_" && !t.space('_') && '-' !in x
    requires x != "" ==> !t.space(x[|x| - 1])
    requires x == "" || word != "" || !t.space(x[0]) || (p != "" && p[|p| - 1] == '_')
    ensures CollapseUnderscores(p + Upper(t, Joined(Words(t, x, word))))
            == CollapseUnderscores(p + Upper(t, word) + Mapped(t, x))
    decreases |x|
  {
    hide CollapseUnderscores, Joined, Upper, Words, Mapped;
    if x == "" {
      NothingLeft(t, word);
      assert p + Upper(t, word) + "" == p + Upper(t, word);
    } else {
      TailIn(x);
      Steps(t, x, word);
      var tail := x[1..];
      if !t.space(x[0]) {
        JoinedIsMapped(t, p, word + [x[0]], tail);
        assert p + Upper(t, word + [x[0]]) + Mapped(t, tail) == p + Upper(t, word) + Mapped(t, x);
      } else if word != "" {
        var p1 := p + Upper(t, word) + "_";
        JoinedIsMapped(t, p1, "", tail);
        assert p + Upper(t, Joined(Words(t, x, word))) == p1 + Upper(t, Joined(Words(t, tail, "")));
        assert p1 + Upper(t, "") + Mapped(t, tail) == p + Upper(t, word) + Mapped(t, x);
      } else {
        JoinedIsMapped(t, p, "", tail);
        var p0 := p[..|p| - 1];
        CollapseRun(p0, Mapped(t, tail));
        assert p + Upper(t, "") + Mapped(t, x) == p0 + "__" + Mapped(t, tail);
        assert p + Upper(t, "") + Mapped(t, tail) == p0 + "_" + Mapped(t, tail);
      }
    }
  }

  lemma NothingLeft(t: Chars, word: string)
    ensures Joined(Words(t, "", word)) == word && Mapped(t, "") == ""
  {
  }

  /** What the first character of `x` does on either side. */
  lemma Steps(t: Chars, x: string, word: string)
    requires x != "" && '-' !in x && !t.space(x[|x| - 1]) && t.upper('_') == "_" && !t.space('_')
    ensures Upper(t, "") == ""
    ensures Mapped(t, x) == (if t.space(x[0]) then "_" else t.upper(x[0])) + Mapped(t, x[1..])
    ensures !t.space(x[0]) ==>
              && Words(t, x, word) == Words(t, x[1..], word + [x[0]])
              && Upper(t, word + [x[0]]) == Upper(t, word) + t.upper(x[0])
    ensures t.space(x[0]) && word == "" ==> Words(t, x, word) == Words(t, x[1..], "")
    ensures t.space(x[0]) && word != "" ==>
              Upper(t, Joined(Words(t, x, word))) == Upper(t, word) + "_" + Upper(t, Joined(Words(t, x[1..], "")))
  {
    assert x[0] in x;
    UpperConcat(t, word, [x[0]]);
    UpperOne(t, x[0]);
    if t.space(x[0]) {
      WordsNonEmpty(t, x[1..], "");
      UpperJoined(t, word, Words(t, x[1..], ""));
      assert [] + Words(t, x[1..], "") == Words(t, x[1..], "");
    }
  }

  lemma {:induction false} MappedDashes(t: Chars, s: string)
    requires t.upper('_') == "_" && !t.space('_')
    ensures Mapped(t, Dashes(s)) == Mapped(t, s)
    ensures |Dashes(s)| == |s| && forall k :: 0 <= k < |s| ==> Dashes(s)[k] == if s[k] == '-' then '_' else s[k]
  {
    if s != "" {
      MappedDashes(t, s[1..]);
    }
  }

  /**
   * The canonical name in one pass: without its outer white space, every other white space
   * and every hyphen an underscore, every other character in upper case, and each run of
   * underscores read as one.
   */
  lemma RelationNameInOnePass(t: Chars, s: string, i: nat, j: nat)
    requires t.upper('_') == "_" && !t.space('_') && !t.space('-') && IsTrimmed(t, s, i, j)
    ensures RelationName(t, s) == CollapseUnderscores(Mapped(t, s[i..j]))
  {
    Trimmed(t, s, i, j);
    var trimmed := s[i..j];
    var x := Dashes(trimmed);
    MappedDashes(t, trimmed);
    DashesGone(trimmed);
    JoinedIsMapped(t, "", "", x);
    assert "" + Upper(t, Joined(Words(t, x, ""))) == Upper(t, Joined(Words(t, x, "")));
    assert "" + Upper(t, "") + Mapped(t, x) == Mapped(t, x);
  }

  lemma {:induction false} TrimLeftIs(t: Chars, s: string, i: nat)
    requires i <= |s| && (forall k :: 0 <= k < i ==> t.space(s[k])) && (i < |s| ==> !t.space(s[i]))
    ensures TrimLeft(t, s) == s[i..]
  {
    if i > 0 {
      TrimLeftIs(t, s[1..], i - 1);
    }
  }

  lemma {:induction false} TrimRightIs(t: Chars, s: string, j: nat)
    requires j <= |s| && (forall k :: j <= k < |s| ==> t.space(s[k])) && (j > 0 ==> !t.space(s[j - 1]))
    ensures TrimRight(t, s) == s[..j]
  {
    if j < |s| {
      TrimRightIs(t, s[..|s| - 1], j);
      assert s[..|s| - 1][..j] == s[..j];
    } else {
      assert s[..j] == s;
    }
  }

  lemma Trimmed(t: Chars, s: string, i: nat, j: nat)
    requires IsTrimmed(t, s, i, j)
    ensures TrimRight(t, TrimLeft(t, s)) == s[i..j]
  {
    var from := if i < j then i else |s|;
    TrimLeftIs(t, s, from);
    TrimRightIs(t, s[from..], if i < j then j - i else 0);
    assert i < j ==> s[i..][..j - i] == s[i..j];
  }
}
