/** URL-safe identifiers (pkg/slug/slug.go).

    `Slugify` says what a slug is in terms of words: the maximal runs of [a-z0-9] of the lowered name,
    joined by single hyphens and cut at 63 characters. `Make` is the source's pipeline of trimming,
    folding, two regular-expression passes and a truncation, proved to compute exactly that. */
module Slug {
  import opened Wrappers

  const MAX_LENGTH := 63

  predicate Alnum(c: char) {
    'a' <= c <= 'z' || '0' <= c <= '9'
  }

  /** strings.ToLower on one rune, as far as the result can be ASCII: besides A-Z, exactly two other
      runes have an ASCII lower case, U+0130 and the Kelvin sign U+212A. */
  function Lower(c: char): char {
    if 'A' <= c <= 'Z' then (c as int + 32) as char
    else if c == '\U{0130}' then 'i'
    else if c == '\U{212A}' then 'k'
    else c
  }

  /** Runes at or above unicode.MaxASCII become a space. */
  function Fold(c: char): char {
    if (Lower(c) as int) < 0x7F then Lower(c) else ' '
  }

  function Folded(s: string): (r: string)
    ensures |r| == |s|
  {
    seq(|s|, i requires 0 <= i < |s| => Fold(s[i]))
  }

  predicate Space(c: char) {
    '\t' <= c <= '\r' || c == ' ' || c == '\U{0085}' || c == '\U{00A0}' || c == '\U{1680}'
    || '\U{2000}' <= c <= '\U{200A}' || c == '\U{2028}' || c == '\U{2029}' || c == '\U{202F}'
    || c == '\U{205F}' || c == '\U{3000}'
  }

  // ---- the library calls the pipeline makes ----

  function TrimLeft(s: string, cut: char -> bool): string {
    if s != "" && cut(s[0]) then TrimLeft(s[1..], cut) else s
  }

  function TrimRight(s: string, cut: char -> bool): string {
    if s != "" && cut(s[|s| - 1]) then TrimRight(s[..|s| - 1], cut) else s
  }

  function TrimSpace(s: string): string {
    TrimRight(TrimLeft(s, Space), Space)
  }

  predicate IsHyphen(c: char) {
    c == '-'
  }

  function TrimHyphens(s: string): string {
    TrimRight(TrimLeft(s, IsHyphen), IsHyphen)
  }

  predicate Other(c: char) {
    !Alnum(c)
  }

  /** Replace every maximal run of characters outside [a-z0-9] by one hyphen. */
  function Squash(s: string): string
    decreases |s|
  {
    if s == "" then ""
    else if Alnum(s[0]) then [s[0]] + Squash(s[1..])
    else
      TrimLeftShrinks(s[1..], Other);
      "-" + Squash(TrimLeft(s[1..], Other))
  }

  /** Replace every run of two or more hyphens by one. */
  function Collapse(s: string): string {
    if |s| < 2 then s
    else if s[0] == '-' && s[1] == '-' then Collapse(s[1..])
    else [s[0]] + Collapse(s[1..])
  }

  lemma TrimLeftShrinks(s: string, cut: char -> bool)
    ensures |TrimLeft(s, cut)| <= |s|
  {
  }

  // ---- what a slug is ----

  function RunLength(s: string): (n: nat)
    ensures n <= |s|
    ensures forall i | 0 <= i < n :: Alnum(s[i])
    ensures n < |s| ==> !Alnum(s[n])
  {
    if s == "" || !Alnum(s[0]) then 0 else 1 + RunLength(s[1..])
  }

  /** The maximal runs of [a-z0-9]. */
  function Words(s: string): seq<string>
    decreases |s|
  {
    if s == "" then []
    else if !Alnum(s[0]) then Words(s[1..])
    else [s[..RunLength(s)]] + Words(s[RunLength(s)..])
  }

  function Join(ws: seq<string>): string {
    if ws == [] then "" else if |ws| == 1 then ws[0] else ws[0] + "-" + Join(ws[1..])
  }

  predicate Word(w: string) {
    w != "" && forall i | 0 <= i < |w| :: Alnum(w[i])
  }

  predicate AllWords(ws: seq<string>) {
    forall i | 0 <= i < |ws| :: Word(ws[i])
  }

  function Cut(s: string): string {
    if |s| > MAX_LENGTH then TrimHyphens(s[..MAX_LENGTH]) else s
  }

  function Slugify(name: string): string {
    Cut(Join(Words(Folded(name))))
  }

  /** Letters, digits and single interior hyphens; also true of the empty string. */
  ghost predicate Clean(s: string) {
    && (forall i | 0 <= i < |s| :: Alnum(s[i]) || s[i] == '-')
    && (s != "" ==> s[0] != '-' && s[|s| - 1] != '-')
    && (forall i, j | 0 <= i < j < |s| && j == i + 1 :: s[i] != '-' || s[j] != '-')
  }

  lemma {:induction false} WordsAreWords(s: string)
    ensures AllWords(Words(s))
    decreases |s|
  {
    if s != "" {
      if !Alnum(s[0]) {
        WordsAreWords(s[1..]);
      } else {
        WordsAreWords(s[RunLength(s)..]);
      }
    }
  }

  lemma {:induction false} JoinIsClean(ws: seq<string>)
    requires AllWords(ws)
    ensures Clean(Join(ws))
    ensures ws != [] ==> Join(ws) != "" && Alnum(Join(ws)[0])
  {
    if |ws| > 1 {
      JoinIsClean(ws[1..]);
      assert Word(ws[0]);
      var tail := Join(ws[1..]);
      assert Join(ws) == ws[0] + "-" + tail;
    } else if |ws| == 1 {
      assert Word(ws[0]);
    }
  }

  lemma CleanSuffix(s: string, n: nat)
    requires Clean(s) && n < |s| && s[n] != '-'
    ensures Clean(s[n..])
  {
    var t := s[n..];
    forall i, j | 0 <= i < j < |t| && j == i + 1 ensures t[i] != '-' || t[j] != '-' {
      assert t[i] == s[n + i] && t[j] == s[n + j];
    }
  }

  /** A clean string goes on after its first word with a hyphen and another word. */
  lemma HyphenFollowsWord(s: string)
    requires Clean(s) && RunLength(s) < |s|
    ensures var n := RunLength(s); 0 < n && n + 1 < |s| && s[n] == '-' && s[n + 1] != '-' && Clean(s[n + 1..])
  {
    var n := RunLength(s);
    assert s[n] == '-' && n + 1 < |s|;
    CleanSuffix(s, n + 1);
  }

  lemma WordsSkipHyphen(s: string)
    requires Clean(s) && RunLength(s) < |s|
    ensures RunLength(s) + 1 < |s| && Words(s) == [s[..RunLength(s)]] + Words(s[RunLength(s) + 1..])
  {
    HyphenFollowsWord(s);
    var rest := s[RunLength(s)..];
    assert Words(rest) == Words(rest[1..]);
    assert rest[1..] == s[RunLength(s) + 1..];
  }

  lemma OneWord(s: string)
    requires s != "" && RunLength(s) == |s|
    ensures Words(s) == [s]
  {
    assert s[|s|..] == "" && s[..|s|] == s;
  }

  lemma SplitAt(s: string, n: nat)
    requires n < |s| && s[n] == '-'
    ensures s[..n] + "-" + s[n + 1..] == s
  {}

  lemma {:induction false} CleanHasWords(s: string)
    requires Clean(s) && s != ""
    ensures Words(s) != []
  {
    assert Alnum(s[0]);
  }

  /** Splitting a clean string into its words and joining them again gives it back. */
  lemma {:induction false} JoinOfWords(s: string)
    requires Clean(s)
    ensures Join(Words(s)) == s
    decreases |s|
  {
    if s != "" {
      var n := RunLength(s);
      if n < |s| {
        HyphenFollowsWord(s);
        var w, rest := s[..n], s[n + 1..];
        WordsSkipHyphen(s);
        JoinOfWords(rest);
        CleanHasWords(rest);
        JoinCons(w, Words(rest));
        SplitAt(s, n);
      } else {
        OneWord(s);
      }
    }
  }

  lemma CleanIsFolded(s: string)
    requires Clean(s)
    ensures Folded(s) == s
  {
  }

  lemma CutIsClean(s: string)
    requires Clean(s)
    ensures Clean(Cut(s)) && |Cut(s)| <= MAX_LENGTH
    ensures s != "" ==> Cut(s) != ""
  {
    if |s| > MAX_LENGTH {
      var t := s[..MAX_LENGTH];
      assert TrimLeft(t, IsHyphen) == t;
      if t[MAX_LENGTH - 1] == '-' {
        var u := t[..MAX_LENGTH - 1];
        assert u[|u| - 1] == t[MAX_LENGTH - 2];
        assert TrimRight(u, IsHyphen) == u;
        assert TrimRight(t, IsHyphen) == u;
      } else {
        assert TrimRight(t, IsHyphen) == t;
      }
    }
  }

  lemma SlugifyIsClean(name: string)
    ensures Clean(Slugify(name)) && |Slugify(name)| <= MAX_LENGTH
  {
    WordsAreWords(Folded(name));
    JoinIsClean(Words(Folded(name)));
    CutIsClean(Join(Words(Folded(name))));
  }

  lemma CleanIsFixed(s: string)
    requires Clean(s) && |s| <= MAX_LENGTH
    ensures Slugify(s) == s
  {
    CleanIsFolded(s);
    JoinOfWords(s);
  }

  // ---- the promises ----

  predicate Valid(s: string) {
    s != "" && |s| <= MAX_LENGTH && Slugify(s) == s
  }

  /** The grammar: words of [a-z0-9] joined by single hyphens, 1 to 63 characters. */
  ghost predicate IsSlug(s: string) {
    1 <= |s| <= 63 && exists ws :: AllWords(ws) && s == Join(ws)
  }

  lemma MakeIsIdempotent(name: string)
    ensures Slugify(Slugify(name)) == Slugify(name)
    ensures Slugify(name) == "" || Valid(Slugify(name))
  {
    SlugifyIsClean(name);
    CleanIsFixed(Slugify(name));
  }

  lemma ValidIsTheGrammar(s: string)
    ensures Valid(s) <==> IsSlug(s)
  {
    if Valid(s) {
      SlugifyIsClean(s);
      JoinOfWords(s);
      WordsAreWords(s);
    }
    if IsSlug(s) {
      var ws :| AllWords(ws) && s == Join(ws);
      JoinIsClean(ws);
      CleanIsFixed(s);
    }
  }

  /** An empty result means the name has no letter or digit at all. */
  lemma {:induction false} EmptyMeansNoWord(name: string)
    ensures Slugify(name) == "" <==> forall i | 0 <= i < |name| :: !Alnum(Fold(name[i]))
  {
    var f := Folded(name);
    WordsAreWords(f);
    JoinIsClean(Words(f));
    CutIsClean(Join(Words(f)));
    NoWordsMeansNoAlnum(f);
    assert forall i | 0 <= i < |name| :: f[i] == Fold(name[i]);
  }

  lemma {:induction false} NoWordsMeansNoAlnum(s: string)
    ensures Words(s) == [] <==> forall i | 0 <= i < |s| :: !Alnum(s[i])
    decreases |s|
  {
    if s != "" && !Alnum(s[0]) {
      NoWordsMeansNoAlnum(s[1..]);
      assert forall i | 1 <= i < |s| :: s[i] == s[1..][i - 1];
    }
  }

  /** A longer result is cut to its longest prefix of at most 63 characters that does not end in a hyphen. */
  lemma CutIsLongestPrefix(name: string, n: nat)
    ensures var full := Join(Words(Folded(name)));
            && Slugify(name) <= full && |Slugify(name)| <= 63
            && (n <= |full| && n <= 63 && (n == 0 || full[n - 1] != '-') ==> n <= |Slugify(name)|)
  {
    var full := Join(Words(Folded(name)));
    WordsAreWords(Folded(name));
    JoinIsClean(Words(Folded(name)));
    if |full| > MAX_LENGTH {
      var t := full[..MAX_LENGTH];
      assert TrimLeft(t, IsHyphen) == t;
      if t[MAX_LENGTH - 1] == '-' {
        var u := t[..MAX_LENGTH - 1];
        assert u[|u| - 1] == t[MAX_LENGTH - 2];
        assert TrimRight(t, IsHyphen) == u;
      } else {
        assert TrimRight(t, IsHyphen) == t;
      }
    }
  }

  /** A character outside ASCII is not transliterated but separates like a space, so the accented letter of the
      source's own example is lost: its comment promises "cafe". */
  lemma {:induction false} AccentsSeparate(before: string, c: char, after: string)
    requires (Lower(c) as int) >= 0x7F
    ensures Slugify(before + [c] + after) == Slugify(before + " " + after)
    ensures Slugify("Caf\U{00E9}") == "caf"
  {
    assert Folded(before + [c] + after) == Folded(before + " " + after);
    assert Folded("Caf\U{00E9}") == "caf ";
    assert Words("caf ") == ["caf"] by {
      assert "caf "[1..] == "af " && "af "[1..] == "f " && "f "[1..] == " " && " "[1..] == "";
      assert RunLength("caf ") == 3 && "caf "[..3] == "caf" && "caf "[3..] == " ";
    }
  }

  // ---- the pipeline computes Slugify ----

  lemma {:induction false} WordsIgnoreLeadingOthers(s: string)
    ensures Words(TrimLeft(s, Other)) == Words(s)
  {
    if s != "" && Other(s[0]) {
      WordsIgnoreLeadingOthers(s[1..]);
    }
  }

  function Mark(c: char): string {
    if Alnum(c) then "" else "-"
  }

  /** What one regular-expression pass leaves: the joined words, with a hyphen at each end where the
      input began or ended outside [a-z0-9]. */
  lemma {:induction false} SquashJoinsWords(s: string)
    ensures Words(s) == [] ==> Squash(s) == if s == "" then "" else "-"
    ensures Words(s) != [] ==> Squash(s) == Mark(s[0]) + Join(Words(s)) + Mark(s[|s| - 1])
    decreases |s|, 1
  {
    if s != "" {
      if Alnum(s[0]) {
        SquashFromWord(s);
      } else {
        SquashFromOther(s);
      }
    }
  }

  lemma {:induction false} SquashFromWord(s: string)
    requires s != "" && Alnum(s[0])
    ensures Words(s) != [] && Squash(s) == Join(Words(s)) + Mark(s[|s| - 1])
    decreases |s|, 0
  {
    SquashWord(s);
    var w, rest := s[..RunLength(s)], s[RunLength(s)..];
    SquashJoinsWords(rest);
    NoWordsMeansNoAlnum(rest);
    JoinCons(w, Words(rest));
    if rest != "" {
      assert rest[|rest| - 1] == s[|s| - 1];
      Concatenate(w, Join(Words(rest)), Mark(s[|s| - 1]));
    }
  }

  lemma JoinCons(w: string, ws: seq<string>)
    ensures Join([w] + ws) == if ws == [] then w else w + "-" + Join(ws)
  {
    assert ([w] + ws)[1..] == ws;
  }

  lemma Concatenate(a: string, b: string, c: string)
    ensures a + ("-" + b + c) == a + "-" + b + c
  {
  }

  /** What follows a leading run of other characters: a shorter rest with the same words, which is empty or
      starts with a word and ends as the whole does. */
  lemma {:induction false} RestAfterOthers(s: string)
    requires s != "" && !Alnum(s[0])
    ensures var rest := TrimLeft(s[1..], Other);
            && |rest| < |s| && Words(s) == Words(rest)
            && (rest != "" ==> Alnum(rest[0]) && rest[|rest| - 1] == s[|s| - 1])
  {
    var rest := TrimLeft(s[1..], Other);
    TrimLeftShrinks(s[1..], Other);
    TrimLeftStops(s[1..], Other);
    WordsIgnoreLeadingOthers(s[1..]);
    if rest != "" {
      TrimLeftKeepsLast(s[1..], Other);
    }
  }

  lemma SquashLeadingOthers(s: string)
    requires s != "" && !Alnum(s[0])
    ensures Squash(s) == "-" + Squash(TrimLeft(s[1..], Other))
  {}

  lemma {:induction false} SquashFromOther(s: string)
    requires s != "" && !Alnum(s[0])
    ensures Words(s) == [] ==> Squash(s) == "-"
    ensures Words(s) != [] ==> Squash(s) == "-" + Join(Words(s)) + Mark(s[|s| - 1])
    decreases |s|, 0
  {
    var rest := TrimLeft(s[1..], Other);
    RestAfterOthers(s);
    SquashLeadingOthers(s);
    if rest != "" {
      SquashFromWord(rest);
      Associate("-", Join(Words(rest)), Mark(s[|s| - 1]));
    }
  }

  lemma Associate(a: string, b: string, c: string)
    ensures a + (b + c) == a + b + c
  {}

  lemma {:induction false} SquashWord(s: string)
    ensures Squash(s) == s[..RunLength(s)] + Squash(s[RunLength(s)..])
  {
    if s != "" && Alnum(s[0]) {
      SquashWord(s[1..]);
      assert s[1..][RunLength(s[1..])..] == s[RunLength(s)..];
      assert s[..RunLength(s)] == [s[0]] + s[1..][..RunLength(s[1..])];
    } else {
      assert s[RunLength(s)..] == s;
    }
  }

  lemma TrimLeftStops(s: string, cut: char -> bool)
    ensures TrimLeft(s, cut) != "" ==> !cut(TrimLeft(s, cut)[0])
  {
  }

  lemma {:induction false} TrimLeftKeepsLast(s: string, cut: char -> bool)
    requires TrimLeft(s, cut) != ""
    ensures s != "" && TrimLeft(s, cut)[|TrimLeft(s, cut)| - 1] == s[|s| - 1]
  {
    if s != "" && cut(s[0]) {
      TrimLeftKeepsLast(s[1..], cut);
    }
  }

  /** The second pass finds nothing left to collapse. */
  lemma {:induction false} CollapseAfterSquash(s: string)
    ensures Collapse(Squash(s)) == Squash(s)
    ensures Squash(s) != "" ==> s != "" && (Squash(s)[0] == '-' <==> !Alnum(s[0]))
    decreases |s|
  {
    if s != "" {
      if Alnum(s[0]) {
        CollapseAfterSquash(s[1..]);
        assert Squash(s)[1..] == Squash(s[1..]);
      } else {
        var rest := TrimLeft(s[1..], Other);
        TrimLeftShrinks(s[1..], Other);
        CollapseAfterSquash(rest);
        TrimLeftStops(s[1..], Other);
        assert Squash(s)[1..] == Squash(rest);
      }
    }
  }

  lemma TrimMarks(a: char, j: string, z: char)
    requires j != "" && j[0] != '-' && j[|j| - 1] != '-'
    ensures TrimHyphens(Mark(a) + j + Mark(z)) == j
  {
    var t := j + Mark(z);
    assert Mark(a) + j + Mark(z) == Mark(a) + t;
    assert TrimLeft(t, IsHyphen) == t;
    assert TrimLeft(Mark(a) + t, IsHyphen) == t by {
      assert (if Alnum(a) then Mark(a) + t else (Mark(a) + t)[1..]) == t;
    }
    assert TrimRight(j, IsHyphen) == j;
    assert TrimRight(t, IsHyphen) == j by {
      assert (if Alnum(z) then t else t[..|t| - 1]) == j;
    }
  }

  lemma TrimSquash(s: string)
    ensures TrimHyphens(Squash(s)) == Join(Words(s))
  {
    SquashJoinsWords(s);
    if Words(s) == [] {
      assert TrimLeft("-", IsHyphen) == "";
    } else {
      WordsAreWords(s);
      JoinIsClean(Words(s));
      TrimMarks(s[0], Join(Words(s)), s[|s| - 1]);
    }
  }

  lemma {:induction false} WordsIgnoreTrailingOther(s: string)
    requires s != "" && !Alnum(s[|s| - 1])
    ensures Words(s[..|s| - 1]) == Words(s)
    decreases |s|
  {
    var t := s[..|s| - 1];
    if t != "" {
      if !Alnum(s[0]) {
        assert t[1..] == s[1..][..|s| - 2];
        WordsIgnoreTrailingOther(s[1..]);
      } else {
        var n := RunLength(s);
        RunLengthOfPrefix(s, |s| - 1);
        assert t[n..] == s[n..][..|s| - n - 1] && t[..n] == s[..n];
        WordsIgnoreTrailingOther(s[n..]);
      }
    }
  }

  lemma {:induction false} RunLengthOfPrefix(s: string, k: nat)
    requires RunLength(s) <= k <= |s|
    ensures RunLength(s[..k]) == RunLength(s)
  {
    if s != "" && Alnum(s[0]) {
      assert s[..k][1..] == s[1..][..k - 1];
      RunLengthOfPrefix(s[1..], k - 1);
    }
  }

  lemma {:induction false} TrimLeftSpaceKeepsWords(s: string)
    ensures Words(Folded(TrimLeft(s, Space))) == Words(Folded(s))
  {
    if s != "" && Space(s[0]) {
      assert Folded(s)[1..] == Folded(s[1..]);
      TrimLeftSpaceKeepsWords(s[1..]);
    }
  }

  lemma {:induction false} TrimRightSpaceKeepsWords(s: string)
    ensures Words(Folded(TrimRight(s, Space))) == Words(Folded(s))
  {
    if s != "" && Space(s[|s| - 1]) {
      assert Folded(s)[..|s| - 1] == Folded(s[..|s| - 1]);
      WordsIgnoreTrailingOther(Folded(s));
      TrimRightSpaceKeepsWords(s[..|s| - 1]);
    }
  }

  method Make(input: string) returns (out: string)
    ensures out == Slugify(input)
  {
    var trimmed := TrimSpace(input);
    var lowered := seq(|trimmed|, i requires 0 <= i < |trimmed| => Lower(trimmed[i]));
    var b := "";
    for i := 0 to |lowered|
      invariant b == Folded(trimmed)[..i]
    {
      var r := lowered[i];
      if (r as int) < 0x7F {
        b := b + [r];
      } else {
        b := b + " ";
      }
    }
    TrimRightSpaceKeepsWords(TrimLeft(input, Space));
    TrimLeftSpaceKeepsWords(input);
    assert b == Folded(trimmed);

    out := Squash(b);
    CollapseAfterSquash(b);
    out := Collapse(out);
    TrimSquash(b);
    out := TrimHyphens(out);
    if |out| > MAX_LENGTH {
      out := TrimHyphens(out[..MAX_LENGTH]);
    }
  }

  /** Only valid slugs come out, an explicit one unchanged; otherwise the caller gets a validation error. */
  method Resolve(explicit: string, name: string) returns (r: Option<string>)
    ensures r.Some? ==> Valid(r.value)
    ensures TrimSpace(explicit) != "" ==> r == if Valid(TrimSpace(explicit)) then Some(TrimSpace(explicit)) else None
    ensures TrimSpace(explicit) == "" ==> r == if Slugify(name) == "" then None else Some(Slugify(name))
  {
    var trimmed := TrimSpace(explicit);
    if trimmed != "" {
      if !Valid(trimmed) {
        return None;
      }
      return Some(trimmed);
    }
    var derived := Make(name);
    MakeIsIdempotent(name);
    if derived == "" {
      return None;
    }
    return Some(derived);
  }
}
