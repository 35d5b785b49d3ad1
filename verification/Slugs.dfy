/** Slugs generated from names. */
module Slugs {
  import opened Prelude

  predicate Alnum(c: char) { 'a' <= c <= 'z' || '0' <= c <= '9' }

  /** `[a-z0-9]+(-[a-z0-9]+)*`, read by position. */
  predicate Canonical(s: string) {
    && s != "" && s[0] != '-' && s[|s| - 1] != '-'
    && (forall i :: 0 <= i < |s| ==> Alnum(s[i]) || s[i] == '-')
    && (forall i :: 0 < i < |s| ==> !(s[i - 1] == '-' && s[i] == '-'))
  }

  /** Lower case, one character at a time; one may become several. */
  function Lower(s: string, lower: char -> string): string {
    if s == "" then "" else lower(s[0]) + Lower(s[1..], lower)
  }

  function TrimStart(s: string, space: char -> bool): string {
    if s != "" && space(s[0]) then TrimStart(s[1..], space) else s
  }

  function TrimEnd(s: string, space: char -> bool): string {
    if s != "" && space(s[|s| - 1]) then TrimEnd(s[..|s| - 1], space) else s
  }

  function Trim(s: string, space: char -> bool): string { TrimEnd(TrimStart(s, space), space) }

  /** Every run of other characters becomes one dash. */
  function Squeeze(s: string): string {
    if s == "" then ""
    else
      var rest, c := Squeeze(s[..|s| - 1]), s[|s| - 1];
      if Alnum(c) then rest + [c]
      else if rest != "" && rest[|rest| - 1] == '-' then rest
      else rest + "-"
  }

  function Dash(c: char): bool { c == '-' }

  /** The slug made from a name, given the runtime's lower case and its notion of white space. */
  function GenerateSlug(name: string, lower: char -> string, space: char -> bool): string {
    Trim(Squeeze(Trim(Lower(name, lower), space)), Dash)
  }

  /** Slug characters only, no two dashes together. */
  predicate Spaced(s: string) {
    && (forall i :: 0 <= i < |s| ==> Alnum(s[i]) || s[i] == '-')
    && (forall i :: 0 < i < |s| ==> !(s[i - 1] == '-' && s[i] == '-'))
  }

  lemma {:induction false} SqueezeSpaced(s: string)
    ensures Spaced(Squeeze(s))
  {
    if s != "" { SqueezeSpaced(s[..|s| - 1]); }
  }

  lemma {:induction false} TrimStartSpaced(s: string)
    requires Spaced(s)
    ensures Spaced(TrimStart(s, Dash)) && (TrimStart(s, Dash) != "" ==> TrimStart(s, Dash)[0] != '-')
  {
    if s != "" && Dash(s[0]) { TrimStartSpaced(s[1..]); }
  }

  lemma {:induction false} TrimEndCanonical(s: string)
    requires Spaced(s) && (s != "" ==> s[0] != '-')
    ensures TrimEnd(s, Dash) == "" || Canonical(TrimEnd(s, Dash))
  {
    if s != "" && Dash(s[|s| - 1]) { TrimEndCanonical(s[..|s| - 1]); }
  }

  /** Whatever the name, the slug is empty or canonical. */
  lemma SlugCanonical(name: string, lower: char -> string, space: char -> bool)
    ensures GenerateSlug(name, lower, space) == "" || Canonical(GenerateSlug(name, lower, space))
  {
    var s := Squeeze(Trim(Lower(name, lower), space));
    SqueezeSpaced(Trim(Lower(name, lower), space));
    TrimStartSpaced(s);
    TrimEndCanonical(TrimStart(s, Dash));
  }

  /** Lower-casing and trimming leave slug characters alone. */
  ghost predicate Ordinary(lower: char -> string, space: char -> bool) {
    forall c :: Alnum(c) || c == '-' ==> lower(c) == [c] && !space(c)
  }

  lemma {:induction false} LowerSame(s: string, lower: char -> string, space: char -> bool)
    requires Ordinary(lower, space) && forall i :: 0 <= i < |s| ==> Alnum(s[i]) || s[i] == '-'
    ensures Lower(s, lower) == s
  {
    if s != "" { LowerSame(s[1..], lower, space); }
  }

  lemma {:induction false} SqueezeSame(s: string)
    requires Spaced(s)
    ensures Squeeze(s) == s
  {
    if s != "" { SqueezeSame(s[..|s| - 1]); }
  }

  /** A canonical slug is its own slug. */
  lemma CanonicalFixed(s: string, lower: char -> string, space: char -> bool)
    requires Canonical(s) && Ordinary(lower, space)
    ensures GenerateSlug(s, lower, space) == s
  {
    LowerSame(s, lower, space);
    SqueezeSame(s);
  }

  /** A string is its own slug exactly when it is empty or canonical. */
  lemma FixedIffCanonical(s: string, lower: char -> string, space: char -> bool)
    requires Ordinary(lower, space)
    ensures GenerateSlug(s, lower, space) == s <==> s == "" || Canonical(s)
  {
    SlugCanonical(s, lower, space);
    if Canonical(s) { CanonicalFixed(s, lower, space); }
  }

  lemma SlugIdempotent(name: string, lower: char -> string, space: char -> bool)
    requires Ordinary(lower, space)
    ensures GenerateSlug(GenerateSlug(name, lower, space), lower, space) == GenerateSlug(name, lower, space)
  {
    SlugCanonical(name, lower, space);
    FixedIffCanonical(GenerateSlug(name, lower, space), lower, space);
  }

  /* ── nothing alphanumeric is lost or reordered ───────────────────────── */

  function IsAlnum(c: char): bool { Alnum(c) }

  lemma {:induction false} TrimStartLetters(s: string, space: char -> bool)
    requires forall c :: space(c) ==> !Alnum(c)
    ensures Filter(TrimStart(s, space), IsAlnum) == Filter(s, IsAlnum)
  {
    if s != "" && space(s[0]) {
      TrimStartLetters(s[1..], space);
      assert s == [s[0]] + s[1..];
      FilterAppend([s[0]], s[1..], IsAlnum);
    }
  }

  lemma {:induction false} TrimEndLetters(s: string, space: char -> bool)
    requires forall c :: space(c) ==> !Alnum(c)
    ensures Filter(TrimEnd(s, space), IsAlnum) == Filter(s, IsAlnum)
  {
    if s != "" && space(s[|s| - 1]) { TrimEndLetters(s[..|s| - 1], space); }
  }

  lemma {:induction false} SqueezeLetters(s: string)
    ensures Filter(Squeeze(s), IsAlnum) == Filter(s, IsAlnum)
  {
    if s != "" {
      var rest, c := Squeeze(s[..|s| - 1]), s[|s| - 1];
      SqueezeLetters(s[..|s| - 1]);
      FilterAppend(rest, [c], IsAlnum);
      FilterAppend(rest, "-", IsAlnum);
    }
  }

  /** The letters and digits of the lower-cased name, all of them and in order, are those of the slug. */
  lemma SlugKeepsLetters(name: string, lower: char -> string, space: char -> bool)
    requires Ordinary(lower, space)
    ensures Filter(GenerateSlug(name, lower, space), IsAlnum) == Filter(Lower(name, lower), IsAlnum)
  {
    var low := Lower(name, lower);
    var trimmed := Trim(low, space);
    TrimStartLetters(low, space);
    TrimEndLetters(TrimStart(low, space), space);
    SqueezeLetters(trimmed);
    TrimStartLetters(Squeeze(trimmed), Dash);
    TrimEndLetters(TrimStart(Squeeze(trimmed), Dash), Dash);
  }

  /* ── the slug is the name's words with a dash between them ───────────── */

  /** The maximal runs of letters and digits, in order. */
  ghost function Words(s: string): (w: seq<string>)
    ensures s != "" && Alnum(s[|s| - 1]) ==> w != []
  {
    if s == "" then []
    else
      var n := |s| - 1;
      var w := Words(s[..n]);
      if !Alnum(s[n]) then w
      else if n > 0 && Alnum(s[n - 1]) then w[..|w| - 1] + [w[|w| - 1] + [s[n]]]
      else w + [[s[n]]]
  }

  ghost function Dashed(w: seq<string>): string {
    if w == [] then "" else if |w| == 1 then w[0] else Dashed(w[..|w| - 1]) + "-" + w[|w| - 1]
  }

  ghost predicate Word(w: string) { w != "" && forall c :: c in w ==> Alnum(c) }

  lemma {:induction false} WordsAreWords(s: string)
    ensures forall w :: w in Words(s) ==> Word(w)
  {
    if s != "" {
      var n := |s| - 1;
      WordsAreWords(s[..n]);
      var w := Words(s[..n]);
      if Alnum(s[n]) && n > 0 && Alnum(s[n - 1]) {
        assert Word(w[|w| - 1]);
        assert Word(w[|w| - 1] + [s[n]]);
      } else if Alnum(s[n]) {
        assert Word([s[n]]);
      }
    }
  }

  lemma {:induction false} DashedEnds(w: seq<string>)
    requires w != [] && forall x :: x in w ==> Word(x)
    ensures Dashed(w) != "" && Alnum(Dashed(w)[0]) && Alnum(Dashed(w)[|Dashed(w)| - 1])
  {
    assert Word(w[|w| - 1]);
    if |w| > 1 {
      forall x | x in w[..|w| - 1] ensures Word(x) { assert x in w; }
      DashedEnds(w[..|w| - 1]);
    }
  }

  lemma DashedGrows(w: seq<string>, c: char)
    requires w != []
    ensures Dashed(w[..|w| - 1] + [w[|w| - 1] + [c]]) == Dashed(w) + [c]
  {
    var n := |w| - 1;
    var v := w[..n] + [w[n] + [c]];
    assert v[..n] == w[..n];
  }

  lemma DashedMore(w: seq<string>, x: string)
    ensures Dashed(w + [x]) == if w == [] then x else Dashed(w) + "-" + x
  {
    assert (w + [x])[..|w|] == w;
  }

  /** A text that starts with a letter or digit has a word. */
  lemma {:induction false} WordsStart(s: string)
    ensures s != "" && Alnum(s[0]) ==> Words(s) != []
  {
    if |s| > 1 { WordsStart(s[..|s| - 1]); }
  }

  function DashUnless(c: char): string { if Alnum(c) then "" else "-" }

  /** The words dashed, and a dash at each end where the text has other characters there. */
  ghost function Framed(s: string): string {
    if s == "" then ""
    else if Words(s) == [] then "-"
    else DashUnless(s[0]) + Dashed(Words(s)) + DashUnless(s[|s| - 1])
  }

  lemma FramedOne(c: char)
    requires Alnum(c)
    ensures Framed([c]) == [c]
  {
    assert [c][..0] == "";
    assert Words([c]) == [[c]];
  }

  lemma FramedLetter(pre: string, c: char)
    requires Alnum(c)
    ensures Framed(pre + [c]) == Framed(pre) + [c]
  {
    hide Dashed;
    var s := pre + [c];
    assert s[..|pre|] == pre;
    if pre == "" {
      assert s == [c];
      FramedOne(c);
    } else {
      WordsStart(pre);
      assert s[0] == pre[0] && s[|s| - 2] == pre[|pre| - 1];
      if Alnum(pre[|pre| - 1]) { DashedGrows(Words(pre), c); } else { DashedMore(Words(pre), [c]); }
      assert Words(s) != [] && Framed(s) == DashUnless(pre[0]) + Dashed(Words(s)) + "";
      if Words(pre) == [] { assert Words(s) == [[c]]; }
    }
  }

  lemma FramedOther(pre: string, c: char)
    requires !Alnum(c)
    ensures Framed(pre + [c]) == if Framed(pre) != "" && Framed(pre)[|Framed(pre)| - 1] == '-' then Framed(pre) else Framed(pre) + "-"
  {
    hide Dashed;
    var s := pre + [c];
    assert s[..|pre|] == pre && Words(s) == Words(pre);
    if pre != "" && Words(pre) != [] {
      WordsAreWords(pre);
      DashedEnds(Words(pre));
      assert s[0] == pre[0];
    }
  }

  lemma {:induction false} SqueezeIsFramed(s: string)
    ensures Squeeze(s) == Framed(s)
  {
    hide Framed;
    if s == "" {
      FramedNone();
    } else {
      var n := |s| - 1;
      SqueezeIsFramed(s[..n]);
      assert s == s[..n] + [s[n]];
      if Alnum(s[n]) { FramedLetter(s[..n], s[n]); } else { FramedOther(s[..n], s[n]); }
    }
  }

  lemma FramedNone()
    ensures Framed("") == ""
  {
  }

  lemma TrimDashes(a: string, w: string, b: string)
    requires a == "" || a == "-"
    requires b == "" || b == "-"
    requires w != "" ==> w[0] != '-' && w[|w| - 1] != '-'
    requires w == "" ==> b == ""
    ensures Trim(a + w + b, Dash) == w
  {
    var s := a + w + b;
    assert TrimStart(w + b, Dash) == w + b;
    if a == "-" { assert s[1..] == w + b; } else { assert s == w + b; }
    assert TrimStart(s, Dash) == w + b;
    assert TrimEnd(w, Dash) == w;
    if b == "-" { assert (w + b)[..|w + b| - 1] == w; } else { assert w + b == w; }
  }

  lemma SqueezeTrimmed(s: string)
    ensures Trim(Squeeze(s), Dash) == Dashed(Words(s))
  {
    hide Squeeze, Words, Trim;
    SqueezeIsFramed(s);
    WordsAreWords(s);
    if s == "" {
      NoWords();
      TrimDashes("", "", "");
      assert "" + "" + "" == "";
    } else if Words(s) == [] {
      TrimDashes("-", "", "");
      assert "-" + "" + "" == "-";
    } else {
      DashedEnds(Words(s));
      TrimDashes(DashUnless(s[0]), Dashed(Words(s)), DashUnless(s[|s| - 1]));
    }
  }

  lemma NoWords()
    ensures Words("") == []
  {
  }

  lemma {:induction false} WordsTail(c: char, s: string)
    requires !Alnum(c)
    ensures Words([c] + s) == Words(s)
  {
    var t := [c] + s;
    if s == "" {
      assert t[..0] == "";
    } else {
      WordsTail(c, s[..|s| - 1]);
      assert t[..|t| - 1] == [c] + s[..|s| - 1];
      if |s| == 1 { assert t[|t| - 2] == c; } else { assert t[|t| - 2] == s[|s| - 2]; }
    }
  }

  lemma {:induction false} WordsTrimStart(s: string, space: char -> bool)
    requires forall c :: space(c) ==> !Alnum(c)
    ensures Words(TrimStart(s, space)) == Words(s)
  {
    if s != "" && space(s[0]) {
      WordsTrimStart(s[1..], space);
      WordsTail(s[0], s[1..]);
      assert s == [s[0]] + s[1..];
    }
  }

  lemma {:induction false} WordsTrimEnd(s: string, space: char -> bool)
    requires forall c :: space(c) ==> !Alnum(c)
    ensures Words(TrimEnd(s, space)) == Words(s)
  {
    if s != "" && space(s[|s| - 1]) { WordsTrimEnd(s[..|s| - 1], space); }
  }

  /** The slug of a name is the lower-cased name's runs of letters and digits, joined by single dashes. */
  lemma SlugIsWords(name: string, lower: char -> string, space: char -> bool)
    requires forall c :: space(c) ==> !Alnum(c)
    ensures GenerateSlug(name, lower, space) == Dashed(Words(Lower(name, lower)))
  {
    var low := Lower(name, lower);
    WordsTrimStart(low, space);
    WordsTrimEnd(TrimStart(low, space), space);
    SqueezeTrimmed(Trim(low, space));
  }
}
