/** The fragment of `String.format` the feed URLs use: a template with a
    single `%d` conversion, filled with one integer argument. */
module UrlFormat {

  import opened Options
  import Decimal

  /** Position of the first `c` in `s`, or `|s|` when there is none. */
  function IndexOf(s: string, c: char): (i: nat)
    ensures i <= |s|
    ensures i < |s| ==> s[i] == c
    ensures c !in s[..i]
    ensures i == |s| <==> c !in s
  {
    if |s| == 0 then 0
    else if s[0] == c then 0
    else
      assert s == [s[0]] + s[1..];
      1 + IndexOf(s[1..], c)
  }

  /** The template's only `%` starts a `%d` conversion. */
  predicate SinglePlaceholder(t: string) {
    var i := IndexOf(t, '%');
    i + 1 < |t| && t[i + 1] == 'd' && '%' !in t[i + 2..]
  }

  /** The text before the placeholder. */
  function Prefix(t: string): (p: string)
    requires SinglePlaceholder(t)
    ensures '%' !in p
  {
    t[..IndexOf(t, '%')]
  }

  /** The text after the placeholder. */
  function Suffix(t: string): (q: string)
    requires SinglePlaceholder(t)
    ensures '%' !in q
  {
    t[IndexOf(t, '%') + 2..]
  }

  lemma PrefixSuffixSplit(t: string)
    requires SinglePlaceholder(t)
    ensures t == Prefix(t) + "%d" + Suffix(t)
  {
  }

  /** `template.format(n)` on the modelled fragment. A template without any
      `%` is returned unchanged (surplus arguments are ignored); `None` stands
      for every template outside the fragment. */
  function Format(t: string, n: int): (r: Option<string>)
    ensures '%' !in t ==> r == Some(t)
    ensures r.None? <==> '%' in t && !SinglePlaceholder(t)
  {
    var i := IndexOf(t, '%');
    if i == |t| then Some(t)
    else if i + 1 < |t| && t[i + 1] == 'd' && '%' !in t[i + 2..] then
      Some(t[..i] + Decimal.Render(n) + t[i + 2..])
    else None
  }

  /** Filling `p + "%d" + q` puts the decimal numeral of `n` exactly where
      the placeholder was. */
  lemma FormatSubstitutes(p: string, q: string, n: int)
    requires '%' !in p && '%' !in q
    ensures SinglePlaceholder(p + "%d" + q)
    ensures Format(p + "%d" + q, n) == Some(p + Decimal.Render(n) + q)
  {
    var t := p + "%d" + q;
    IndexOfAfterClean(p, "%d" + q, '%');
    assert t == p + ("%d" + q);
    assert t[|p| + 2..] == q;
    assert t[..|p|] == p;
  }

  lemma IndexOfAfterClean(p: string, s: string, c: char)
    requires c !in p
    requires |s| > 0 && s[0] == c
    ensures IndexOf(p + s, c) == |p|
  {
    assert (p + s)[|p|] == c;
    assert (p + s)[..|p|] == p;
  }

  /** Reads the limit back out of a URL produced from template `t`. */
  function ExtractLimit(t: string, url: string): (r: Option<int>)
  {
    if !SinglePlaceholder(t) then None
    else
      var p, q := Prefix(t), Suffix(t);
      if |url| >= |p| + |q| && url[..|p|] == p && url[|url| - |q|..] == q then
        Decimal.Parse(url[|p|..|url| - |q|])
      else None
  }

  /** Extraction inverts formatting: the filled URL determines the limit. */
  lemma ExtractFormat(t: string, n: int)
    requires SinglePlaceholder(t)
    ensures Format(t, n).Some?
    ensures ExtractLimit(t, Format(t, n).value) == Some(n)
  {
    var p, q := Prefix(t), Suffix(t);
    PrefixSuffixSplit(t);
    FormatSubstitutes(p, q, n);
    var d := Decimal.Render(n);
    var url := p + d + q;
    assert url[..|p|] == p;
    assert url[|url| - |q|..] == q;
    assert url[|p|..|url| - |q|] == d;
    Decimal.ParseRender(n);
  }

  /** Two limits give the same URL for a template only when they are equal. */
  lemma FormatInjective(t: string, m: int, n: int)
    requires SinglePlaceholder(t)
    ensures Format(t, m) == Format(t, n) <==> m == n
  {
    if Format(t, m) == Format(t, n) {
      ExtractFormat(t, m);
      ExtractFormat(t, n);
    }
  }
}
