/**
 * makeSafeId of the tutorial checklist (web/components/tutorial/tutorial-step.tsx):
 * an HTML id derived from a step's title. The title is lower-cased (ASCII
 * letters only here), trimmed, every run of characters outside [a-z0-9]
 * becomes one "-", dashes at either end are removed, and an empty result
 * falls back to "item".
 */
module TutorialStep {
  import opened Strings
  import opened Seqs

  const IdPrefix := "tutorial-step-"

  /** The characters the regex class [a-z0-9] accepts. */
  predicate IsSlugChar(c: char) {
    'a' <= c <= 'z' || '0' <= c <= '9'
  }

  predicate IsAsciiAlnum(c: char) {
    'a' <= c <= 'z' || 'A' <= c <= 'Z' || '0' <= c <= '9'
  }

  /** The letters and digits of `s`, in order. */
  function Alnum(s: string): string {
    Filter(s, IsSlugChar)
  }

  predicate NoDoubleDash(s: string) {
    forall i :: 0 <= i < |s| - 1 ==> !(s[i] == '-' && s[i + 1] == '-')
  }

  predicate SlugAlphabet(s: string) {
    forall i :: 0 <= i < |s| ==> IsSlugChar(s[i]) || s[i] == '-'
  }

  /** A well-formed id suffix: non-empty, over [a-z0-9-], no dash at either end, no two dashes in a row. */
  predicate IsSlug(s: string) {
    && s != []
    && SlugAlphabet(s)
    && s[0] != '-' && s[|s| - 1] != '-'
    && NoDoubleDash(s)
  }

  /** `s` without its leading characters outside [a-z0-9]: the rest of a run the regex consumes. */
  function SkipRun(s: string): (r: string)
    ensures |r| <= |s|
    ensures r == [] || IsSlugChar(r[0])
  {
    if s != [] && !IsSlugChar(s[0]) then SkipRun(s[1..]) else s
  }

  /** What SkipRun drops is a prefix of characters outside [a-z0-9]. */
  lemma {:induction false} SkipRunSpec(s: string)
    ensures SkipRun(s) == s[|s| - |SkipRun(s)|..]
    ensures forall i :: 0 <= i < |s| - |SkipRun(s)| ==> !IsSlugChar(s[i])
  {
    if s != [] && !IsSlugChar(s[0]) {
      SkipRunSpec(s[1..]);
    }
  }

  /** SkipRun consumes a whole run and stops at the next letter or digit. */
  lemma {:induction false} SkipRunStops(run: string, b: string)
    requires forall i :: 0 <= i < |run| ==> !IsSlugChar(run[i])
    requires b == [] || IsSlugChar(b[0])
    ensures SkipRun(run + b) == b
  {
    if run == [] {
      assert run + b == b;
    } else {
      assert (run + b)[1..] == run[1..] + b;
      SkipRunStops(run[1..], b);
    }
  }

  /** `.replace(/[^a-z0-9]+/g, "-")`: each maximal run of characters outside [a-z0-9] becomes one "-". */
  function CollapseRuns(s: string): (r: string)
    ensures SlugAlphabet(r)
    ensures s != [] ==> r != [] && (r[0] == '-' <==> !IsSlugChar(s[0]))
    ensures NoDoubleDash(r)
    decreases |s|
  {
    if s == [] then []
    else if IsSlugChar(s[0]) then [s[0]] + CollapseRuns(s[1..])
    else "-" + CollapseRuns(SkipRun(s[1..]))
  }

  /** The `^-+` half of `.replace(/^-+|-+$/g, "")`. */
  function DropLeadingDashes(s: string): (r: string)
    ensures |r| <= |s|
    ensures r == [] || r[0] != '-'
  {
    if s != [] && s[0] == '-' then DropLeadingDashes(s[1..]) else s
  }

  /** What `^-+` removes is a run of dashes at the front. */
  lemma {:induction false} DropLeadingDashesSpec(s: string)
    ensures DropLeadingDashes(s) == s[|s| - |DropLeadingDashes(s)|..]
    ensures forall i :: 0 <= i < |s| - |DropLeadingDashes(s)| ==> s[i] == '-'
  {
    if s != [] && s[0] == '-' {
      DropLeadingDashesSpec(s[1..]);
    }
  }

  /** The `-+$` half of `.replace(/^-+|-+$/g, "")`. */
  function DropTrailingDashes(s: string): (r: string)
    ensures |r| <= |s|
    ensures r == [] || r[|r| - 1] != '-'
  {
    if s != [] && s[|s| - 1] == '-' then DropTrailingDashes(s[..|s| - 1]) else s
  }

  /** What `-+$` removes is a run of dashes at the end. */
  lemma {:induction false} DropTrailingDashesSpec(s: string)
    ensures DropTrailingDashes(s) == s[..|DropTrailingDashes(s)|]
    ensures forall i :: |DropTrailingDashes(s)| <= i < |s| ==> s[i] == '-'
  {
    if s != [] && s[|s| - 1] == '-' {
      DropTrailingDashesSpec(s[..|s| - 1]);
    }
  }

  /** `.replace(/^-+|-+$/g, "")` */
  function TrimDashes(s: string): (r: string)
    ensures |r| <= |s|
    ensures r == [] || (r[0] != '-' && r[|r| - 1] != '-')
  {
    var d := DropLeadingDashes(s);
    DropTrailingDashesSpec(d);
    assert DropTrailingDashes(d) == [] || DropTrailingDashes(d)[0] == d[0];
    DropTrailingDashes(d)
  }

  /** The suffix before the "item" fallback: empty, or a well-formed slug. */
  function Normalize(title: string): (r: string)
    ensures r == [] || IsSlug(r)
  {
    var collapsed := CollapseRuns(Trim(Lower(title)));
    TrimDashesShape(collapsed);
    TrimDashes(collapsed)
  }

  /** The id suffix: the normalised title, or "item" when that is empty. */
  function IdSuffix(title: string): (suffix: string)
    ensures IsSlug(suffix)
  {
    var normalized := Normalize(title);
    if normalized == [] then "item" else normalized
  }

  /** makeSafeId: the id always starts with "tutorial-step-" and ends in a well-formed slug. */
  function MakeSafeId(title: string): (id: string)
    ensures |id| > |IdPrefix| && id[..|IdPrefix|] == IdPrefix
    ensures IsSlug(id[|IdPrefix|..])
  {
    var suffix := IdSuffix(title);
    assert (IdPrefix + suffix)[|IdPrefix|..] == suffix;
    IdPrefix + suffix
  }

  /** Trimming dashes off a collapsed string leaves nothing or a well-formed slug. */
  lemma TrimDashesShape(c: string)
    requires SlugAlphabet(c) && NoDoubleDash(c)
    ensures TrimDashes(c) == [] || IsSlug(TrimDashes(c))
  {
    var d := DropLeadingDashes(c);
    DropLeadingDashesSpec(c);
    var n := DropTrailingDashes(d);
    DropTrailingDashesSpec(d);
    if n != [] {
      assert n[0] == d[0];
    }
  }

  lemma {:induction false} SkipRunKeepsAlnum(s: string)
    ensures Alnum(SkipRun(s)) == Alnum(s)
  {
    if s != [] && !IsSlugChar(s[0]) {
      SkipRunKeepsAlnum(s[1..]);
    }
  }

  lemma {:induction false} CollapseRunsKeepsAlnum(s: string)
    ensures Alnum(CollapseRuns(s)) == Alnum(s)
    decreases |s|
  {
    if s != [] {
      if IsSlugChar(s[0]) {
        CollapseRunsKeepsAlnum(s[1..]);
        FilterAppend([s[0]], CollapseRuns(s[1..]), IsSlugChar);
      } else {
        CollapseRunsKeepsAlnum(SkipRun(s[1..]));
        SkipRunKeepsAlnum(s[1..]);
        FilterAppend("-", CollapseRuns(SkipRun(s[1..])), IsSlugChar);
      }
    }
  }

  /** Removing characters outside [a-z0-9] from either end keeps the letters and digits. */
  lemma DropEndsKeepsAlnum(pre: string, mid: string, post: string)
    requires forall i :: 0 <= i < |pre| ==> !IsSlugChar(pre[i])
    requires forall i :: 0 <= i < |post| ==> !IsSlugChar(post[i])
    ensures Alnum(pre + mid + post) == Alnum(mid)
  {
    FilterAppend(pre + mid, post, IsSlugChar);
    FilterAppend(pre, mid, IsSlugChar);
    FilterEmpty(pre, IsSlugChar);
    FilterEmpty(post, IsSlugChar);
  }

  /** Trimming dashes keeps the letters and digits. */
  lemma TrimDashesKeepsAlnum(c: string)
    ensures Alnum(TrimDashes(c)) == Alnum(c)
  {
    var d := DropLeadingDashes(c);
    DropLeadingDashesSpec(c);
    assert c == c[..|c| - |d|] + d + [];
    DropEndsKeepsAlnum(c[..|c| - |d|], d, []);
    var n := DropTrailingDashes(d);
    DropTrailingDashesSpec(d);
    assert d == [] + n + d[|n|..];
    DropEndsKeepsAlnum([], n, d[|n|..]);
  }

  /** Trimming whitespace keeps the letters and digits. */
  lemma TrimKeepsAlnum(t: string)
    ensures Alnum(Trim(t)) == Alnum(t)
  {
    var pre, post := TrimSplit(t);
    DropEndsKeepsAlnum(pre, Trim(t), post);
  }

  /** The letters and digits of the title survive, lower-cased and in order. */
  lemma NormalizeKeepsAlnum(title: string)
    ensures Alnum(Normalize(title)) == Alnum(Lower(title))
  {
    var t := Trim(Lower(title));
    TrimKeepsAlnum(Lower(title));
    CollapseRunsKeepsAlnum(t);
    TrimDashesKeepsAlnum(CollapseRuns(t));
  }

  /** Lower-casing turns exactly the ASCII letters and digits into [a-z0-9]. */
  lemma LowerAlnum(title: string)
    ensures forall i :: 0 <= i < |title| ==> (IsSlugChar(Lower(title)[i]) <==> IsAsciiAlnum(title[i]))
  {
  }

  /** A title without ASCII letters or digits gets the id "tutorial-step-item", and only such a title gets an empty slug. */
  lemma NoAlnumGivesItem(title: string)
    ensures Normalize(title) == [] <==> forall i :: 0 <= i < |title| ==> !IsAsciiAlnum(title[i])
    ensures (forall i :: 0 <= i < |title| ==> !IsAsciiAlnum(title[i])) ==> MakeSafeId(title) == IdPrefix + "item"
  {
    var n := Normalize(title);
    NormalizeKeepsAlnum(title);
    FilterEmpty(n, IsSlugChar);
    FilterEmpty(Lower(title), IsSlugChar);
    LowerAlnum(title);
  }

  /**
   * Where the dash goes: letters and digits are copied, and the maximal run
   * of other characters after them becomes exactly one "-".
   */
  lemma {:induction false} CollapseRunsRun(a: string, run: string, b: string)
    requires forall i :: 0 <= i < |a| ==> IsSlugChar(a[i])
    requires run != [] && forall i :: 0 <= i < |run| ==> !IsSlugChar(run[i])
    requires b == [] || IsSlugChar(b[0])
    ensures CollapseRuns(a + run + b) == a + "-" + CollapseRuns(b)
    decreases |a|
  {
    if a == [] {
      assert a + run + b == run + b;
      assert (run + b)[1..] == run[1..] + b;
      SkipRunStops(run[1..], b);
    } else {
      assert (a + run + b)[1..] == a[1..] + run + b;
      CollapseRunsRun(a[1..], run, b);
      assert a + "-" + CollapseRuns(b) == [a[0]] + (a[1..] + "-" + CollapseRuns(b));
    }
  }

  /** A slug with no dash at its end is left alone by the run collapse. */
  lemma {:induction false} CollapseRunsFixesSlug(s: string)
    requires SlugAlphabet(s) && NoDoubleDash(s) && (s == [] || s[|s| - 1] != '-')
    ensures CollapseRuns(s) == s
    decreases |s|
  {
    if s != [] {
      var rest := s[1..];
      assert SlugAlphabet(rest) && NoDoubleDash(rest);
      if IsSlugChar(s[0]) {
        CollapseRunsFixesSlug(rest);
      } else {
        assert rest != [] && rest[0] != '-';
        assert SkipRun(rest) == rest;
        CollapseRunsFixesSlug(rest);
      }
    }
  }

  /** A title that already is a lower-case slug becomes its own suffix. */
  lemma SlugTitleKept(title: string)
    requires IsSlug(title)
    ensures Normalize(title) == title
    ensures MakeSafeId(title) == IdPrefix + title
  {
    assert Lower(title) == title;
    TrimFixed(title);
    CollapseRunsFixesSlug(title);
  }
}
