/**
 * Translation of a mode's website list into declarativeNetRequest dynamic
 * rules (chrome-extension/src/background.ts, updateBlockingRules).
 *
 * Every rule redirects main-frame requests to the extension's blocked page,
 * whose URL carries the trimmed website; that URL is built by
 * `chrome.runtime.getURL` and `encodeURIComponent`, so a rule records the
 * website itself (`site`) rather than the URL text.
 */
module BlockingRules {
  import opened Strings
  import opened Seqs

  datatype Rule = Rule(id: nat, priority: nat, site: string, urlFilter: string)

  /** A website is used verbatim as a URL filter when it already contains a wildcard. */
  predicate IsPattern(domain: string) {
    '*' in domain
  }

  /** How many rules one website entry yields: one for a pattern, two for a plain domain. */
  function Width(website: string): nat
  {
    if IsPattern(Trim(website)) then 1 else 2
  }

  /**
   * The rules one website entry contributes, numbered from `next`: a pattern
   * is its own URL filter; a plain domain d gets two filters, one for d
   * itself and one for "www." followed by d, both for any scheme and path.
   */
  function RulesFor(website: string, next: nat): (rs: seq<Rule>)
    ensures |rs| == Width(website)
  {
    var domain := Trim(website);
    if IsPattern(domain) then [Rule(next, 1, domain, domain)]
    else [Rule(next, 1, domain, "*://" + domain + "/*"), Rule(next + 1, 1, domain, "*://www." + domain + "/*")]
  }

  /**
   * The rule list `updateBlockingRules(websites)` installs: the rules of each
   * entry in list order, each new rule numbered one past the rules before it.
   */
  function Translate(websites: seq<string>): (rs: seq<Rule>)
    ensures |websites| <= |rs| <= 2 * |websites|
  {
    if websites == [] then []
    else
      var before := Translate(websites[..|websites| - 1]);
      before + RulesFor(websites[|websites| - 1], |before| + 1)
  }

  /** The independent count: the sum over the list of 1 per pattern and 2 per plain domain. */
  function RuleCount(websites: seq<string>): nat
  {
    if websites == [] then 0 else Width(websites[0]) + RuleCount(websites[1..])
  }

  lemma {:induction false} RuleCountAppend(websites: seq<string>, w: string)
    ensures RuleCount(websites + [w]) == RuleCount(websites) + Width(w)
  {
    if websites != [] {
      assert (websites + [w])[1..] == websites[1..] + [w];
      RuleCountAppend(websites[1..], w);
    }
  }

  /** The number of translated rules is the sum over websites of 1 (pattern) or 2 (plain domain). */
  lemma {:induction false} TranslateLength(websites: seq<string>)
    ensures |Translate(websites)| == RuleCount(websites)
  {
    if websites != [] {
      var front, last := websites[..|websites| - 1], websites[|websites| - 1];
      TranslateLength(front);
      RuleCountAppend(front, last);
      assert front + [last] == websites;
    }
  }

  /** Rule ids are exactly 1..n in list order, and every rule has priority 1. */
  lemma {:induction false} TranslateIds(websites: seq<string>, k: nat)
    requires k < |Translate(websites)|
    ensures Translate(websites)[k].id == k + 1
    ensures Translate(websites)[k].priority == 1
  {
    var front := websites[..|websites| - 1];
    if k < |Translate(front)| {
      TranslateIds(front, k);
    }
  }

  /** Hence the ids of the installed rules are pairwise distinct. */
  lemma TranslateIdsUnique(websites: seq<string>)
    ensures forall j, k :: 0 <= j < k < |Translate(websites)| ==>
      Translate(websites)[j].id != Translate(websites)[k].id
  {
    forall j, k | 0 <= j < k < |Translate(websites)|
      ensures Translate(websites)[j].id != Translate(websites)[k].id
    {
      TranslateIds(websites, j);
      TranslateIds(websites, k);
    }
  }

  /** The translation of the first m entries is a prefix of the translation of the whole list. */
  lemma {:induction false} TranslatePrefix(websites: seq<string>, m: nat)
    requires m <= |websites|
    ensures Translate(websites[..m]) <= Translate(websites)
  {
    if m < |websites| {
      var front := websites[..|websites| - 1];
      assert front[..m] == websites[..m];
      TranslatePrefix(front, m);
    } else {
      assert websites[..m] == websites;
    }
  }

  // Where the rules of entry i sit: from offset RuleCount(websites[..i]) on, a
  // plain domain d gives the filters "*://d/*" then "*://www.d/*", and a
  // pattern gives itself.
  lemma TranslateEntry(websites: seq<string>, i: nat)
    requires i < |websites|
    ensures var t, off, d := Translate(websites), RuleCount(websites[..i]), Trim(websites[i]);
      && off + Width(websites[i]) <= |t|
      && (IsPattern(d) ==> t[off] == Rule(off + 1, 1, d, d))
      && (!IsPattern(d) ==>
            && t[off] == Rule(off + 1, 1, d, "*://" + d + "/*")
            && t[off + 1] == Rule(off + 2, 1, d, "*://www." + d + "/*"))
  {
    var upto := websites[..i + 1];
    assert upto[..i] == websites[..i];
    TranslateLength(websites[..i]);
    TranslatePrefix(websites, i + 1);
  }

  /** Translating one more entry appends that entry's rules, numbered after the ones before. */
  lemma TranslateStep(websites: seq<string>, i: nat)
    requires i < |websites|
    ensures Translate(websites[..i + 1])
         == Translate(websites[..i]) + RulesFor(websites[i], |Translate(websites[..i])| + 1)
  {
    assert websites[..i + 1][..i] == websites[..i];
  }

  /** Rules `rs` without those whose id is in `ids` (the `removeRuleIds` half of updateDynamicRules). */
  function WithoutIds(rs: seq<Rule>, ids: set<nat>): (r: seq<Rule>)
    ensures forall x :: multiset(r)[x] == if x.id !in ids then multiset(rs)[x] else 0
    ensures IsSubsequence(r, rs)
  {
    var keep := (x: Rule) => x.id !in ids;
    FilterSpec(rs, keep);
    Filter(rs, keep)
  }

  /** Removing a set of ids that covers every installed rule leaves nothing installed. */
  lemma {:induction false} WithoutAllIds(rs: seq<Rule>, ids: set<nat>)
    requires forall r :: r in rs ==> r.id in ids
    ensures WithoutIds(rs, ids) == []
  {
    var r := WithoutIds(rs, ids);
    assert multiset(r) == multiset{};
  }

  /** The ids of the rules currently installed (`existingRules.map(rule => rule.id)`). */
  function IdsOf(rs: seq<Rule>): (ids: set<nat>)
    ensures forall r :: r in rs ==> r.id in ids
    ensures forall i :: i in ids ==> exists r :: r in rs && r.id == i
  {
    set r | r in rs :: r.id
  }

  /**
   * The loop of updateBlockingRules: walk the website list, pushing one rule
   * per pattern and two per plain domain with a running id counter.
   */
  method BuildRules(websites: seq<string>) returns (newRules: seq<Rule>)
    ensures newRules == Translate(websites)
  {
    newRules := [];
    var ruleId := 1;
    var i := 0;
    while i < |websites|
      invariant 0 <= i <= |websites|
      invariant newRules == Translate(websites[..i])
      invariant ruleId == |newRules| + 1
    {
      ghost var before := newRules;
      var domain := Trim(websites[i]);
      if '*' in domain {
        newRules := newRules + [Rule(ruleId, 1, domain, domain)];
        ruleId := ruleId + 1;
      } else {
        newRules := newRules + [Rule(ruleId, 1, domain, "*://" + domain + "/*")];
        ruleId := ruleId + 1;
        newRules := newRules + [Rule(ruleId, 1, domain, "*://www." + domain + "/*")];
        ruleId := ruleId + 1;
      }
      assert newRules == before + RulesFor(websites[i], |before| + 1);
      TranslateStep(websites, i);
      i := i + 1;
    }
    assert websites[..i] == websites;
  }
}
