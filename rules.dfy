/**
 * The rule engine of the chat popup: an ordered list of keyword rules and
 * the first-match lookup `interactions.rules.find(rule =>
 * rule.keywords.some(keyword => input.toLowerCase().includes(keyword.toLowerCase())))`.
 */
module Rules {
  import opened Wrappers
  import opened JsString

  /** A canned answer: its (markup) text and optional button labels. */
  datatype Response = Response(text: string, buttons: Option<seq<string>>)

  /** A configured rule: its keywords and its responses, in configuration order. */
  datatype Rule = Rule(keywords: seq<string>, responses: seq<Response>)

  /** One keyword test: the lowercased keyword occurs in the lowercased input. */
  function KeywordMatches(input: string, keyword: string): (b: bool)
    ensures b <==> exists i :: OccursAt(ToLower(input), ToLower(keyword), i)
  {
    Includes(ToLower(input), ToLower(keyword))
  }

  /** `keywords.some(...)`: at least one keyword matches the input. */
  function AnyKeywordMatches(keywords: seq<string>, input: string): (b: bool)
    ensures b <==> exists k :: 0 <= k < |keywords| && KeywordMatches(input, keywords[k])
  {
    if |keywords| == 0 then false
    else if KeywordMatches(input, keywords[0]) then true
    else
      var rest := AnyKeywordMatches(keywords[1..], input);
      assert forall k :: 0 < k < |keywords| ==> keywords[k] == keywords[1..][k - 1];
      rest
  }

  predicate RuleMatches(rule: Rule, input: string) {
    AnyKeywordMatches(rule.keywords, input)
  }

  /** `rules.find(...)`: the index of the first rule, in configuration
      order, that matches the input, or None when no rule does. */
  function FindRule(rules: seq<Rule>, input: string): (r: Option<nat>)
    ensures r.Some? ==> r.value < |rules| && RuleMatches(rules[r.value], input)
    ensures r.Some? ==> forall j | 0 <= j < r.value :: !RuleMatches(rules[j], input)
    ensures r.None? <==> forall j | 0 <= j < |rules| :: !RuleMatches(rules[j], input)
  {
    if |rules| == 0 then None
    else if RuleMatches(rules[0], input) then Some(0)
    else
      assert forall j | 0 < j < |rules| :: rules[j] == rules[1..][j - 1];
      match FindRule(rules[1..], input)
      case None => None
      case Some(k) => Some(k + 1)
  }

  /** The winning rule is decided by the rules up to it: whatever follows
      it in the configuration is never consulted. */
  lemma {:induction false} LaterRulesNotConsulted(rules: seq<Rule>, more: seq<Rule>, input: string, k: nat)
    requires FindRule(rules, input) == Some(k)
    ensures FindRule(rules[..k + 1] + more, input) == Some(k)
  {
    var all := rules[..k + 1] + more;
    assert all[k] == rules[k];
    forall j | 0 <= j < k ensures !RuleMatches(all[j], input) {
      assert all[j] == rules[j];
    }
    assert RuleMatches(all[k], input);
    var r := FindRule(all, input);
    assert r.Some? && r.value <= k;
    assert !(r.value < k);
  }

  /** A rule with no keywords never matches; a rule holding the empty
      keyword matches every input. */
  lemma KeywordEdgeCases(rule: Rule, input: string)
    ensures rule.keywords == [] ==> !RuleMatches(rule, input)
    ensures "" in rule.keywords ==> RuleMatches(rule, input)
  {
    if "" in rule.keywords {
      var k :| 0 <= k < |rule.keywords| && rule.keywords[k] == "";
      IncludesEmpty(ToLower(input));
      assert KeywordMatches(input, rule.keywords[k]);
    }
  }

  /** The selected rule depends only on which rules match. */
  lemma SameMatchesSameRule(rules: seq<Rule>, a: string, others: seq<Rule>, b: string)
    requires |others| == |rules|
    requires forall j | 0 <= j < |rules| :: RuleMatches(rules[j], a) == RuleMatches(others[j], b)
    ensures FindRule(rules, a) == FindRule(others, b)
  {
    var r, o := FindRule(rules, a), FindRule(others, b);
    if r.Some? {
      assert RuleMatches(others[r.value], b);
      assert o.Some? && !(r.value < o.value);
      assert RuleMatches(rules[o.value], a);
      assert !(o.value < r.value);
      assert r == o;
    }
    if o.Some? {
      assert RuleMatches(rules[o.value], a);
    }
  }

  /** Matching ignores (ASCII) case: inputs that fold to the same string
      select the same rule. */
  lemma CaseInsensitive(rules: seq<Rule>, a: string, b: string)
    requires ToLower(a) == ToLower(b)
    ensures FindRule(rules, a) == FindRule(rules, b)
  {
    assert forall kw :: KeywordMatches(a, kw) == KeywordMatches(b, kw);
    SameMatchesSameRule(rules, a, rules, b);
  }

  /** Folding a keyword to lower case does not change what it matches. */
  lemma KeywordCaseInsensitive(input: string, keyword: string)
    ensures KeywordMatches(input, ToLower(keyword)) == KeywordMatches(input, keyword)
  {
    ToLowerIdempotent(keyword);
  }

  /** The rules with every keyword folded to lower case. */
  function LowerKeywords(rules: seq<Rule>): (r: seq<Rule>)
    ensures |r| == |rules|
    ensures forall j | 0 <= j < |rules| ::
      r[j].responses == rules[j].responses && |r[j].keywords| == |rules[j].keywords| &&
      forall k | 0 <= k < |rules[j].keywords| :: r[j].keywords[k] == ToLower(rules[j].keywords[k])
  {
    seq(|rules|, j requires 0 <= j < |rules| =>
      rules[j].(keywords := seq(|rules[j].keywords|, k requires 0 <= k < |rules[j].keywords| => ToLower(rules[j].keywords[k]))))
  }

  /** The case in which keywords are configured does not matter: folding
      all of them to lower case selects the same rule for every input. */
  lemma KeywordCaseIgnored(rules: seq<Rule>, input: string)
    ensures FindRule(LowerKeywords(rules), input) == FindRule(rules, input)
  {
    var lowered := LowerKeywords(rules);
    forall j | 0 <= j < |rules|
      ensures RuleMatches(lowered[j], input) == RuleMatches(rules[j], input)
    {
      forall k | 0 <= k < |rules[j].keywords|
        ensures KeywordMatches(input, lowered[j].keywords[k]) == KeywordMatches(input, rules[j].keywords[k])
      {
        KeywordCaseInsensitive(input, rules[j].keywords[k]);
      }
    }
    SameMatchesSameRule(lowered, input, rules, input);
  }

  /** An input containing a keyword in another case selects that keyword's
      rule: "I need HELP please" against the keyword "help". */
  lemma HelpExample(answer: Response)
    ensures FindRule([Rule(["help"], [answer])], "I need HELP please") == Some(0)
  {
    var folded := ToLower("I need HELP please");
    assert folded[7..11] == "help";
    assert OccursAt(folded, ToLower("help"), 7);
    assert KeywordMatches("I need HELP please", "help");
  }
}
