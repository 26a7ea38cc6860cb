/**
 * The wildcard-capable match rules of pkg/config/utils.go: an output
 * resource is kept when its apiVersion and kind satisfy some rule, where an
 * empty pattern list or a `*` pattern matches anything. Also `isOk`, the
 * truthy-annotation test.
 */
module MatchRules {
  import opened Api
  import opened Values

  /** The loop of containsString: some pattern is `*` or equals `str`. */
  function ScanPatterns(slice: seq<string>, str: string): bool
  {
    if slice == [] then false
    else if slice[0] == "*" || slice[0] == str then true
    else ScanPatterns(slice[1..], str)
  }

  /** containsString: an empty pattern list matches every string. */
  function ContainsString(slice: seq<string>, str: string): bool
  {
    |slice| == 0 || ScanPatterns(slice, str)
  }

  /** An empty pattern list matches every string. */
  lemma EmptyPatternsMatchAll(str: string)
    ensures ContainsString([], str)
  {
  }

  /** A list holding `*` matches every string. */
  lemma {:induction false} WildcardMatchesAll(slice: seq<string>, str: string)
    requires "*" in slice
    ensures ContainsString(slice, str)
  {
    if slice[0] != "*" {
      WildcardMatchesAll(slice[1..], str);
    }
  }

  /** Without `*`, a non-empty list matches exactly its members. */
  lemma {:induction false} ContainsIsMembership(slice: seq<string>, str: string)
    requires |slice| > 0 && "*" !in slice
    ensures ContainsString(slice, str) <==> str in slice
  {
    if slice[0] != str {
      if |slice| > 1 {
        ContainsIsMembership(slice[1..], str);
      } else {
        assert ScanPatterns(slice[1..], str) == false;
      }
      assert str in slice <==> str in slice[1..];
    }
  }

  /** One rule: both the apiVersion and the kind pattern lists match. */
  predicate RuleMatches(rule: ResourceRule, apiVersion: string, kind: string) {
    ContainsString(rule.apiVersions, apiVersion) && ContainsString(rule.kinds, kind)
  }

  /** The rule loop of MatchResourceRules, returning early on the first matching rule. */
  function AnyRuleMatches(rules: seq<ResourceRule>, apiVersion: string, kind: string): bool
  {
    if rules == [] then false
    else if RuleMatches(rules[0], apiVersion, kind) then true
    else AnyRuleMatches(rules[1..], apiVersion, kind)
  }

  /** MatchResourceRules(obj, constraints) of utils.go. */
  function MatchResourceRules(obj: Value, constraints: MatchConstraintsSpec): bool
  {
    |constraints.resourceRules| == 0
    || AnyRuleMatches(constraints.resourceRules, StringField(obj, "apiVersion"), StringField(obj, "kind"))
  }

  /** With no rules every object is kept. */
  lemma EmptyRulesMatchAll(obj: Value)
    ensures MatchResourceRules(obj, MatchConstraintsSpec([]))
  {
  }

  /** The rule loop holds exactly when some rule matches. */
  lemma {:induction false} AnyRuleMatchesIff(rules: seq<ResourceRule>, apiVersion: string, kind: string)
    ensures AnyRuleMatches(rules, apiVersion, kind)
        <==> exists i :: 0 <= i < |rules| && RuleMatches(rules[i], apiVersion, kind)
  {
    if rules != [] {
      AnyRuleMatchesIff(rules[1..], apiVersion, kind);
      if RuleMatches(rules[0], apiVersion, kind) {
      } else {
        forall i | 0 <= i < |rules| && RuleMatches(rules[i], apiVersion, kind)
          ensures 0 <= i - 1 < |rules[1..]| && RuleMatches(rules[1..][i - 1], apiVersion, kind)
        {
        }
      }
    }
  }

  /** MatchResourceRules holds iff the rule list is empty or one of its rules matches. */
  lemma MatchIff(obj: Value, constraints: MatchConstraintsSpec)
    ensures MatchResourceRules(obj, constraints)
        <==> (|constraints.resourceRules| == 0
              || exists i :: 0 <= i < |constraints.resourceRules|
                   && RuleMatches(constraints.resourceRules[i], StringField(obj, "apiVersion"), StringField(obj, "kind")))
  {
    AnyRuleMatchesIff(constraints.resourceRules, StringField(obj, "apiVersion"), StringField(obj, "kind"));
  }

  /**
   * Appending a rule to a non-empty list keeps every match. (Appending to an
   * empty list can lose matches: the empty list matches everything.)
   */
  lemma AppendRuleKeepsMatch(obj: Value, rules: seq<ResourceRule>, rule: ResourceRule)
    requires |rules| > 0 && MatchResourceRules(obj, MatchConstraintsSpec(rules))
    ensures MatchResourceRules(obj, MatchConstraintsSpec(rules + [rule]))
  {
    var av, k := StringField(obj, "apiVersion"), StringField(obj, "kind");
    MatchIff(obj, MatchConstraintsSpec(rules));
    var i :| 0 <= i < |rules| && RuleMatches(rules[i], av, k);
    assert (rules + [rule])[i] == rules[i];
    MatchIff(obj, MatchConstraintsSpec(rules + [rule]));
  }

  /** The lower-case value Go's unicode.ToLower gives an ASCII letter. */
  function AsciiLower(c: char): char
  {
    if 'A' <= c <= 'Z' then (c as int + 32) as char else c
  }

  /**
   * strings.EqualFold(strings.ToLower(c), t) for a lower-case ASCII target
   * `t`: `c` is `t` up to ASCII case, or a rune whose simple case folding
   * reaches `t`, the Kelvin sign for `k` and the long s for `s`.
   */
  predicate FoldsTo(c: char, t: char)
  {
    AsciiLower(c) == t || (t == 'k' && c == '\U{212A}') || (t == 's' && c == '\U{017F}')
  }

  /** `v` equals the lower-case word `w` ignoring case, rune by rune. */
  predicate FoldEqual(v: string, w: string)
  {
    |v| == |w| && forall i :: 0 <= i < |v| ==> FoldsTo(v[i], w[i])
  }

  const OkValues: seq<string> := ["ok", "yes", "true", "1", "on"]

  /** The loop of isOk over the ok words. */
  function AnyOkWord(value: string, words: seq<string>): bool
  {
    if words == [] then false
    else if FoldEqual(value, words[0]) then true
    else AnyOkWord(value, words[1..])
  }

  /** isOk: the value is one of ok, yes, true, 1, on, ignoring case. */
  function IsOk(value: string): bool
  {
    AnyOkWord(value, OkValues)
  }

  lemma {:induction false} AnyOkWordIff(value: string, words: seq<string>)
    ensures AnyOkWord(value, words) <==> exists w :: w in words && FoldEqual(value, w)
  {
    if words != [] {
      AnyOkWordIff(value, words[1..]);
      assert forall w :: w in words <==> w == words[0] || w in words[1..];
    }
  }

  /** isOk holds exactly for the five words up to case. */
  lemma IsOkIff(value: string)
    ensures IsOk(value) <==>
      FoldEqual(value, "ok") || FoldEqual(value, "yes") || FoldEqual(value, "true")
      || FoldEqual(value, "1") || FoldEqual(value, "on")
  {
    AnyOkWordIff(value, OkValues);
  }

  /** Every upper/lower-case spelling of an ok word is ok. */
  lemma IsOkIgnoresAsciiCase(value: string, w: string)
    requires w in OkValues
    requires |value| == |w| && forall i :: 0 <= i < |w| ==> AsciiLower(value[i]) == w[i]
    ensures IsOk(value)
  {
    AnyOkWordIff(value, OkValues);
    assert FoldEqual(value, w);
  }

  /** Any other string, the empty string and a bare "y" among them, is not ok. */
  lemma NotOkExamples()
    ensures !IsOk("") && !IsOk("y") && !IsOk("off") && !IsOk("0")
  {
    IsOkIff("");
    IsOkIff("y");
    IsOkIff("off");
    IsOkIff("0");
    assert !FoldsTo("off"[0], "yes"[0]) && !FoldsTo('0', '1');
  }
}
