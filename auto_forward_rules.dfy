/** The auto-forward rule list (src/components/AutoForwardRules.tsx): adding a
    rule from the input record, deleting and enabling/disabling rules. */
module AutoForward {
  import opened Common
  import opened Types

  /** The input record of the "new rule" form. */
  datatype RuleDraft = RuleDraft(
    sourcePlatform: Platform,
    targetPlatform: Platform,
    sourceUsername: string,
    enabled: bool)

  /** The input record at start and after every successful add. */
  const DefaultDraft := RuleDraft(Facebook, Instagram, "", true)

  /** One week and two days in milliseconds, the ages of the sample rule. */
  const WeekMillis: int := 7 * 24 * 60 * 60 * 1000
  const TwoDaysMillis: int := 2 * 24 * 60 * 60 * 1000

  /** The sample rule the list starts with, dated relative to the clock reading `now`. */
  function SampleRule(now: Time): AutoForwardRule
  {
    AutoForwardRule("1", Facebook, Instagram, "example_user", true, now - WeekMillis, Some(now - TwoDaysMillis))
  }

  /** The alert adding a rule can stop with. */
  datatype RuleRejection = EmptySourceUsername | SamePlatform

  /** The two checks of the add handler: the username check runs first. */
  function ValidateRule(d: RuleDraft): (r: Check<RuleRejection>)
    ensures r == Fail(EmptySourceUsername) <==> d.sourceUsername == ""
    ensures r == Fail(SamePlatform) <==> d.sourceUsername != "" && d.sourcePlatform == d.targetPlatform
    ensures r.Pass? <==> d.sourceUsername != "" && d.sourcePlatform != d.targetPlatform
  {
    if d.sourceUsername == "" then Fail(EmptySourceUsername)
    else if d.sourcePlatform == d.targetPlatform then Fail(SamePlatform)
    else Pass
  }

  /** The rule the add handler creates. `enabled` is computed as `draft.enabled || true`,
      so a new rule is enabled whatever the draft says; it has never been forwarded. */
  function MakeRule(d: RuleDraft, id: string, now: Time): (r: AutoForwardRule)
    ensures r.enabled
    ensures r.id == id && r.createdAt == now && r.lastForwarded == None
    ensures r.sourcePlatform == d.sourcePlatform && r.targetPlatform == d.targetPlatform
    ensures r.sourceUsername == d.sourceUsername
  {
    AutoForwardRule(id, d.sourcePlatform, d.targetPlatform, d.sourceUsername, d.enabled || true, now, None)
  }

  /** What every rule in the list satisfies. */
  predicate WellFormedRule(r: AutoForwardRule)
  {
    r.sourceUsername != "" && r.sourcePlatform != r.targetPlatform
  }

  predicate AllWellFormed(rs: seq<AutoForwardRule>)
  {
    forall r :: r in rs ==> WellFormedRule(r)
  }

  /** A rule made from a draft that passes both checks is well formed. */
  lemma AcceptedRuleWellFormed(d: RuleDraft, id: string, now: Time)
    requires ValidateRule(d).Pass?
    ensures WellFormedRule(MakeRule(d, id, now))
  {
  }

  /** The rule list with every rule whose id is `id` removed (the delete filter). */
  function RemoveRule(rs: seq<AutoForwardRule>, id: string): (r: seq<AutoForwardRule>)
    ensures |r| <= |rs|
  {
    if rs == [] then []
    else if rs[0].id == id then RemoveRule(rs[1..], id)
    else [rs[0]] + RemoveRule(rs[1..], id)
  }

  /** A rule survives deletion exactly when its id is not the deleted one. */
  lemma {:induction false} RemoveRuleMembers(rs: seq<AutoForwardRule>, id: string, x: AutoForwardRule)
    ensures x in RemoveRule(rs, id) <==> x in rs && x.id != id
  {
    if rs != [] {
      RemoveRuleMembers(rs[1..], id, x);
      assert x in rs <==> x == rs[0] || x in rs[1..];
    }
  }

  /** Deleting an id that no rule has leaves the list as it was. */
  lemma {:induction false} RemoveAbsentId(rs: seq<AutoForwardRule>, id: string)
    requires forall x :: x in rs ==> x.id != id
    ensures RemoveRule(rs, id) == rs
  {
    if rs != [] {
      assert rs[0] in rs;
      assert forall x :: x in rs[1..] ==> x in rs;
      RemoveAbsentId(rs[1..], id);
    }
  }

  /** Removal keeps order: removing from a concatenation removes from each part. */
  lemma {:induction false} RemoveRuleConcat(a: seq<AutoForwardRule>, b: seq<AutoForwardRule>, id: string)
    ensures RemoveRule(a + b, id) == RemoveRule(a, id) + RemoveRule(b, id)
  {
    if a == [] {
      assert a + b == b;
    } else {
      var ab := a + b;
      assert ab != [] && ab[0] == a[0] && ab[1..] == a[1..] + b;
      RemoveRuleConcat(a[1..], b, id);
    }
  }

  /** Deleting twice is deleting once. */
  lemma RemoveRuleIdempotent(rs: seq<AutoForwardRule>, id: string)
    ensures RemoveRule(RemoveRule(rs, id), id) == RemoveRule(rs, id)
  {
  }

  /** A rule with its `enabled` flag flipped when its id is `id`. */
  function ToggleIfMatch(r: AutoForwardRule, id: string): AutoForwardRule
  {
    if r.id == id then r.(enabled := !r.enabled) else r
  }

  /** The rule list after the toggle handler's map: the same rules in the same
      positions, with `enabled` flipped exactly on those whose id is `id`. */
  function ToggleRules(rs: seq<AutoForwardRule>, id: string): (r: seq<AutoForwardRule>)
    ensures |r| == |rs|
    ensures forall i :: 0 <= i < |rs| ==> r[i].enabled == (rs[i].enabled != (rs[i].id == id))
    ensures forall i :: 0 <= i < |rs| ==> r[i] == rs[i].(enabled := r[i].enabled)
  {
    if rs == [] then [] else [ToggleIfMatch(rs[0], id)] + ToggleRules(rs[1..], id)
  }

  /** Toggling the same id twice gives back the same list. */
  lemma ToggleRulesTwice(rs: seq<AutoForwardRule>, id: string)
    ensures ToggleRules(ToggleRules(rs, id), id) == rs
  {
  }

  /** Neither deleting nor toggling can produce a rule that is not well formed. */
  lemma ToggleAndRemoveKeepWellFormed(rs: seq<AutoForwardRule>, id: string)
    requires AllWellFormed(rs)
    ensures AllWellFormed(ToggleRules(rs, id))
    ensures AllWellFormed(RemoveRule(rs, id))
  {
    forall x | x in RemoveRule(rs, id) ensures WellFormedRule(x) {
      RemoveRuleMembers(rs, id, x);
    }
    var t := ToggleRules(rs, id);
    forall x | x in t ensures WellFormedRule(x) {
      var i :| 0 <= i < |t| && t[i] == x;
      assert WellFormedRule(rs[i]);
    }
  }

  /** The display name of a platform value; anything unknown is shown as is. */
  function GetPlatformName(platform: string): (name: string)
    ensures platform == "facebook" ==> name == "Facebook"
    ensures platform == "instagram" ==> name == "Instagram"
    ensures platform == "twitter" ==> name == "Twitter"
    ensures platform !in {"facebook", "instagram", "twitter"} ==> name == platform
  {
    if platform == "facebook" then "Facebook"
    else if platform == "instagram" then "Instagram"
    else if platform == "twitter" then "Twitter"
    else platform
  }

  /** ASCII upper case of one letter. */
  function UpperChar(c: char): char
  {
    if 'a' <= c <= 'z' then (c as int - 32) as char else c
  }

  /** The name with its first letter in upper case. */
  function Capitalize(s: string): string
  {
    if s == [] then s else [UpperChar(s[0])] + s[1..]
  }

  /** The known platforms are displayed capitalised; every other value is displayed
      unchanged, so the display name differs from the value exactly for those three. */
  lemma PlatformNameIsCapitalized(platform: string)
    ensures platform in {"facebook", "instagram", "twitter"} ==> GetPlatformName(platform) == Capitalize(platform)
    ensures GetPlatformName(platform) != platform <==> platform in {"facebook", "instagram", "twitter"}
  {
  }

  /** The display name of a rule's platform: the capitalised literal, except
      for TikTok, which the switch does not name and so shows as "tiktok". */
  lemma RulePlatformName(p: Platform)
    ensures p != TikTok ==> GetPlatformName(PlatformKey(p)) == Capitalize(PlatformKey(p))
    ensures GetPlatformName(PlatformKey(TikTok)) == "tiktok"
  {
    PlatformNameIsCapitalized(PlatformKey(p));
  }

  /** The rule list component. */
  class AutoForwardRules {
    var rules: seq<AutoForwardRule>
    var newRule: RuleDraft

    /** Every listed rule has a source username and two different platforms. */
    ghost predicate Valid()
      reads this
    {
      AllWellFormed(rules)
    }

    /** The list starts with the sample rule, dated from the clock reading `now`. */
    constructor (now: Time)
      ensures Valid()
      ensures rules == [SampleRule(now)] && newRule == DefaultDraft
    {
      rules := [SampleRule(now)];
      newRule := DefaultDraft;
    }

    /** The add button. `id` is the clock reading rendered in decimal and `now` the
        creation time. On a failed check nothing changes; otherwise exactly one rule
        is appended after the existing ones and the input record is reset. */
    method HandleAddRule(id: string, now: Time) returns (outcome: Check<RuleRejection>)
      requires Valid()
      modifies this
      ensures Valid()
      ensures outcome == ValidateRule(old(newRule))
      ensures outcome.Fail? ==> rules == old(rules) && newRule == old(newRule)
      ensures outcome.Pass? ==> rules == old(rules) + [MakeRule(old(newRule), id, now)]
      ensures outcome.Pass? ==> newRule == DefaultDraft
    {
      outcome := ValidateRule(newRule);
      if outcome.Fail? {
        return;
      }
      var rule := MakeRule(newRule, id, now);
      AcceptedRuleWellFormed(newRule, id, now);
      rules := rules + [rule];
      newRule := DefaultDraft;
    }

    /** The delete button; `confirmed` is the answer to the confirmation dialog. */
    method HandleDeleteRule(id: string, confirmed: bool)
      requires Valid()
      modifies this`rules
      ensures Valid()
      ensures rules == if confirmed then RemoveRule(old(rules), id) else old(rules)
    {
      if confirmed {
        ToggleAndRemoveKeepWellFormed(rules, id);
        rules := RemoveRule(rules, id);
      }
    }

    /** The enable/disable switch of one rule. */
    method HandleToggleRule(id: string)
      requires Valid()
      modifies this`rules
      ensures Valid()
      ensures rules == ToggleRules(old(rules), id)
    {
      ToggleAndRemoveKeepWellFormed(rules, id);
      rules := ToggleRules(rules, id);
    }
  }
}
