/** The post scheduling form (src/components/SchedulePostForm.tsx): the submit
    checks, the post it builds, the platform checkboxes and the short-link
    alias helper. */
module SchedulePost {
  import opened Common
  import opened Types

  /** The values of the form's thirteen input fields. */
  datatype FormFields = FormFields(
    content: string,
    date: string,
    time: string,
    platforms: seq<string>,
    attachQRCode: bool,
    targetURL: string,
    useShortLink: bool,
    shortLinkAlias: string,
    repeatSchedule: Repeat,
    endDate: string,
    subscriptionURL: string,
    autoForward: bool,
    selectedAccount: string)

  /** The fields of a fresh form, and of a form just submitted. */
  const InitialFields := FormFields("", "", "", [], false, "", false, "", NoRepeat, "", "", false, "")

  /** The alert a submission can stop with. */
  datatype PostRejection =
    | NoContentOrSubscription
    | MissingRequiredField
    | QRCodeWithoutTargetURL
    | RepeatWithoutEndDate

  /** The position of a check in the order the submit handler runs them. */
  function CheckOrder(e: PostRejection): nat
  {
    match e
    case NoContentOrSubscription => 0
    case MissingRequiredField => 1
    case QRCodeWithoutTargetURL => 2
    case RepeatWithoutEndDate => 3
  }

  /** The condition under which the check that alerts `e` fails. */
  predicate Violates(f: FormFields, e: PostRejection)
  {
    match e
    case NoContentOrSubscription => f.content == "" && f.subscriptionURL == ""
    case MissingRequiredField => f.date == "" || f.time == "" || |f.platforms| == 0
    case QRCodeWithoutTargetURL => f.attachQRCode && f.targetURL == ""
    case RepeatWithoutEndDate => f.repeatSchedule != NoRepeat && f.endDate == ""
  }

  /** The four checks of the submit handler, run in order; the first one that
      fails decides the alert. */
  function ValidatePost(f: FormFields): (r: Check<PostRejection>)
    ensures r.Pass? <==> forall e :: !Violates(f, e)
    ensures r.Fail? ==> Violates(f, r.reason)
    ensures r.Fail? ==> forall e :: CheckOrder(e) < CheckOrder(r.reason) ==> !Violates(f, e)
  {
    if Violates(f, NoContentOrSubscription) then Fail(NoContentOrSubscription)
    else if Violates(f, MissingRequiredField) then Fail(MissingRequiredField)
    else if Violates(f, QRCodeWithoutTargetURL) then Fail(QRCodeWithoutTargetURL)
    else if Violates(f, RepeatWithoutEndDate) then Fail(RepeatWithoutEndDate)
    else Pass
  }

  /** The post handed to the scheduler. Each optional field is present exactly
      when the flag that enables it is set, and then carries the form's value. */
  function BuildPost(f: FormFields): (p: ScheduledPost)
    ensures p.content == f.content && p.platforms == f.platforms && p.attachQRCode == f.attachQRCode
    ensures p.scheduledTime == f.date + " " + f.time
    ensures p.targetURL.Some? <==> f.attachQRCode
    ensures p.targetURL.Some? ==> p.targetURL.value == f.targetURL
    ensures p.useShortLink == Some(f.useShortLink)
    ensures p.shortLinkAlias.Some? <==> f.useShortLink
    ensures p.shortLinkAlias.Some? ==> p.shortLinkAlias.value == f.shortLinkAlias
    ensures p.repeatSchedule == Some(f.repeatSchedule)
    ensures p.endDate.Some? <==> f.repeatSchedule != NoRepeat
    ensures p.endDate.Some? ==> p.endDate.value == f.endDate
    ensures p.subscriptionURL.Some? <==> f.autoForward
    ensures p.subscriptionURL.Some? ==> p.subscriptionURL.value == f.subscriptionURL
    ensures p.autoForward == Some(f.autoForward)
    ensures p.accountId.None? <==> f.selectedAccount == ""
    ensures p.accountId.Some? ==> p.accountId.value == f.selectedAccount
  {
    ScheduledPost(
      f.content,
      f.date + " " + f.time,
      f.platforms,
      f.attachQRCode,
      if f.attachQRCode then Some(f.targetURL) else None,
      Some(f.useShortLink),
      if f.useShortLink then Some(f.shortLinkAlias) else None,
      Some(f.repeatSchedule),
      if f.repeatSchedule != NoRepeat then Some(f.endDate) else None,
      if f.autoForward then Some(f.subscriptionURL) else None,
      Some(f.autoForward),
      if f.selectedAccount == "" then None else Some(f.selectedAccount))
  }

  /** What every post the form hands over satisfies. */
  predicate WellFormedPost(p: ScheduledPost)
  {
    && |p.platforms| > 0
    && |p.scheduledTime| >= 3
    && (p.attachQRCode ==> p.targetURL.Some? && p.targetURL.value != "")
    && p.repeatSchedule.Some? && p.useShortLink.Some? && p.autoForward.Some?
    && (p.repeatSchedule.value != NoRepeat ==> p.endDate.Some? && p.endDate.value != "")
    && (p.shortLinkAlias.Some? <==> p.useShortLink.value)
    && (p.subscriptionURL.Some? <==> p.autoForward.value)
    && (p.accountId.Some? ==> p.accountId.value != "")
  }

  /** A post built from a form that passes every check is well formed. */
  lemma AcceptedPostWellFormed(f: FormFields)
    requires ValidatePost(f).Pass?
    ensures WellFormedPost(BuildPost(f))
  {
  }

  /** The checks only ask whether the end date is empty: an end date is never
      compared with the start date, so any non-empty one is as good as any other. */
  lemma EndDateNeverCompared(f: FormFields, other: string)
    requires f.endDate != "" && other != ""
    ensures ValidatePost(f.(endDate := other)) == ValidatePost(f)
  {
  }

  /** The content check looks at the subscription field even when auto-forward
      is off, while the post only keeps that field when auto-forward is on: an
      accepted post can carry neither content nor a subscription source. */
  lemma AcceptedPostWithoutContent(f: FormFields)
    requires f.content == "" && f.subscriptionURL != "" && !f.autoForward
    requires f.date != "" && f.time != "" && |f.platforms| > 0
    requires !f.attachQRCode && f.repeatSchedule == NoRepeat
    ensures ValidatePost(f) == Pass
    ensures BuildPost(f).content == "" && BuildPost(f).subscriptionURL == None
  {
  }

  /** `ps` with every occurrence of `p` removed, the others kept in order. */
  function Without(ps: seq<string>, p: string): (r: seq<string>)
    ensures forall x :: x in r <==> x in ps && x != p
    ensures p !in ps ==> r == ps
    ensures |r| <= |ps|
  {
    if ps == [] then []
    else if ps[0] == p then Without(ps[1..], p)
    else [ps[0]] + Without(ps[1..], p)
  }

  /** No platform is listed twice. */
  predicate NoDuplicates(ps: seq<string>)
  {
    forall i, j :: 0 <= i < j < |ps| ==> ps[i] != ps[j]
  }

  /** Removal keeps order: removing from a concatenation removes from each part. */
  lemma {:induction false} WithoutConcat(a: seq<string>, b: seq<string>, p: string)
    ensures Without(a + b, p) == Without(a, p) + Without(b, p)
  {
    if a == [] {
      assert a + b == b;
    } else {
      var ab := a + b;
      assert ab != [] && ab[0] == a[0] && ab[1..] == a[1..] + b;
      WithoutConcat(a[1..], b, p);
    }
  }

  /** Ticking or unticking one platform checkbox: a listed platform is removed
      with the others kept in order, an unlisted one is appended at the end. */
  function TogglePlatform(ps: seq<string>, p: string): (r: seq<string>)
    ensures p in r <==> p !in ps
    ensures p in ps ==> r == Without(ps, p)
    ensures p !in ps ==> r == ps + [p]
    ensures forall x :: x != p ==> (x in r <==> x in ps)
  {
    if p in ps then Without(ps, p) else ps + [p]
  }

  lemma {:induction false} WithoutKeepsNoDuplicates(ps: seq<string>, p: string)
    requires NoDuplicates(ps)
    ensures NoDuplicates(Without(ps, p))
  {
    if ps != [] {
      WithoutKeepsNoDuplicates(ps[1..], p);
      var rest := Without(ps[1..], p);
      if ps[0] != p {
        assert ps[0] !in ps[1..];
        assert ps[0] !in rest;
        assert Without(ps, p) == [ps[0]] + rest;
      }
    }
  }

  /** Toggling never lists a platform twice. */
  lemma TogglePlatformKeepsNoDuplicates(ps: seq<string>, p: string)
    requires NoDuplicates(ps)
    ensures NoDuplicates(TogglePlatform(ps, p))
  {
    if p in ps {
      WithoutKeepsNoDuplicates(ps, p);
    }
  }

  lemma {:induction false} WithoutAppended(ps: seq<string>, p: string)
    ensures Without(ps + [p], p) == Without(ps, p)
  {
    if ps == [] {
      assert [] + [p] == [p];
      assert [p][1..] == [];
    } else {
      WithoutAppended(ps[1..], p);
      assert (ps + [p])[1..] == ps[1..] + [p];
    }
  }

  /** Toggling the same platform twice gives back the same set of platforms,
      and the very same list when the platform was not listed. */
  lemma TogglePlatformTwice(ps: seq<string>, p: string)
    ensures forall x :: x in TogglePlatform(TogglePlatform(ps, p), p) <==> x in ps
    ensures p !in ps ==> TogglePlatform(TogglePlatform(ps, p), p) == ps
  {
    if p !in ps {
      WithoutAppended(ps, p);
    }
  }

  /** The alert the short-link helper can stop with. */
  datatype AliasRejection = MissingTargetURL

  /** The form component: one field per input, updated in place by its handlers. */
  class SchedulePostForm {
    var content: string
    var date: string
    var time: string
    var platforms: seq<string>
    var attachQRCode: bool
    var targetURL: string
    var useShortLink: bool
    var shortLinkAlias: string
    var repeatSchedule: Repeat
    var endDate: string
    var subscriptionURL: string
    var autoForward: bool
    var selectedAccount: string

    /** The current field values as one record. */
    function Fields(): FormFields
      reads this
    {
      FormFields(content, date, time, platforms, attachQRCode, targetURL, useShortLink,
                 shortLinkAlias, repeatSchedule, endDate, subscriptionURL, autoForward, selectedAccount)
    }

    /** Only the checkboxes change the platform list, and they never list a platform twice. */
    ghost predicate Valid()
      reads this
    {
      NoDuplicates(platforms)
    }

    constructor ()
      ensures Valid() && Fields() == InitialFields
    {
      content, date, time, platforms := "", "", "", [];
      attachQRCode, targetURL, useShortLink, shortLinkAlias := false, "", false, "";
      repeatSchedule, endDate, subscriptionURL, autoForward, selectedAccount := NoRepeat, "", "", false, "";
    }

    /** Submitting the form. A failed check alerts and changes nothing; otherwise
        the built post is handed to the scheduler exactly once (`scheduled`) and
        every field returns to its initial value. */
    method HandleSubmit() returns (outcome: Check<PostRejection>, scheduled: Option<ScheduledPost>)
      requires Valid()
      modifies this
      ensures Valid()
      ensures outcome == ValidatePost(old(Fields()))
      ensures outcome.Fail? ==> scheduled == None && Fields() == old(Fields())
      ensures outcome.Pass? ==> scheduled == Some(BuildPost(old(Fields()))) && Fields() == InitialFields
    {
      var f := Fields();
      outcome := ValidatePost(f);
      if outcome.Fail? {
        return outcome, None;
      }
      scheduled := Some(BuildPost(f));
      Reset();
    }

    /** Every field back to its initial value. */
    method Reset()
      modifies this
      ensures Valid() && Fields() == InitialFields
    {
      content := "";
      date := "";
      time := "";
      platforms := [];
      attachQRCode := false;
      targetURL := "";
      useShortLink := false;
      shortLinkAlias := "";
      repeatSchedule := NoRepeat;
      endDate := "";
      subscriptionURL := "";
      autoForward := false;
      selectedAccount := "";
      assert Fields() == FormFields("", "", "", [], false, "", false, "", NoRepeat, "", "", false, "");
    }

    /** A platform checkbox was clicked. */
    method HandlePlatformChange(platform: string)
      requires Valid()
      modifies this`platforms
      ensures Valid()
      ensures platforms == TogglePlatform(old(platforms), platform)
    {
      TogglePlatformKeepsNoDuplicates(platforms, platform);
      platforms := TogglePlatform(platforms, platform);
    }

    /** The short-link button. Without a target URL it alerts and changes nothing;
        otherwise it turns the short link on and, only when no alias was typed,
        fills in `randomAlias` (at most six random base-36 characters). */
    method GenerateShortLink(randomAlias: string) returns (outcome: Check<AliasRejection>)
      modifies this`useShortLink, this`shortLinkAlias
      ensures outcome == Fail(MissingTargetURL) <==> targetURL == ""
      ensures outcome.Fail? ==> useShortLink == old(useShortLink) && shortLinkAlias == old(shortLinkAlias)
      ensures outcome.Pass? ==> useShortLink
      ensures outcome.Pass? && old(shortLinkAlias) != "" ==> shortLinkAlias == old(shortLinkAlias)
      ensures outcome.Pass? && old(shortLinkAlias) == "" ==> shortLinkAlias == randomAlias
    {
      if targetURL == "" {
        return Fail(MissingTargetURL);
      }
      useShortLink := true;
      if shortLinkAlias == "" {
        shortLinkAlias := randomAlias;
      }
      outcome := Pass;
    }
  }
}
