/** The application shell (src/App.tsx): the active tab and the session's list
    of scheduled posts, fed by the scheduling form. */
module AppShell {
  import opened Common
  import opened Types
  import opened SchedulePost

  /** The five tabs of the page. */
  datatype Tab = ScheduleTab | AutoForwardTab | QRCodeTab | UrlTab | ConnectTab

  /** The sample submission of a plain post: it passes every check and is
      scheduled for the given date and time on the one platform chosen. */
  lemma PlainPostScenario()
    ensures var f := InitialFields.(content := "hello", date := "2025-01-01", time := "09:00",
                                    platforms := ["Facebook"]);
            ValidatePost(f) == Pass
            && BuildPost(f).scheduledTime == "2025-01-01 09:00"
            && BuildPost(f).targetURL == None && BuildPost(f).endDate == None
  {
  }

  /** The page. The form is its child component, mounted only while the
      scheduling tab is shown; the form's schedule callback is `HandleSchedulePost`. */
  class App {
    var activeTab: Tab
    var scheduledPosts: seq<ScheduledPost>
    const form: SchedulePostForm

    /** Every post in the session list came from the form, so it is well formed.
        While another tab is shown the form is unmounted, so the next mount starts
        from the initial field values. */
    ghost predicate Valid()
      reads this, form
    {
      && form.Valid()
      && (activeTab != ScheduleTab ==> form.Fields() == InitialFields)
      && forall p :: p in scheduledPosts ==> WellFormedPost(p)
    }

    /** The page opens on the scheduling tab with no posts and a blank form. */
    constructor ()
      ensures Valid()
      ensures activeTab == ScheduleTab && scheduledPosts == []
      ensures fresh(form) && form.Fields() == InitialFields
    {
      activeTab := ScheduleTab;
      scheduledPosts := [];
      form := new SchedulePostForm();
    }

    /** A tab button was clicked. Leaving the scheduling tab unmounts the form
        and discards what was typed into it; staying on it keeps the fields. */
    method SelectTab(tab: Tab)
      requires Valid()
      modifies this`activeTab, form
      ensures Valid()
      ensures activeTab == tab && scheduledPosts == old(scheduledPosts)
      ensures old(activeTab) == ScheduleTab && tab != ScheduleTab ==> form.Fields() == InitialFields
      ensures old(activeTab) != ScheduleTab || tab == ScheduleTab ==> form.Fields() == old(form.Fields())
    {
      if activeTab == ScheduleTab && tab != ScheduleTab {
        form.Reset();
      }
      activeTab := tab;
    }

    /** The schedule callback: the post becomes the new last element. */
    method HandleSchedulePost(post: ScheduledPost)
      modifies this`scheduledPosts
      ensures scheduledPosts == old(scheduledPosts) + [post]
      ensures |scheduledPosts| == |old(scheduledPosts)| + 1
      ensures forall i :: 0 <= i < |old(scheduledPosts)| ==> scheduledPosts[i] == old(scheduledPosts)[i]
    {
      scheduledPosts := scheduledPosts + [post];
    }

    /** The form's submit button, followed by the callback the form makes: once a
        submission reaches the handler, the list grows by the built post exactly
        when every check of the handler passes, and is left alone otherwise. The
        browser's own input validation, which can stop a submission before the
        handler runs, is not part of this model. */
    method SubmitScheduleForm() returns (outcome: Check<PostRejection>)
      requires Valid()
      requires activeTab == ScheduleTab
      modifies this`scheduledPosts, form
      ensures Valid()
      ensures outcome == ValidatePost(old(form.Fields()))
      ensures outcome.Fail? ==> scheduledPosts == old(scheduledPosts) && form.Fields() == old(form.Fields())
      ensures outcome.Pass? ==> scheduledPosts == old(scheduledPosts) + [BuildPost(old(form.Fields()))]
      ensures outcome.Pass? ==> form.Fields() == InitialFields
    {
      var scheduled;
      outcome, scheduled := form.HandleSubmit();
      if scheduled.Some? {
        AcceptedPostWellFormed(old(form.Fields()));
        HandleSchedulePost(scheduled.value);
      }
    }
  }
}
