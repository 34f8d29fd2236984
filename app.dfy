/** The application shell: which screen is shown (the welcome screen, the
    full-screen goal-setting flow, or a page under the navigation bar), the
    handlers that move between them, and the flag that remembers whether the
    CAFY introduction was reached from the welcome screen's Goals button. */
module App {
  import opened FinalSelections

  const WelcomeId: string := "welcome"
  const CafyIntroId: string := "cafy-intro"
  const GoalsId: string := "goals"
  const TrackingId: string := "tracking"
  const JourneyId: string := "journey"
  const ResourcesId: string := "resources"

  /** The six state cells of the shell. */
  datatype AppState = AppState(
    currentPage: string,
    showWelcome: bool,
    showGoalSettingFlow: bool,
    goalSettingCompleted: bool,
    goalData: seq<Selection>,
    cameFromWelcome: bool
  )

  const Start: AppState := AppState(WelcomeId, true, false, false, [], false)

  /** Which page the shell renders under the navigation bar, with what it
      passes to it: the CAFY introduction with or without a cancel callback,
      the goals page with the goal data and the completed flag, or one of the
      three plain pages. (The introduction page reads only its start callback
      and the goals page only a `goals` list, so neither uses the rest.) */
  datatype Page =
    | CafyIntro(canCancel: bool)
    | Goals(goalData: seq<Selection>, hasCompletedGoalSetting: bool)
    | Tracking
    | Journey
    | Resources

  datatype Screen = Welcome | GoalFlow | WithNavigation(page: Page)

  // ---------------------------------------------------------------------------
  // The handlers, as functions of the state

  /** `handleGetStarted`. */
  function AfterGetStarted(s: AppState): AppState
  {
    s.(showWelcome := false, currentPage := CafyIntroId, cameFromWelcome := false)
  }

  /** `handleNavigate(pageId)`. */
  function AfterNavigate(s: AppState, pageId: string): AppState
  {
    s.(currentPage := pageId, showGoalSettingFlow := false, cameFromWelcome := false)
  }

  /** `handleFeatureClick(feature)`, given `feature.id`. */
  function AfterFeatureClick(s: AppState, featureId: string): AppState
  {
    if featureId == GoalsId then
      s.(showWelcome := false, currentPage := CafyIntroId, cameFromWelcome := true, showGoalSettingFlow := false)
    else
      s.(showWelcome := false, currentPage := featureId, cameFromWelcome := false, showGoalSettingFlow := false)
  }

  /** `handleCafyCancel`. */
  function AfterCafyCancel(s: AppState): AppState
  {
    if s.cameFromWelcome then s.(showWelcome := true, currentPage := WelcomeId, cameFromWelcome := false)
    else s.(currentPage := GoalsId)
  }

  /** `handleStartGoalSetting`. */
  function AfterStartGoalSetting(s: AppState): AppState
  {
    s.(showGoalSettingFlow := true)
  }

  /** `handleGoalSettingComplete(completed, selections)`; the flow's cancel
      button calls it with `completed` false and no selections. */
  function AfterGoalSettingComplete(s: AppState, completed: bool, selections: seq<Selection>): AppState
  {
    var s' := s.(showGoalSettingFlow := false);
    if completed && |selections| > 0 then
      s'.(goalSettingCompleted := true, goalData := selections, currentPage := GoalsId, cameFromWelcome := false)
    else
      s'.(currentPage := CafyIntroId)
  }

  // ---------------------------------------------------------------------------
  // Rendering

  /** `renderPage()`: the switch on the current page, where an unknown page id
      falls back to the CAFY introduction without a cancel button. */
  function PageFor(s: AppState): (r: Page)
    ensures r.CafyIntro? && r.canCancel ==> s.currentPage == CafyIntroId && s.cameFromWelcome
    ensures s.currentPage == CafyIntroId ==> r == CafyIntro(s.cameFromWelcome)
    ensures s.currentPage == TrackingId <==> r == Tracking
    ensures s.currentPage == JourneyId <==> r == Journey
    ensures s.currentPage == ResourcesId <==> r == Resources
    ensures r.Goals? <==> s.currentPage == GoalsId
    ensures r.Goals? ==> r.goalData == s.goalData && r.hasCompletedGoalSetting == s.goalSettingCompleted
    ensures s.currentPage !in {CafyIntroId, GoalsId, TrackingId, JourneyId, ResourcesId} ==> r == CafyIntro(false)
  {
    if s.currentPage == CafyIntroId then CafyIntro(s.cameFromWelcome)
    else if s.currentPage == GoalsId then Goals(s.goalData, s.goalSettingCompleted)
    else if s.currentPage == TrackingId then Tracking
    else if s.currentPage == JourneyId then Journey
    else if s.currentPage == ResourcesId then Resources
    else CafyIntro(false)
  }

  /** The shell's render: the welcome screen wins over the goal-setting flow,
      which wins over the pages. */
  function Render(s: AppState): (r: Screen)
    ensures r == Welcome <==> s.showWelcome
    ensures r == GoalFlow <==> !s.showWelcome && s.showGoalSettingFlow
    ensures r.WithNavigation? <==> !s.showWelcome && !s.showGoalSettingFlow
    ensures r.WithNavigation? ==> r.page == PageFor(s)
  {
    if s.showWelcome then Welcome
    else if s.showGoalSettingFlow then GoalFlow
    else WithNavigation(PageFor(s))
  }

  // ---------------------------------------------------------------------------
  // What the rendered screen lets the user do

  datatype Action =
    | GetStarted
    | FeatureClick(featureId: string)
    | Navigate(pageId: string)
    | CafyCancel
    | StartGoalSetting
    | GoalSettingComplete(completed: bool, selections: seq<Selection>)

  /** The actions whose handlers the shell passes to the components of the
      current screen: the welcome screen's two callbacks, the flow's completion
      and cancel, and under the navigation bar the navigation itself, the start
      callback of the introduction and goals pages, and the introduction's
      cancel callback when it gets one. This is what the shell hands out, not
      what the pages render a button for. */
  predicate Offered(s: AppState, a: Action)
  {
    match Render(s)
    case Welcome => a.GetStarted? || a.FeatureClick?
    case GoalFlow => a.GoalSettingComplete?
    case WithNavigation(page) =>
      a.Navigate?
      || (a.StartGoalSetting? && (page.CafyIntro? || page.Goals?))
      || (a.CafyCancel? && page == CafyIntro(true))
  }

  function After(s: AppState, a: Action): AppState
  {
    match a
    case GetStarted => AfterGetStarted(s)
    case FeatureClick(id) => AfterFeatureClick(s, id)
    case Navigate(id) => AfterNavigate(s, id)
    case CafyCancel => AfterCafyCancel(s)
    case StartGoalSetting => AfterStartGoalSetting(s)
    case GoalSettingComplete(completed, selections) => AfterGoalSettingComplete(s, completed, selections)
  }

  /** What holds in every state reachable through the screens: the welcome
      screen is on the welcome page with nothing pending, the "came from
      welcome" flag is only up on the CAFY introduction, and goal data is held
      exactly when goal setting was completed. */
  ghost predicate Consistent(s: AppState)
  {
    (s.showWelcome ==> s.currentPage == WelcomeId && !s.showGoalSettingFlow && !s.cameFromWelcome)
    && (s.cameFromWelcome ==> s.currentPage == CafyIntroId && !s.showWelcome)
    && (s.goalSettingCompleted <==> |s.goalData| > 0)
  }

  lemma StartConsistent()
    ensures Consistent(Start) && Render(Start) == Welcome
  {
  }

  /** Every action the screen offers keeps the state consistent. */
  lemma ActionKeepsConsistent(s: AppState, a: Action)
    requires Consistent(s) && Offered(s, a)
    ensures Consistent(After(s, a))
  {
    match a
    case CafyCancel =>
      assert PageFor(s) == CafyIntro(true);
    case _ =>
  }

  /** The introduction is passed a cancel callback only when it was reached
      from the welcome screen's Goals button, so the cancel handler's fallback
      to the goals page is never reached through what the shell passes. */
  lemma CancelOnlyFromWelcome(s: AppState)
    requires Consistent(s) && Offered(s, CafyCancel)
    ensures s.cameFromWelcome
    ensures Render(After(s, CafyCancel)) == Welcome
  {
    assert PageFor(s) == CafyIntro(true);
  }

  /** The Goals button on the welcome screen renders the introduction with a
      cancel callback, and calling it restores the state exactly. */
  lemma GoalsThenCancel(s: AppState)
    requires Consistent(s) && Render(s) == Welcome
    ensures Render(AfterFeatureClick(s, GoalsId)) == WithNavigation(CafyIntro(true))
    ensures Offered(AfterFeatureClick(s, GoalsId), CafyCancel)
    ensures AfterCafyCancel(AfterFeatureClick(s, GoalsId)) == s
  {
  }

  /** Starting the flow from the introduction and cancelling it comes back to
      the same introduction, cancel button included. (From the fallback shown
      for an unknown page id, the page id becomes the introduction's.) */
  lemma StartThenCancelFlow(s: AppState)
    requires Render(s).WithNavigation? && s.currentPage == CafyIntroId
    ensures Render(AfterStartGoalSetting(s)) == GoalFlow
    ensures AfterGoalSettingComplete(AfterStartGoalSetting(s), false, []) == s
  {
  }

  /** Completing the flow with selections renders the goals page and passes it
      the selections; any other completion leaves the goal data and the
      completed flag alone and renders the introduction. */
  lemma CompleteShows(s: AppState, completed: bool, selections: seq<Selection>)
    requires !s.showWelcome
    ensures completed && |selections| > 0 ==>
      Render(AfterGoalSettingComplete(s, completed, selections)) == WithNavigation(Goals(selections, true))
    ensures !(completed && |selections| > 0) ==>
      var s' := AfterGoalSettingComplete(s, completed, selections);
      s'.goalData == s.goalData && s'.goalSettingCompleted == s.goalSettingCompleted
      && Render(s') == WithNavigation(CafyIntro(s.cameFromWelcome))
  {
  }

  // ---------------------------------------------------------------------------
  // The component

  class AppShell {
    var currentPage: string
    var showWelcome: bool
    var showGoalSettingFlow: bool
    var goalSettingCompleted: bool
    var goalData: seq<Selection>
    var cameFromWelcome: bool

    function State(): AppState
      reads this
    {
      AppState(currentPage, showWelcome, showGoalSettingFlow, goalSettingCompleted, goalData, cameFromWelcome)
    }

    constructor()
      ensures State() == Start
    {
      currentPage := WelcomeId;
      showWelcome := true;
      showGoalSettingFlow := false;
      goalSettingCompleted := false;
      goalData := [];
      cameFromWelcome := false;
    }

    method HandleGetStarted()
      modifies this
      ensures State() == AfterGetStarted(old(State()))
    {
      showWelcome := false;
      currentPage := CafyIntroId;
      cameFromWelcome := false;
    }

    method HandleNavigate(pageId: string)
      modifies this
      ensures State() == AfterNavigate(old(State()), pageId)
    {
      currentPage := pageId;
      showGoalSettingFlow := false;
      cameFromWelcome := false;
    }

    method HandleFeatureClick(featureId: string)
      modifies this
      ensures State() == AfterFeatureClick(old(State()), featureId)
    {
      if featureId == GoalsId {
        showWelcome := false;
        currentPage := CafyIntroId;
        cameFromWelcome := true;
      } else {
        showWelcome := false;
        currentPage := featureId;
        cameFromWelcome := false;
      }
      showGoalSettingFlow := false;
    }

    method HandleCafyCancel()
      modifies this
      ensures State() == AfterCafyCancel(old(State()))
    {
      if cameFromWelcome {
        showWelcome := true;
        currentPage := WelcomeId;
        cameFromWelcome := false;
      } else {
        currentPage := GoalsId;
      }
    }

    method HandleStartGoalSetting()
      modifies this
      ensures State() == AfterStartGoalSetting(old(State()))
    {
      showGoalSettingFlow := true;
    }

    method HandleGoalSettingComplete(completed: bool, selections: seq<Selection>)
      modifies this
      ensures State() == AfterGoalSettingComplete(old(State()), completed, selections)
    {
      showGoalSettingFlow := false;
      if completed && |selections| > 0 {
        goalSettingCompleted := true;
        goalData := selections;
        currentPage := GoalsId;
        cameFromWelcome := false;
      } else {
        currentPage := CafyIntroId;
      }
    }
  }
}
