/** The daily-planner page: the set of goals ticked off, the generation
    request, and the lookups that style each schedule entry. */
module DailyPlanner {
  import opened Common

  /** The plan the server generates, kept opaque. */
  type Plan = string

  datatype Icon = BookOpenIcon | CoffeeIcon | TargetIcon | ClockIcon

  /** `getActivityIcon`: study, break and review have their own icon; any
      other type gets the clock. */
  function ActivityIcon(activityType: string): (i: Icon)
    ensures i == BookOpenIcon <==> activityType == "study"
    ensures i == CoffeeIcon <==> activityType == "break"
    ensures i == TargetIcon <==> activityType == "review"
    ensures i == ClockIcon <==> activityType !in {"study", "break", "review"}
  {
    if activityType == "study" then BookOpenIcon
    else if activityType == "break" then CoffeeIcon
    else if activityType == "review" then TargetIcon
    else ClockIcon
  }

  /** The four card tones of `getActivityColor`. */
  datatype Tone = AccentTone | SecondaryTone | StrongPrimaryTone | PrimaryTone

  /** Break before review before high priority before the plain tone. */
  function ActivityColor(activityType: string, priority: string): (t: Tone)
    ensures t == AccentTone <==> activityType == "break"
    ensures t == SecondaryTone <==> activityType == "review"
    ensures t == StrongPrimaryTone <==> activityType != "break" && activityType != "review" && priority == "high"
    ensures t == PrimaryTone <==> activityType != "break" && activityType != "review" && priority != "high"
  {
    if activityType == "break" then AccentTone
    else if activityType == "review" then SecondaryTone
    else if priority == "high" then StrongPrimaryTone
    else PrimaryTone
  }

  /** A break is coloured the same whatever its priority, and the priority
      matters only for entries that are neither breaks nor reviews. */
  lemma ColorPrecedence(activityType: string, p: string, q: string)
    ensures activityType in {"break", "review"} ==> ActivityColor(activityType, p) == ActivityColor(activityType, q)
    ensures activityType !in {"break", "review"} ==>
              (ActivityColor(activityType, p) == ActivityColor(activityType, q) <==> (p == "high" <==> q == "high"))
  {
  }

  datatype Badge = SecondaryBadge | AccentBadge | PrimaryBadge

  /** `colors[priority] || colors.medium`: high, medium and low have their
      own badge; anything else is shown as medium. */
  function PriorityBadge(priority: string): (b: Badge)
    ensures b == SecondaryBadge <==> priority == "high"
    ensures b == PrimaryBadge <==> priority == "low"
    ensures b == AccentBadge <==> priority != "high" && priority != "low"
  {
    if priority == "high" then SecondaryBadge
    else if priority == "low" then PrimaryBadge
    else AccentBadge
  }

  /** Unknown priorities look exactly like "medium". */
  lemma UnknownPriorityIsMedium(priority: string)
    requires priority !in {"high", "medium", "low"}
    ensures PriorityBadge(priority) == PriorityBadge("medium")
  {
  }

  /** The goal set after `toggleGoal(index)`. */
  function Toggled(goals: set<int>, index: int): (r: set<int>)
    ensures index in r <==> index !in goals
    ensures forall j :: j != index ==> (j in r <==> j in goals)
  {
    if index in goals then goals - {index} else goals + {index}
  }

  /** Ticking the same goal twice leaves the set as it was. */
  lemma ToggleTwice(goals: set<int>, index: int)
    ensures Toggled(Toggled(goals, index), index) == goals
  {
  }

  /** Toggles of two goals commute. */
  lemma TogglesCommute(goals: set<int>, i: int, j: int)
    ensures Toggled(Toggled(goals, i), j) == Toggled(Toggled(goals, j), i)
  {
  }

  class PlannerScreen {
    var dailyPlan: Option<Plan>
    var isGenerating: bool
    var completedGoals: set<int>
    var generateRequests: nat

    constructor ()
      ensures dailyPlan.None? && !isGenerating && completedGoals == {} && generateRequests == 0
    {
      dailyPlan, isGenerating, completedGoals, generateRequests := None, false, {}, 0;
    }

    /** The stored plan of a loaded profile is shown. */
    method OnProfileLoaded(storedPlan: Option<Plan>)
      modifies this`dailyPlan
      ensures storedPlan.Some? ==> dailyPlan == storedPlan
      ensures storedPlan.None? ==> dailyPlan == old(dailyPlan)
    {
      if storedPlan.Some? {
        dailyPlan := storedPlan;
      }
    }

    /** `handleGeneratePlanner`: only with a loaded profile. */
    method HandleGeneratePlanner(profileLoaded: bool)
      modifies this`isGenerating, this`generateRequests
      ensures profileLoaded ==> isGenerating && generateRequests == old(generateRequests) + 1
      ensures !profileLoaded ==> isGenerating == old(isGenerating) && generateRequests == old(generateRequests)
    {
      if profileLoaded {
        isGenerating := true;
        generateRequests := generateRequests + 1;
      }
    }

    /** The request settled: the plan it returned, if any, replaces the old
        one and the spinner stops. */
    method OnGenerateSettled(result: Option<Plan>)
      modifies this`dailyPlan, this`isGenerating
      ensures !isGenerating
      ensures result.Some? ==> dailyPlan == result
      ensures result.None? ==> dailyPlan == old(dailyPlan)
    {
      if result.Some? {
        dailyPlan := result;
      }
      isGenerating := false;
    }

    /** `toggleGoal`: flips that one goal. */
    method ToggleGoal(index: int)
      modifies this`completedGoals
      ensures completedGoals == Toggled(old(completedGoals), index)
    {
      var newSet := completedGoals;
      if index in newSet {
        newSet := newSet - {index};
      } else {
        newSet := newSet + {index};
      }
      completedGoals := newSet;
    }
  }
}
