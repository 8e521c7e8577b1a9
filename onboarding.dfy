/**
 * The onboarding wizard (src/pages/Onboarding.tsx): the five steps, what a choice records
 * and when it advances, the demographics gate, and the progress bar.
 */
module Onboarding {
  import opened Seqs

  /** One wizard step: its id, its choices, and whether it is multi-select or the demographics form. */
  datatype Step = Step(id: string, options: seq<string>, multi: bool, isForm: bool)

  const Steps: seq<Step> := [
    Step("demographics", [], false, true),
    Step("experience", ["Less than 1 year", "1-3 years", "3-5 years", "5+ years"], false, false),
    Step("style", ["Scalping (Minutes)", "Day Trading (Hours)", "Swing Trading (Days)", "Position Trading (Weeks)"], false, false),
    Step("markets", ["Forex", "Crypto", "Indices", "Commodities", "Stocks"], true, false),
    Step("goals", ["Get funded by a Firm", "Improve Consistency", "Scale Capital", "Automate Risk Management"], false, false)
  ]

  /** The wizard's answers. */
  datatype FormData = FormData(experienceLevel: string, yearsTrading: string, preferredMarkets: seq<string>,
                               tradingStyle: string, strategyType: string, riskAppetite: string,
                               primaryGoal: string, dateOfBirth: string, country: string)

  const InitialForm: FormData := FormData("Beginner", "", [], "", "Manual", "Medium", "", "", "")

  // ---------------------------------------------------------------------------
  // The market toggle
  // ---------------------------------------------------------------------------

  predicate Distinct(s: seq<string>)
  {
    forall i, j | 0 <= i < j < |s| :: s[i] != s[j]
  }

  /** `s.filter(m => m !== v)`. */
  function Without(s: seq<string>, v: string): (r: seq<string>)
    ensures forall m :: m in r <==> m in s && m != v
    ensures Distinct(s) ==> Distinct(r)
    ensures IsSubsequence(r, s)
  {
    if |s| == 0 then []
    else
      var last := s[|s| - 1];
      var rest := Without(s[..|s| - 1], v);
      if last == v then rest
      else
        assert Distinct(s) ==> last !in s[..|s| - 1];
        assert (rest + [last])[..|rest|] == rest;
        rest + [last]
  }

  /** Filtering out a value that is not there keeps the list. */
  lemma {:induction false} WithoutAbsent(s: seq<string>, v: string)
    requires v !in s
    ensures Without(s, v) == s
  {
    if |s| > 0 {
      WithoutAbsent(s[..|s| - 1], v);
    }
  }

  /** A multi-select click: a present market is removed, an absent one appended. */
  function Toggle(markets: seq<string>, value: string): (r: seq<string>)
    ensures value in r <==> value !in markets
    ensures forall m | m != value :: m in r <==> m in markets
    ensures value !in markets ==> r == markets + [value]
    ensures Distinct(markets) ==> Distinct(r)
  {
    if value in markets then Without(markets, value) else markets + [value]
  }

  /** Clicking an unselected market twice restores the selection. */
  lemma ToggleTwiceRestores(markets: seq<string>, value: string)
    requires value !in markets
    ensures Toggle(Toggle(markets, value), value) == markets
  {
    WithoutAbsent(markets, value);
    assert Without(markets + [value], value) == Without(markets, value);
  }

  // ---------------------------------------------------------------------------
  // Single-select choices
  // ---------------------------------------------------------------------------

  /** The experience level recorded for a years-trading answer. */
  function ExperienceLevel(years: string): (level: string)
    ensures level == "Advanced" <==> years == "5+ years"
    ensures level == "Beginner" <==> years == "Less than 1 year"
    ensures level == "Intermediate" <==> years != "5+ years" && years != "Less than 1 year"
  {
    if years == "5+ years" then "Advanced" else if years == "Less than 1 year" then "Beginner" else "Intermediate"
  }

  /** What a single-select choice records, by step id; other ids record nothing. */
  function Recorded(form: FormData, stepId: string, value: string): (r: FormData)
    ensures stepId == "experience" ==> r == form.(yearsTrading := value, experienceLevel := ExperienceLevel(value))
    ensures stepId == "style" ==> r == form.(tradingStyle := value)
    ensures stepId == "goals" ==> r == form.(primaryGoal := value)
    ensures stepId !in ["experience", "style", "goals"] ==> r == form
  {
    if stepId == "experience" then form.(yearsTrading := value, experienceLevel := ExperienceLevel(value))
    else if stepId == "style" then form.(tradingStyle := value)
    else if stepId == "goals" then form.(primaryGoal := value)
    else form
  }

  // ---------------------------------------------------------------------------
  // Progress
  // ---------------------------------------------------------------------------

  /** The progress bar's width in percent. */
  function Progress(step: int): real
  {
    ((step + 1) as real / |Steps| as real) * 100.0
  }

  /** For a step of the wizard the width lies in (0, 100], grows with the step, and is full on the last step. */
  lemma ProgressBounds(step: int, later: int)
    requires 0 <= step < later < |Steps|
    ensures 0.0 < Progress(step) < Progress(later) <= 100.0
    ensures Progress(|Steps| - 1) == 100.0
  {
  }

  // ---------------------------------------------------------------------------
  // The wizard
  // ---------------------------------------------------------------------------

  class Wizard {
    var currentStep: int
    var formData: FormData

    ghost predicate Valid()
      reads this
    {
      0 <= currentStep < |Steps| && Distinct(formData.preferredMarkets)
    }

    constructor ()
      ensures Valid() && currentStep == 0 && formData == InitialForm
    {
      currentStep := 0;
      formData := InitialForm;
    }

    /**
     * `handleSelect`: on the demographics step nothing happens; on the multi-select step
     * the market is toggled and the step stays; on any other step the choice is recorded
     * and the step advances by one unless it is the last.
     */
    method HandleSelect(value: string)
      requires Valid()
      modifies this
      ensures Valid()
      ensures var step := Steps[old(currentStep)];
        && (step.id == "demographics" ==> currentStep == old(currentStep) && formData == old(formData))
        && (step.id != "demographics" && step.multi ==>
              currentStep == old(currentStep)
              && formData == old(formData).(preferredMarkets := Toggle(old(formData).preferredMarkets, value)))
        && (step.id != "demographics" && !step.multi ==>
              formData == Recorded(old(formData), step.id, value)
              && currentStep == (if old(currentStep) < |Steps| - 1 then old(currentStep) + 1 else old(currentStep)))
    {
      var step := Steps[currentStep];
      if step.id == "demographics" {
        return;
      }
      if step.multi {
        formData := formData.(preferredMarkets := Toggle(formData.preferredMarkets, value));
      } else {
        formData := Recorded(formData, step.id, value);
        if currentStep < |Steps| - 1 {
          currentStep := currentStep + 1;
        }
      }
    }

    /**
     * `handleDemographicsSubmit`, whose button only the demographics step shows: it
     * advances exactly when both the date of birth and the country are filled in.
     */
    method SubmitDemographics() returns (accepted: bool)
      requires Valid() && Steps[currentStep].isForm
      modifies this
      ensures Valid() && formData == old(formData)
      ensures accepted <==> formData.dateOfBirth != "" && formData.country != ""
      ensures currentStep == old(currentStep) + (if accepted then 1 else 0)
    {
      if formData.dateOfBirth == "" || formData.country == "" {
        return false;
      }
      currentStep := currentStep + 1;
      accepted := true;
    }

    /** The Continue button of the multi-select step. */
    method Continue()
      requires Valid() && Steps[currentStep].multi
      modifies this
      ensures Valid() && formData == old(formData) && currentStep == old(currentStep) + 1
    {
      currentStep := currentStep + 1;
    }
  }
}
