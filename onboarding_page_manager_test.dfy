/**
 * The six scenarios that pin the manager's page counts, each as a method that
 * sets up the collaborators' answers, builds on a fresh manager and returns
 * the page count; the ensures clause is the count each scenario expects.
 */
module OnboardingPageManagerTest {
  import opened Onboarding
  import opened PageManager

  /** Builds once on a fresh manager with the given answers and reports the page count. */
  method BuildAndCount(facts: OnboardingFacts) returns (count: int)
    ensures count == |Plan(facts)|
    ensures 1 <= count <= 2
  {
    var testee := new OnboardingPageManager();
    testee.BuildPageBlueprints(facts);
    count := testee.PageCount();
  }

  method WhenDdgIsNotDefaultBrowserThenExpectedOnboardingPagesAreTwo() returns (count: int)
    ensures count == 2
  {
    count := BuildAndCount(OnboardingFacts(true, false, 0));
  }

  method WhenDdgIsNotDefaultBrowserAndBrowserDialogVariantThenExpectedOnboardingPagesAre1() returns (count: int)
    ensures count == 1
  {
    count := BuildAndCount(OnboardingFacts(true, false, 1));
  }

  method WhenDdgAsDefaultBrowserThenSinglePageOnBoarding() returns (count: int)
    ensures count == 1
  {
    count := BuildAndCount(OnboardingFacts(true, true, 0));
  }

  method WhenDdgAsDefaultBrowserAndBrowserDialogVariantThenSinglePageOnBoarding() returns (count: int)
    ensures count == 1
  {
    count := BuildAndCount(OnboardingFacts(true, true, 1));
  }

  /** isDefaultBrowser() is not configured here, so its answer is a parameter: any answer gives one page. */
  method WhenDeviceDoesNotSupportDefaultBrowserThenSinglePageOnBoarding(isDefaultBrowser: bool) returns (count: int)
    ensures count == 1
  {
    count := BuildAndCount(OnboardingFacts(false, isDefaultBrowser, 0));
  }

  /** As above, with the dialog shown once. */
  method WhenDeviceDoesNotSupportDefaultBrowserAndBrowserDialogVariantThenSinglePageOnBoarding(isDefaultBrowser: bool)
    returns (count: int)
    ensures count == 1
  {
    count := BuildAndCount(OnboardingFacts(false, isDefaultBrowser, 1));
  }
}
