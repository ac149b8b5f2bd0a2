/**
 * The onboarding page manager: buildPageBlueprints() stores the pages to
 * show in the object, and pageCount() later reports how many it stored.
 */
module PageManager {
  import opened Onboarding

  class OnboardingPageManager {
    // the pages stored by the latest build
    var pages: seq<PageKind>
    // the facts of every build so far, in call order
    ghost var builds: seq<OnboardingFacts>

    /** The stored pages are what the series of builds so far leaves behind. */
    ghost predicate Valid()
      reads this
    {
      pages == PagesAfterBuilds([], builds)
    }

    /** A fresh manager has not built anything yet and holds no pages (a choice of this model). */
    constructor ()
      ensures Valid() && builds == [] && pages == []
    {
      pages := [];
      builds := [];
    }

    /** Reads the facts and replaces the stored pages by the plan for them. */
    method BuildPageBlueprints(facts: OnboardingFacts)
      requires Valid()
      modifies this
      ensures Valid()
      ensures builds == old(builds) + [facts]
      ensures pages == Plan(facts)
    {
      pages := Plan(facts);
      builds := builds + [facts];
      LastBuildWins([], builds);
    }

    /** The number of pages the latest build stored: one or two once anything was built. */
    method PageCount() returns (count: int)
      requires Valid()
      ensures count == |pages|
      ensures builds != [] ==> count == |Plan(builds[|builds| - 1])|
      ensures builds != [] ==> 1 <= count <= 2
    {
      count := |pages|;
      if builds != [] {
        LastBuildWins([], builds);
      }
    }
  }
}
