/**
 * The onboarding decision of the browser's first-run flow: which introductory
 * pages to show, given what the default-browser detector and the install
 * store report, and what a page manager holds after a series of builds.
 */
module Onboarding {

  /** The kinds of onboarding page; what the page builder makes of each is not modelled. */
  datatype PageKind = Welcome | DefaultBrowserPromotion

  /**
   * The three facts the manager reads from its collaborators when it builds:
   * DefaultBrowserDetector.deviceSupportsDefaultBrowserConfiguration(),
   * DefaultBrowserDetector.isDefaultBrowser() and
   * AppInstallStore.newDefaultBrowserDialogCount.
   */
  datatype OnboardingFacts = OnboardingFacts(
    deviceSupportsDefaultBrowserConfiguration: bool,
    isDefaultBrowser: bool,
    newDefaultBrowserDialogCount: nat)

  /**
   * The promotion page is shown only on a device that lets the user pick a
   * default browser, when this app is not the default yet, and while the
   * new-default-browser dialog has never been shown.
   * Counts 0 and 1 are the tested ones; that every count of 2 or more behaves
   * like 1 is an assumption of this model, not tested behaviour.
   */
  predicate ShowsDefaultBrowserPage(f: OnboardingFacts)
  {
    f.deviceSupportsDefaultBrowserConfiguration
    && !f.isDefaultBrowser
    && f.newDefaultBrowserDialogCount == 0
  }

  /**
   * The ordered onboarding pages built for the given facts.
   * The scenarios fix only how many pages there are; that the welcome page
   * comes first and the promotion page second is an assumption of this model.
   */
  function Plan(f: OnboardingFacts): (r: seq<PageKind>)
    ensures 1 <= |r| <= 2
    ensures r[0] == Welcome
    ensures forall i :: 1 <= i < |r| ==> r[i] == DefaultBrowserPromotion
  {
    if ShowsDefaultBrowserPage(f) then [Welcome, DefaultBrowserPromotion] else [Welcome]
  }

  /**
   * The pages a manager holds after it started with `current` and then ran
   * one build per element of `builds`, in order.
   */
  function PagesAfterBuilds(current: seq<PageKind>, builds: seq<OnboardingFacts>): seq<PageKind>
    decreases |builds|
  {
    if builds == [] then current else PagesAfterBuilds(Plan(builds[0]), builds[1..])
  }

  /** Device supports configuration, app not default, dialog never shown: two pages. */
  lemma NotDefaultBrowserNoDialogGivesTwoPages(f: OnboardingFacts)
    requires f.deviceSupportsDefaultBrowserConfiguration && !f.isDefaultBrowser
    requires f.newDefaultBrowserDialogCount == 0
    ensures Plan(f) == [Welcome, DefaultBrowserPromotion]
  {
  }

  /** Device supports configuration, app not default, dialog shown once: one page. */
  lemma NotDefaultBrowserDialogShownGivesOnePage(f: OnboardingFacts)
    requires f.deviceSupportsDefaultBrowserConfiguration && !f.isDefaultBrowser
    requires f.newDefaultBrowserDialogCount == 1
    ensures Plan(f) == [Welcome]
  {
  }

  /** Device supports configuration and the app is already the default: one page, dialog count 0 or 1. */
  lemma DefaultBrowserGivesOnePage(f: OnboardingFacts)
    requires f.deviceSupportsDefaultBrowserConfiguration && f.isDefaultBrowser
    requires f.newDefaultBrowserDialogCount <= 1
    ensures Plan(f) == [Welcome]
  {
  }

  /** Device without default-browser configuration: one page, dialog count 0 or 1, whatever isDefaultBrowser says. */
  lemma UnsupportedDeviceGivesOnePage(f: OnboardingFacts)
    requires !f.deviceSupportsDefaultBrowserConfiguration
    requires f.newDefaultBrowserDialogCount <= 1
    ensures Plan(f) == [Welcome]
  {
  }

  /**
   * On a device without default-browser configuration the default-browser
   * status does not matter: two fact sets that differ only there give the same plan.
   */
  lemma UnsupportedDeviceIgnoresDefaultBrowserStatus(f: OnboardingFacts, g: OnboardingFacts)
    requires !f.deviceSupportsDefaultBrowserConfiguration && !g.deviceSupportsDefaultBrowserConfiguration
    requires f.newDefaultBrowserDialogCount == g.newDefaultBrowserDialogCount
    ensures Plan(f) == Plan(g)
  {
  }

  /**
   * Whatever the manager held before, after at least one build it holds
   * exactly the plan of the last build: earlier builds leave nothing behind.
   * That a rebuild replaces the stored pages rather than adding to them is an
   * assumption of this model: every scenario builds once on a fresh manager.
   */
  lemma {:induction false} LastBuildWins(current: seq<PageKind>, builds: seq<OnboardingFacts>)
    requires builds != []
    ensures PagesAfterBuilds(current, builds) == Plan(builds[|builds| - 1])
    decreases |builds|
  {
    if |builds| > 1 {
      LastBuildWins(Plan(builds[0]), builds[1..]);
      assert builds[1..][|builds[1..]| - 1] == builds[|builds| - 1];
    }
  }

  /** After any non-empty series of builds the manager holds one or two pages, the first the welcome page. */
  lemma PageCountAfterBuildIsOneOrTwo(current: seq<PageKind>, builds: seq<OnboardingFacts>)
    requires builds != []
    ensures 1 <= |PagesAfterBuilds(current, builds)| <= 2
    ensures PagesAfterBuilds(current, builds)[0] == Welcome
  {
    LastBuildWins(current, builds);
  }

  /** Building a second time with unchanged facts leaves the manager as one build did (rests on the replacement assumption above). */
  lemma RebuildIsIdempotent(current: seq<PageKind>, builds: seq<OnboardingFacts>, f: OnboardingFacts)
    ensures PagesAfterBuilds(current, builds + [f, f]) == PagesAfterBuilds(current, builds + [f])
  {
    LastBuildWins(current, builds + [f, f]);
    LastBuildWins(current, builds + [f]);
  }
}
