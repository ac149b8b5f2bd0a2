# Onboarding page manager

This project models the onboarding page manager of the DuckDuckGo Android browser.
On first launch the manager decides which introductory pages to show.
It reads three facts from its collaborators:

- `DefaultBrowserDetector.deviceSupportsDefaultBrowserConfiguration()`
- `DefaultBrowserDetector.isDefaultBrowser()`
- `AppInstallStore.newDefaultBrowserDialogCount`

`buildPageBlueprints()` stores the pages in the manager. `pageCount()` later reports how many pages were stored.
The manager class itself (`OnboardingPageManagerWithTrackerBlocking`) is not modelled from its code.
Its behaviour is taken from the six test cases in `OnboardingPageManagerTest.kt`.
Those tests pin the page count after one build on a fresh manager.
Two further things the model states are assumptions, not tested behaviour:
which pages are stored and in what order (welcome first, then the promotion page),
and that a rebuild replaces the stored pages rather than adding to them.

- `onboarding.dfy` (module `Onboarding`): the page kinds and the three facts as values. `Plan` is the pure page-selection decision. `PagesAfterBuilds` gives the state a manager reaches after a series of builds. The lemmas state the tested scenarios and how builds follow one another.
- `onboarding_page_manager.dfy` (module `PageManager`): the manager as a class. Its `pages` field is replaced by `BuildPageBlueprints` and read by `PageCount`. A ghost history of builds ties the field to `PagesAfterBuilds`.
- `onboarding_page_manager_test.dfy` (module `OnboardingPageManagerTest`): one method per test case. Each method builds on a fresh manager and returns the page count. Its ensures clause is the count the test asserts.

The collaborators' answers are inputs, an `OnboardingFacts` value passed to `BuildPageBlueprints`.
In the two unsupported-device tests, `isDefaultBrowser()` is never configured.
Those two test methods take that answer as a parameter, so the proof covers both answers.

The tests only use dialog counts 0 and 1.
For counts of 2 or more, the model shows the promotion page only when the count is 0.
That rule is an assumption of the model, not tested behaviour; `ShowsDefaultBrowserPage` says so in its comment.

## Model

| member | source | states |
|---|---|---|
| Onboarding.Plan | app/src/androidTest/java/com/duckduckgo/app/onboarding/ui/OnboardingPageManagerTest.kt:39-101 | every build yields one or two pages: the welcome page first, and the default-browser promotion as the only possible second page (the tests fix only the count; the order is an assumption) |
| Onboarding.NotDefaultBrowserNoDialogGivesTwoPages | app/src/androidTest/java/com/duckduckgo/app/onboarding/ui/OnboardingPageManagerTest.kt:40-48 | device supports configuration, app not default, dialog count 0: two pages, welcome then promotion |
| Onboarding.NotDefaultBrowserDialogShownGivesOnePage | app/src/androidTest/java/com/duckduckgo/app/onboarding/ui/OnboardingPageManagerTest.kt:51-59 | device supports configuration, app not default, dialog count 1: the welcome page only |
| Onboarding.DefaultBrowserGivesOnePage | app/src/androidTest/java/com/duckduckgo/app/onboarding/ui/OnboardingPageManagerTest.kt:62-81 | device supports configuration and app is the default, dialog count 0 or 1: the welcome page only |
| Onboarding.UnsupportedDeviceGivesOnePage | app/src/androidTest/java/com/duckduckgo/app/onboarding/ui/OnboardingPageManagerTest.kt:84-101 | device without default-browser configuration, dialog count 0 or 1: the welcome page only, whatever the default-browser status |
| Onboarding.UnsupportedDeviceIgnoresDefaultBrowserStatus | app/src/androidTest/java/com/duckduckgo/app/onboarding/ui/OnboardingPageManagerTest.kt:84-91 | without device support, two fact sets that differ only in the default-browser status give the same plan (the test leaves that status unconfigured) |
| Onboarding.LastBuildWins | app/src/androidTest/java/com/duckduckgo/app/onboarding/ui/OnboardingPageManagerTest.kt:45-47 | after any non-empty series of builds, the stored pages are exactly the plan of the last build, whatever was stored before (replacement on rebuild is an assumption; the tests build once) |
| Onboarding.PageCountAfterBuildIsOneOrTwo | app/src/androidTest/java/com/duckduckgo/app/onboarding/ui/OnboardingPageManagerTest.kt:39-101 | after at least one build the page count is 1 or 2, never 0, and the first page is the welcome page |
| Onboarding.RebuildIsIdempotent | app/src/androidTest/java/com/duckduckgo/app/onboarding/ui/OnboardingPageManagerTest.kt:45-47 | building twice with unchanged facts leaves the same pages as building once (rests on the replacement assumption) |
| PageManager.OnboardingPageManager.constructor | app/src/androidTest/java/com/duckduckgo/app/onboarding/ui/OnboardingPageManagerTest.kt:34-37 | a fresh manager has no builds in its history, stores no pages (so `pageCount()` is 0, the model's choice) and satisfies its invariant |
| PageManager.OnboardingPageManager.BuildPageBlueprints | app/src/androidTest/java/com/duckduckgo/app/onboarding/ui/OnboardingPageManagerTest.kt:45 | replaces the stored pages by the plan for the facts read and appends those facts to the build history, keeping the invariant |
| PageManager.OnboardingPageManager.PageCount | app/src/androidTest/java/com/duckduckgo/app/onboarding/ui/OnboardingPageManagerTest.kt:47 | reports the number of stored pages; after any build this is the length of the latest build's plan, 1 or 2 |
| OnboardingPageManagerTest.BuildAndCount | app/src/androidTest/java/com/duckduckgo/app/onboarding/ui/OnboardingPageManagerTest.kt:34-47 | on a fresh manager, one build followed by pageCount() reports the length of the plan for those facts, 1 or 2 |
| OnboardingPageManagerTest.WhenDdgIsNotDefaultBrowserThenExpectedOnboardingPagesAreTwo | app/src/androidTest/java/com/duckduckgo/app/onboarding/ui/OnboardingPageManagerTest.kt:39-48 | supported device, not default, dialog count 0: the page count is 2 |
| OnboardingPageManagerTest.WhenDdgIsNotDefaultBrowserAndBrowserDialogVariantThenExpectedOnboardingPagesAre1 | app/src/androidTest/java/com/duckduckgo/app/onboarding/ui/OnboardingPageManagerTest.kt:50-59 | supported device, not default, dialog count 1: the page count is 1 |
| OnboardingPageManagerTest.WhenDdgAsDefaultBrowserThenSinglePageOnBoarding | app/src/androidTest/java/com/duckduckgo/app/onboarding/ui/OnboardingPageManagerTest.kt:61-70 | supported device, app is default, dialog count 0: the page count is 1 |
| OnboardingPageManagerTest.WhenDdgAsDefaultBrowserAndBrowserDialogVariantThenSinglePageOnBoarding | app/src/androidTest/java/com/duckduckgo/app/onboarding/ui/OnboardingPageManagerTest.kt:72-81 | supported device, app is default, dialog count 1: the page count is 1 |
| OnboardingPageManagerTest.WhenDeviceDoesNotSupportDefaultBrowserThenSinglePageOnBoarding | app/src/androidTest/java/com/duckduckgo/app/onboarding/ui/OnboardingPageManagerTest.kt:83-91 | unsupported device, dialog count 0: the page count is 1 for either default-browser answer |
| OnboardingPageManagerTest.WhenDeviceDoesNotSupportDefaultBrowserAndBrowserDialogVariantThenSinglePageOnBoarding | app/src/androidTest/java/com/duckduckgo/app/onboarding/ui/OnboardingPageManagerTest.kt:93-101 | unsupported device, dialog count 1: the page count is 1 for either default-browser answer |

## Left out

- Page blueprints: `OnboardingPageBuilder` is a mock, and what it builds for each page kind is not visible. Page kinds are an enumeration, and the stored pages are page kinds.
- Platform detection in `DefaultBrowserDetector` and persistence in `AppInstallStore` are foreign collaborators. Their answers are the fields of `OnboardingFacts`.
- Onboarding.Plan: for dialog counts of 2 or more it assumes the promotion page is not shown. No test covers these counts, and no lemma states them.
- Dialog count: the source exposes a Kotlin `Int`. The model uses `nat`, so negative counts are not modelled.
- `pageCount()` before any build: it is 0 in the model, because the constructor stores no pages. This is the model's choice, and no test queries it.
- The test plumbing (mock creation, stubbing, `@Before`) becomes plain construction and parameters.
- Onboarding.Plan: the tests fix only the number of pages. That the welcome page comes first and the promotion page second is an assumption of the model.
- Onboarding.LastBuildWins: every test builds once on a fresh manager. That a rebuild replaces the stored pages, rather than adding to them, is an assumption of the model.
- Onboarding.RebuildIsIdempotent: follows from the replacement assumption above, which no test exercises.
- Any other operations of the manager are not part of this model.
