# Budget app landing page: a verified model of its logic

This repository is the landing page of an iOS budgeting app: a single React
component (`src/App.jsx`) and a small utility module (`src/utils.js`). This
project models in Dafny the logic that goes beyond presentation. The money
formatter and the copyright year are not modelled (see "Left out").

- **The transaction labeller** (`aiCategorize` in `src/utils.js`). This is a
  separate utility that the page itself does not call: the sample rows shown
  in the phone mock-up are fixed text. The labeller lower-cases a
  transaction's description, where a missing or falsy description counts as
  `""`. It then tries six keyword rules in a fixed order: Transport,
  Groceries, Dining, Entertainment, Shopping, Rent. The first rule with a hit
  names the label, and a description no rule hits is `Other`.
  - Module `Classifier` holds the rule table, the classifier and the
    first-match-wins theory for any ordered rule list.
  - Module `ClassifierFacts` states what the six concrete rules promise.
  - Module `ClassifierExamples` works through descriptions such as the
    sample rows the page displays, and a few edge cases.
  - Module `Text` supplies ASCII lower-casing, substring search, the
    JavaScript `\s` class and the `left\s?right` search used by
    `whole\s?foods` and `trader\s?joe`.
- **The theme hook** (`useTheme`). This is a class `App.ThemeHook` with three
  fields: the theme, the value kept in storage, and the document's
  `data-theme` attribute.
  - The stored string `dark`, and only that string, starts the page dark.
  - Each press of the toggle flips the theme.
  - The storage effect then copies the theme to storage and to the attribute.
  - The invariant `Valid()`: the theme is `light` or `dark`, and storage and
    the attribute both equal it.
- **The store buttons** (`goToStore`). This is a pure decision that returns a
  `StoreAction`:
  - the header button gives "scroll to the download section, then redirect
    to the store after 600 ms";
  - every other origin gives "redirect now".
- **The screenshot preview** (`onFileChange`). This is a class
  `App.ScreenPreview` with the preview URL as its field. An input event that
  carries no file leaves the preview as it was.

Matching is by substring, as in the page's regular expressions, so
`Business` is labelled `Transport` because it contains `bus`. The model
keeps this behaviour.

The storage effect runs after the theme changes, not at the same instant.
The class models this with a `Mirror` method that `Toggle` and the
constructor call last. So before the first effect, storage still holds
whatever was stored, and that may be a value other than `light` or `dark`.

## Model

| member | source | states |
|---|---|---|
| Text.LowerChar | src/utils.js:4 | `toLowerCase` on one character: an ASCII capital moves to its small letter and every other character is unchanged |
| Text.Lower | src/utils.js:4 | lower-casing keeps the length, lower-cases the character at every position, and leaves no ASCII capital |
| Text.LowerIdempotent | src/utils.js:4 | lower-casing twice is the same as lower-casing once |
| Text.IsSpace | src/utils.js:6 | definition only: the characters JavaScript's `\s` matches, the ECMAScript WhiteSpace and LineTerminator code points |
| Text.Contains | src/utils.js:5-10 | definition only: a literal keyword is found when it occurs at some position of the text, which is what a regular expression made of that literal finds with `test` |
| Text.GapAt | src/utils.js:6 | definition only: `left\s?right` matches at a position when the words touch there or exactly one `\s` character separates them |
| Text.ContainsGap | src/utils.js:6 | definition only: `left\s?right` matches at some position of the text |
| Text.AbsentChar | src/utils.js:5-10 | a keyword holding a character the text lacks is not a substring of it |
| Text.SkipPrefix | src/utils.js:5 | when a prefix lacks a keyword's first letter, any hit in the whole text is a hit in the rest |
| Text.GapHasWords | src/utils.js:6 | a match of `left\s?right` contains a match of each word |
| Text.GapMatchesJoined | src/utils.js:6 | `left\s?right` matches wherever the two words touch |
| Text.GapMatchesSpaced | src/utils.js:6 | `left\s?right` matches wherever one whitespace character separates the two words |
| Classifier.Category.Name | src/utils.js:5-11 | a label's string is one of the seven the function returns, and it is `"Other"` exactly for `Other` |
| Classifier.NamesDistinct | src/utils.js:5-11 | two labels have the same string exactly when they are the same label |
| Classifier.Rules | src/utils.js:5-10 | definition only: the six rules in the order they are tried, each keyword and word pair copied from its regular expression, with the label it returns |
| Classifier.PatternMatches | src/utils.js:5-10 | definition only: one alternative of a rule's regular expression, a literal keyword or a `left\s?right` pair, matches the text |
| Classifier.RuleMatches | src/utils.js:5-10 | definition only: a rule's regular expression matches when one of its alternatives does |
| Classifier.FirstMatch | src/utils.js:5-11 | the rules are tried in order; a result other than `Other` is always the label of a rule that matches the text |
| Classifier.Classify | src/utils.js:4-11 | the lower-cased description, `""` when missing, goes through the six rules; a label other than `Other` belongs to one of the six rules, and that rule matches |
| Classifier.AiCategorize | src/utils.js:3-12 | every description gets one of the seven label strings, and the string is `"Other"` exactly when the classifier falls back |
| Classifier.FirstMatchEarliest | src/utils.js:5-11 | for any ordered rule list, the earliest rule that matches decides the label |
| Classifier.FirstMatchFallback | src/utils.js:11 | when no rule matches, the label is `Other` |
| Classifier.MatchCases | src/utils.js:5-11 | either no rule matches or some rule is the earliest match, so the two lemmas above cover every input |
| Classifier.ExcludedMisses | src/utils.js:5-10 | a rule misses a text when each of its patterns has a letter the text lacks |
| Classifier.ShortMisses | src/utils.js:5-10 | a rule misses any text shorter than all of its patterns |
| ClassifierFacts.RuleIndexOfRule | src/utils.js:5-10 | the rule table (`Classifier.Rules`, with its keywords copied one by one from the six regular expressions) carries six distinct labels in the source's order, none of them `Other` |
| ClassifierFacts.ClassifyPrecedence | src/utils.js:5-10 | the label of rule k is returned exactly when rule k matches and no earlier rule does |
| ClassifierFacts.ClassifyFallback | src/utils.js:11 | `Other` is returned exactly when no rule matches |
| ClassifierFacts.TransportWins | src/utils.js:5 | `Transport` is returned exactly when the text contains `uber`, `lyft`, `metro` or `bus`, whatever else it holds |
| ClassifierFacts.GroceriesUnlessTransport | src/utils.js:6 | `Groceries` is returned exactly when no transport keyword occurs and a grocery pattern matches, whatever later keyword the text also holds |
| ClassifierFacts.RentIsLastResort | src/utils.js:10-11 | `Rent` is returned exactly when none of the five earlier rules matches and the text contains `rent` or `landlord` |
| ClassifierFacts.ShortTextMatchesNoRule | src/utils.js:5-10 | no rule matches a text shorter than three characters, because every keyword has at least three |
| ClassifierFacts.ShortDescriptionIsOther | src/utils.js:4-11 | a description of fewer than three characters is `Other`, because every keyword has at least three |
| ClassifierFacts.MissingOrEmptyIsOther | src/utils.js:4 | a missing description and an empty one are both `Other` |
| ClassifierFacts.IgnoresCase | src/utils.js:4 | a description and its lower-cased form get the same label |
| ClassifierFacts.WholeFoodsSpellings | src/utils.js:6 | `whole\s?foods` matches `wholefoods` and `whole` + any one whitespace character + `foods`, anywhere in the text |
| ClassifierExamples.UberTrip | src/utils.js:5 | `Uber Trip` is `Transport` |
| ClassifierExamples.BusinessIsTransport | src/utils.js:5 | `Business` is `Transport`, because the keyword `bus` is matched as a substring |
| ClassifierExamples.WholeFoodsMarket | src/utils.js:5-6 | `Whole Foods Market` is `Groceries`, although every letter of `metro` occurs in it |
| ClassifierExamples.TwoSpacesMissWholeFoods | src/utils.js:6 | `whole\s?foods` does not match `whole  foods` with two spaces |
| ClassifierExamples.WholeTwoSpacesFoods | src/utils.js:5-11 | `Whole  Foods` with two spaces is `Other` |
| ClassifierExamples.Spotify | src/utils.js:5-8 | `Spotify` is `Entertainment`: no transport, grocery or dining keyword occurs in it |
| ClassifierExamples.AldiRent | src/utils.js:5-10 | `Aldi Rent` is `Groceries`: the grocery rule outranks the rent rule |
| ClassifierExamples.RentPayment | src/utils.js:5-10 | `Rent Payment` is `Rent` |
| ClassifierExamples.DirectDeposit | src/utils.js:5-11 | `Direct Deposit` is `Other` |
| App.InitialTheme | src/App.jsx:10-14 | the first theme is always `light` or `dark`, and it is `dark` exactly when the stored value is the string `dark` |
| App.ReloadKeepsTheme | src/App.jsx:13-18 | a theme written to storage is the theme the next visit starts with |
| App.ToggleValue | src/App.jsx:21 | the toggle gives `dark` exactly from `light`, always yields `light` or `dark`, and changes every valid theme |
| App.ToggleParity | src/App.jsx:21 | after n presses the theme is the original when n is even and the flipped one when n is odd |
| App.ToggleTwice | src/App.jsx:21 | two presses restore the theme |
| App.ThemeHook.constructor | src/App.jsx:10-19 | mounting starts from the stored value and leaves the theme valid and mirrored in storage and the attribute |
| App.ThemeHook.Mirror | src/App.jsx:16-19 | the effect copies the unchanged theme to storage and to the `data-theme` attribute |
| App.ThemeHook.Toggle | src/App.jsx:16-21 | a press flips the theme and keeps the invariant, so storage equals the new theme |
| App.GoToStore | src/App.jsx:42-54 | every press leads to the store URL; it scrolls to the download section and waits 600 ms exactly when the origin is `header` |
| App.OtherOriginsRedirectNow | src/App.jsx:42-53 | every origin other than `header` redirects at once, just as an omitted one does |
| App.FirstFile | src/App.jsx:34 | the chosen file is absent exactly when the input gives no file list or an empty one; otherwise it is the first file |
| App.ScreenPreview.constructor | src/App.jsx:29 | the preview starts with no screenshot |
| App.ScreenPreview.OnFileChange | src/App.jsx:33-38 | with no file chosen the preview is unchanged; otherwise it shows the object URL of the first file |

## Left out

- `fmtMoney` (src/utils.js:1) is not modelled. It relies on floating-point `Math.abs` and `toFixed(2)` rounding.
- The JSX markup and rendering are not modelled. They are presentation only.
- `new Date().getFullYear()` is not modelled, because it depends on the clock.
- `vite.config.js` is not modelled. It is build configuration.
- The static page markup (`index.html`) is not part of this model. So the `data-theme` attribute starts as absent rather than as any value written in that markup.
- `onPickScreenshot` only forwards a click to the hidden file input, so it is not modelled.
- Text.LowerChar: lower-cases ASCII letters only. Unicode case mappings are out of scope, including those that change a string's length.
- Text.Lower: lower-cases ASCII letters only, for the same reason as `Text.LowerChar`.
- Classifier.AiCategorize: models each regular expression as substring tests plus the `left\s?right` form. That is all the six rules use, but the model is not a general regular-expression engine.
- Classifier.AiCategorize: models a description as a string or as missing. Three other inputs are not modelled:
  - a falsy non-string description (`0`, `false`, `NaN`) becomes `""` as a missing one does, so it behaves as `None`;
  - a truthy non-string description (a number or an object) makes `toLowerCase` throw a `TypeError`;
  - a missing row (`aiCategorize(undefined)`) throws when `row.description` is read.
- Storage and the document attribute are fields of `App.ThemeHook`, not browser I/O.
  - Storage changed from another tab is not modelled.
  - A storage call that throws is not modelled.
  - The `typeof window` test becomes a `None` stored value.
- `URL.createObjectURL` becomes the parameter `createObjectUrl` of `App.ScreenPreview.OnFileChange`. Object URLs are never revoked on the page, and that leak is not modelled.
- `scrollIntoView`, `setTimeout` and the assignment to `window.location.href` are modelled only as the `App.StoreAction` they are decided from.
  - The timer's execution is not modelled.
  - The navigation itself is not modelled.
  - A missing download section is not modelled. The page then skips the scroll but still redirects.
- React's scheduling is modelled only as "the effect runs after the state change". Batching and re-renders are not modelled.
