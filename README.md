# Portfolio core, modelled in Dafny

A bilingual single-page portfolio built with React, Three.js and GSAP. This
project models the parts of it that decide what the page shows and how its
state changes:

- **LanguageContext** and the translation table. `t(key)` walks a
  dot-separated key through the table of the current language and falls back
  to the key itself. The provider keeps the language in state, in
  `localStorage` and in the document's `lang` attribute.
- **BackToTop3D**: the coin button. Its right offset follows the container's
  breakpoints. It is visible past 300 px of scroll. Its renderer has two sizes.
  Enter and Space activate it. Its angle follows the pointer by linear
  interpolation while hovered and swings with the clock while idle.
- **WebGLBackground**: the particle field. Particle counts and pixel ratio go
  by tier. The position and colour buffers are filled from random numbers. The
  connection builder links each particle to at most three later near ones and
  pushes their segments into the line buffers. The frame loop rotates the cloud
  and wobbles particles vertically.
- **Contact**: the form. Field edits, the simulated submission and its two
  timers, the submit button's state, and the success alert.
- **MobileMenu**: the open/closed state, the effect that locks page scrolling
  while the menu is open, the section links and their scroll target, and the
  hamburger button's ARIA attributes.
- **Button**: the class list built by filtering falsy entries and joining the
  rest with spaces, and the choice between rendering a link and a button.
- **vite.config.js**: `manualChunks`, which sorts every `node_modules` module
  into one of five vendor chunks by the first substring it contains.

Each source file is one Dafny module. Code that computes a value is modelled
as functions with lemmas. State that handlers and effects update becomes a
class whose methods state the new state in their `ensures` clauses. Those
classes are `LanguageContext.LanguageProvider`, `BackToTop3D.BackToTop`,
`Contact.ContactForm` and `MobileMenu.Menu`. Loops over buffers become
methods with loop invariants, proved against a specification function: `T`,
`InitParticles`, `BuildConnections`, `LinkParticle` and `AnimateFrame`. Two
helper modules are shared: `Wrappers` (Option, Result) and `Strings`
(JavaScript's `split`, `join` and `includes`).

The browser, the DOM, `localStorage`, the clock, `Math.random` and `Math.sin`
are inputs. A looked-up element is an `Option`, a stored value is an `Option`,
random numbers are a sequence, and the sine of the clock is a number per frame.
Timer callbacks are events that the environment fires.

Two facts about the code are easy to miss:

- The first mobile-menu link, for the `hero` section, is labelled
  `t('nav.home')`.
- The coin's click spin is a tween of `rotation.y`. An animation frame resets
  `rotation.y` to 0 only while the coin is visible and idle, or hovered; a
  frame with the coin hidden and not hovered leaves it alone (see "Left out").

## Model

| member | source | states |
|---|---|---|
| Strings.Split | src/contexts/LanguageContext.jsx:30 | `key.split('.')` yields at least one piece, and no piece contains the separator |
| Strings.SplitJoin | src/contexts/LanguageContext.jsx:30 | splitting a join of separator-free words gives back exactly those words |
| Strings.JoinSplit | src/contexts/LanguageContext.jsx:30 | joining the pieces of a split gives back the original string |
| Strings.JoinStartsWithHead | src/components/Button/Button.jsx:24 | a join begins with its first word |
| Strings.ContainsIffOccurs | vite.config.js:23 | `includes` holds exactly when the substring occurs at some position |
| Strings.OccurrenceGivesContains | vite.config.js:23 | a substring found at a position makes `includes` true |
| Strings.ContainsPrefixOfNeedle | vite.config.js:24 | a string that includes `a + b` includes `a` |
| Translations.SixSectionsPerLanguage | src/data/translations.js:1-90 | the table has exactly the languages pt and en, each with the sections nav, hero, about, projects, skills and contact |
| Translations.SectionKeySetsAgree | src/data/translations.js:3-88 | every section has the same entry names in both languages |
| Translations.ContactKeys | src/data/translations.js:35-44 | the contact section's entries are title, name, email, message, send, sending, success and error |
| Translations.TableIsTwoLevel | src/data/translations.js:1-90 | both language tables are section → non-empty string, with dot-free names and no arrays |
| Translations.TwoLevelIsArrayFree | src/data/translations.js:1-90 | a two-level table holds no array, so the resolver's index step never applies to it |
| Translations.NoFooterOrBackToTop | src/data/translations.js:1-90 | neither language has a footer or a backToTop section |
| Translations.SharedStrings | src/data/translations.js:11-65 | the name, phone and e-mail are the same in both languages, and the subtitle differs |
| LanguageContext.Translate | src/contexts/LanguageContext.jsx:29-49 | `t(key)` returns the key itself or a truthy value, never a falsy one |
| LanguageContext.T | src/contexts/LanguageContext.jsx:29-49 | the loop with early returns computes the same value as the recursive walk `Translate` |
| LanguageContext.WalkFollowsPath | src/contexts/LanguageContext.jsx:33-46 | after following a prefix of the keys through objects, the walk continues from the object reached |
| LanguageContext.PresentPathResolves | src/contexts/LanguageContext.jsx:38-48 | when every segment names an existing property and the walk ends on a non-empty string, `t` returns that string |
| LanguageContext.MissingSegmentFallsBack | src/contexts/LanguageContext.jsx:40-41 | a segment absent from the object reached so far makes `t` return the key |
| LanguageContext.NonObjectFallsBack | src/contexts/LanguageContext.jsx:34-44 | more segments after a string or `undefined` make `t` return the key |
| LanguageContext.FalsyEndFallsBack | src/contexts/LanguageContext.jsx:48 | a falsy final value makes `t` return the key |
| LanguageContext.ArrayIndexOutOfRangeFallsBack | src/contexts/LanguageContext.jsx:36-48 | a last digit segment past the end of an array reads `undefined`, so `t` returns the key |
| LanguageContext.ObjectEndIsReturned | src/contexts/LanguageContext.jsx:48 | a path that ends on an object returns the object, not the key |
| LanguageContext.UnknownLanguageFallsBack | src/contexts/LanguageContext.jsx:31-44 | with no table for the language (looked up as an own key), every key resolves to itself |
| LanguageContext.TwoLevelResolution | src/contexts/LanguageContext.jsx:29-49 | over a two-level table: one segment gives the section or the key; two segments give the string or the key; three or more give the key |
| LanguageContext.ShippedTwoSegmentKeysResolve | src/contexts/LanguageContext.jsx:29-49 | every `section.entry` of the shipped table resolves to its non-empty string in both languages |
| LanguageContext.ShippedDeepKeysFallBack | src/contexts/LanguageContext.jsx:43-44 | keys of three or more segments resolve to themselves in the shipped table |
| LanguageContext.ShippedUnknownSectionFallsBack | src/contexts/LanguageContext.jsx:40-41 | a first segment that names no section resolves to the key |
| LanguageContext.FooterKeyFallsBack | src/contexts/LanguageContext.jsx:40-41 | `t('footer.copyright')` shows the key as typed, in both languages |
| LanguageContext.BackToTopKeyFallsBack | src/contexts/LanguageContext.jsx:40-41 | `t('backToTop.label')` shows the key as typed, in both languages |
| LanguageContext.SectionKeyGivesSection | src/contexts/LanguageContext.jsx:48 | `t('nav')` returns the whole navigation section object |
| LanguageContext.PastLeafGivesKey | src/contexts/LanguageContext.jsx:43-44 | `t('nav.home.x')` descends past a string and returns the key |
| LanguageContext.InitialLanguage | src/contexts/LanguageContext.jsx:15-18 | the stored value when it is non-empty, otherwise `'pt'`; never empty |
| LanguageContext.Toggled | src/contexts/LanguageContext.jsx:25-27 | `'pt'` becomes `'en'`, anything else becomes `'pt'` |
| LanguageContext.DocumentLang | src/contexts/LanguageContext.jsx:21 | `pt-BR` exactly for `'pt'`, otherwise `en` |
| LanguageContext.ToggleTwice | src/contexts/LanguageContext.jsx:25-27 | two toggles restore pt or en, and turn any other language into en |
| LanguageContext.ReloadRestoresLanguage | src/contexts/LanguageContext.jsx:15-23 | reloading from the stored language gives back that language |
| LanguageContext.ToggleThenReload | src/contexts/LanguageContext.jsx:15-27 | a toggle followed by a reload yields the other of the two languages |
| LanguageContext.LanguageProvider.constructor | src/contexts/LanguageContext.jsx:15-23 | mount: the initial language, already written to storage and to the document |
| LanguageContext.LanguageProvider.ToggleLanguage | src/contexts/LanguageContext.jsx:20-27 | the language becomes the toggle of the old one, and storage and document follow it |
| LanguageContext.UseLanguage | src/contexts/LanguageContext.jsx:6-12 | fails exactly when there is no provider, with the source's message; otherwise returns the provider's value |
| BackToTop3D.Padding | src/components/BackToTop3D/BackToTop3D.jsx:31-35 | one of 5, 10, 20, 30 or 50; 50 exactly from 1280 px; 5 exactly below 640 px |
| BackToTop3D.PaddingMonotone | src/components/BackToTop3D/BackToTop3D.jsx:31-35 | a wider viewport never has a smaller padding |
| BackToTop3D.RightOffset | src/components/BackToTop3D/BackToTop3D.jsx:26-44 | the padding up to 1440 px, and more than the padding beyond it; never below 5 |
| BackToTop3D.RightOffsetMonotone | src/components/BackToTop3D/BackToTop3D.jsx:26-44 | a wider viewport never gives a smaller offset |
| BackToTop3D.RightOffsetContinuousAtMaxWidth | src/components/BackToTop3D/BackToTop3D.jsx:38-40 | past 1440 px the offset grows from its value at 1440 by half the extra width, with no jump |
| BackToTop3D.ScrollPosition | src/components/BackToTop3D/BackToTop3D.jsx:54 | `scrollY` unless it is 0, then `pageYOffset` |
| BackToTop3D.ResizedRendererSize | src/components/BackToTop3D/BackToTop3D.jsx:252 | 200 px exactly from 1024 px wide, else 160 px |
| BackToTop3D.PointerX | src/components/BackToTop3D/BackToTop3D.jsx:324-325 | a pointer inside the box maps to [-1, 1], the left edge to -1 and the right edge to 1 |
| BackToTop3D.HoverTargetWithinHalfTurn | src/components/BackToTop3D/BackToTop3D.jsx:325-328 | a pointer inside the box asks for an angle within half a turn either way |
| BackToTop3D.Lerp | src/components/BackToTop3D/BackToTop3D.jsx:237-238 | one hovering frame leaves 0.9 of the gap to the target |
| BackToTop3D.HoverGapShrinks | src/components/BackToTop3D/BackToTop3D.jsx:235-239 | after `n` hovering frames the gap is 0.9ⁿ of the original gap |
| BackToTop3D.PowBetweenZeroAndOne | src/components/BackToTop3D/BackToTop3D.jsx:237-238 | 0.9ⁿ lies in (0, 1] |
| BackToTop3D.HoverNeverOvershoots | src/components/BackToTop3D/BackToTop3D.jsx:235-239 | hovering moves the angle toward the target without ever passing it |
| BackToTop3D.BackToTop.Mount | src/components/BackToTop3D/BackToTop3D.jsx:11-22 | mount: hidden, not hovering, offset for the width, renderer 200 px, coin face forward, both angles 0, within half a turn |
| BackToTop3D.BackToTop.RebuildScene | src/components/BackToTop3D/BackToTop3D.jsx:65-222 | a rebuild after a theme change: renderer 200 px, coin face forward, both angles 0 |
| BackToTop3D.BackToTop.OnWindowResize | src/components/BackToTop3D/BackToTop3D.jsx:250-256 | the offset always follows the width; the renderer size changes only once the scene exists; nothing else changes |
| BackToTop3D.BackToTop.HandleScroll | src/components/BackToTop3D/BackToTop3D.jsx:53-58 | visible exactly past 300 px, and the ref mirrors the state |
| BackToTop3D.BackToTop.HandleMouseMove | src/components/BackToTop3D/BackToTop3D.jsx:321-329 | with a container: hovering, and the target is x·π; without one: nothing changes; a pointer inside the box keeps every angle within half a turn |
| BackToTop3D.BackToTop.HandleMouseLeave | src/components/BackToTop3D/BackToTop3D.jsx:331-334 | not hovering, and the target is back to 0 |
| BackToTop3D.BackToTop.AnimateFrame | src/components/BackToTop3D/BackToTop3D.jsx:225-246 | idle and visible: the coin swings with the clock; hovering: the current angle moves a tenth of the way to the target; otherwise nothing moves; angles stay within half a turn |
| BackToTop3D.BackToTop.HandleClick | src/components/BackToTop3D/BackToTop3D.jsx:305-310 | a scroll to the top is requested |
| BackToTop3D.BackToTop.HandleKeyDown | src/components/BackToTop3D/BackToTop3D.jsx:351-356 | Enter and Space request the scroll; other keys change nothing |
| BackToTop3D.ContainerClass | src/components/BackToTop3D/BackToTop3D.jsx:339 | the hidden modifier exactly while the coin is not visible |
| BackToTop3D.PointerEvents | src/components/BackToTop3D/BackToTop3D.jsx:348 | `auto` exactly while visible, else `none` |
| BackToTop3D.Label | src/components/BackToTop3D/BackToTop3D.jsx:345-346 | the label and title show the key `backToTop.label` itself, in both languages |
| WebGLBackground.ParticleCount | src/components/WebGLBackground/WebGLBackground.jsx:27-39 | 800 exactly on phones, 1200 exactly on tablets, 2000 exactly from 1024 px |
| WebGLBackground.ParticleCountMonotone | src/components/WebGLBackground/WebGLBackground.jsx:39 | a wider screen never gets fewer particles |
| WebGLBackground.PixelRatio | src/components/WebGLBackground/WebGLBackground.jsx:27-35 | 1 on phones; otherwise the device ratio capped at 2 |
| WebGLBackground.Antialias | src/components/WebGLBackground/WebGLBackground.jsx:32 | antialiasing is on exactly from 768 px |
| WebGLBackground.Spread | src/components/WebGLBackground/WebGLBackground.jsx:47-49 | a number in [0, 1) becomes a coordinate in [-10, 10) |
| WebGLBackground.Channel | src/components/WebGLBackground/WebGLBackground.jsx:43-55 | mix 0 gives the first colour and mix 1 the second |
| WebGLBackground.ChannelBetweenEndpoints | src/components/WebGLBackground/WebGLBackground.jsx:51-55 | a mix in [0, 1] keeps every channel between its two endpoints |
| WebGLBackground.InitParticles | src/components/WebGLBackground/WebGLBackground.jsx:40-56 | two fresh buffers of three numbers per particle; particle p's coordinates and colour come from its four random numbers |
| WebGLBackground.InitialPositionsInCube | src/components/WebGLBackground/WebGLBackground.jsx:47-49 | random numbers in [0, 1) put every particle inside the cube [-10, 10)³ |
| WebGLBackground.SqDistNonNegative | src/components/WebGLBackground/WebGLBackground.jsx:86-89 | the squared distance is never negative |
| WebGLBackground.NearIffSquaredBelowFour | src/components/WebGLBackground/WebGLBackground.jsx:89-91 | with a true square root, "distance below 2" is "squared distance below 4" |
| WebGLBackground.OpacityInRange | src/components/WebGLBackground/WebGLBackground.jsx:95 | every line between near particles has an opacity in (0, 1] |
| WebGLBackground.QualifyingIsNearAndSorted | src/components/WebGLBackground/WebGLBackground.jsx:84-91 | the candidates are exactly the near particles after `i`, in increasing order |
| WebGLBackground.Partners | src/components/WebGLBackground/WebGLBackground.jsx:78-84 | a particle has at most three partners |
| WebGLBackground.PartnersAreFirstNear | src/components/WebGLBackground/WebGLBackground.jsx:78-100 | the partners are the first min(3, k) of the k near later particles, in order; a near one is skipped only after three were taken |
| WebGLBackground.ScanFinished | src/components/WebGLBackground/WebGLBackground.jsx:84 | a scan that stopped because candidates ran out or three were found has found exactly the partners |
| WebGLBackground.EdgesAreForwardAndNear | src/components/WebGLBackground/WebGLBackground.jsx:80-91 | every edge emitted for the particles before `n` starts before `n` and goes forward to a particle its distance row calls near |
| WebGLBackground.EdgesJoinNearParticles | src/components/WebGLBackground/WebGLBackground.jsx:80-91 | every connection joins a particle to a later, near one |
| WebGLBackground.EdgesUpToAreLinks | src/components/WebGLBackground/WebGLBackground.jsx:80-101 | the builder's edges are the links of the per-particle partner lists, in order |
| WebGLBackground.LinksFrom | src/components/WebGLBackground/WebGLBackground.jsx:80-101 | the links starting at particle `i` are exactly the pairs to `i`'s list, in order |
| WebGLBackground.AtMostThreeLinksPerParticle | src/components/WebGLBackground/WebGLBackground.jsx:78-98 | no particle starts more than three connections, and the ones it starts go to its partners |
| WebGLBackground.LineBuffers | src/components/WebGLBackground/WebGLBackground.jsx:92-97 | six coordinates and eight colour numbers per edge |
| WebGLBackground.LineBuffersAt | src/components/WebGLBackground/WebGLBackground.jsx:92-97 | edge k owns entries 6k..6k+5 of the positions and 8k..8k+7 of the colours: both endpoints, then the two colours with their opacity |
| WebGLBackground.LineBuffersKeepPrefix | src/components/WebGLBackground/WebGLBackground.jsx:92-97 | pushing a new edge leaves every earlier edge's numbers in place |
| WebGLBackground.BuildConnections | src/components/WebGLBackground/WebGLBackground.jsx:76-103 | the pushed buffers are exactly the segments of all edges, in order; the line object exists exactly when some edge exists |
| WebGLBackground.LinkParticle | src/components/WebGLBackground/WebGLBackground.jsx:81-100 | the inner loop appends exactly the segments to `i`'s partners |
| WebGLBackground.CloudRotation | src/components/WebGLBackground/WebGLBackground.jsx:123-126 | the cloud's rotation at a clock reading: none at time 0, and afterwards positive about both axes, faster about y than about x |
| WebGLBackground.CloudRotationFollowsClock | src/components/WebGLBackground/WebGLBackground.jsx:119-126 | over two frames the rotation is set from the clock, not accumulated: after the second frame it is the rotation for that frame's reading, it has moved by the rotation for the time between the frames, and it never goes back |
| WebGLBackground.PointCloud.constructor | src/components/WebGLBackground/WebGLBackground.jsx:69-70 | the cloud starts unrotated over the initial position buffer |
| WebGLBackground.PointCloud.AnimateFrame | src/components/WebGLBackground/WebGLBackground.jsx:121-131 | a frame sets the cloud's rotation to the rotation for the clock reading; only y coordinates change, each by the particle's wobble times 0.001 |
| Contact.WithField | src/components/Contact/Contact.jsx:33-38 | the named field takes the value; every other field is kept |
| Contact.ChangeKeepsFields | src/components/Contact/Contact.jsx:33-38 | editing one of the three inputs keeps the three fields and changes only the one named |
| Contact.ChangeIdempotent | src/components/Contact/Contact.jsx:33-38 | typing the same value twice is the same as typing it once |
| Contact.ChangesCommute | src/components/Contact/Contact.jsx:33-38 | edits of two different fields commute |
| Contact.ContactForm.constructor | src/components/Contact/Contact.jsx:14-20 | empty form, not submitting, no status, no timers |
| Contact.ContactForm.HandleChange | src/components/Contact/Contact.jsx:33-38 | the form becomes `WithField` of the old form; nothing else changes |
| Contact.ContactForm.HandleSubmit | src/components/Contact/Contact.jsx:40-46 | submitting, status null, the fields kept, and one success timer scheduled |
| Contact.ContactForm.FireSuccessTimer | src/components/Contact/Contact.jsx:46-51 | no longer submitting, status success, the fields emptied, and the clear timer scheduled |
| Contact.ContactForm.FireClearTimer | src/components/Contact/Contact.jsx:51-53 | the status goes back to null; nothing else changes |
| Contact.ContactLeafResolves | src/components/Contact/Contact.jsx:60-166 | every `contact.<entry>` resolves to its non-empty string in both languages |
| Contact.SubmitLabelField | src/components/Contact/Contact.jsx:166 | the label entry is `sending` exactly while submitting, and both entries exist in both languages |
| Contact.RenderSubmitButton | src/components/Contact/Contact.jsx:160-167 | disabled and aria-disabled exactly while submitting, labelled with the sending or send text |
| Contact.SubmitLabelIsTranslated | src/components/Contact/Contact.jsx:166 | in both languages the button shows the table's non-empty sending text while submitting and its send text otherwise |
| Contact.SuccessMessage | src/components/Contact/Contact.jsx:155-159 | the alert is present exactly when the status is success |
| Contact.SuccessMessageIsTranslated | src/components/Contact/Contact.jsx:155-159 | the alert shows the table's non-empty success text |
| MobileMenu.ScrollTarget | src/components/MobileMenu/MobileMenu.jsx:26-28 | the target leaves 120 px above the section's document position |
| MobileMenu.ScrollTargetFollowsDocumentPosition | src/components/MobileMenu/MobileMenu.jsx:26-28 | the target depends only on the section's document position, and a lower section gets a larger target |
| MobileMenu.OverflowFor | src/components/MobileMenu/MobileMenu.jsx:12-16 | `hidden` exactly while open, otherwise `unset` |
| MobileMenu.Menu.constructor | src/components/MobileMenu/MobileMenu.jsx:8-21 | mount: closed, the page unlocked, no scroll made |
| MobileMenu.Menu.RerunEffect | src/components/MobileMenu/MobileMenu.jsx:10-21 | after the cleanup and the effect, the overflow matches the state; nothing else changes |
| MobileMenu.Menu.Toggle | src/components/MobileMenu/MobileMenu.jsx:38-40 | the state flips and the page is locked exactly while open |
| MobileMenu.Menu.OverlayClick | src/components/MobileMenu/MobileMenu.jsx:66-69 | a click on the overlay toggles the menu; a click inside the navigation panel changes nothing |
| MobileMenu.Menu.ScrollToSection | src/components/MobileMenu/MobileMenu.jsx:23-36 | an existing section gets exactly one scroll request to its target and the menu closes; a missing one changes nothing |
| MobileMenu.Menu.Unmount | src/components/MobileMenu/MobileMenu.jsx:18-20 | the last cleanup unlocks the page, whatever the state |
| MobileMenu.ToggleTwiceRestores | src/components/MobileMenu/MobileMenu.jsx:10-40 | opening and closing restores the state and the page's overflow |
| MobileMenu.RenderToggle | src/components/MobileMenu/MobileMenu.jsx:52-57 | aria-expanded equals the state; the label is "Fechar menu" exactly when open and "Abrir menu" when closed; the open modifier is added exactly when open |
| MobileMenu.NavField | src/components/MobileMenu/MobileMenu.jsx:43-47 | the navigation entry for a section is the section's own name, except `home` for `hero`, and it exists in both languages |
| MobileMenu.MenuItems | src/components/MobileMenu/MobileMenu.jsx:42-75 | five links, hero, about, projects, skills and contact in that order, each with href `#<id>` and the label `t('nav.<entry>')` |
| MobileMenu.MenuLabelsAreTranslated | src/components/MobileMenu/MobileMenu.jsx:42-82 | in both languages every link shows the navigation section's non-empty text; in any other language it shows its key |
| Button.KeepTruthy | src/components/Button/Button.jsx:24 | `filter(Boolean)` keeps only non-empty strings, never more than it was given |
| Button.ClassWords | src/components/Button/Button.jsx:17-23 | the intended words: the base class, variant and size first, then the set flags' modifiers and a non-empty className |
| Button.KeptWordsAreClassWords | src/components/Button/Button.jsx:7-24 | filtering the array keeps exactly the intended words, in the array's order |
| Button.ClassesStartWithBase | src/components/Button/Button.jsx:7-24 | the class string always begins with `btn btn--<variant> btn--<size>`, with defaults primary and medium |
| Button.TokensAreClassWords | src/components/Button/Button.jsx:17-24 | with single-word props, the space-separated tokens of the class string are exactly the intended words, in order |
| Button.NoEmptyToken | src/components/Button/Button.jsx:17-24 | with single-word props no token is empty: no leading, trailing or double space, and an empty className adds nothing |
| Button.ModifierWordIffFlag | src/components/Button/Button.jsx:19-22 | when no variant, size or className spells a flag's modifier, that modifier is an intended word exactly when its flag is set |
| Button.FullWidthClassIffFullWidth | src/components/Button/Button.jsx:9-21 | when no variant, size or className spells the modifier, `btn--full-width` is a class exactly when `fullWidth` is set |
| Button.DisabledClassIffDisabled | src/components/Button/Button.jsx:10-22 | when no variant, size or className spells the modifier, `btn--disabled` is a class exactly when `disabled` is set |
| Button.Render | src/components/Button/Button.jsx:11-53 | a link exactly when href is truthy; otherwise a button whose type defaults to `button` and whose disabled attribute follows the prop |
| Button.DisabledLinkShowsOnlyAClass | src/components/Button/Button.jsx:29-48 | a disabled link stays a link with no disabled attribute, and carries `btn--disabled` |
| ViteConfig.ManualChunks | vite.config.js:21-39 | no chunk exactly for modules outside `node_modules`; otherwise one of the five vendor chunks |
| ViteConfig.FirstMatch | vite.config.js:24-37 | the chunk of the first matching pattern; `vendor-other` exactly when none matches |
| ViteConfig.ReactDomTestIsRedundant | vite.config.js:24 | the `react-dom` test never decides anything the `react` test did not |
| ViteConfig.ManualChunksIsFirstMatch | vite.config.js:21-39 | the chain of tests is the ordered rule list react, gsap, three, @emailjs over node modules |
| ViteConfig.ChunkIsFirstMatchingPattern | vite.config.js:23-35 | a node module goes to a pattern's chunk exactly when it contains that pattern and none tested before it |
| ViteConfig.OtherIsTheCatchAll | vite.config.js:23-37 | `vendor-other` exactly for node modules that contain none of the four patterns |
| ViteConfig.ReactThreeRendererGoesWithReact | vite.config.js:24-32 | a module path naming both react and three goes to `vendor-react` |

## Left out

- LanguageContext.Translate: `k in value` is modelled on own keys only. In the source it also sees inherited keys, so `t('toString')` and `t('nav.toString')` return a function and `t('nav.__proto__')` returns the object prototype. An array's non-digit keys, such as `length`, are not seen either. The table holds only strings, and a function value would need a JavaScript object model.
- LanguageContext.UnknownLanguageFallsBack: `translations[language]` is modelled as an own-key lookup, as is `Start`. In the source it also reads inherited properties, and the stored language can be any saved string. With the language `__proto__` the lookup gives `Object.prototype`, so `t('toString')` returns a function instead of the key.
- LanguageContext.Step: the same own-keys restriction as `Translate`; it is the step that applies it.
- LanguageContext.T: equal to `Translate`, so it has the same own-keys restriction.
- LanguageContext.ShippedDeepKeysFallBack: holds for the model's own-key lookup; it is false in the source for keys through inherited properties, such as `nav.__proto__.toString`.
- LanguageContext.ShippedUnknownSectionFallsBack: holds for the model's own-key lookup; it is false in the source for inherited names, such as `toString`.
- WebGLBackground.InitParticles: colours are the sRGB fractions of `0x00ff88` and `0x4a90e2` (`StartColour`, `EndColour`). The library's conversion to linear colour, which depends on its version and colour-management setting, is not modelled.
- WebGLBackground.BuildConnections: buffers and distances are reals. Float32Array rounding is not modelled, and `Math.sqrt` is the parameter `length`, because floating point has no exact counterpart here. The lemmas about near particles assume that `length` is the true Euclidean length.
- BackToTop3D.BackToTop.AnimateFrame: angles are reals with π as the double value of `Math.PI`, and `Math.sin` of the clock is an input. A frame resets `rotation.y` to 0 while the coin is visible and idle, or hovered, and leaves it alone otherwise. The GSAP click spin (a tween of `rotation.y`) and the `render` call are dropped, so the spin is not modelled. After a click from the keyboard, without hovering, the page scrolls to the top and the coin hides, so the spin plays out untouched in the code.
- BackToTop3D.BackToTop.HandleClick: the GSAP spin started on click is left out, as library animation; only the scroll request is modelled.
- BackToTop3D.PointerX: requires a width above 0. The source divides by the box width unguarded; a zero width would give a non-finite angle, which reals cannot represent.
- BackToTop3D.BackToTop.HandleMouseMove: requires a width above 0, for the same reason as `PointerX`.
- Contact.ContactForm.HandleSubmit: may be called while a submission is running and with empty fields. In the browser the disabled submit button and the `required` inputs prevent both; the model over-approximates those events rather than modelling form validation.
- Contact.ContactForm.HandleChange: the input event is reduced to its name and value.
- MobileMenu.Menu.ScrollToSection: the smooth-scrolling behaviour and `preventDefault` are browser effects; only the requested top is recorded.
- Three.js scene setup is not modelled: lights, meshes, materials, rendering, camera aspect and `dispose` are calls into a graphics library with nothing to state beyond releasing resources.
- GSAP tweens are not modelled: the entrance animations, the coin's visibility tween and the click spin are library-driven animation.
- `setTimeout` and `requestAnimationFrame` are not modelled as timing. Their callbacks are events: `FireSuccessTimer`, `FireClearTimer` and `AnimateFrame`.
- The theme store (`useTheme`) is not part of this model. A theme change is the `RebuildScene` event.
- The `createPortal` rendering of the mobile menu, its CSS classes on the overlay and panel, and the link's `preventDefault` are left out.
- Build settings other than `manualChunks` (aliases, minifier, dependency optimisation) are configuration with no behaviour to state.
