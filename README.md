# Portfolio page orchestration, modelled in Dafny

This project models the logic of a single-page portfolio site written in
React and TypeScript. Most of that site is markup. What can be stated
precisely is this:

- **Active-section tracker** (`App`). On every window `scroll` event the
  shell adds a 100-pixel lookahead to the scroll offset. It walks the four
  sections in the fixed order hero, about, projects, contact and skips
  sections whose element is not mounted. It makes the first section whose
  half-open region `[offsetTop, offsetTop + offsetHeight)` contains the
  position active. If none matches, the previous value stays.
- **Scroll dispatch** (`App.ScrollRequest`). `scrollToSection(id)` scrolls a
  known, mounted section into view exactly once. It uses the registered
  smooth-scroll engine when there is one and the native animated
  `scrollIntoView` otherwise.
- **3D enhancement gate** (`HeroGate`). A WebGL probe is computed once. An
  effect schedules one activation per run when motion is allowed and WebGL
  is available. Activation only ever sets `enable3D` to true. The
  background then shows a grid scene inside an error boundary whose
  fallback is a globe scene.
- **Project filter** (`ProjectFilter`). This is an order-preserving
  category filter with an `all` choice.
- **Navigation bar** (`NavbarState`). It has a scrolled-look threshold, the
  mobile menu's open/close transitions and the active-entry indicator.
- **Theme hook** (`ThemeHook`). It covers the initial-theme decision chain,
  the toggle, the effect that mirrors the theme onto the document root and
  into storage, and the live reduced-motion preference.
- **Error boundary** (`ErrorBoundary`). Its `hasError` flag is sticky, and
  rendering chooses between the children and the fallback.

Where the site's code mutates component state, the model is a class. Its
fields are that state, and each handler or effect is a method with a
`modifies` clause. The rules those methods follow are pure functions with
contracts. The lemmas relate those functions to independent
characterisations and to sequences of events. The browser's answers are
inputs to the model: element offsets, whether elements are mounted, the
scroll offset, the WebGL probe, media queries, storage, and whether the
engine or `requestIdleCallback` exists.

Some behaviours a reader might expect are not what the code does; the
model follows the code:

- `scrollToSection` with an id that is not a section key does not
  silently do nothing. The lookup yields `undefined`, and reading
  `.current` of it throws a `TypeError` (`ScrollRequest` gives `Thrown`).
  The exception is an id that names a member every object inherits, such
  as `toString`. There the lookup yields a value without `current`, and
  the call does nothing.
- The scheduled 3D activation cannot be cancelled, because the effect
  returns no cleanup.
- A reduced-motion preference does not prevent activation. The hero reads
  `reducedMotion` from its own `useTheme` state, which starts false, so
  the first effect run schedules an activation anyway
  (`HeroGate.ReducedMotionSystemStillEnables`).
- The tracker assigns the active section on every match, not only when it
  changes. The observable state is the same either way.

## Model

| member | source | states |
|---|---|---|
| App.Parse | src/App.tsx:21-26 | The section keys are exactly `hero`, `about`, `projects` and `contact`. A result names the section whose key is `id`, and every other string gives `None`. |
| App.FirstMatchFrom | src/App.tsx:34-42 | From position `i` of the order, the result is a mounted section that contains `p`, and no section between `i` and it contains `p`. `None` means no section from `i` on contains `p`. |
| App.FirstMatch | src/App.tsx:34-42 | A selected section is mounted, contains `p` and is the earliest such section in the order. `None` holds exactly when no mounted section contains `p`, including when none is mounted. |
| App.NextActive | src/App.tsx:30-43 | After a scroll at `scrollY`, the active section is the earliest mounted section containing `scrollY + 100` if any section contains it. Otherwise the previous section stays. |
| App.FirstMatchIsEarliestHit | src/App.tsx:34-42 | A section is selected if and only if it is hit and no earlier section is hit. |
| App.BottomEdgeExcluded | src/App.tsx:37 | The region is half-open: the position `offsetTop + offsetHeight` never selects that section. |
| App.UnmountedNeverSelected | src/App.tsx:35 | A section whose `ref.current` is null is never selected, whatever its place in the order. |
| App.OverlapEarliestWins | src/App.tsx:37-39 | When two regions both contain the position, the later section in the order is not selected, because of the `break`. |
| App.DisjointRegionsSelectContainer | src/App.tsx:34-42 | When no two mounted regions contain the position, a section is selected if and only if its region contains it. |
| App.TiledLayoutCoversPage | src/App.tsx:30-43 | Take four mounted regions laid end to end. Positions from the first top to the last bottom always select the section containing them. Positions outside that range select nothing. |
| App.ExampleScrolls | src/App.tsx:30-43 | With four stacked 800-pixel sections, offset 0 selects hero, 750 selects about, and 2301 selects contact. Offset 5000 keeps the previous section. |
| App.ActiveIsLastMatch | src/App.tsx:29-47 | After any sequence of scroll events, the active section is the one chosen by the last event that matched something. If no event matched, it is the starting section. |
| App.ScrollRequest | src/App.tsx:49-61 | A known id with a mounted element makes exactly one scroll call, on that section. The call is the engine's `scrollTo` if and only if an engine is registered, and native `scrollIntoView` otherwise. A known id that is not mounted makes no call. An unknown id throws unless it names an inherited object member. |
| App.AppComponent.constructor | src/App.tsx:11 | `activeSection` starts as hero. The scroll listener is registered and no scroll has been requested. |
| App.AppComponent.OnScroll | src/App.tsx:30-43 | The section-matching loop leaves `activeSection` equal to `NextActive` of its old value while the listener is registered, and unchanged otherwise. |
| App.AppComponent.Unmount | src/App.tsx:46 | The listener is removed. |
| App.AppComponent.ScrollToSection | src/App.tsx:49-61 | It returns the outcome `ScrollRequest` describes, and it appends the call it made, if any, to the calls requested so far. |
| App.TeardownStopsTracking | src/App.tsx:45-46 | Once the listener is removed, no sequence of scroll events changes `activeSection`. |
| App.TrackingFollowsEvents | src/App.tsx:29-47 | While subscribed, the component's `activeSection` after a sequence of scroll events equals `ActiveAfter` of the events. |
| ErrorBoundary.DerivedStateFromError | src/components/ErrorBoundary.tsx:15-17 | Whatever the error, the derived state has `hasError` set. |
| ErrorBoundary.Render | src/components/ErrorBoundary.tsx:26-29 | Without an error it renders the children. With an error it renders the fallback, or null when no fallback was given. |
| ErrorBoundary.CaughtErrorShowsFallback | src/components/ErrorBoundary.tsx:15-29 | After any caught error, rendering yields the fallback. |
| ErrorBoundary.BoundaryComponent.constructor | src/components/ErrorBoundary.tsx:13 | `hasError` starts false. |
| ErrorBoundary.BoundaryComponent.Catch | src/components/ErrorBoundary.tsx:15-17 | Catching sets `hasError`. No method resets it, so it is sticky. |
| HeroGate.CanWebGL | src/components/Hero.tsx:39-47 | The result is true exactly when a document exists, creating the canvas does not throw, and either `webgl` yields a context or it yields null and `experimental-webgl` yields one. A throw anywhere gives false. |
| HeroGate.ExperimentalProbeShortCircuited | src/components/Hero.tsx:43 | Once `webgl` gives a context, the `experimental-webgl` probe cannot affect the result. |
| HeroGate.AfterEffect | src/components/Hero.tsx:49-57 | An effect run never changes `enable3D`. With reduced motion or no WebGL it changes nothing. Otherwise it appends exactly one activation: an idle callback with timeout 1000 when `requestIdleCallback` exists, or else a 250 ms timer. |
| HeroGate.AfterFire | src/components/Hero.tsx:51 | Firing an activation sets `enable3D` to true and removes exactly that activation from the pending ones. |
| HeroGate.EnableIsMonotone | src/components/Hero.tsx:38-57 | Once `enable3D` is true, no sequence of effect runs and firings makes it false. |
| HeroGate.ArmedOnlyThroughGate | src/components/Hero.tsx:49-57 | A pending activation or a true `enable3D` after some events requires one of two things: the start state already had one, or some effect run saw motion allowed and WebGL available. |
| HeroGate.EnabledOnlyAfterOpenGate | src/components/Hero.tsx:38-57 | From the initial state, `enable3D` becomes true only after an effect run that passed the gate. |
| HeroGate.NoWebGLNeverEnables | src/components/Hero.tsx:39-57 | When the memoised probe says no WebGL, `enable3D` stays false whatever events follow. |
| HeroGate.ReducedMotionSystemStillEnables | src/components/Hero.tsx:37-57 | Take a first run that sees `reducedMotion` false, a second run that sees it true, and then the firing. `enable3D` ends up true. |
| HeroGate.Background | src/components/Hero.tsx:80-96 | The grid scene is shown exactly when `enable3D` is true and the boundary has no error. The globe is shown exactly when `enable3D` is true and the boundary caught one. Nothing is shown while `enable3D` is false. |
| HeroGate.HeroComponent.constructor | src/components/Hero.tsx:38-47 | `canWebGL` is computed once, from the environment, and never changes afterwards. `enable3D` starts false, with nothing scheduled. |
| HeroGate.HeroComponent.RunEffect | src/components/Hero.tsx:49-57 | The new gate state is `AfterEffect` of the old one, using the component's memoised `canWebGL`. |
| HeroGate.HeroComponent.Fire | src/components/Hero.tsx:51 | The new gate state is `AfterFire` of the old one. |
| HeroGate.HeroComponent.OnExploreClick | src/components/Hero.tsx:138 | With a callback, the button requests the scroll that `scrollToSection('projects')` makes, and the active section is untouched. Without a callback it does nothing. |
| ProjectFilter.KeepCategory | src/components/Projects.tsx:69 | A project is in the result exactly when it is in the input with the chosen category. The result is no longer than the input. |
| ProjectFilter.Filtered | src/components/Projects.tsx:67-69 | `all` returns the list unchanged. Any other category keeps exactly the projects of that category. |
| ProjectFilter.KeepCategoryIsSubsequence | src/components/Projects.tsx:69 | The filter's result is a subsequence of its input. |
| ProjectFilter.FilteredIsSubsequence | src/components/Projects.tsx:67-69 | Every filtered list is an order-preserving subsequence of the full list. |
| ProjectFilter.KeepCategoryMultiset | src/components/Projects.tsx:69 | Each matching project keeps all its copies, and each other project keeps none. |
| ProjectFilter.CategoriesPartition | src/components/Projects.tsx:67-69 | Every project is `security` or `web`, so the two filtered lists together are a permutation of the full list, and their lengths sum to its length. |
| ProjectFilter.FilterIdempotent | src/components/Projects.tsx:67-69 | Filtering the result again by the same category gives the same list. |
| ProjectFilter.KeepCategoryFixesMatching | src/components/Projects.tsx:69 | A list whose projects all have the chosen category passes the filter unchanged. |
| ProjectFilter.CatalogueSplit | src/components/Projects.tsx:28-69 | On the three listed projects, `security` gives the first two, `web` the third, and `all` all three. |
| ProjectFilter.ExactlyOneButtonPressed | src/components/Projects.tsx:121-133 | Exactly one of the three filter buttons has `aria-pressed`: the selected one. |
| ProjectFilter.ProjectsComponent.constructor | src/components/Projects.tsx:22 | `selectedCategory` starts as `all`. |
| ProjectFilter.ProjectsComponent.SelectCategory | src/components/Projects.tsx:126 | Clicking a category button selects that category. |
| NavbarState.NavItemsFollowSections | src/components/Navbar.tsx:14-19 | The navigation entries name the four sections in the page's order. |
| NavbarState.IndicatorOnActiveEntryOnly | src/components/Navbar.tsx:76 | For the shell's active section, an entry shows the indicator if and only if it is that section's entry. |
| NavbarState.AtMostOneIndicator | src/components/Navbar.tsx:76 | Entry ids are distinct, so no value of `activeSection` marks two entries. |
| NavbarState.NavbarComponent.constructor | src/components/Navbar.tsx:11-12 | The menu starts closed and the bar starts unscrolled. |
| NavbarState.NavbarComponent.OnScroll | src/components/Navbar.tsx:21-24 | While subscribed, `isScrolled` holds exactly when `scrollY > 50`, so it is false at exactly 50. After unmounting it is unchanged. |
| NavbarState.NavbarComponent.Unmount | src/components/Navbar.tsx:26 | The scroll listener is removed. |
| NavbarState.NavbarComponent.ToggleMenu | src/components/Navbar.tsx:121 | The menu button flips `isMobileMenuOpen`. |
| NavbarState.NavbarComponent.OnLogoClick | src/components/Navbar.tsx:49 | The logo requests the scroll that `scrollToSection('hero')` makes. |
| NavbarState.NavbarComponent.OnDesktopItemClick | src/components/Navbar.tsx:64 | A desktop entry requests the scroll to its section. |
| NavbarState.NavbarComponent.OnMobileItemClick | src/components/Navbar.tsx:155-158 | A mobile entry requests the scroll to its section, and then the menu is closed. |
| NavbarState.NavbarComponent.OnMobileResumeClick | src/components/Navbar.tsx:171-179 | The mobile resume entry closes the menu. |
| ThemeHook.InitialTheme | src/hooks/useTheme.ts:10-19 | Without a window the theme is dark. If storage throws it is dark. A truthy stored string is returned as it is. Otherwise the theme follows the system preference: light only when the query says not dark, and dark when the query throws. |
| ThemeHook.InitialThemeOrigin | src/hooks/useTheme.ts:10-19 | The initial theme is dark, light, or the non-empty string that storage returned. |
| ThemeHook.StoredValueShortCircuits | src/hooks/useTheme.ts:13-15 | A non-empty stored value is used whatever the media query would say. |
| ThemeHook.Toggle | src/hooks/useTheme.ts:45 | The result is dark or light, and it is light exactly when the input was dark. |
| ThemeHook.ToggleTwiceRestores | src/hooks/useTheme.ts:45 | Toggling dark or light twice returns it. |
| ThemeHook.ToggleTwiceNormalisesOthers | src/hooks/useTheme.ts:13-45 | Any other stored string becomes light after two toggles, so that round trip fails. |
| ThemeHook.ThemeComponent.constructor | src/hooks/useTheme.ts:10-21 | The theme comes from `InitialTheme`, `reducedMotion` starts false, and the motion listener is not yet registered. The stored entry is the one the initializer read, whenever that read succeeded. |
| ThemeHook.ThemeComponent.SyncTheme | src/hooks/useTheme.ts:23-35 | After the effect, the root has the `dark` class exactly when the theme is dark. The theme is persisted when the write succeeds. A failed write leaves storage and the theme as they were. |
| ThemeHook.ThemeComponent.ToggleTheme | src/hooks/useTheme.ts:45 | The theme becomes `Toggle` of the old theme. |
| ThemeHook.ThemeComponent.MountMotion | src/hooks/useTheme.ts:37-43 | On mount, `reducedMotion` takes the query's current answer and the change listener is registered. The effect has no `try`. If `matchMedia` throws, it throws with nothing changed. If the query object has no `addEventListener`, it throws after `reducedMotion` is set but before the listener is registered. |
| ThemeHook.ThemeComponent.OnMotionChange | src/hooks/useTheme.ts:39-41 | Each change event sets `reducedMotion` to the query's answer while the listener is registered. |
| ThemeHook.ThemeComponent.UnmountMotion | src/hooks/useTheme.ts:42 | The change listener is removed. |

## Left out

- The contact form is left out: it is a POST to a third-party form relay, with status flags around that network call.
- The 3D scenes are left out: WebGL rendering, floating-point camera and rotation math, and animation-frame loops.
- The smooth-scroll engine's lifecycle is left out: its creation, its animation-frame loop, its easing curve and its removal from `window`. `scrollToSection` sees the engine only as a boolean input.
- Static content, animation timings, styling and build configuration are left out: the about section, the not-found page, the footer and the bundler settings.
- Lazy loading is left out. `HeroGate.Background` names the scene that is mounted, not the null placeholder `Suspense` shows while the scene's code loads.
- The resume download is left out. It is DOM and file I/O; only the menu closing that follows it is modelled.
- `componentDidCatch` logging is left out because it is console output.
- Browser collaborators are inputs, not computations: element offsets and mounting, scroll offsets, the WebGL probe results, media queries, storage reads and writes, and whether the engine and `requestIdleCallback` exist.
- Offsets are whole numbers. A browser can report a fractional `scrollY`.
- React's scheduling is left out: when re-renders happen and which values each effect run closes over. Effect runs and event deliveries are method calls in whatever order the caller makes them.
- Project images, descriptions, technology lists and links are left out because the filter does not look at them.
- ARIA labels and class names that only mirror `isMobileMenuOpen`, `isScrolled` or the selected category are left out.
- `ThemeHook`: the theme is a string. The source annotates it as `'light' | 'dark'`, but the stored value is cast without a check, so other strings do occur.
- ThemeHook.ThemeComponent.MountMotion: it reports the throw of the unguarded `matchMedia` or `addEventListener` call. What React then does with an error thrown from an effect is not modelled.
