/**
 * The page shell: the active-section tracker that follows the scroll
 * position, and the `scrollToSection` dispatch that the navigation and the
 * hero call-to-action use.
 */
module App {
  import opened Wrappers

  /** The four page sections. */
  datatype Section = Hero | About | Projects | Contact

  /** The order in which `Object.entries(sectionRefs)` visits the sections. */
  const Order: seq<Section> := [Hero, About, Projects, Contact]

  /** Added to the scroll offset before matching, so that a section counts
      as active a little before its top reaches the top of the viewport. */
  const Lookahead: int := 100

  /** The key of a section in `sectionRefs`. */
  function Name(s: Section): string {
    match s
    case Hero => "hero"
    case About => "about"
    case Projects => "projects"
    case Contact => "contact"
  }

  /** The position of a section in `Order`. */
  function Rank(s: Section): (i: nat)
    ensures i < |Order| && Order[i] == s
  {
    match s
    case Hero => 0
    case About => 1
    case Projects => 2
    case Contact => 3
  }

  /** Looks a section up by its key; `None` for every other string. */
  function Parse(id: string): (r: Option<Section>)
    ensures r.Some? ==> Name(r.value) == id
    ensures forall s: Section :: Name(s) == id ==> r == Some(s)
  {
    if id == "hero" then Some(Hero)
    else if id == "about" then Some(About)
    else if id == "projects" then Some(Projects)
    else if id == "contact" then Some(Contact)
    else None
  }

  /** The live `offsetTop` and `offsetHeight` of a mounted section element,
      in whole pixels. */
  datatype Box = Box(top: int, height: int)

  /** A section's region is the half-open interval [top, top + height). */
  predicate Contains(b: Box, p: int) {
    b.top <= p < b.top + b.height
  }

  /** What each section's `ref.current` holds when a scroll event is
      handled: `None` while its element is not mounted. */
  datatype Layout = Layout(hero: Option<Box>, about: Option<Box>, projects: Option<Box>, contact: Option<Box>) {
    function Slot(s: Section): Option<Box> {
      match s
      case Hero => hero
      case About => about
      case Projects => projects
      case Contact => contact
    }
  }

  /** Section `s` is mounted and its region contains position `p`. */
  predicate Hit(layout: Layout, s: Section, p: int) {
    layout.Slot(s).Some? && Contains(layout.Slot(s).value, p)
  }

  /** Some mounted section contains position `p`. */
  predicate AnyHit(layout: Layout, p: int) {
    exists s :: Hit(layout, s, p)
  }

  /** `s` is hit and no section before it in `Order` is. */
  predicate EarliestHit(layout: Layout, s: Section, p: int) {
    Hit(layout, s, p) && forall t :: Rank(t) < Rank(s) ==> !Hit(layout, t, p)
  }

  /** The first section at or after position `i` of `Order` that is hit. */
  function FirstMatchFrom(layout: Layout, p: int, i: nat): (r: Option<Section>)
    requires i <= |Order|
    decreases |Order| - i
    ensures r.Some? ==> i <= Rank(r.value) && Hit(layout, r.value, p)
    ensures r.Some? ==> forall j :: i <= j < Rank(r.value) ==> !Hit(layout, Order[j], p)
    ensures r.None? ==> forall j :: i <= j < |Order| ==> !Hit(layout, Order[j], p)
  {
    if i == |Order| then None
    else if Hit(layout, Order[i], p) then Some(Order[i])
    else FirstMatchFrom(layout, p, i + 1)
  }

  /** The section the scroll handler selects for position `p`: the earliest
      one in `Order` that is mounted and contains `p`, if any. */
  function FirstMatch(layout: Layout, p: int): (r: Option<Section>)
    ensures r.Some? ==> EarliestHit(layout, r.value, p)
    ensures r.None? <==> !AnyHit(layout, p)
  {
    var r := FirstMatchFrom(layout, p, 0);
    assert forall t :: Order[Rank(t)] == t;
    r
  }

  /** The active section after one scroll event at offset `scrollY`: the
      first match for `scrollY + Lookahead`, or `prev` when nothing matches. */
  function NextActive(prev: Section, layout: Layout, scrollY: int): (r: Section)
    ensures AnyHit(layout, scrollY + Lookahead) ==> EarliestHit(layout, r, scrollY + Lookahead)
    ensures !AnyHit(layout, scrollY + Lookahead) ==> r == prev
  {
    FirstMatch(layout, scrollY + Lookahead).GetOr(prev)
  }

  /** A section that is hit is selected exactly when no earlier section is. */
  lemma FirstMatchIsEarliestHit(layout: Layout, p: int, s: Section)
    ensures FirstMatch(layout, p) == Some(s) <==> EarliestHit(layout, s, p)
  {
  }

  /** The bottom edge of a region belongs to the next one, not to it. */
  lemma BottomEdgeExcluded(layout: Layout, s: Section, b: Box)
    requires layout.Slot(s) == Some(b)
    ensures FirstMatch(layout, b.top + b.height) != Some(s)
  {
  }

  /** An unmounted section is never selected, wherever it stands in `Order`. */
  lemma UnmountedNeverSelected(layout: Layout, s: Section, p: int)
    requires layout.Slot(s).None?
    ensures FirstMatch(layout, p) != Some(s)
  {
  }

  /** Where regions overlap, the earlier section in `Order` wins. */
  lemma OverlapEarliestWins(layout: Layout, s: Section, t: Section, p: int)
    requires Hit(layout, s, p) && Hit(layout, t, p) && Rank(s) < Rank(t)
    ensures FirstMatch(layout, p) != Some(t)
  {
  }

  /** When the mounted regions do not overlap, the selected section is
      simply the one whose region contains the position. */
  lemma DisjointRegionsSelectContainer(layout: Layout, p: int, s: Section)
    requires forall t, u :: t != u ==> !(Hit(layout, t, p) && Hit(layout, u, p))
    ensures FirstMatch(layout, p) == Some(s) <==> Hit(layout, s, p)
  {
    FirstMatchIsEarliestHit(layout, p, s);
  }

  /** Four mounted regions laid end to end: every position from the top of
      the first to the bottom of the last selects the section containing
      it, and every position outside that range selects nothing. */
  lemma TiledLayoutCoversPage(h: Box, a: Box, pr: Box, c: Box, p: int)
    requires h.top + h.height == a.top && a.top + a.height == pr.top && pr.top + pr.height == c.top
    requires h.height >= 0 && a.height >= 0 && pr.height >= 0 && c.height >= 0
    ensures var layout := Layout(Some(h), Some(a), Some(pr), Some(c));
            (FirstMatch(layout, p).Some? <==> h.top <= p < c.top + c.height) &&
            forall s :: FirstMatch(layout, p) == Some(s) <==> Hit(layout, s, p)
  {
    var layout := Layout(Some(h), Some(a), Some(pr), Some(c));
    forall s ensures FirstMatch(layout, p) == Some(s) <==> Hit(layout, s, p) {
      DisjointRegionsSelectContainer(layout, p, s);
    }
    if h.top <= p < c.top + c.height {
      if p < a.top { assert Hit(layout, Hero, p); }
      else if p < pr.top { assert Hit(layout, About, p); }
      else if p < c.top { assert Hit(layout, Projects, p); }
      else { assert Hit(layout, Contact, p); }
    }
  }

  /** The four sections 800 pixels tall each, stacked from the top of the page. */
  const ExampleLayout: Layout :=
    Layout(Some(Box(0, 800)), Some(Box(800, 800)), Some(Box(1600, 800)), Some(Box(2400, 800)))

  /** Worked cases on `ExampleLayout`: offset 0 selects the hero, 750 the
      about section (750 + 100 = 850), 2301 the contact section, and 5000,
      past every region, keeps whatever was active. */
  lemma ExampleScrolls(prev: Section)
    ensures NextActive(prev, ExampleLayout, 0) == Hero
    ensures NextActive(prev, ExampleLayout, 750) == About
    ensures NextActive(prev, ExampleLayout, 2301) == Contact
    ensures NextActive(prev, ExampleLayout, 5000) == prev
  {
    assert Hit(ExampleLayout, Hero, 100);
    assert Hit(ExampleLayout, About, 850);
    assert Hit(ExampleLayout, Contact, 2401);
  }

  /** One delivery of the window `scroll` event. */
  datatype ScrollEvent = ScrollEvent(scrollY: int, layout: Layout)

  /** The active section after the events `evs`, in order, starting from `prev`. */
  function ActiveAfter(prev: Section, evs: seq<ScrollEvent>): Section
    decreases |evs|
  {
    if evs == [] then prev
    else ActiveAfter(NextActive(prev, evs[0].layout, evs[0].scrollY), evs[1..])
  }

  /** The section selected by the last event of `evs` that selected one. */
  function LastMatch(evs: seq<ScrollEvent>): Option<Section>
    decreases |evs|
  {
    if evs == [] then None
    else
      var e := evs[|evs| - 1];
      var m := FirstMatch(e.layout, e.scrollY + Lookahead);
      if m.Some? then m else LastMatch(evs[..|evs| - 1])
  }

  lemma {:induction false} ActiveAfterSnoc(prev: Section, evs: seq<ScrollEvent>, e: ScrollEvent)
    ensures ActiveAfter(prev, evs + [e]) == NextActive(ActiveAfter(prev, evs), e.layout, e.scrollY)
    decreases |evs|
  {
    if evs == [] {
      assert [e][1..] == [];
    } else {
      assert (evs + [e])[1..] == evs[1..] + [e];
      ActiveAfterSnoc(NextActive(prev, evs[0].layout, evs[0].scrollY), evs[1..], e);
    }
  }

  /** Only the latest scroll that landed inside some section matters: the
      active section is what that scroll selected, or the starting section
      when no scroll selected anything. */
  lemma {:induction false} ActiveIsLastMatch(prev: Section, evs: seq<ScrollEvent>)
    ensures ActiveAfter(prev, evs) == LastMatch(evs).GetOr(prev)
    decreases |evs|
  {
    if evs != [] {
      var init, e := evs[..|evs| - 1], evs[|evs| - 1];
      assert evs == init + [e];
      ActiveAfterSnoc(prev, init, e);
      ActiveIsLastMatch(prev, init);
    }
  }

  /** A viewport scroll requested by `scrollToSection`. */
  datatype ScrollCall =
    | EngineScrollTo(target: Section)        // `window.lenis.scrollTo(element)`
    | NativeScrollIntoView(target: Section)  // `element.scrollIntoView({behavior: 'smooth'})`

  /** What one `scrollToSection(id)` call does. */
  datatype ScrollOutcome =
    | Scrolled(call: ScrollCall)  // exactly one scroll call
    | NoCall                      // nothing happens
    | Thrown                      // a TypeError escapes: `.current` was read of `undefined`

  /** Keys that every plain object inherits from `Object.prototype`:
      `sectionRefs[k]` is then a function or an object without `current`,
      so the lookup yields `undefined` and the call does nothing. */
  const InheritedKeys: set<string> := {
    "constructor", "__proto__", "hasOwnProperty", "isPrototypeOf",
    "propertyIsEnumerable", "toString", "toLocaleString", "valueOf",
    "__defineGetter__", "__defineSetter__", "__lookupGetter__", "__lookupSetter__"
  }

  /** The effect of `scrollToSection(id)` given which elements are mounted
      and whether a smooth-scroll engine is registered on `window`. */
  function ScrollRequest(id: string, layout: Layout, engineRegistered: bool): (r: ScrollOutcome)
    ensures r.Thrown? <==> Parse(id).None? && id !in InheritedKeys
    ensures r.Scrolled? <==> Parse(id).Some? && layout.Slot(Parse(id).value).Some?
    ensures r.Scrolled? ==> Name(r.call.target) == id
    ensures r.Scrolled? ==> (r.call.EngineScrollTo? <==> engineRegistered)
  {
    match Parse(id)
    case None => if id in InheritedKeys then NoCall else Thrown
    case Some(s) =>
      if layout.Slot(s).None? then NoCall
      else if engineRegistered then Scrolled(EngineScrollTo(s))
      else Scrolled(NativeScrollIntoView(s))
  }

  /** The `App` component: its `activeSection` state, whether its window
      `scroll` listener is registered, and the viewport scrolls it has
      requested so far. */
  class AppComponent {
    var activeSection: Section
    var subscribed: bool
    var scrollCalls: seq<ScrollCall>

    /** First render and the mount effect: `activeSection` starts as the
        hero and the scroll listener is added. */
    constructor ()
      ensures activeSection == Hero && subscribed && scrollCalls == []
    {
      activeSection := Hero;
      subscribed := true;
      scrollCalls := [];
    }

    /** A window `scroll` event at offset `scrollY`; it reaches `handleScroll`
        only while the listener is registered. */
    method OnScroll(scrollY: int, layout: Layout)
      modifies this`activeSection
      ensures activeSection == if subscribed then NextActive(old(activeSection), layout, scrollY)
                               else old(activeSection)
    {
      if !subscribed {
        return;
      }
      var p := scrollY + Lookahead;
      var i := 0;
      while i < |Order|
        invariant 0 <= i <= |Order|
        invariant activeSection == old(activeSection)
        invariant FirstMatch(layout, p) == FirstMatchFrom(layout, p, i)
      {
        var s := Order[i];
        match layout.Slot(s) {
          case Some(b) =>
            if p >= b.top && p < b.top + b.height {
              activeSection := s;
              break;
            }
          case None =>
        }
        i := i + 1;
      }
    }

    /** The mount effect's cleanup: the scroll listener is removed. */
    method Unmount()
      modifies this`subscribed
      ensures !subscribed
    {
      subscribed := false;
    }

    /** `scrollToSection(id)`: a known, mounted section is scrolled to once,
        by the engine when one is registered and natively otherwise. */
    method ScrollToSection(id: string, layout: Layout, engineRegistered: bool) returns (outcome: ScrollOutcome)
      modifies this`scrollCalls
      ensures outcome == ScrollRequest(id, layout, engineRegistered)
      ensures scrollCalls == old(scrollCalls) + (if outcome.Scrolled? then [outcome.call] else [])
    {
      var ref := Parse(id);
      if ref.None? {
        outcome := if id in InheritedKeys then NoCall else Thrown;
        return;
      }
      var s := ref.value;
      if layout.Slot(s).Some? {
        var call := if engineRegistered then EngineScrollTo(s) else NativeScrollIntoView(s);
        scrollCalls := scrollCalls + [call];
        outcome := Scrolled(call);
      } else {
        outcome := NoCall;
      }
    }
  }

  /** After teardown no scroll event changes the active section. */
  method TeardownStopsTracking(app: AppComponent, evs: seq<ScrollEvent>)
    requires !app.subscribed
    modifies app
    ensures app.activeSection == old(app.activeSection)
  {
    var i := 0;
    while i < |evs|
      invariant 0 <= i <= |evs|
      invariant !app.subscribed && app.activeSection == old(app.activeSection)
    {
      app.OnScroll(evs[i].scrollY, evs[i].layout);
      i := i + 1;
    }
  }

  /** While subscribed, the component follows `ActiveAfter` event by event. */
  method TrackingFollowsEvents(app: AppComponent, evs: seq<ScrollEvent>)
    requires app.subscribed
    modifies app
    ensures app.activeSection == ActiveAfter(old(app.activeSection), evs)
  {
    var i := 0;
    while i < |evs|
      invariant 0 <= i <= |evs|
      invariant app.subscribed
      invariant app.activeSection == ActiveAfter(old(app.activeSection), evs[..i])
    {
      ActiveAfterSnoc(old(app.activeSection), evs[..i], evs[i]);
      assert evs[..i + 1] == evs[..i] + [evs[i]];
      app.OnScroll(evs[i].scrollY, evs[i].layout);
      i := i + 1;
    }
    assert evs[..i] == evs;
  }
}
