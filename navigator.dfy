/** The lesson's screen navigator (class MathAdventureApp in scripts/main.js).

    The navigator owns the number of the screen on show, the number of
    screens the pager counts, and a table of per-screen behaviour objects.
    Rendering is reduced to what it decides: which markup the container
    holds, which per-screen stylesheet and script are attached, and what the
    pager shows. */
module Navigator {
  import opened Util

  /** The screens whose markup and behaviour the navigator knows. */
  datatype ScreenKind = NameIntro | DabbaQuestion | DabbaExplainer | CylinderConcept

  /** What getScreenHTML puts into the container. */
  datatype Markup = Content(kind: ScreenKind) | NotImplemented

  /** A behaviour object created by initializeScreen; serial tells apart two
      objects created for the same screen. */
  datatype Instance = Instance(kind: ScreenKind, serial: nat)

  /** The pager: whether each button is displayed, and the two numbers in
      the "Screen N of M" indicator. */
  datatype PagerView = PagerView(prevShown: bool, nextShown: bool, shownCurrent: int, shownTotal: int)

  const FirstScreen: int := 1
  const InitialTotalScreens: int := 4

  /** The static markup table: content for screens 1 to 4, the placeholder
      for every other index. */
  function ScreenHtml(n: int): (m: Markup)
    ensures m != NotImplemented <==> 1 <= n <= 4
    ensures n == 1 <==> m == Content(NameIntro)
    ensures n == 2 <==> m == Content(DabbaQuestion)
  {
    match n
    case 1 => Content(NameIntro)
    case 2 => Content(DabbaQuestion)
    case 3 => Content(DabbaExplainer)
    case 4 => Content(CylinderConcept)
    case _ => NotImplemented
  }

  /** The behaviour class initializeScreen instantiates for a screen, if any. */
  function BehaviorFor(n: int): Option<ScreenKind>
  {
    match n
    case 1 => Some(NameIntro)
    case 2 => Some(DabbaQuestion)
    case 3 => Some(DabbaExplainer)
    case 4 => Some(CylinderConcept)
    case _ => None
  }

  /** The two tables agree: a screen has a behaviour exactly when it has
      content, and it is the behaviour of that content. */
  lemma BehaviorMatchesMarkup(n: int)
    ensures BehaviorFor(n).Some? <==> ScreenHtml(n) != NotImplemented
    ensures BehaviorFor(n).Some? ==> ScreenHtml(n) == Content(BehaviorFor(n).value)
  {
  }

  /** What updateNavigation makes the pager show. */
  function PagerFor(current: int, total: int): (p: PagerView)
    ensures !p.prevShown <==> current == 1
    ensures !p.nextShown <==> current == total
    ensures p.shownCurrent == current && p.shownTotal == total
  {
    PagerView(current != 1, current != total, current, total)
  }

  // ---------------------------------------------------------------------
  // The navigation state machine as values.

  datatype NavState = NavState(current: int, total: int)

  datatype NavCommand = Next | Previous | Load(screen: int) | Add(screen: int)

  /** nextScreen: a guarded step forward, no wraparound. */
  function NextState(s: NavState): NavState
  {
    if s.current < s.total then s.(current := s.current + 1) else s
  }

  /** previousScreen: a guarded step back, no wraparound. */
  function PreviousState(s: NavState): NavState
  {
    if s.current > 1 then s.(current := s.current - 1) else s
  }

  /** loadScreenDirectly: jumps to any number, with no range check. */
  function LoadState(s: NavState, n: int): NavState
  {
    s.(current := n)
  }

  /** addScreen: the total only ever grows. */
  function AddState(s: NavState, n: int): (r: NavState)
    ensures r.current == s.current
    ensures r.total >= s.total && r.total >= n
    ensures r.total == s.total || r.total == n
  {
    s.(total := if s.total >= n then s.total else n)
  }

  function Apply(s: NavState, c: NavCommand): NavState
  {
    match c
    case Next => NextState(s)
    case Previous => PreviousState(s)
    case Load(n) => LoadState(s, n)
    case Add(n) => AddState(s, n)
  }

  function Run(s: NavState, cmds: seq<NavCommand>): NavState
    decreases |cmds|
  {
    if cmds == [] then s else Run(Apply(s, cmds[0]), cmds[1..])
  }

  /** The pager's two buttons and their guards: a step moves exactly when
      the button is displayed and the state is in range. */
  lemma StepsAreGuarded(s: NavState)
    ensures NextState(s).current == s.current + 1 <==> s.current < s.total
    ensures NextState(s) != s ==> NextState(s).current == s.current + 1
    ensures PreviousState(s).current == s.current - 1 <==> s.current > 1
    ensures s.current == s.total ==> NextState(s) == s
    ensures s.current == 1 ==> PreviousState(s) == s
  {
  }

  /** Without direct loads, pager steps and added screens keep the current
      screen within 1..total. */
  lemma {:induction false} RunStaysInRange(s: NavState, cmds: seq<NavCommand>)
    requires 1 <= s.current <= s.total
    requires forall i :: 0 <= i < |cmds| ==> !cmds[i].Load?
    ensures 1 <= Run(s, cmds).current <= Run(s, cmds).total
    decreases |cmds|
  {
    if cmds != [] {
      var t := Apply(s, cmds[0]);
      assert 1 <= t.current <= t.total;
      RunStaysInRange(t, cmds[1..]);
    }
  }

  /** No command ever lowers the total, direct loads included. */
  lemma {:induction false} RunNeverShrinksTotal(s: NavState, cmds: seq<NavCommand>)
    ensures Run(s, cmds).total >= s.total
    decreases |cmds|
  {
    if cmds != [] {
      RunNeverShrinksTotal(Apply(s, cmds[0]), cmds[1..]);
    }
  }

  /** The quiz jumps to screen 10 of a 4-screen lesson: the navigator
      follows, the pager then offers "Next", yet a step forward does nothing
      and a step back lands on 9. */
  lemma QuizJumpLeavesRange()
    ensures LoadState(NavState(1, 4), 10) == NavState(10, 4)
    ensures PagerFor(10, 4).nextShown && PagerFor(10, 4).prevShown
    ensures NextState(NavState(10, 4)) == NavState(10, 4)
    ensures PreviousState(NavState(10, 4)) == NavState(9, 4)
  {
  }

  // ---------------------------------------------------------------------
  // The navigator object.

  class MathAdventureApp {
    var currentScreen: int
    var totalScreens: int
    /** screenInstances: screen number to the behaviour object registered for it. */
    var screenInstances: map<int, Instance>
    /** Every behaviour object whose destroy() was called, in call order. */
    var destroyed: seq<Instance>
    /** How many behaviour objects have been created. */
    var created: nat
    /** What the container shows, and which per-screen stylesheet and
        script are attached. */
    var markup: Markup
    var stylesheet: int
    var screenScript: int
    /** Whether the 3-D can script has been injected (only for screen 2). */
    var canScriptInjected: bool
    var pager: PagerView

    function View(): NavState
      reads this
    {
      NavState(currentScreen, totalScreens)
    }

    /** The constructor loads screen 1 before the pager exists, then builds
        the pager: "Screen 1 of 4", "Previous" hidden. */
    constructor ()
      ensures View() == NavState(FirstScreen, InitialTotalScreens)
      ensures screenInstances == map[] && destroyed == [] && created == 0
      ensures markup == ScreenHtml(1) && stylesheet == 1 && screenScript == 1
      ensures !canScriptInjected
      ensures pager == PagerFor(FirstScreen, InitialTotalScreens)
    {
      currentScreen := 1;
      totalScreens := 4;
      screenInstances := map[];
      destroyed := [];
      created := 0;
      markup := ScreenHtml(1);
      stylesheet := 1;
      screenScript := 1;
      canScriptInjected := false;
      pager := PagerView(false, true, 1, 4);
    }

    /** updateNavigation: the pager reflects the current state. */
    method UpdateNavigation()
      modifies this`pager
      ensures pager == PagerFor(currentScreen, totalScreens)
    {
      pager := PagerView(currentScreen != 1, currentScreen != totalScreens, currentScreen, totalScreens);
    }

    /** loadScreenDirectly: renders screen n and makes it current, whatever
        n is. The behaviour object is created later, by InitializeScreen,
        when the screen's script has loaded. */
    method LoadScreenDirectly(n: int)
      modifies this
      ensures View() == LoadState(old(View()), n)
      ensures markup == ScreenHtml(n) && stylesheet == n && screenScript == n
      ensures canScriptInjected == (old(canScriptInjected) || n == 2)
      ensures pager == PagerFor(n, totalScreens)
      ensures screenInstances == old(screenInstances) && destroyed == old(destroyed) && created == old(created)
    {
      markup := ScreenHtml(n);
      stylesheet := n;
      if n == 2 {
        canScriptInjected := true;
      }
      screenScript := n;
      currentScreen := n;
      UpdateNavigation();
    }

    /** previousScreen */
    method PreviousScreen()
      modifies this
      ensures View() == PreviousState(old(View()))
      ensures old(currentScreen) > 1 ==>
        && markup == ScreenHtml(currentScreen) && stylesheet == currentScreen && screenScript == currentScreen
        && canScriptInjected == (old(canScriptInjected) || currentScreen == 2)
        && pager == PagerFor(currentScreen, totalScreens)
      ensures old(currentScreen) <= 1 ==> unchanged(this)
      ensures screenInstances == old(screenInstances) && destroyed == old(destroyed) && created == old(created)
    {
      if currentScreen > 1 {
        LoadScreenDirectly(currentScreen - 1);
      }
    }

    /** nextScreen */
    method NextScreen()
      modifies this
      ensures View() == NextState(old(View()))
      ensures old(currentScreen) < old(totalScreens) ==>
        && markup == ScreenHtml(currentScreen) && stylesheet == currentScreen && screenScript == currentScreen
        && canScriptInjected == (old(canScriptInjected) || currentScreen == 2)
        && pager == PagerFor(currentScreen, totalScreens)
      ensures old(currentScreen) >= old(totalScreens) ==> unchanged(this)
      ensures screenInstances == old(screenInstances) && destroyed == old(destroyed) && created == old(created)
    {
      if currentScreen < totalScreens {
        LoadScreenDirectly(currentScreen + 1);
      }
    }

    /** addScreen: raises the total to n if n is larger; the pager is not
        refreshed. */
    method AddScreen(n: int)
      modifies this`totalScreens
      ensures View() == AddState(old(View()), n)
    {
      if n > totalScreens {
        totalScreens := n;
      }
    }

    /** initializeScreen, run when screen n's script has loaded (or failed
        to load). It first destroys the object registered under the CURRENT
        screen number, then registers a new object under n for n in 1..4
        when the screen's class is defined; other n leave the table as it
        was. */
    method InitializeScreen(n: int, classDefined: bool)
      modifies this`screenInstances, this`destroyed, this`created
      ensures destroyed == old(destroyed) +
        (if currentScreen in old(screenInstances) then [old(screenInstances)[currentScreen]] else [])
      ensures BehaviorFor(n).Some? && classDefined ==>
        screenInstances == old(screenInstances)[n := Instance(BehaviorFor(n).value, old(created))] &&
        created == old(created) + 1
      ensures BehaviorFor(n).None? || !classDefined ==>
        screenInstances == old(screenInstances) && created == old(created)
    {
      if currentScreen in screenInstances {
        destroyed := destroyed + [screenInstances[currentScreen]];
      }
      var kind := BehaviorFor(n);
      if kind.Some? && classDefined {
        screenInstances := screenInstances[n := Instance(kind.value, created)];
        created := created + 1;
      }
    }
  }

  /** The order of events in the browser: a screen's script loads after
      loadScreenDirectly has already set currentScreen, so the object
      initializeScreen destroys is the one registered under the NEW screen
      number. Screen 1 never gets an object, since the class its case tests
      for is defined by no script. Going 2, 3 and back to 2 destroys the
      first screen-2 object and leaves the screen-3 object live. */
  method ReturningToAScreenDestroysItsOwnObject() returns (firstRegistered: bool, screen2Destroyed: bool, screen3Destroyed: bool, live: nat)
    ensures !firstRegistered
    ensures screen2Destroyed && !screen3Destroyed
    ensures live == 2
  {
    var app := new MathAdventureApp();
    app.InitializeScreen(1, false);
    firstRegistered := 1 in app.screenInstances;
    app.NextScreen();
    app.InitializeScreen(2, true);
    var second := app.screenInstances[2];
    app.NextScreen();
    app.InitializeScreen(3, true);
    var third := app.screenInstances[3];
    app.PreviousScreen();
    app.InitializeScreen(2, true);
    screen2Destroyed := second in app.destroyed;
    screen3Destroyed := third in app.destroyed;
    live := |app.screenInstances.Keys|;
    assert app.screenInstances.Keys == {2, 3};
  }
}
