/** The application shell: a history of visited views whose last entry is
    the one on screen, and the login gate in front of it. */
module Navigation {

  datatype View =
    | Login | Home | Visitas | Agregar | Emergencias | EmergenciaDetalle
    | Pedidos | GestionarPedidos

  /** What the shell renders below the header. */
  datatype Screen =
    | LoginScreen
    | MainScreen(backButton: bool, content: Content)

  /** The view component mounted for the current view; the other views
      mount none. */
  datatype Content = HomeContent | OrderContent | PendingOrdersContent | NoContent

  /** A history the shell can reach: never empty, and "home" at the bottom. */
  predicate WellFormed(h: seq<View>) {
    |h| >= 1 && h[0] == Home
  }

  /** `goBack` on a history: drops the last entry unless it is the only one. */
  function Back(h: seq<View>): (r: seq<View>)
    ensures |h| > 1 ==> r + [h[|h| - 1]] == h
    ensures |h| <= 1 ==> r == h
  {
    if |h| > 1 then h[..|h| - 1] else h
  }

  /** Going back right after navigating restores the history exactly. */
  lemma BackUndoesNavigate(h: seq<View>, v: View)
    requires |h| >= 1
    ensures Back(h + [v]) == h
  {
    assert (h + [v])[..|h|] == h;
  }

  /** One press of a menu entry, or of the back button. */
  datatype Action = NavigateTo(view: View) | GoBack

  function Step(h: seq<View>, a: Action): seq<View> {
    match a
    case NavigateTo(v) => h + [v]
    case GoBack => Back(h)
  }

  /** The history after a run of actions. */
  function Run(h: seq<View>, actions: seq<Action>): seq<View>
    decreases |actions|
  {
    if actions == [] then h else Run(Step(h, actions[0]), actions[1..])
  }

  /** However the user navigates, the history stays non-empty with "home"
      at the bottom, and it grows by at most one entry per action. */
  lemma {:induction false} RunWellFormed(h: seq<View>, actions: seq<Action>)
    requires WellFormed(h)
    decreases |actions|
    ensures WellFormed(Run(h, actions))
    ensures |Run(h, actions)| <= |h| + |actions|
  {
    if actions != [] {
      var next := Step(h, actions[0]);
      assert WellFormed(next) && |next| <= |h| + 1;
      RunWellFormed(next, actions[1..]);
    }
  }

  /** The shell's state: the view history. */
  class App {
    var viewHistory: seq<View>

    ghost predicate Valid()
      reads this
    {
      WellFormed(viewHistory)
    }

    /** The history starts as ["home"]. */
    constructor()
      ensures Valid() && viewHistory == [Home]
    {
      viewHistory := [Home];
    }

    /** `currentView`: the last entry. */
    function CurrentView(): (v: View)
      requires Valid()
      reads this
      ensures v in viewHistory
      ensures Back(viewHistory) + [v] == viewHistory || viewHistory == [v]
    {
      viewHistory[|viewHistory| - 1]
    }

    /** `navigateTo`: appends the view, duplicates included. */
    method NavigateTo(view: View)
      requires Valid()
      modifies this
      ensures Valid()
      ensures viewHistory == old(viewHistory) + [view]
      ensures CurrentView() == view
    {
      viewHistory := viewHistory + [view];
    }

    /** `goBack`: drops the last entry only while more than one remains. */
    method GoBack()
      requires Valid()
      modifies this
      ensures Valid()
      ensures |old(viewHistory)| > 1 ==> viewHistory == old(viewHistory)[..|old(viewHistory)| - 1]
      ensures |old(viewHistory)| <= 1 ==> viewHistory == old(viewHistory)
    {
      if |viewHistory| > 1 {
        viewHistory := viewHistory[..|viewHistory| - 1];
      }
    }

    /** The back button is shown on every view but "home"; since "home"
        sits at the bottom of the history, it is then never the only entry. */
    predicate ShowsBackButton()
      requires Valid()
      reads this
      ensures ShowsBackButton() ==> |viewHistory| > 1 && |Back(viewHistory)| == |viewHistory| - 1
    {
      CurrentView() != Home
    }

    /** What is rendered for `accountCount` signed-in accounts: with none,
        the login view whatever the history holds. */
    function Render(accountCount: nat): (s: Screen)
      requires Valid()
      reads this
      ensures accountCount == 0 <==> s == LoginScreen
      ensures s.MainScreen? ==> (s.backButton <==> CurrentView() != Home)
      ensures s.MainScreen? ==>
        && (s.content == HomeContent <==> CurrentView() == Home)
        && (s.content == OrderContent <==> CurrentView() == Pedidos)
        && (s.content == PendingOrdersContent <==> CurrentView() == GestionarPedidos)
    {
      if accountCount == 0 then LoginScreen
      else
        var view := CurrentView();
        var content :=
          match view
          case Home => HomeContent
          case Pedidos => OrderContent
          case GestionarPedidos => PendingOrdersContent
          case _ => NoContent;
        MainScreen(view != Home, content)
    }
  }

  /** Opening "pedidos" from home and pressing back returns to ["home"],
      where no back button is offered. */
  method OpenOrdersAndReturn() returns (forward: seq<View>, back: seq<View>, backButton: bool)
    ensures forward == [Home, Pedidos]
    ensures back == [Home] && !backButton
  {
    var app := new App();
    app.NavigateTo(Pedidos);
    forward := app.viewHistory;
    app.GoBack();
    back := app.viewHistory;
    backButton := app.ShowsBackButton();
  }

  /** Choosing "Inicio" on the home view stacks a second "home"; the back
      button stays hidden although there is an entry to drop. */
  method HomeOnHome() returns (history: seq<View>, backButton: bool)
    ensures history == [Home, Home] && !backButton
  {
    var app := new App();
    app.NavigateTo(Home);
    history := app.viewHistory;
    backButton := app.ShowsBackButton();
  }
}
