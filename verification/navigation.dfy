/** Step navigation of the tutorial: the current step lives in 1..3 and only
    moves forward when the current step's completion flag is set. */
module Navigation {
  import opened Tiers
  import opened ForceRegistry
  import opened Simulator

  const FirstStep: int := 1
  const LastStep: int := 3

  /** The current step together with the store it reads its flags from. */
  datatype App = App(currentStep: int, store: State)

  /** `useState(1)` next to a freshly created store. */
  function InitialApp(): App {
    App(FirstStep, Initial())
  }

  /** `canProceed(step)`: the completion flag of steps 1, 2 and 3; false for
      any other number. */
  function CanProceed(s: State, step: int): (ok: bool)
    ensures ok ==> FirstStep <= step <= LastStep
    ensures step == 1 ==> (ok <==> s.step1Complete)
    ensures step == 2 ==> (ok <==> s.step2Complete)
    ensures step == 3 ==> (ok <==> s.step3Complete)
  {
    match step
    case 1 => s.step1Complete
    case 2 => s.step2Complete
    case 3 => s.step3Complete
    case _ => false
  }

  /** `handleNext`: advance one step when there is a next step and the
      current one is complete; otherwise nothing changes. The store is never
      touched. */
  function HandleNext(app: App): (r: App)
    ensures r.store == app.store
    ensures r.currentStep == app.currentStep || r.currentStep == app.currentStep + 1
    ensures r.currentStep == app.currentStep + 1 <==>
              app.currentStep < LastStep && CanProceed(app.store, app.currentStep)
  {
    if app.currentStep < LastStep && CanProceed(app.store, app.currentStep)
    then app.(currentStep := app.currentStep + 1)
    else app
  }

  /** `handleBack`: go back one step unless on the first; the store is never
      touched. */
  function HandleBack(app: App): (r: App)
    ensures r.store == app.store
    ensures r.currentStep == app.currentStep || r.currentStep == app.currentStep - 1
    ensures r.currentStep == app.currentStep - 1 <==> app.currentStep > FirstStep
  {
    if app.currentStep > FirstStep then app.(currentStep := app.currentStep - 1) else app
  }

  /** `handleReset`: reset the store, then return to the first step. */
  function HandleReset(app: App): (r: App)
    ensures r == InitialApp()
  {
    App(FirstStep, ResetSimulation(app.store))
  }

  /** `allStepsComplete`, which opens the completion summary. */
  function AllStepsComplete(s: State): (all: bool)
    ensures all <==> CanProceed(s, 1) && CanProceed(s, 2) && CanProceed(s, 3)
  {
    s.step1Complete && s.step2Complete && s.step3Complete
  }

  /** What the learner can do: act on the store, or press Next, Back or
      Reset All. */
  datatype Event = StoreAction(action: Action) | NextPressed | BackPressed | ResetPressed

  function Dispatch(app: App, e: Event): App {
    match e
    case StoreAction(a) => app.(store := Apply(app.store, a))
    case NextPressed => HandleNext(app)
    case BackPressed => HandleBack(app)
    case ResetPressed => HandleReset(app)
  }

  /** Handle the events in order. */
  function Replay(app: App, events: seq<Event>): App
    decreases |events|
  {
    if |events| == 0 then app else Replay(Dispatch(app, events[0]), events[1..])
  }

  /** The navigation invariant: a step that exists, next to a consistent store. */
  predicate Valid(app: App) {
    FirstStep <= app.currentStep <= LastStep && Consistent(app.store)
  }

  lemma DispatchKeepsValid(app: App, e: Event)
    requires Valid(app)
    ensures Valid(Dispatch(app, e))
  {
    match e
    case StoreAction(a) => ApplyKeepsConsistent(app.store, a);
    case _ =>
  }

  /** Any sequence of events keeps the step within 1..3 and the store
      consistent. */
  lemma {:induction false} ReplayKeepsValid(app: App, events: seq<Event>)
    requires Valid(app)
    ensures Valid(Replay(app, events))
    decreases |events|
  {
    if |events| > 0 {
      DispatchKeepsValid(app, events[0]);
      ReplayKeepsValid(Dispatch(app, events[0]), events[1..]);
    }
  }

  /** Starting from the first step, whatever the learner does, the current
      step stays between 1 and 3. */
  lemma StepAlwaysInRange(events: seq<Event>)
    ensures FirstStep <= Replay(InitialApp(), events).currentStep <= LastStep
  {
    ReplayKeepsValid(InitialApp(), events);
  }

  /** In a reachable state, moving past step 1 means every force has been
      identified, moving past step 2 means both force balances read balanced,
      and moving past step 3 is impossible. */
  lemma NextFromReachable(events: seq<Event>)
    ensures var app := Replay(InitialApp(), events);
            && (app.currentStep == 1 && HandleNext(app).currentStep == 2 ==>
                  AllIdentified(app.store.forces))
            && (app.currentStep == 2 && HandleNext(app).currentStep == 3 ==>
                  app.store.forceBalanceX == Balanced && app.store.forceBalanceY == Balanced)
            && (app.currentStep == 3 ==> HandleNext(app) == app)
  {
    ReplayKeepsValid(InitialApp(), events);
  }

  /** On a fresh start Next does nothing: step 1 is not yet complete. */
  lemma NextBlockedAtStart()
    ensures HandleNext(InitialApp()) == InitialApp()
  {
  }
}
