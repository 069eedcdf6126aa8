/** The onboarding wizard: a dialog that walks through a fixed table of four
    steps, opens once (after a short delay) for a user who has not completed
    it, and records completion under one `localStorage` key.

    The delayed opening is two events: `Mount` reads the stored flag and
    schedules the opening, `OpenTimerFires` is the delay running out. */
module Onboarding {

  import opened Common

  datatype StepInfo = StepInfo(title: string, description: string, color: string)

  const STEPS: seq<StepInfo> := [
    StepInfo("Welcome to LearnMatrix",
      "Your all-in-one platform to master new skills, track progress, and stay focused.",
      "text-yellow-500"),
    StepInfo("AI-Powered Roadmaps",
      "Generate personalized learning paths instantly with our AI integration.",
      "text-blue-500"),
    StepInfo("Focus with Pomodoro",
      "Boost your productivity using our built-in Pomodoro timer with task tracking.",
      "text-red-500"),
    StepInfo("Gamify Your Learning",
      "Earn badges, climb the leaderboard, and keep your streak alive!",
      "text-orange-500")
  ]

  const CompletedKey: string := "learnmatrix-onboarding-completed"

  /** The wizard's state: the current step, whether the dialog is open,
      whether the delayed opening is pending, and the store's contents. */
  datatype Wizard = Wizard(step: int, open: bool, openPending: bool, items: map<string, string>)

  predicate ValidStep(step: int)
  {
    0 <= step < |STEPS|
  }

  function Initial(items: map<string, string>): (w: Wizard)
    ensures w.step == 0 && !w.open && !w.openPending && w.items == items
  {
    Wizard(0, false, false, items)
  }

  /** The mount effect: the opening is scheduled only when the stored flag is
      missing or empty. */
  function AfterMount(w: Wizard): (r: Wizard)
    ensures r.openPending <==> !Truthy(Lookup(w.items, CompletedKey))
    ensures r.(openPending := w.openPending) == w
  {
    w.(openPending := !Truthy(Lookup(w.items, CompletedKey)))
  }

  /** The delay runs out: a pending opening opens the dialog. */
  function AfterOpenTimer(w: Wizard): (r: Wizard)
    ensures r.open <==> w.open || w.openPending
    ensures !r.openPending
    ensures r.step == w.step && r.items == w.items
  {
    if w.openPending then w.(open := true, openPending := false) else w
  }

  /** `handleComplete`: records completion and closes the dialog. */
  function AfterComplete(w: Wizard): (r: Wizard)
    ensures !r.open && r.step == w.step && r.openPending == w.openPending
    ensures CompletedKey in r.items && r.items[CompletedKey] == "true"
    ensures forall k :: k != CompletedKey ==> Lookup(r.items, k) == Lookup(w.items, k)
  {
    w.(items := w.items[CompletedKey := "true"], open := false)
  }

  /** `handleNext`: moves on one step, or completes at the last step. */
  function AfterNext(w: Wizard): (r: Wizard)
    ensures w.step < |STEPS| - 1 ==> r == w.(step := w.step + 1)
    ensures w.step >= |STEPS| - 1 ==> r == AfterComplete(w)
    ensures ValidStep(w.step) ==> ValidStep(r.step)
  {
    if w.step < |STEPS| - 1 then w.(step := w.step + 1) else AfterComplete(w)
  }

  /** The dialog's `onOpenChange(val)`: closing completes, opening does nothing. */
  function AfterOpenChange(w: Wizard, val: bool): (r: Wizard)
    ensures !val ==> r == AfterComplete(w)
    ensures val ==> r == w
  {
    if !val then AfterComplete(w) else w
  }

  /** `k` presses of the button. */
  function Presses(w: Wizard, k: nat): Wizard
    decreases k
  {
    if k == 0 then w else Presses(AfterNext(w), k - 1)
  }

  /** The button reads "Get Started" at the last step and "Next" before it. */
  function ButtonLabel(step: int): (text: string)
    requires ValidStep(step)
    ensures text == "Get Started" <==> step == |STEPS| - 1
    ensures text == "Next" <==> step != |STEPS| - 1
  {
    if step == |STEPS| - 1 then "Get Started" else "Next"
  }

  /** Which of the progress dots are highlighted. */
  function Dots(step: int): (dots: seq<bool>)
    ensures |dots| == |STEPS|
    ensures forall i :: 0 <= i < |dots| ==> (dots[i] <==> i == step)
  {
    seq(|STEPS|, i => i == step)
  }

  function CountTrue(bs: seq<bool>): nat
  {
    if bs == [] then 0 else (if bs[0] then 1 else 0) + CountTrue(bs[1..])
  }

  lemma {:induction false} CountTrueOne(bs: seq<bool>, j: int)
    requires 0 <= j < |bs|
    requires forall i :: 0 <= i < |bs| ==> (bs[i] <==> i == j)
    ensures CountTrue(bs) == 1
    decreases |bs|
  {
    if j == 0 {
      CountTrueNone(bs[1..]);
    } else {
      CountTrueOne(bs[1..], j - 1);
    }
  }

  lemma {:induction false} CountTrueNone(bs: seq<bool>)
    requires forall i :: 0 <= i < |bs| ==> !bs[i]
    ensures CountTrue(bs) == 0
    decreases |bs|
  {
    if bs != [] {
      CountTrueNone(bs[1..]);
    }
  }

  /** Exactly one progress dot, the current step's, is highlighted. */
  lemma {:induction false} ExactlyOneDot(step: int)
    requires ValidStep(step)
    ensures CountTrue(Dots(step)) == 1 && Dots(step)[step]
  {
    CountTrueOne(Dots(step), step);
  }

  /** On a fresh mount the dialog opens after the delay exactly when the
      completion flag is missing or empty. */
  lemma {:induction false} OpensOnlyWhenNotCompleted(items: map<string, string>)
    ensures AfterOpenTimer(AfterMount(Initial(items))).open
      <==> !(CompletedKey in items && items[CompletedKey] != "")
  {
  }

  lemma {:induction false} CompleteIdempotent(w: Wizard)
    ensures AfterComplete(AfterComplete(w)) == AfterComplete(w)
  {
  }

  /** From a valid step, `k` presses move to step `min(step + k, 3)`; the
      store and the dialog are untouched until the last step is pressed, and
      from then on completion is recorded and the dialog is closed. */
  lemma {:induction false} PressesFrom(w: Wizard, k: nat)
    requires ValidStep(w.step)
    ensures ValidStep(Presses(w, k).step)
    ensures Presses(w, k).step == if w.step + k < |STEPS| then w.step + k else |STEPS| - 1
    ensures Presses(w, k).openPending == w.openPending
    ensures w.step + k < |STEPS| ==> Presses(w, k).items == w.items && Presses(w, k).open == w.open
    ensures w.step + k >= |STEPS| ==> Presses(w, k) == AfterComplete(w.(step := |STEPS| - 1))
    decreases k
  {
    if k > 0 {
      PressesFrom(AfterNext(w), k - 1);
      if w.step == |STEPS| - 1 && k > 1 {
        CompleteIdempotent(w);
      }
    }
  }

  // ---------------------------------------------------------------------------
  // The component, whose state hooks are fields updated in place and whose
  // store is the browser's shared `localStorage`.

  class Dialog {
    var step: int
    var open: bool
    var openPending: bool
    const store: LocalStorage

    function Snapshot(): Wizard
      reads this, store
    {
      Wizard(step, open, openPending, store.items)
    }

    ghost predicate Valid()
      reads this
    {
      ValidStep(step)
    }

    constructor (store: LocalStorage)
      ensures Snapshot() == Initial(store.items) && Valid()
      ensures this.store == store
    {
      step, open, openPending := 0, false, false;
      this.store := store;
    }

    /** The current step's entry of the table. */
    function Current(): (info: StepInfo)
      reads this
      requires Valid()
      ensures info == STEPS[step]
    {
      STEPS[step]
    }

    method Mount()
      modifies this
      ensures Snapshot() == AfterMount(old(Snapshot()))
    {
      var seen := store.GetItem(CompletedKey);
      openPending := !Truthy(seen);
    }

    method OpenTimerFires()
      modifies this
      ensures Snapshot() == AfterOpenTimer(old(Snapshot()))
    {
      if openPending {
        open, openPending := true, false;
      }
    }

    method HandleComplete()
      modifies this, store
      ensures Snapshot() == AfterComplete(old(Snapshot()))
      ensures Valid() <==> old(Valid())
    {
      store.SetItem(CompletedKey, "true");
      open := false;
    }

    method HandleNext()
      requires Valid()
      modifies this, store
      ensures Valid()
      ensures Snapshot() == AfterNext(old(Snapshot()))
    {
      if step < |STEPS| - 1 {
        step := step + 1;
      } else {
        HandleComplete();
      }
    }

    method OnOpenChange(val: bool)
      modifies this, store
      ensures Snapshot() == AfterOpenChange(old(Snapshot()), val)
      ensures Valid() <==> old(Valid())
    {
      if !val {
        HandleComplete();
      }
    }
  }
}
