/**
 * `useExitAction`: run an action only after an exit animation has played.
 * The phase moves idle → exiting → gone and never back.
 */
module UseExitAction {
  import opened Js

  datatype Phase = Idle | Exiting | Gone

  /** How far along the exit a phase is. */
  function Rank(p: Phase): nat
  {
    match p
    case Idle => 0
    case Exiting => 1
    case Gone => 2
  }

  /** `attach`, without its handler. */
  datatype Attach = Attach(dataAnimation: string)

  class ExitActionHook {
    const animation: string
    /** The `phase` state cell. */
    var phase: Phase
    /** How many times `options.action` has run. */
    var actionCalls: nat

    constructor (animation: string)
      ensures this.animation == animation
      ensures phase == Idle && actionCalls == 0
      ensures Visible() && AttachProps() == None
    {
      this.animation := animation;
      phase := Idle;
      actionCalls := 0;
    }

    /** `trigger`: starts the exit from idle, and does nothing otherwise. */
    method Trigger()
      modifies this
      ensures phase == (if old(phase) == Idle then Exiting else old(phase))
      ensures actionCalls == old(actionCalls)
      ensures Rank(old(phase)) <= Rank(phase)
    {
      if phase == Idle {
        phase := Exiting;
      }
    }

    /** `onAnimationEnd`; `called` says whether the action ran. */
    method OnAnimationEnd(animationName: string) returns (called: bool)
      modifies this
      ensures called <==> animationName == animation
      ensures called ==> phase == Gone && actionCalls == old(actionCalls) + 1
      ensures !called ==> phase == old(phase) && actionCalls == old(actionCalls)
      ensures Rank(old(phase)) <= Rank(phase)
    {
      if animationName != animation {
        return false;
      }
      actionCalls := actionCalls + 1;
      phase := Gone;
      return true;
    }

    function Visible(): (visible: bool)
      reads this
      ensures visible <==> phase != Gone
    {
      phase != Gone
    }

    function AttachProps(): (a: Option<Attach>)
      reads this
      ensures a.Some? <==> phase == Exiting
      ensures a.Some? ==> a.value.dataAnimation == animation
    {
      if phase == Exiting then Some(Attach(animation)) else None
    }
  }

  /** Click, an unrelated animation, then the exit animation: the action runs once. */
  method ExitScenario(animation: string, other: string) returns (calls: nat, visible: bool)
    requires other != animation
    ensures calls == 1 && !visible
  {
    var h := new ExitActionHook(animation);
    h.Trigger();
    assert h.AttachProps() == Some(Attach(animation));
    h.Trigger();
    assert h.phase == Exiting;
    var called := h.OnAnimationEnd(other);
    assert !called && h.Visible() && h.actionCalls == 0;
    called := h.OnAnimationEnd(animation);
    assert called && h.AttachProps() == None;
    calls, visible := h.actionCalls, h.Visible();
  }
}
