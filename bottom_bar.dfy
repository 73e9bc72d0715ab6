/**
 * src/bottom-bar/bar.ts, `createBottomBar`: a bar holding the branding and a
 * control container whose single child is swapped between the speed
 * control and the restart button.
 */
module BottomBar {
  import opened Wrappers

  /** The elements the bar is made of. */
  datatype BarNode = Branding | ControlContainer | SpeedControl | RestartButton

  /**
   * parentNode.replaceChild(newChild, oldChild) on the parent's children:
   * a NotFoundError when oldChild is not a child; otherwise newChild leaves
   * its old place, if it had one, and takes oldChild's.
   */
  function ReplaceChild(c: seq<BarNode>, newChild: BarNode, oldChild: BarNode): (r: Result<seq<BarNode>>)
    ensures r.Ok? <==> oldChild in c
    ensures r.Ok? ==> newChild in r.value && (oldChild != newChild ==> oldChild !in r.value)
  {
    if oldChild !in c then Err("NotFoundError") else Ok(Replaced(c, newChild, oldChild))
  }

  /** The children once oldChild (a child) is replaced by newChild. */
  function Replaced(c: seq<BarNode>, newChild: BarNode, oldChild: BarNode): (r: seq<BarNode>)
    ensures oldChild in c ==> newChild in r
    ensures forall x :: x in r ==> x in c || x == newChild
    ensures forall x :: x in c && x != oldChild && x != newChild ==> x in r
    ensures oldChild != newChild ==> oldChild !in r
  {
    if c == [] then []
    else
      (if c[0] == oldChild then [newChild] else if c[0] == newChild then [] else [c[0]])
      + Replaced(c[1..], newChild, oldChild)
  }

  /** A single child is replaced in place. */
  lemma ReplaceOnlyChild(newChild: BarNode, oldChild: BarNode)
    ensures ReplaceChild([oldChild], newChild, oldChild) == Ok([newChild])
  {
    var c := [oldChild];
    assert c[0] == oldChild && c[1..] == [];
    assert Replaced(c, newChild, oldChild) == [newChild] + Replaced([], newChild, oldChild);
    assert Replaced(c, newChild, oldChild) == [newChild];
    assert oldChild in c;
  }

  /** The bar and its control container, as their children. */
  class Bar {
    /** The bar's children. */
    var children: seq<BarNode>
    /** The control container's children. */
    var controls: seq<BarNode>

    /** The branding then the control container, and exactly one control in the container. */
    ghost predicate Valid()
      reads this
    {
      children == [Branding, ControlContainer] && (controls == [SpeedControl] || controls == [RestartButton])
    }

    /** createBottomBar: the branding, the control container, and the speed control in it. */
    constructor()
      ensures Valid() && controls == [SpeedControl] && RestartButton !in controls
    {
      children := [];
      controls := [];
      new;
      children := children + [Branding];
      children := children + [ControlContainer];
      controls := controls + [SpeedControl];
    }

    /** switchToRestart: nothing when the restart button is shown, otherwise it replaces the speed control. */
    method SwitchToRestart()
      requires Valid()
      modifies this`controls
      ensures Valid() && controls == [RestartButton] && SpeedControl !in controls
    {
      if RestartButton in controls {
        return;
      }
      var r := ReplaceChild(controls, RestartButton, SpeedControl);
      ReplaceOnlyChild(RestartButton, SpeedControl);
      controls := r.value;
    }

    /** switchToSpeedControl: nothing when the speed control is shown, otherwise it replaces the restart button. */
    method SwitchToSpeedControl()
      requires Valid()
      modifies this`controls
      ensures Valid() && controls == [SpeedControl] && RestartButton !in controls
    {
      if SpeedControl in controls {
        return;
      }
      var r := ReplaceChild(controls, SpeedControl, RestartButton);
      ReplaceOnlyChild(SpeedControl, RestartButton);
      controls := r.value;
    }
  }

  /** Exactly one of the two controls is in the container, and the branding comes first. */
  lemma ExactlyOneControl(b: Bar)
    requires b.Valid()
    ensures (SpeedControl in b.controls) != (RestartButton in b.controls)
    ensures b.children[0] == Branding
  {
  }

  /**
   * The sequences the tests play: each switch is idempotent, switching back
   * restores the speed control, and the branding never moves.
   */
  method SwitchSequences() returns (initial: seq<BarNode>, restartTwice: seq<BarNode>, back: seq<BarNode>, branding: BarNode)
    ensures initial == [SpeedControl] && restartTwice == [RestartButton] && back == [SpeedControl] && branding == Branding
  {
    var bar := new Bar();
    bar.SwitchToSpeedControl();
    initial := bar.controls;
    bar.SwitchToRestart();
    bar.SwitchToRestart();
    restartTwice := bar.controls;
    bar.SwitchToSpeedControl();
    back := bar.controls;
    branding := bar.children[0];
  }
}
