/** A button that, when clicked, hands an ordered list of actions to a handler
    one after the other, stopping at the first one whose processing fails
    (`org.vaadin.miki.touchee.ui.actions.SequenceActionButton`). */
module SequenceButtons {
  import opened Ui
  import opened Sequences

  /** The sender a handler is given: the clicked button itself, or the object
      set as the button's sender. */
  datatype SenderRef = ClickedButton | GivenSender(sender: object)

  /** The target a handler is given; Java's `null` is `NoTarget`. */
  datatype TargetRef = NoTarget | GivenTarget(target: object)

  /** A handler's processing of one action for a sender and a target. A fault
      the Java handler would throw is its `Fail` outcome. */
  type ActionHandler = (Action, SenderRef, TargetRef) -> Outcome

  /** One call the button makes on its handler. */
  datatype Call = Call(action: Action, sender: SenderRef, target: TargetRef)

  /** The notification shown when processing an action fails. */
  function ErrorNotification(message: string): (n: Notification)
    ensures n.severity == Error && n.message == message
  {
    Notification("Error", message, Error)
  }

  /** The position of the first action whose processing fails, or the number of
      actions when none fails. */
  function FirstFailure(h: ActionHandler, actions: seq<Action>, sender: SenderRef, target: TargetRef): (k: nat)
    ensures k <= |actions|
    ensures forall j :: 0 <= j < k ==> h(actions[j], sender, target).Ok?
    ensures k < |actions| ==> h(actions[k], sender, target).Fail?
    decreases |actions|
  {
    if actions == [] || h(actions[0], sender, target).Fail? then 0
    else 1 + FirstFailure(h, actions[1..], sender, target)
  }

  class SequenceActionButton {
    var caption: string
    /** The actions, in the order they are processed; duplicates allowed. */
    var actions: seq<Action>
    /** The handler, sender and target that the button's base class stores. */
    var handler: Option<ActionHandler>
    var sender: object?
    var target: object?

    constructor (caption: string, actions: seq<Action>)
      ensures this.caption == caption && this.actions == actions
      ensures handler.None? && sender == null && target == null
    {
      this.caption := caption;
      this.actions := actions;
      handler := None;
      sender := null;
      target := null;
    }

    constructor WithHandler(caption: string, handler: Option<ActionHandler>, actions: seq<Action>)
      ensures this.caption == caption && this.actions == actions
      ensures this.handler == handler && sender == null && target == null
    {
      this.caption := caption;
      this.actions := actions;
      this.handler := handler;
      sender := null;
      target := null;
    }

    constructor WithSender(caption: string, handler: Option<ActionHandler>, sender: object?, actions: seq<Action>)
      ensures this.caption == caption && this.actions == actions
      ensures this.handler == handler && this.sender == sender && target == null
    {
      this.caption := caption;
      this.actions := actions;
      this.handler := handler;
      this.sender := sender;
      target := null;
    }

    /** The sender passed to the handler: the one set explicitly, or else the
        button itself. */
    function EffectiveSender(): (s: SenderRef)
      reads this
      ensures sender != null ==> s == GivenSender(sender)
      ensures sender == null ==> s == ClickedButton
    {
      if sender == null then ClickedButton else GivenSender(sender)
    }

    /** The target passed to the handler. */
    function TargetPassed(): (t: TargetRef)
      reads this
      ensures target != null ==> t == GivenTarget(target)
      ensures target == null ==> t == NoTarget
    {
      if target == null then NoTarget else GivenTarget(target)
    }

    /** Processes every action in order and stops at the first failure, whose
        message becomes the one error notification; the failure goes no
        further. Returns the calls made on the handler and the notifications
        shown. Nothing happens without a handler or without actions, and the
        button itself is left as it was. */
    method ButtonClick() returns (calls: seq<Call>, notes: seq<Notification>)
      ensures handler.None? || actions == [] ==> calls == [] && notes == []
      ensures handler.Some? && actions != [] ==>
        var k := FirstFailure(handler.value, actions, EffectiveSender(), TargetPassed());
        && |calls| == (if k < |actions| then k + 1 else |actions|)
        && (forall j :: 0 <= j < |calls| ==> calls[j] == Call(actions[j], EffectiveSender(), TargetPassed()))
        && notes == if k < |actions|
                    then [ErrorNotification(handler.value(actions[k], EffectiveSender(), TargetPassed()).message)]
                    else []
    {
      calls, notes := [], [];
      if handler.Some? && |actions| > 0 {
        var h := handler.value;
        var s := if sender == null then ClickedButton else GivenSender(sender);
        var t := if target == null then NoTarget else GivenTarget(target);
        var i := 0;
        while i < |actions|
          invariant 0 <= i <= |actions|
          invariant |calls| == i
          invariant forall j :: 0 <= j < i ==> calls[j] == Call(actions[j], s, t)
          invariant forall j :: 0 <= j < i ==> h(actions[j], s, t).Ok?
          invariant notes == []
        {
          calls := calls + [Call(actions[i], s, t)];
          var outcome := h(actions[i], s, t);
          if outcome.Fail? {
            notes := [ErrorNotification(outcome.message)];
            return;
          }
          i := i + 1;
        }
      }
    }

    /** Appends the given actions, one by one, keeping duplicates. */
    method AddAction(toAdd: seq<Action>)
      modifies this`actions
      ensures actions == old(actions) + toAdd
    {
      var i := 0;
      while i < |toAdd|
        invariant 0 <= i <= |toAdd|
        invariant actions == old(actions) + toAdd[..i]
      {
        actions := actions + [toAdd[i]];
        i := i + 1;
      }
      assert toAdd[..i] == toAdd;
    }

    /** Removes, for each given action in turn, its first occurrence; an action
        that does not occur (any more) is skipped. */
    method RemoveAction(toRemove: seq<Action>)
      modifies this`actions
      ensures actions == RemoveEach(old(actions), toRemove)
    {
      var i := 0;
      while i < |toRemove|
        invariant 0 <= i <= |toRemove|
        invariant actions == RemoveEach(old(actions), toRemove[..i])
      {
        RemoveEachStep(old(actions), toRemove, i);
        actions := RemoveFirst(actions, toRemove[i]);
        i := i + 1;
      }
      assert toRemove[..i] == toRemove;
    }

    /** Whether the action was added at least once (and not removed since). */
    function ContainsAction(a: Action): (b: bool)
      reads this
      ensures b <==> exists j :: 0 <= j < |actions| && actions[j] == a
    {
      a in actions
    }

    /** A read-only view of the action list. Like Java's
        `Collections.unmodifiableList`, the view is backed by the button: later
        additions and removals show through it. */
    method GetActions() returns (v: ActionsView)
      ensures fresh(v) && v.button == this
      ensures v.Contents() == actions
    {
      v := new ActionsView(this);
    }
  }

  /** A read-only window on a button's actions; it offers no way to change
      them. Unlike the Java wrapper, which hides its backing list, the view's
      `button` field is visible to whoever holds the view. */
  class ActionsView {
    const button: SequenceActionButton

    constructor (button: SequenceActionButton)
      ensures this.button == button
    {
      this.button := button;
    }

    function Contents(): seq<Action>
      reads button
    {
      button.actions
    }
  }

  /** A view taken before `AddAction` shows the added action afterwards: the
      view is live, not a copy. */
  method ViewSeesLaterAdditions(b: SequenceActionButton, a: Action) returns (v: ActionsView)
    modifies b`actions
    ensures v.button == b
    ensures v.Contents() == old(b.actions) + [a]
  {
    v := b.GetActions();
    b.AddAction([a]);
  }

  /** A click leaves the action list as it was, so a second click makes the
      same calls. */
  method ClickTwice(b: SequenceActionButton) returns (first: seq<Call>, second: seq<Call>)
    ensures first == second
  {
    var notes;
    first, notes := b.ButtonClick();
    second, notes := b.ButtonClick();
  }

  /** Removing an action once leaves it contained exactly when it had been
      added more than once. */
  lemma ContainedAfterRemove(actions: seq<Action>, a: Action)
    ensures a in RemoveEach(actions, [a]) <==> multiset(actions)[a] >= 2
  {
    RemoveEachSingle(actions, a);
    RemoveFirstMembership(actions, a);
  }

  /** Adding an action that was absent and then removing it restores the list. */
  lemma AddThenRemoveAbsent(actions: seq<Action>, a: Action)
    requires a !in actions
    ensures RemoveEach(actions + [a], [a]) == actions
  {
    var s := actions + [a];
    RemoveEachSingle(s, a);
    assert s[..|actions|] == actions;
    IndexOfUnique(s, a, |actions|);
    assert s[|actions| + 1..] == [];
  }

  /** Adding an action that was already present and then removing it does not
      restore the list: the earlier occurrence goes, and the added one stays at
      the end. */
  lemma AddThenRemovePresent(actions: seq<Action>, a: Action)
    requires a in actions
    ensures RemoveEach(actions + [a], [a])
         == actions[..IndexOf(actions, a)] + actions[IndexOf(actions, a) + 1..] + [a]
  {
    RemoveEachSingle(actions + [a], a);
    RemoveFirstAppend(actions, a, a);
  }
}
