/** The view controller (`org.vaadin.miki.touchee.views.ToucheeController`):
    a table from actions to handlers, a flag for actions without a handler, a
    navigation stack of screens, and the container of user records that the
    built-in handlers change.

    The host framework's collaborators are abstract state here: the navigation
    manager is a sequence of screens (the last one is shown), notifications are
    an output log, the bean container is a sequence of user records, and calls
    into the edit form are recorded as events. */
module Touchee {
  import opened Ui
  import opened Sequences

  /** A user bean. `id` stands for the bean's object identity, which is its
      item id in the container: two blank users are different items. */
  datatype User = User(id: nat, username: string, email: string)

  datatype Screen = Login | List | Edit(item: User)

  /** The view that sends an action: a list view with the items the user
      marked, an edit form (the login form is one too), or anything else. */
  datatype Sender = ListViewSender(marked: seq<User>) | EditViewSender(view: nat) | OtherSender

  /** The action's target: the login form's value map, an item id, or `null`. */
  datatype Target = Credentials(fields: map<string, string>) | ItemTarget(item: User) | NoTarget

  /** The handlers the controller registers for its own actions, and any other
      handler registered later (whose body is not part of this model). */
  datatype Handler =
    | LogInHandler | ClearHandler | CloseHandler | DeleteHandler
    | CommitHandler | RestoreHandler | ChooseItemHandler | NewItemHandler
    | Registered(id: nat)

  /** The edit form's operations: clear the fields, commit, discard edits. */
  datatype FormOp = ClearForm | CommitForm | DiscardForm

  datatype Event =
    | Invoked(handler: Handler, action: Action, sender: Sender, target: Target)
    | FormCalled(view: nat, op: FormOp)

  datatype ControllerState = ControllerState(
    stack: seq<Screen>,
    users: seq<User>,
    nextId: nat,
    handlers: map<Action, Handler>,
    ignoring: bool,
    notifications: seq<Notification>,
    events: seq<Event>)

  /** The state after handling an action, and whether a fault escaped. */
  datatype Step = Step(state: ControllerState, outcome: Outcome)

  const ClassCast := "java.lang.ClassCastException"
  const NullPointer := "java.lang.NullPointerException"

  const InvalidCredentials := Notification("Invalid credentials", "Please log in as test/test", Warning)

  function UnregisteredNotification(caption: string): (n: Notification)
    ensures n.severity == Error
    ensures |n.message| > 13 + |caption|
    ensures n.message[..13] == "This action (" && n.message[13..13 + |caption|] == caption
  {
    Notification("Cannot perform action",
      "This action (" + caption
      + ") cannot be performed, because no handler was registered for it in the controller, and there is no default handler.",
      Error)
  }

  /** The three users the container is seeded with, one per address: the
      user name is the part of the address before its `@`. */
  function SeedUsers(): (s: seq<User>)
    ensures |s| == 3
    ensures [s[0].email, s[1].email, s[2].email] == ["foo@vaadin.com", "miki@vaadin.com", "vaadin@example.org"]
    ensures forall i | 0 <= i < |s| ::
      && s[i].id == i && '@' !in s[i].username
      && |s[i].username| < |s[i].email| && s[i].email[..|s[i].username| + 1] == s[i].username + "@"
  {
    [User(0, "foo", "foo@vaadin.com"), User(1, "miki", "miki@vaadin.com"), User(2, "vaadin", "vaadin@example.org")]
  }

  /** The bean the container creates for a new item. The user class is not
      part of this model; its fields start out empty here. */
  function BlankUser(id: nat): User {
    User(id, "", "")
  }

  /** The only accepted credentials are the fixed pair test/test. */
  predicate IsTestLogin(fields: map<string, string>): (b: bool)
    ensures b <==> ("username", "test") in fields.Items && ("password", "test") in fields.Items
  {
    && "username" in fields && fields["username"] == "test"
    && "password" in fields && fields["password"] == "test"
  }

  /** The first screen: the login form when the session holds no user, the
      list otherwise. */
  function StartScreen(sessionUser: Option<User>): (s: Screen)
    ensures s == Login <==> sessionUser.None?
    ensures s == List <==> sessionUser.Some?
  {
    if sessionUser.None? then Login else List
  }

  /** The navigation manager's back step: the shown screen is dropped when
      there is one to go back to. */
  function NavigateBack(stack: seq<Screen>): (r: seq<Screen>)
    ensures |stack| >= 2 ==> r + [stack[|stack| - 1]] == stack
    ensures |stack| < 2 ==> r == stack
  {
    if |stack| >= 2 then stack[..|stack| - 1] else stack
  }

  /** The container's items are distinct beans, and every id is below the next
      one to be handed out. */
  ghost predicate ValidState(st: ControllerState) {
    && NoDuplicates(st.users)
    && forall u | u in st.users :: u.id < st.nextId
  }

  /** A call on the sending edit form; any other sender fails the cast. */
  function FormCall(st: ControllerState, sender: Sender, op: FormOp): (r: Step)
    ensures r.outcome.Ok? <==> sender.EditViewSender?
    ensures r.outcome.Ok? ==> r.state == st.(events := st.events + [FormCalled(sender.view, op)])
    ensures r.outcome.Fail? ==> r.state == st
  {
    match sender
    case EditViewSender(v) => Step(st.(events := st.events + [FormCalled(v, op)]), Ok)
    case _ => Step(st, Fail(ClassCast))
  }

  /** LOG_IN: the target is the login form's value map. */
  function LogInStep(st: ControllerState, target: Target): (r: Step)
    ensures r.outcome.Ok? <==> target.Credentials?
    ensures r.state == st.(stack := r.state.stack, notifications := r.state.notifications)
    ensures r.state.stack == st.stack + [List] <==> target.Credentials? && IsTestLogin(target.fields)
    ensures r.state.stack != st.stack ==> r.state.notifications == st.notifications
    ensures r.state.notifications != st.notifications ==>
      r.state.stack == st.stack && r.state.notifications == st.notifications + [InvalidCredentials]
    ensures r.outcome.Fail? ==> r.state == st
    ensures target.Credentials? && !IsTestLogin(target.fields) ==>
      r.state == st.(notifications := st.notifications + [InvalidCredentials])
  {
    match target
    case Credentials(fields) =>
      if IsTestLogin(fields) then Step(st.(stack := st.stack + [List]), Ok)
      else Step(st.(notifications := st.notifications + [InvalidCredentials]), Ok)
    case ItemTarget(_) => Step(st, Fail(ClassCast))
    case NoTarget => Step(st, Fail(NullPointer))
  }

  /** CLOSE: one step back, whoever sends it. */
  function CloseStep(st: ControllerState): (r: Step)
    ensures r.outcome == Ok && r.state == st.(stack := r.state.stack)
    ensures |st.stack| >= 2 ==> r.state.stack + [st.stack[|st.stack| - 1]] == st.stack
    ensures |st.stack| < 2 ==> r.state.stack == st.stack
  {
    Step(st.(stack := NavigateBack(st.stack)), Ok)
  }

  /** DELETE: the sending list's marked items leave the container. */
  function DeleteStep(st: ControllerState, sender: Sender): (r: Step)
    ensures r.outcome.Ok? <==> sender.ListViewSender?
    ensures r.state == st.(users := r.state.users)
    ensures r.outcome.Ok? ==> multiset(r.state.users) == multiset(st.users) - multiset(sender.marked)
    ensures r.outcome.Fail? ==> r.state == st
  {
    match sender
    case ListViewSender(marked) => Step(st.(users := RemoveEach(st.users, marked)), Ok)
    case _ => Step(st, Fail(ClassCast))
  }

  /** CHOOSE_ITEM: the edit screen for the target item; an item the container
      does not hold is `null`, and building its edit view fails. */
  function ChooseItemStep(st: ControllerState, sender: Sender, target: Target): (r: Step)
    ensures r.outcome.Ok? <==> sender.ListViewSender? && target.ItemTarget? && target.item in st.users
    ensures r.outcome.Ok? ==> r.state == st.(stack := st.stack + [Edit(target.item)])
    ensures r.outcome.Fail? ==> r.state == st
  {
    match sender
    case ListViewSender(_) =>
      if target.ItemTarget? && target.item in st.users
      then Step(st.(stack := st.stack + [Edit(target.item)]), Ok)
      else Step(st, Fail(NullPointer))
    case _ => Step(st, Fail(ClassCast))
  }

  /** NEW_ITEM: a new blank bean is added and its edit screen shown. */
  function NewItemStep(st: ControllerState, sender: Sender): (r: Step)
    ensures r.outcome.Ok? <==> sender.ListViewSender?
    ensures r.outcome.Fail? ==> r.state == st
    ensures r.outcome.Ok? ==>
      && r.state == st.(users := r.state.users, nextId := st.nextId + 1, stack := r.state.stack)
      && |r.state.users| == |st.users| + 1 && r.state.users[..|st.users|] == st.users
      && r.state.users[|st.users|].id == st.nextId
      && r.state.stack == st.stack + [Edit(r.state.users[|st.users|])]
  {
    match sender
    case ListViewSender(_) =>
      var u := BlankUser(st.nextId);
      Step(st.(users := st.users + [u], nextId := st.nextId + 1, stack := st.stack + [Edit(u)]), Ok)
    case _ => Step(st, Fail(ClassCast))
  }

  /** The body of a handler, run after its invocation has been recorded. */
  function Run(h: Handler, st: ControllerState, sender: Sender, target: Target): (r: Step)
    ensures r.state.handlers == st.handlers && r.state.ignoring == st.ignoring
    ensures |r.state.events| >= |st.events| && r.state.events[..|st.events|] == st.events
    ensures forall i :: |st.events| <= i < |r.state.events| ==> r.state.events[i].FormCalled?
    ensures h.Registered? ==> r == Step(st, Ok)
  {
    match h
    case LogInHandler => LogInStep(st, target)
    case ClearHandler => FormCall(st, sender, ClearForm)
    case CommitHandler => FormCall(st, sender, CommitForm)
    case RestoreHandler => FormCall(st, sender, DiscardForm)
    case CloseHandler => CloseStep(st)
    case DeleteHandler => DeleteStep(st, sender)
    case ChooseItemHandler => ChooseItemStep(st, sender, target)
    case NewItemHandler => NewItemStep(st, sender)
    case Registered(_) => Step(st, Ok)
  }

  /** `handleAction`: an action with a handler goes to that handler, with the
      same action, sender and target; one without is ignored, or reported by
      one error notification when the flag says so. */
  function Dispatch(st: ControllerState, action: Action, sender: Sender, target: Target): (r: Step)
    ensures r.state.handlers == st.handlers && r.state.ignoring == st.ignoring
    ensures action !in st.handlers ==> r.outcome == Ok
  {
    if action in st.handlers then
      var h := st.handlers[action];
      var st' := st.(events := st.events + [Invoked(h, action, sender, target)]);
      Run(h, st', sender, target)
    else if st.ignoring then Step(st, Ok)
    else Step(st.(notifications := st.notifications + [UnregisteredNotification(action.caption)]), Ok)
  }

  /** Handling any action keeps the container free of duplicate beans and
      keeps every id below the next one. */
  lemma DispatchPreservesValid(st: ControllerState, action: Action, sender: Sender, target: Target)
    requires ValidState(st)
    ensures ValidState(Dispatch(st, action, sender, target).state)
  {
    if action in st.handlers {
      var h := st.handlers[action];
      RunPreservesValid(h, st.(events := st.events + [Invoked(h, action, sender, target)]), sender, target);
    }
  }

  lemma RunPreservesValid(h: Handler, st: ControllerState, sender: Sender, target: Target)
    requires ValidState(st)
    ensures ValidState(Run(h, st, sender, target).state)
  {
    var r := Run(h, st, sender, target).state;
    if h == DeleteHandler && sender.ListViewSender? {
      RemoveEachFromDistinct(st.users, sender.marked);
      assert r.users == RemoveEach(st.users, sender.marked) && r.nextId == st.nextId;
    } else if h == NewItemHandler && sender.ListViewSender? {
      AddBlankUserKeepsValid(st.users, st.nextId);
      assert r.users == st.users + [BlankUser(st.nextId)] && r.nextId == st.nextId + 1;
    } else {
      assert r.users == st.users && r.nextId == st.nextId;
    }
  }

  /** A bean with the next id is new to the container. */
  lemma AddBlankUserKeepsValid(users: seq<User>, nextId: nat)
    requires NoDuplicates(users) && forall u | u in users :: u.id < nextId
    ensures NoDuplicates(users + [BlankUser(nextId)])
    ensures forall u | u in users + [BlankUser(nextId)] :: u.id < nextId + 1
  {
    var b := BlankUser(nextId);
    assert b !in users;
    var all := users + [b];
    assert multiset(all) == multiset(users) + multiset{b};
    forall x | x in all ensures multiset(all)[x] == 1 {
      if x == b {
        assert multiset(users)[b] == 0;
      } else {
        assert x in users;
      }
    }
  }

  /** The seed users are distinct beans with ids below their number. */
  lemma SeedUsersValid()
    ensures NoDuplicates(SeedUsers())
    ensures forall u | u in SeedUsers() :: u.id < |SeedUsers()|
  {
    var s := SeedUsers();
    assert multiset(s) == multiset{s[0]} + multiset{s[1]} + multiset{s[2]} by {
      assert s == [s[0]] + [s[1]] + [s[2]];
    }
  }

  /** An action without a handler changes nothing but the notification log,
      and that only when unregistered actions are not ignored: then by exactly
      one error notification naming the action. */
  lemma UnregisteredAction(st: ControllerState, action: Action, sender: Sender, target: Target)
    requires action !in st.handlers
    ensures var r := Dispatch(st, action, sender, target);
      && r.outcome == Ok
      && r.state.(notifications := st.notifications) == st
      && (st.ignoring ==> r.state.notifications == st.notifications)
      && (!st.ignoring ==> r.state.notifications == st.notifications + [UnregisteredNotification(action.caption)])
  {
  }

  /** An action with a handler invokes exactly that handler, once, with the
      same action, sender and target; the table and the flag stay as they
      were. */
  lemma RegisteredActionInvokesItsHandler(st: ControllerState, action: Action, sender: Sender, target: Target)
    requires action in st.handlers
    ensures var r := Dispatch(st, action, sender, target);
      && |r.state.events| > |st.events|
      && r.state.events[..|st.events| + 1] == st.events + [Invoked(st.handlers[action], action, sender, target)]
      && (forall i :: |st.events| < i < |r.state.events| ==> r.state.events[i].FormCalled?)
      && r.state.handlers == st.handlers && r.state.ignoring == st.ignoring
  {
  }

  /** After `setActionHandler(a, h)` the action goes to `h`. */
  lemma SetThenDispatch(st: ControllerState, action: Action, h: Handler, sender: Sender, target: Target)
    ensures var r := Dispatch(st.(handlers := st.handlers[action := h]), action, sender, target);
      r.state.events[|st.events|] == Invoked(h, action, sender, target)
  {
  }

  /** After `removeActionHandler(a)` the action is an unregistered one. */
  lemma RemoveThenDispatch(st: ControllerState, action: Action, sender: Sender, target: Target)
    ensures var st' := st.(handlers := st.handlers - {action});
      var r := Dispatch(st', action, sender, target);
      && r.outcome == Ok
      && r.state.events == st.events && r.state.stack == st.stack && r.state.users == st.users
      && r.state.notifications == if st.ignoring then st.notifications
                                  else st.notifications + [UnregisteredNotification(action.caption)]
  {
    var st' := st.(handlers := st.handlers - {action});
    assert action !in st'.handlers;
    UnregisteredAction(st', action, sender, target);
  }

  /** Logging in moves to the list exactly for test/test; otherwise the stack
      stays and one warning is shown. */
  lemma LogInOnlyWithTestCredentials(st: ControllerState, action: Action, sender: Sender, fields: map<string, string>)
    requires action in st.handlers && st.handlers[action] == LogInHandler
    ensures var r := Dispatch(st, action, sender, Credentials(fields));
      && r.outcome == Ok && r.state.users == st.users
      && (r.state.stack == st.stack + [List] <==> IsTestLogin(fields))
      && (IsTestLogin(fields) ==> r.state.notifications == st.notifications)
      && (!IsTestLogin(fields) ==>
            r.state.stack == st.stack && r.state.notifications == st.notifications + [InvalidCredentials])
  {
  }

  /** Deleting removes exactly the marked items, keeps the others in order,
      and stays on the same screen. */
  lemma DeleteRemovesExactlyMarked(st: ControllerState, action: Action, marked: seq<User>, target: Target)
    requires ValidState(st)
    requires action in st.handlers && st.handlers[action] == DeleteHandler
    ensures var r := Dispatch(st, action, ListViewSender(marked), target);
      && r.outcome == Ok && r.state.stack == st.stack
      && (forall u :: u in r.state.users <==> u in st.users && u !in marked)
      && IsSubsequence(r.state.users, st.users)
  {
    RemoveEachFromDistinct(st.users, marked);
    RemoveEachIsSubsequence(st.users, marked);
  }

  /** Deleting marked items that are all present and distinct shrinks the
      container by their number. */
  lemma DeleteCount(st: ControllerState, action: Action, marked: seq<User>, target: Target)
    requires ValidState(st) && NoDuplicates(marked)
    requires forall u | u in marked :: u in st.users
    requires action in st.handlers && st.handlers[action] == DeleteHandler
    ensures |Dispatch(st, action, ListViewSender(marked), target).state.users| == |st.users| - |marked|
  {
    var ms, mm := multiset(st.users), multiset(marked);
    assert mm <= ms by {
      forall x ensures mm[x] <= ms[x] {
        if x in marked {
          assert mm[x] == 1 && x in st.users;
        }
      }
    }
    assert ms == (ms - mm) + mm;
  }

  /** A new item is one blank bean, not in the container before, appended to
      it; the edit screen for it is pushed. */
  lemma NewItemAddsOneAndEdits(st: ControllerState, action: Action, marked: seq<User>, target: Target)
    requires ValidState(st)
    requires action in st.handlers && st.handlers[action] == NewItemHandler
    ensures var r := Dispatch(st, action, ListViewSender(marked), target);
      && r.outcome == Ok
      && |r.state.users| == |st.users| + 1
      && r.state.users[..|st.users|] == st.users
      && r.state.users[|st.users|] !in st.users
      && r.state.stack == st.stack + [Edit(r.state.users[|st.users|])]
  {
    assert BlankUser(st.nextId) !in st.users;
  }

  /** Choosing an item in the container opens its edit screen; choosing
      anything else fails (the item is `null` in Java) and changes no screen. */
  lemma ChooseItemOpensEdit(st: ControllerState, action: Action, marked: seq<User>, target: Target)
    requires action in st.handlers && st.handlers[action] == ChooseItemHandler
    ensures var r := Dispatch(st, action, ListViewSender(marked), target);
      && r.state.users == st.users
      && (target.ItemTarget? && target.item in st.users ==>
            r.outcome == Ok && r.state.stack == st.stack + [Edit(target.item)])
      && (!(target.ItemTarget? && target.item in st.users) ==>
            r.outcome == Fail(NullPointer) && r.state.stack == st.stack)
  {
  }

  /** Leaving pops exactly one screen when there is one to go back to. */
  lemma CloseGoesBackOne(st: ControllerState, action: Action, sender: Sender, target: Target)
    requires action in st.handlers && st.handlers[action] == CloseHandler
    requires |st.stack| >= 2
    ensures var r := Dispatch(st, action, sender, target);
      r.outcome == Ok && r.state.stack + [st.stack[|st.stack| - 1]] == st.stack && r.state.users == st.users
  {
  }

  /** Clear, save and undo act on the sending form only: screen, container and
      notifications stay, and one call on that form is recorded: `clear` for
      CLEAR, `commit` for COMMIT, `discard` for RESTORE. */
  lemma FormActionsStayInPlace(st: ControllerState, action: Action, view: nat, target: Target)
    requires action in st.handlers
    requires st.handlers[action] in {ClearHandler, CommitHandler, RestoreHandler}
    ensures var r := Dispatch(st, action, EditViewSender(view), target);
      && r.outcome == Ok
      && r.state.stack == st.stack && r.state.users == st.users && r.state.notifications == st.notifications
      && |r.state.events| == |st.events| + 2
      && r.state.events[|st.events| + 1].FormCalled? && r.state.events[|st.events| + 1].view == view
      && (st.handlers[action] == ClearHandler ==> r.state.events[|st.events| + 1].op == ClearForm)
      && (st.handlers[action] == CommitHandler ==> r.state.events[|st.events| + 1].op == CommitForm)
      && (st.handlers[action] == RestoreHandler ==> r.state.events[|st.events| + 1].op == DiscardForm)
  {
  }

  /** The captions of the controller's actions, in declaration order: log in,
      clear, save, undo, leave, new, delete marked, choose item. */
  const ActionCaptions: seq<string> :=
    ["Log in", "Clear", "Save", "Undo", "Leave", "New", "Delete marked", "Choose item"]

  /** Creates one new action per caption; new objects are never equal to each
      other, so the actions are distinct keys. */
  method NewActions(captions: seq<string>) returns (actions: seq<Action>)
    ensures |actions| == |captions| && Distinct(actions)
    ensures forall i | 0 <= i < |actions| :: fresh(actions[i]) && actions[i].caption == captions[i]
  {
    actions := [];
    for k := 0 to |captions|
      invariant |actions| == k && Distinct(actions)
      invariant forall i | 0 <= i < k :: fresh(actions[i]) && actions[i].caption == captions[i]
    {
      var a := new Action(captions[k]);
      actions := actions + [a];
    }
  }

  class ToucheeController {
    const logIn: Action
    const clear: Action
    const commit: Action
    const restore: Action
    const close: Action
    const newItem: Action
    const delete: Action
    /** The list view's "choose item" action. `ListView` is not part of this
        model, so its caption here is a stand-in. */
    const chooseItem: Action

    /** The navigation manager's screens; the last one is shown. */
    var stack: seq<Screen>
    /** The users container, in order. */
    var users: seq<User>
    /** The id the container gives the next new bean. */
    var nextId: nat
    var actionHandlers: map<Action, Handler>
    var ignoringUnregisteredActions: bool
    /** The notifications shown so far. */
    var notifications: seq<Notification>
    /** Handler invocations and edit-form calls so far. */
    var events: seq<Event>

    ghost function State(): ControllerState
      reads this
    {
      ControllerState(stack, users, nextId, actionHandlers, ignoringUnregisteredActions, notifications, events)
    }

    ghost predicate Valid()
      reads this
    {
      ValidState(State())
    }

    /** Registers the eight built-in handlers, seeds the container with three
        users, and ignores unregistered actions. */
    constructor ()
      ensures Valid()
      ensures fresh(logIn) && fresh(clear) && fresh(commit) && fresh(restore)
      ensures fresh(close) && fresh(newItem) && fresh(delete) && fresh(chooseItem)
      ensures Distinct([logIn, clear, commit, restore, close, newItem, delete, chooseItem])
      ensures [logIn.caption, clear.caption, commit.caption, restore.caption,
               close.caption, newItem.caption, delete.caption, chooseItem.caption] == ActionCaptions
      ensures actionHandlers == map[logIn := LogInHandler, clear := ClearHandler, close := CloseHandler,
                                    delete := DeleteHandler, commit := CommitHandler, restore := RestoreHandler,
                                    chooseItem := ChooseItemHandler, newItem := NewItemHandler]
      ensures stack == [] && users == SeedUsers() && nextId == |SeedUsers()|
      ensures ignoringUnregisteredActions
      ensures notifications == [] && events == []
    {
      var actions := NewActions(ActionCaptions);
      logIn, clear, commit, restore := actions[0], actions[1], actions[2], actions[3];
      close, newItem, delete, chooseItem := actions[4], actions[5], actions[6], actions[7];
      stack := [];
      users := SeedUsers();
      nextId := |SeedUsers()|;
      ignoringUnregisteredActions := true;
      notifications := [];
      events := [];
      new;
      assert [logIn, clear, commit, restore, close, newItem, delete, chooseItem] == actions;
      SeedUsersValid();
      actionHandlers := map[logIn := LogInHandler, clear := ClearHandler, close := CloseHandler,
                            delete := DeleteHandler, commit := CommitHandler, restore := RestoreHandler,
                            chooseItem := ChooseItemHandler, newItem := NewItemHandler];
    }

    /** Shows the login form when the session holds no user, the list
        otherwise. */
    method NavigateToStart(sessionUser: Option<User>)
      modifies this`stack
      ensures stack == old(stack) + [StartScreen(sessionUser)]
    {
      if sessionUser.None? {
        stack := stack + [Login];
      } else {
        stack := stack + [List];
      }
    }

    /** The actions of the screen shown, when that screen advertises any;
        `advertised` stands for the views' own `getActions`. */
    function GetActions(target: Target, sender: Sender, advertised: (Screen, Target, Sender) -> Option<seq<Action>>): (r: seq<Action>)
      reads this
      ensures stack == [] ==> r == []
      ensures stack != [] && advertised(stack[|stack| - 1], target, sender).Some? ==>
        r == advertised(stack[|stack| - 1], target, sender).value
      ensures stack != [] && advertised(stack[|stack| - 1], target, sender).None? ==> r == []
    {
      if stack == [] then []
      else match advertised(stack[|stack| - 1], target, sender)
        case Some(actions) => actions
        case None => []
    }

    method SetActionHandler(action: Action, handler: Handler)
      modifies this`actionHandlers
      ensures actionHandlers == old(actionHandlers)[action := handler]
    {
      actionHandlers := actionHandlers[action := handler];
    }

    method RemoveActionHandler(action: Action)
      modifies this`actionHandlers
      ensures actionHandlers == old(actionHandlers) - {action}
    {
      actionHandlers := actionHandlers - {action};
    }

    function IsIgnoringUnregisteredActions(): bool
      reads this
    {
      ignoringUnregisteredActions
    }

    method SetIgnoringUnregisteredActions(ignoring: bool)
      modifies this`ignoringUnregisteredActions
      ensures IsIgnoringUnregisteredActions() == ignoring
    {
      ignoringUnregisteredActions := ignoring;
    }

    /** Dispatches the action as `Dispatch` says, keeping the container
        valid. */
    method HandleAction(action: Action, sender: Sender, target: Target) returns (outcome: Outcome)
      requires Valid()
      modifies this
      ensures Valid()
      ensures Step(State(), outcome) == Dispatch(old(State()), action, sender, target)
    {
      DispatchPreservesValid(State(), action, sender, target);
      outcome := Forward(action, sender, target);
    }

    /** The lookup in the handler table and the call, or the unregistered
        case. */
    method Forward(action: Action, sender: Sender, target: Target) returns (outcome: Outcome)
      modifies this
      ensures Step(State(), outcome) == Dispatch(old(State()), action, sender, target)
    {
      if action in actionHandlers {
        var h := actionHandlers[action];
        events := events + [Invoked(h, action, sender, target)];
        outcome := RunHandler(h, sender, target);
      } else {
        if !ignoringUnregisteredActions {
          notifications := notifications + [UnregisteredNotification(action.caption)];
        }
        outcome := Ok;
      }
    }

    /** Runs the body of the handler `h`. */
    method RunHandler(h: Handler, sender: Sender, target: Target) returns (outcome: Outcome)
      modifies this
      ensures Step(State(), outcome) == Run(h, old(State()), sender, target)
    {
      match h {
        case LogInHandler => outcome := LogIn(target);
        case ClearHandler => outcome := CallForm(sender, ClearForm);
        case CommitHandler => outcome := CallForm(sender, CommitForm);
        case RestoreHandler => outcome := CallForm(sender, DiscardForm);
        case CloseHandler => outcome := Close();
        case DeleteHandler => outcome := Delete(sender);
        case ChooseItemHandler => outcome := ChooseItem(sender, target);
        case NewItemHandler => outcome := NewItem(sender);
        case Registered(_) => outcome := Ok;
      }
    }

    /** The LOG_IN handler. */
    method LogIn(target: Target) returns (outcome: Outcome)
      modifies this`stack, this`notifications
      ensures Step(State(), outcome) == LogInStep(old(State()), target)
    {
      match target {
        case Credentials(fields) =>
          if IsTestLogin(fields) {
            stack := stack + [List];
          } else {
            notifications := notifications + [InvalidCredentials];
          }
          outcome := Ok;
        case ItemTarget(_) => outcome := Fail(ClassCast);
        case NoTarget => outcome := Fail(NullPointer);
      }
    }

    /** The CLOSE handler. */
    method Close() returns (outcome: Outcome)
      modifies this`stack
      ensures Step(State(), outcome) == CloseStep(old(State()))
    {
      if |stack| >= 2 {
        stack := stack[..|stack| - 1];
      }
      outcome := Ok;
    }

    /** The DELETE handler. */
    method Delete(sender: Sender) returns (outcome: Outcome)
      modifies this`users
      ensures Step(State(), outcome) == DeleteStep(old(State()), sender)
    {
      match sender {
        case ListViewSender(marked) =>
          RemoveItems(marked);
          outcome := Ok;
        case _ => outcome := Fail(ClassCast);
      }
    }

    /** The CHOOSE_ITEM handler. */
    method ChooseItem(sender: Sender, target: Target) returns (outcome: Outcome)
      modifies this`stack
      ensures Step(State(), outcome) == ChooseItemStep(old(State()), sender, target)
    {
      match sender {
        case ListViewSender(_) =>
          if target.ItemTarget? && target.item in users {
            stack := stack + [Edit(target.item)];
            outcome := Ok;
          } else {
            outcome := Fail(NullPointer);
          }
        case _ => outcome := Fail(ClassCast);
      }
    }

    /** The NEW_ITEM handler. */
    method NewItem(sender: Sender) returns (outcome: Outcome)
      modifies this`users, this`nextId, this`stack
      ensures Step(State(), outcome) == NewItemStep(old(State()), sender)
    {
      match sender {
        case ListViewSender(_) =>
          var u := BlankUser(nextId);
          users := users + [u];
          nextId := nextId + 1;
          stack := stack + [Edit(u)];
          outcome := Ok;
        case _ => outcome := Fail(ClassCast);
      }
    }

    /** The CLEAR, COMMIT and RESTORE handlers: a call on the sending edit
        form, or a failed cast. */
    method CallForm(sender: Sender, op: FormOp) returns (outcome: Outcome)
      modifies this`events
      ensures Step(State(), outcome) == FormCall(old(State()), sender, op)
    {
      if sender.EditViewSender? {
        events := events + [FormCalled(sender.view, op)];
        outcome := Ok;
      } else {
        outcome := Fail(ClassCast);
      }
    }

    /** Removes the marked items from the container one by one. */
    method RemoveItems(marked: seq<User>)
      modifies this`users
      ensures users == RemoveEach(old(users), marked)
    {
      var i := 0;
      while i < |marked|
        invariant 0 <= i <= |marked|
        invariant users == RemoveEach(old(users), marked[..i])
      {
        RemoveEachStep(old(users), marked, i);
        users := RemoveFirst(users, marked[i]);
        i := i + 1;
      }
      assert marked[..i] == marked;
    }
  }

  /** A new controller with no session user shows the login form; logging in
      as test/test then shows the list, and a wrong password shows one warning
      and stays on the login form. */
  method LogInFromStart(password: string) returns (c: ToucheeController, outcome: Outcome)
    ensures outcome == Ok
    ensures password == "test" ==> c.stack == [Login, List] && c.notifications == []
    ensures password != "test" ==> c.stack == [Login] && c.notifications == [InvalidCredentials]
  {
    c := new ToucheeController();
    c.NavigateToStart(None);
    var fields := map["username" := "test", "password" := password];
    outcome := c.HandleAction(c.logIn, EditViewSender(0), Credentials(fields));
  }
}
