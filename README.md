# Touchee core: field definitions, sequence action buttons, view controller

This project models three pieces of the touchee mobile UI layer. Each is
separated from the Vaadin framework it sits on.

- **Field definitions** (`field_definitions.dfy`, module `FieldDefinitions`).
  A form field's definition is built from its `FormField` annotation, the
  field's name and its declared type.
  - An identifier equal to the "default identifier" marker becomes the field name.
  - A caption equal to the "default caption" marker becomes the field name with
    its first character upper-cased.
  - The property id is always the field name.
  - The value type and the annotation's auxiliary information are copied unchanged.
  - The definition is an immutable value, and its five getters are the datatype's destructors.
- **Sequence action button** (`sequence_action_button.dfy`, module
  `SequenceButtons`). The button is a class that owns a mutable, ordered list of
  actions, duplicates allowed.
  - `AddAction` appends; `RemoveAction` removes the first occurrence of each
    argument in turn; `ContainsAction` tests membership.
  - `GetActions` returns a read-only view that stays backed by the list.
  - A click (`ButtonClick`) calls the handler on each action in order, with the
    same sender and target. It stops at the first failure, which becomes exactly
    one error notification and goes no further.
  - The handler is a function from (action, sender, target) to `Ok` or `Fail(message)`.
- **View controller** (`touchee_controller.dfy`, module `Touchee`). The
  controller is a class holding:
  - a table from actions (compared by reference) to handlers;
  - the "ignore unregistered actions" flag;
  - a navigation stack of screens (`Login`, `List`, `Edit(item)`);
  - the container of user records;
  - a log of the notifications shown and of the calls made on edit forms.

  The pure function `Dispatch` states what handling one action does. This
  covers the eight built-in handlers (log in, clear, save, undo, leave, new,
  delete marked, choose item) and the unregistered case. `HandleAction` and the
  per-handler methods are proved to change the object's state exactly as
  `Dispatch` says, and to keep the container free of duplicate beans.

`ui.dfy` (module `Ui`) holds the shared values. `Action` is a class, so two
actions with the same caption are different keys, as in Java. It also defines
`Outcome` and `Notification`. `sequences.dfy` (module `Sequences`) models Java's
`List.remove(Object)` applied once (`RemoveFirst`) or once per argument
(`RemoveEach`), with their multiset, membership and order properties.

Three things are Java exceptions in the source and an outcome value here:
- a handler's failure;
- a failed cast of the sender or target (`java.lang.ClassCastException`);
- a dereference of `null` (`java.lang.NullPointerException`).

## Where the code and its comments differ

The model follows the code in both places.

- `getActions` is documented as returning an "unmodifiable copy"
  (`SequenceActionButton.java:120`). The code returns
  `Collections.unmodifiableList(this.actions)` (line 125), which is a live
  read-only view. `ActionsView.Contents` reads the button's current list.
  `ViewSeesLaterAdditions` shows a view taken before an addition seeing it.
- `isIgnoringUnregisteredActions` is documented as making unregistered actions
  "throw an exception" when false (`ToucheeController.java:282`). The code shows
  an error notification instead (lines 276-278). `Dispatch` and
  `UnregisteredAction` model the notification.

## Model

| member | source | states |
|---|---|---|
| FieldDefinitions.NewFieldDefinition | touchee/src/org/vaadin/miki/form/annotations/AnnotationFieldDefinition.java:29-47 | value type and info copied; property id is the field name; identifier is the field name exactly when the annotation gives the marker, else the annotation's; caption is the name with only its first character upper-cased exactly when the annotation gives the caption marker, else the annotation's caption; a non-empty name is needed only for the default caption |
| FieldDefinitions.Capitalize | touchee/src/org/vaadin/miki/form/annotations/AnnotationFieldDefinition.java:44 | same length as the name; the first character is its upper-case form (never lower-case); every later character unchanged |
| FieldDefinitions.ToUpper | touchee/src/org/vaadin/miki/form/annotations/AnnotationFieldDefinition.java:44 | a lower-case letter maps to its capital, any other character to itself, and the result is never lower-case |
| FieldDefinitions.CapitalizeIdempotent | touchee/src/org/vaadin/miki/form/annotations/AnnotationFieldDefinition.java:44 | capitalising a capitalised name changes nothing |
| FieldDefinitions.ExplicitDefaultsAgree | touchee/src/org/vaadin/miki/form/annotations/AnnotationFieldDefinition.java:35-46 | an annotation spelling out the field name and its capitalised form gives the same definition as one using the two markers |
| FieldDefinitions.IdentifierIsNeverTheMarker | touchee/src/org/vaadin/miki/form/annotations/AnnotationFieldDefinition.java:35-38 | unless the field is itself named like the marker, the marker never ends up as a definition's identifier |
| SequenceButtons.SequenceActionButton.constructor | touchee/src/org/vaadin/miki/touchee/ui/actions/SequenceActionButton.java:34-38 | caption and action list are as given, in order; no handler, sender or target |
| SequenceButtons.SequenceActionButton.WithHandler | touchee/src/org/vaadin/miki/touchee/ui/actions/SequenceActionButton.java:50-53 | as above, and the handler is recorded |
| SequenceButtons.SequenceActionButton.WithSender | touchee/src/org/vaadin/miki/touchee/ui/actions/SequenceActionButton.java:67-70 | as above, and the handler and the sender are recorded |
| SequenceButtons.SequenceActionButton.EffectiveSender | touchee/src/org/vaadin/miki/touchee/ui/actions/SequenceActionButton.java:75 | the explicit sender when one is set, the button itself otherwise |
| SequenceButtons.SequenceActionButton.TargetPassed | touchee/src/org/vaadin/miki/touchee/ui/actions/SequenceActionButton.java:78 | the button's current target, or none |
| SequenceButtons.FirstFailure | touchee/src/org/vaadin/miki/touchee/ui/actions/SequenceActionButton.java:76-82 | every action before the returned position succeeds, and the action at it (if any) fails |
| SequenceButtons.ErrorNotification | touchee/src/org/vaadin/miki/touchee/ui/actions/SequenceActionButton.java:81 | an error-severity notification carrying the failure's message |
| SequenceButtons.SequenceActionButton.ButtonClick | touchee/src/org/vaadin/miki/touchee/ui/actions/SequenceActionButton.java:73-84 | no calls and no notification without a handler or without actions; otherwise exactly the actions up to and including the first failure are handed over, in list order, each with the same effective sender and target; one error notification with the failure's message when one fails, none when all succeed; the button is left unchanged |
| SequenceButtons.ClickTwice | touchee/src/org/vaadin/miki/touchee/ui/actions/SequenceActionButton.java:73-84 | a click does not change the list, so two clicks in a row make the same calls |
| SequenceButtons.SequenceActionButton.AddAction | touchee/src/org/vaadin/miki/touchee/ui/actions/SequenceActionButton.java:92-95 | the new list is the old one followed by the added actions, duplicates kept |
| SequenceButtons.SequenceActionButton.RemoveAction | touchee/src/org/vaadin/miki/touchee/ui/actions/SequenceActionButton.java:103-106 | the new list is the old one with the first occurrence of each argument removed, argument by argument |
| Sequences.RemoveFirst | touchee/src/org/vaadin/miki/touchee/ui/actions/SequenceActionButton.java:105 | an absent element leaves the list unchanged; otherwise exactly its first occurrence is cut out |
| Sequences.IndexOf | touchee/src/org/vaadin/miki/touchee/ui/actions/SequenceActionButton.java:105 | the position holds the element and no earlier position does |
| Sequences.RemoveEach | touchee/src/org/vaadin/miki/touchee/ui/actions/SequenceActionButton.java:103-106 | the result's multiset is the old one minus the arguments', so the length drops by the number of removals that found something |
| Sequences.RemoveEachIsSubsequence | touchee/src/org/vaadin/miki/touchee/ui/actions/SequenceActionButton.java:103-106 | the elements left keep their relative order |
| Sequences.RemoveFirstMembership | touchee/src/org/vaadin/miki/touchee/ui/actions/SequenceActionButton.java:105 | after one removal the element is still there exactly when it occurred at least twice |
| SequenceButtons.ContainedAfterRemove | touchee/src/org/vaadin/miki/touchee/ui/actions/SequenceActionButton.java:103-117 | removing an action once leaves it contained exactly when it had been added more than once |
| SequenceButtons.AddThenRemoveAbsent | touchee/src/org/vaadin/miki/touchee/ui/actions/SequenceActionButton.java:92-106 | adding an absent action and removing it restores the list |
| SequenceButtons.AddThenRemovePresent | touchee/src/org/vaadin/miki/touchee/ui/actions/SequenceActionButton.java:92-106 | adding an action already present and removing it drops the earlier occurrence and keeps the added one at the end |
| SequenceButtons.SequenceActionButton.ContainsAction | touchee/src/org/vaadin/miki/touchee/ui/actions/SequenceActionButton.java:115-117 | true exactly when some position of the list holds the action |
| SequenceButtons.SequenceActionButton.GetActions | touchee/src/org/vaadin/miki/touchee/ui/actions/SequenceActionButton.java:124-126 | a new read-only view on this button whose contents are the current list |
| SequenceButtons.ViewSeesLaterAdditions | touchee/src/org/vaadin/miki/touchee/ui/actions/SequenceActionButton.java:119-126 | a view taken before an addition shows the added action: it is live, not a copy |
| Touchee.ToucheeController.constructor | touchee/src/org/vaadin/miki/touchee/views/ToucheeController.java:32-182 | the eight built-in actions are new, pairwise distinct objects with the source's captions, and each is mapped to its own handler; unregistered actions are ignored; the container holds the three seed users; nothing is shown yet; the container is valid |
| Touchee.NewActions | touchee/src/org/vaadin/miki/touchee/views/ToucheeController.java:32-38 | one new action per caption, with that caption, no two of them the same object |
| Touchee.LogInFromStart | touchee/src/org/vaadin/miki/touchee/views/ToucheeController.java:58-68 | on a new controller with no session user, logging in as test/test shows the login form then the list with no notification; any other password leaves the login form shown and one warning |
| Touchee.SeedUsersValid | touchee/src/org/vaadin/miki/touchee/views/ToucheeController.java:184-196 | the three seed users are distinct beans with ids below their number |
| Touchee.StartScreen | touchee/src/org/vaadin/miki/touchee/views/ToucheeController.java:236-241 | the login screen exactly when the session holds no user, the list exactly when it holds one |
| Touchee.ToucheeController.NavigateToStart | touchee/src/org/vaadin/miki/touchee/views/ToucheeController.java:236-241 | pushes the start screen and nothing else |
| Touchee.ToucheeController.GetActions | touchee/src/org/vaadin/miki/touchee/views/ToucheeController.java:244-248 | the actions the shown screen advertises, or none when nothing is shown or the screen advertises none |
| Touchee.ToucheeController.SetActionHandler | touchee/src/org/vaadin/miki/touchee/views/ToucheeController.java:258-260 | the action maps to the new handler, replacing any earlier one; other entries unchanged |
| Touchee.ToucheeController.RemoveActionHandler | touchee/src/org/vaadin/miki/touchee/views/ToucheeController.java:268-270 | the action is unmapped; other entries unchanged |
| Touchee.ToucheeController.SetIgnoringUnregisteredActions | touchee/src/org/vaadin/miki/touchee/views/ToucheeController.java:286-298 | reading the flag back gives the value set |
| Touchee.ToucheeController.HandleAction | touchee/src/org/vaadin/miki/touchee/views/ToucheeController.java:273-279 | the new state and the outcome are those of `Dispatch` on the old state, and the container stays valid |
| Touchee.ToucheeController.Forward | touchee/src/org/vaadin/miki/touchee/views/ToucheeController.java:274-278 | the table lookup and the call, or the unregistered case, as `Dispatch` says |
| Touchee.ToucheeController.RunHandler | touchee/src/org/vaadin/miki/touchee/views/ToucheeController.java:58-181 | runs the body of the given built-in handler as `Run` says |
| Touchee.ToucheeController.LogIn | touchee/src/org/vaadin/miki/touchee/views/ToucheeController.java:63-68 | the login handler changes the state as `LogInStep` says |
| Touchee.ToucheeController.CallForm | touchee/src/org/vaadin/miki/touchee/views/ToucheeController.java:80-142 | the clear, save and undo handlers record one call on the sending form, or fail the cast |
| Touchee.ToucheeController.Close | touchee/src/org/vaadin/miki/touchee/views/ToucheeController.java:94-96 | the leave handler steps the stack back as `CloseStep` says |
| Touchee.ToucheeController.Delete | touchee/src/org/vaadin/miki/touchee/views/ToucheeController.java:109-113 | the delete handler changes the container as `DeleteStep` says |
| Touchee.ToucheeController.RemoveItems | touchee/src/org/vaadin/miki/touchee/views/ToucheeController.java:111-112 | removes the marked items one by one: the container becomes `RemoveEach` of the old one |
| Touchee.ToucheeController.ChooseItem | touchee/src/org/vaadin/miki/touchee/views/ToucheeController.java:155-159 | the choose-item handler changes the state as `ChooseItemStep` says |
| Touchee.ToucheeController.NewItem | touchee/src/org/vaadin/miki/touchee/views/ToucheeController.java:171-175 | the new-item handler changes the state as `NewItemStep` says |
| Touchee.Dispatch | touchee/src/org/vaadin/miki/touchee/views/ToucheeController.java:273-279 | handling never changes the handler table or the flag, and an action without a handler never ends in a fault |
| Touchee.Run | touchee/src/org/vaadin/miki/touchee/views/ToucheeController.java:58-181 | a handler body never changes the table or the flag, only appends form calls to the event log, and a handler registered from outside succeeds without changing anything |
| Touchee.LogInStep | touchee/src/org/vaadin/miki/touchee/views/ToucheeController.java:63-68 | a fault exactly when the target is not a value map, and then nothing changes; the list is pushed exactly for test/test, with no notification; any other credentials add exactly one invalid-credentials warning and change nothing else |
| Touchee.FormCall | touchee/src/org/vaadin/miki/touchee/views/ToucheeController.java:80-142 | succeeds exactly for an edit-form sender, then records one call of the given operation on that form and changes nothing else; any other sender fails the cast and changes nothing |
| Touchee.CloseStep | touchee/src/org/vaadin/miki/touchee/views/ToucheeController.java:94-96 | never fails; only the stack changes, by exactly one screen when there is one to go back to |
| Touchee.DeleteStep | touchee/src/org/vaadin/miki/touchee/views/ToucheeController.java:109-113 | succeeds exactly for a list sender; only the container changes, losing one occurrence of each marked item; any other sender changes nothing |
| Touchee.ChooseItemStep | touchee/src/org/vaadin/miki/touchee/views/ToucheeController.java:155-159 | succeeds exactly for a list sender and an item the container holds, then pushes that item's edit screen and nothing else; otherwise nothing changes |
| Touchee.NewItemStep | touchee/src/org/vaadin/miki/touchee/views/ToucheeController.java:171-175 | succeeds exactly for a list sender, then appends one bean with the next id, pushes its edit screen, and changes nothing else; otherwise nothing changes |
| Touchee.SeedUsers | touchee/src/org/vaadin/miki/touchee/views/ToucheeController.java:184-196 | three users with the addresses foo@vaadin.com, miki@vaadin.com and vaadin@example.org, numbered 0 to 2; each user name is the part of the address before the `@` |
| Touchee.IsTestLogin | touchee/src/org/vaadin/miki/touchee/views/ToucheeController.java:65 | true exactly when the value map holds "test" under both "username" and "password" |
| Touchee.NavigateBack | touchee/src/org/vaadin/miki/touchee/views/ToucheeController.java:95 | with two or more screens exactly the shown one is dropped; otherwise the stack is unchanged |
| Touchee.UnregisteredNotification | touchee/src/org/vaadin/miki/touchee/views/ToucheeController.java:277-278 | an error notification whose message names the action's caption |
| Touchee.DispatchPreservesValid | touchee/src/org/vaadin/miki/touchee/views/ToucheeController.java:273-279 | handling any action keeps the container's beans distinct and their ids below the next id |
| Touchee.RunPreservesValid | touchee/src/org/vaadin/miki/touchee/views/ToucheeController.java:58-181 | every built-in handler keeps the container valid |
| Touchee.AddBlankUserKeepsValid | touchee/src/org/vaadin/miki/touchee/views/ToucheeController.java:173 | a bean added with the next id is new to the container |
| Sequences.RemoveEachFromDistinct | touchee/src/org/vaadin/miki/touchee/views/ToucheeController.java:111-112 | removing marked items from distinct beans leaves exactly the unmarked ones, still distinct |
| Touchee.UnregisteredAction | touchee/src/org/vaadin/miki/touchee/views/ToucheeController.java:276-278 | an unmapped action changes nothing but the notification log: nothing is shown when the flag is set, exactly one error notification naming the action when it is not; no fault escapes |
| Touchee.RegisteredActionInvokesItsHandler | touchee/src/org/vaadin/miki/touchee/views/ToucheeController.java:274-275 | a mapped action invokes exactly its handler, once, with the same action, sender and target; the table and the flag are unchanged |
| Touchee.SetThenDispatch | touchee/src/org/vaadin/miki/touchee/views/ToucheeController.java:258-260 | after setting a handler, the action goes to that handler |
| Touchee.RemoveThenDispatch | touchee/src/org/vaadin/miki/touchee/views/ToucheeController.java:268-270 | after removing a handler, the action is handled as an unregistered one |
| Touchee.LogInOnlyWithTestCredentials | touchee/src/org/vaadin/miki/touchee/views/ToucheeController.java:64-67 | the list screen is pushed exactly when username and password are both "test"; otherwise the stack stays and exactly one warning is shown |
| Touchee.DeleteRemovesExactlyMarked | touchee/src/org/vaadin/miki/touchee/views/ToucheeController.java:110-112 | delete keeps exactly the unmarked users, in their order, and does not change the screen |
| Touchee.DeleteCount | touchee/src/org/vaadin/miki/touchee/views/ToucheeController.java:110-112 | deleting distinct marked users that are all present shrinks the container by their number |
| Touchee.NewItemAddsOneAndEdits | touchee/src/org/vaadin/miki/touchee/views/ToucheeController.java:172-174 | new item appends exactly one bean not present before and pushes its edit screen |
| Touchee.ChooseItemOpensEdit | touchee/src/org/vaadin/miki/touchee/views/ToucheeController.java:156-158 | choosing an item in the container pushes its edit screen; any other target fails with a null dereference and pushes nothing |
| Touchee.CloseGoesBackOne | touchee/src/org/vaadin/miki/touchee/views/ToucheeController.java:94-95 | leave pops exactly the shown screen when there is one to go back to |
| Touchee.FormActionsStayInPlace | touchee/src/org/vaadin/miki/touchee/views/ToucheeController.java:80-142 | clear, save and undo change no screen, container or notification and record one call on the sending form: `clear` for CLEAR (line 81), `commit` for COMMIT (line 127), `discard` for RESTORE (line 142) |

## Left out

- Vaadin rendering and wiring are not modelled: `UI.setContent`, component captions and layout, and the `addAction`/`addActionHandler` plumbing in `createListView`, `createEditView` and `createLoginView`. Screens are tags on a stack.
- `Notification.show` is not modelled as display. Each shown notification is appended to a log.
- The session user of `VaadinSession.getCurrent()` is a parameter of `NavigateToStart`.
- The internals of `NavigationManager` are not part of this model. `NavigateBack` assumes a step back with fewer than two screens changes nothing. The navigation manager's "previous component" bookkeeping is not modelled.
- The internals of `BeanItemContainer`, `SuperBeanItemContainer` and `BeanItem` are not part of this model. The container is a sequence of user records, and an `id` stands for a bean's identity. `addItem` is taken to append one new blank bean, whose fields start out empty.
- `EditView.clear`, `commit` and `discard` are not part of this model. Each call is recorded as a `FormCalled` event on the sending form.
- `AnnotationFormBuilder` and reflection are not modelled. A `Class<?>` is an opaque `TypeTag`.
- The `FormField` marker values are defined outside this model. `DefaultFieldIdentifier` and `DefaultFieldCaption` are placeholder strings; no property depends on their text.
- FieldDefinitions.ToUpper: upper-cases only the ASCII letters `a`-`z`. Java's locale- and Unicode-dependent `toUpperCase` may change more characters, or the length of the first character's string; that is not modelled.
- Java exceptions are modelled as `Outcome` values. The message of a failed cast or of a null dereference is the exception's class name. In Java the first carries a longer text and the second may be `null`. A `null` message from any handler is not modelled.
- SequenceButtons.SequenceActionButton.ButtonClick: the handler is a pure function. A handler that changes the button while it is being clicked is not modelled, and neither is the `ConcurrentModificationException` that would follow.
- The seed data's string splitting in `getUsersContainer` is not modelled. Only the three resulting records are.
- `configure()` has no behaviour, and `serialVersionUID` is not modelled.
- Each built-in handler's own `getActions` is not modelled. The controller's `GetActions` takes the shown screen's advertised actions as a parameter.
- A `null` handler or a `null` action is not modelled: `Handler` and `Action` values are never null. In Java, `setActionHandler(a, null)` makes a later `handleAction(a, …)` throw `NullPointerException` (line 275) instead of treating `a` as unregistered. `handleAction(null, …)` with the flag off throws at `action.getCaption()` (line 277).
- The `button` field of `ActionsView` is visible to whoever holds the view. Java's `unmodifiableList` hides its backing list. The model does not capture that hiding.
- A `null` sender given to the controller is not modelled. `OtherSender` stands for a sender of the wrong class.
- The body of a handler registered with `setActionHandler` is code outside this model. Its invocation is recorded, and it is taken to succeed.
- The static actions (`LOG_IN` and the rest) and `ListView.CHOOSE_ITEM_ACTION` are per-controller constants here, created by the constructor. `ListView` is not part of this model, so the caption "Choose item" is a stand-in.
- Touchee.ToucheeController.IsIgnoringUnregisteredActions: only returns the field, so it has no contract of its own. `SetIgnoringUnregisteredActions` states the round trip through it.
