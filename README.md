# Chorded keyboard: chord resolution and page navigation

This project models the logic of a CircuitPython chorded keyboard. The user
holds several keys down together (a *chord*). When the first of those keys is
released, the keyboard looks up the set of keys that were down and shows the
token the chord table gives for it. A second pair of keypads moves between
display pages.

The repository holds three versions of the chord engine. All three share the
same accumulator: a `pressed` list, and a loop-local `hot` flag that a press
sets and the first release clears.

- `keyboard.py` (module `Keyboard`):
  - `ChordedKeyboard` looks chords up in a two-level, mode-dependent table.
  - `on_key` fans each entry out to the subscribers, in the order they
    subscribed, stopping at the first one that raises; it then switches mode.
  - Also modelled: the key registry `Keys`, `widget_sub` (subscription), and
    the constructor's type check.
- `code.py` (modules `FlatChord`, `CodeApp`, `Navigation`):
  - `monitor_keys` is the same accumulator over a flat table. It runs against
    the `pressed` and `last_chorded` fields of a `keyboard.py` keyboard.
  - `display_ui` walks between pages along their `onD0`/`onD1`/`onD2` links.
- `main.py` (modules `FlatChord`, `MainApp`): an earlier entry point. It has the
  flat accumulator and a constructor that accepts only a tuple of pins.

How the model is built:

- **The loop body and the loop.** Each engine's loop body is a pure `Step`
  function, which says what one poll of the keypad queue does. `Events.Run`
  folds a step over a finite queue of polls. The imperative `MonitorKeysStep`
  and `MonitorKeys` methods mutate a keyboard object and are proved equal to
  `Step` and `Run`.
- **Exceptions.** Python exceptions are values of `Events.Error`. A step that
  raises returns `Crash(error)`, and the loop stops there. Only the `KeyError`
  of a lookup, or one raised by a subscriber, is caught; it shows `"err"`.
- **The environment.** The chord table (the `chords` module) is a parameter.
  So are the event queues and each subscriber's behaviour.

Two behaviours of the code are modelled as written:

- **Removing a key that is not held.** It is not a no-op: `list.remove`
  raises `ValueError`, nothing catches it, and `monitor_keys` ends.
- **A subscriber that raises.** Nothing isolates subscribers from each other.
  The subscribers after it are not called, and neither `mode` nor
  `last_chorded` is updated by `on_key`.
  - If it raised `KeyError`, the `except KeyError` around the lookup catches
    it, so the display shows `"err"` although the chord was found.
  - If it raised anything else, the exception ends `monitor_keys`.

## Model

| member | source | states |
|---|---|---|
| Keyboard.Keys.constructor | keyboard.py:14-15 | a new registry is empty |
| Keyboard.Keys.AddKey | keyboard.py:17-18 | the key is appended at the end, and the pin list grows by exactly its pin |
| Keyboard.Keys.Keymap | keyboard.py:20-21 | the pins of the registered keys, as many as there are keys, in registration order |
| Keyboard.ChordedKeyboard.constructor | keyboard.py:25-35 | keeps the registry; starts in mode `<NORM>` with nothing pressed, no last token, no subscribers and no calls made |
| Keyboard.ChordedKeyboard.New | keyboard.py:25-30 | succeeds exactly when the argument is a `Keys` (in the initial state); otherwise a TypeError carrying the argument's type |
| Keyboard.FanOutAllReturn | keyboard.py:42-43 | `FanOut`: when no subscriber raises, each one is called exactly once, in subscription order, with the same tuple |
| Keyboard.FanOutStopsAtFirstRaise | keyboard.py:42-43 | `FanOut`: when subscriber j is the first that raises, subscribers 0..j are called in order, none after it, and its exception ends the loop |
| Keyboard.FanOutAfterRaise | keyboard.py:42-43 | `FanOut`: once a prefix of the subscribers has raised, the subscribers after it change nothing |
| Keyboard.FanOutNoneRaisesOther | keyboard.py:42-43 | `FanOut`: if no subscriber can raise anything but KeyError, the fan-out ends in no other exception |
| Keyboard.ChordedKeyboard.OnKey | keyboard.py:41-45 | the loop over subscribers has exactly the fan-out's effect; mode and last token take the tuple's `[1]` and `[0]` only when no subscriber raised, and the raise is returned otherwise |
| Keyboard.HitResolves | keyboard.py:41-45 | `Dispatch` with `OnKeyEffect`: a hit whose subscribers all return notifies them all and then sets mode and last token from the entry, nothing else |
| Keyboard.ChordedKeyboard.WidgetSub | keyboard.py:47-50 | a callable `on_key` is appended at the end (duplicates kept); a non-callable or missing one raises and leaves the subscribers unchanged; subscribing keeps every subscriber callable |
| Keyboard.LookupFindsEveryArrangement | keyboard.py:59-62 | `SwitchesToKeyTuple`: every order of the keys of a combination in the current mode's table finds that combination's entry |
| Keyboard.LookupMissIsKeyError | keyboard.py:59-64 | `SwitchesToKeyTuple`: the lookup fails iff the mode is missing or no combination of its table has the same keys; a failure is a KeyError naming the mode and the sorted switches |
| Keyboard.LookupOrderIndependent | keyboard.py:59-62 | `SwitchesToKeyTuple`: the lookup depends only on the mode and the keys held, not on their order |
| Keyboard.PressAppends | keyboard.py:86-88 | `Step`: a press appends its key at the end and makes the window hot whatever it was; no lookup |
| Keyboard.ColdReleaseOnlyRemoves | keyboard.py:89-90 | `Step`: a release outside a hot window does no lookup and leaves mode, last token, subscribers and calls alone; it removes the key, or raises ValueError if the key is not held |
| Keyboard.HotReleaseSamples | keyboard.py:77-85 | `Step`: for a held key, with no subscriber raising anything but KeyError: the first release of a window looks up once, with the sorted keys held before the release (so the released key is in the snapshot), then removes that key and clears `hot` |
| Keyboard.DispatchKeepsPressed | keyboard.py:79-83 | `Dispatch`: when no subscriber raises anything but KeyError, the `try` block lets nothing escape and changes neither the held keys nor the subscribers |
| Keyboard.MissLeavesModeAndSubscribers | keyboard.py:79-83 | `Step`: on a miss, whatever the subscribers do, the last token becomes `"err"`, the mode and the subscribers are unchanged and no subscriber is called; the release then removes the key, or raises ValueError with `pressed` unchanged |
| Keyboard.HitNotifiesInOrder | keyboard.py:77-85 | `Step`: when every subscriber returns and the released key is held, a hit calls every subscriber once, in order, with the entry; then mode and token follow the entry and the key is removed |
| Keyboard.SubscriberKeyErrorReportsErr | keyboard.py:79-83 | `Dispatch`: a hit whose j-th subscriber raises KeyError calls subscribers 0..j, keeps the mode, and shows `"err"` |
| Keyboard.ReleaseNeverHeats | keyboard.py:77-90 | `Step`: no release event leaves the window hot |
| Keyboard.PressesAccumulate | keyboard.py:86-88 | a run of presses appends every key in order and does no lookup |
| Keyboard.ColdReleasesDrain | keyboard.py:89-90 | releasing every held key, in any order, outside a hot window empties `pressed` and does no lookup |
| Keyboard.FirstReleaseOfWindow | keyboard.py:77-85 | for a held key, with no subscriber raising anything but KeyError: the first release of the releases of a window samples the held keys and removes the released one |
| Keyboard.ColdReleasesAfterFirst | keyboard.py:89-90 | the releases after the first one empty `pressed` and look nothing up |
| Keyboard.FirstReleaseThenDrain | keyboard.py:77-90 | with no subscriber raising anything but KeyError: a first release followed by the remaining releases gives one lookup and an empty `pressed` |
| Keyboard.ReleasesSampleOnce | keyboard.py:77-90 | with no subscriber raising anything but KeyError: releasing all held keys in any order after a press gives exactly one lookup, of all of them, and leaves `pressed` empty |
| Keyboard.ChordWindow | keyboard.py:73-92 | `Run` of `Step`: with no subscriber raising anything but KeyError: from idle, pressing a chord and releasing it in any order gives exactly one lookup, of the sorted chord, the effect of resolving it, and idle again |
| Keyboard.DispatchOrderIndependent | keyboard.py:79-83 | `Dispatch`: resolving a chord does not depend on the order its keys went down: neither the new state nor whether an exception escapes |
| Keyboard.ChordOrderIndependent | keyboard.py:73-92 | with no subscriber raising anything but KeyError: two press/release windows over the same keys, in any orders, give the same run |
| Keyboard.TwoChords | keyboard.py:73-92 | with no subscriber raising anything but KeyError: after one chord window the keyboard is idle with its subscribers unchanged, and the next events run from that state with the first lookup prefixed |
| Keyboard.HitSwitchesMode | keyboard.py:73-92 | with every subscriber returning: after a chord that hits, the rest of the events run in the mode (and with the token) of that chord's entry |
| Keyboard.ScenarioHit | keyboard.py:73-92 | with every subscriber returning, for two distinct keys whose entry keeps the mode: pressing them and releasing them looks up the pair once, shows its token and notifies every subscriber |
| Keyboard.ScenarioMiss | keyboard.py:73-92 | with no subscriber raising anything but KeyError: pressing and releasing one key without an entry shows `"err"` and changes nothing else |
| Keyboard.StepTracksHeld | keyboard.py:76-90 | `Step`: one poll whose release is of a held key, with no subscriber raising anything but KeyError, never raises, keeps the subscribers, makes `pressed` follow the held keys, and looks up only by spending the `hot` flag |
| Keyboard.PressedIsHeld | keyboard.py:73-93 | `Run` of `Step`: for any stream whose releases are of held keys, overlapping chords included, with no subscriber raising anything but KeyError: the loop never raises, `pressed` holds exactly the keys still down (empty once all are released), the subscribers are kept, and there is at most one lookup per press, plus one if the window starts hot |
| Keyboard.ChordedKeyboard.MonitorKeysStep | keyboard.py:75-92 | one poll changes the keyboard exactly as `Keyboard.Step` says, and returns the new `hot` or the exception that escaped |
| Keyboard.ChordedKeyboard.MonitorKeys | keyboard.py:73-93 | the loop over a finite queue, starting cold, leaves the keyboard in the state `Run` gives and ends as `Run` says |
| Lists.Insert | keyboard.py:61 | inserting into a sorted list keeps it sorted and adds exactly one occurrence of the element |
| Lists.SortedSeq | keyboard.py:61 | `sorted`: an ordered arrangement of the same keys |
| Lists.SortedUnique | keyboard.py:61 | two sorted lists with the same elements are equal |
| Lists.SortedSeqOrderIndependent | keyboard.py:61 | lists with the same elements sort to the same list |
| Lists.SortedSeqOfArrangement | keyboard.py:61 | sorting any arrangement of a sorted list gives that list back |
| Lists.IndexOf | keyboard.py:84 | the first position of an element that is in the list |
| Lists.Remove | keyboard.py:84 | `list.remove` of a present element drops its first occurrence and keeps the other elements in order |
| Lists.RemoveFirstOfArrangement | keyboard.py:84-90 | the first of any release order of the held keys is held, and the rest are exactly the keys still held after it is removed |
| Events.RunAppend | keyboard.py:74-93 | `Run`: running one queue and then another, when the first did not end in an exception, equals running their concatenation |
| Events.RunStopsOnCrash | keyboard.py:74-93 | `Run`: a poll whose step raises ends the loop; nothing after it is processed |
| FlatChord.LookupFindsEveryArrangement | code.py:35-36 | `Lookup`: every order of the keys of a combination in the flat table shows that combination's token |
| FlatChord.LookupMissGivesErr | code.py:35-38 | `Lookup`: a combination missing from the table shows `"err"` |
| FlatChord.LookupOrderIndependent | code.py:35-38 | `Lookup`: the token shown depends only on the keys held, not on their order |
| FlatChord.PressAppends | code.py:41-43 | `Step`: a press appends its key and makes the window hot |
| FlatChord.HotReleaseSamples | code.py:33-40 | for a held key: the first release of a window stores the token `Lookup` gives for the sorted keys held before the release, then removes the key and clears `hot` |
| FlatChord.MissWritesErr | code.py:35-39 | `Step`: on a miss only the token becomes `"err"`; then the key is removed, or ValueError ends the loop |
| FlatChord.ColdReleaseOnlyRemoves | code.py:44-45 | `Step`: a release outside a hot window does no lookup, keeps the token, and removes the key or raises ValueError |
| FlatChord.ReleaseNeverHeats | code.py:33-45 | `Step`: no release event leaves the window hot |
| FlatChord.PressesAccumulate | code.py:41-43 | a run of presses appends every key in order and does no lookup |
| FlatChord.ColdReleasesDrain | code.py:44-45 | releasing every held key outside a hot window empties `pressed` |
| FlatChord.ColdReleasesAfterFirst | code.py:44-45 | the releases after the first one empty `pressed` and look nothing up |
| FlatChord.FirstReleaseThenDrain | code.py:33-45 | a first release followed by the remaining releases gives one lookup and an empty `pressed` |
| FlatChord.ReleasesSampleOnce | code.py:33-45 | in a window opened by a press, releasing all held keys in any order gives exactly one lookup and leaves `pressed` empty |
| FlatChord.ChordWindow | code.py:29-48 | `Run` of `Step`: from idle, a chord pressed and released in any order gives exactly one lookup, of the sorted chord, shows its token and ends idle |
| FlatChord.ChordOrderIndependent | code.py:29-48 | press and release orders of the same chord do not change the run |
| FlatChord.StepTracksHeld | code.py:32-45 | `Step`: one poll whose release is of a held key never raises, makes `pressed` follow the held keys, and looks up only by spending the `hot` flag |
| FlatChord.PressedIsHeld | code.py:29-48 | `Run` of `Step`: for any stream whose releases are of held keys, overlapping chords included: the loop never raises, `pressed` holds exactly the keys still down (empty once all are released), and there is at most one lookup per press, plus one if the window starts hot |
| CodeApp.MonitorKeysStep | code.py:31-47 | one poll changes `kb.pressed` and `kb.last_chorded` exactly as `FlatChord.Step` says and no other field of the keyboard |
| CodeApp.MonitorKeys | code.py:29-48 | the loop over a finite queue, starting cold, leaves those two fields as `Run` gives and ends as `Run` says |
| MainApp.ChordedKeyboard.constructor | main.py:16-23 | keeps the pins; `pressed` starts empty and `last_chorded` empty |
| MainApp.ChordedKeyboard.New | main.py:16-20 | succeeds exactly when the argument is a tuple; otherwise TypeError "keys should be of type tuple" |
| MainApp.MonitorKeysStep | main.py:45-62 | one poll changes the keyboard exactly as `FlatChord.Step` says |
| MainApp.MonitorKeys | main.py:43-63 | the loop over a finite queue, starting cold, leaves the keyboard as `Run` gives and ends as `Run` says |
| MainApp.FirstChord | main.py:43-60 | a new keyboard given one chord, pressed and released in any order, shows that chord's token |
| Navigation.Page.constructor | widgets.py:31-38 | a new page has none of its three links |
| Navigation.TickFollowsPresentLink | code.py:64-81 | `NavTick`: a pass of the inner loop either stays on its page or follows one of its three links, never a missing one |
| Navigation.Key0GoesToOnD1 | code.py:64-70 | `NavTick`: a press of key 0 on `k0` moves to `onD1` when it is set, and breaks before `k12` is read |
| Navigation.Key1GoesToOnD2 | code.py:71-74 | `NavTick`: a press of key 1 on `k0` moves to `onD2` when it is set, and breaks before `k12` is read |
| Navigation.K12PressGoesToOnD0 | code.py:76-81 | `NavTick`: when `k0` did not break, the pass moves iff the `k12` event is a press and `onD0` is set, and then goes to `onD0`; both queues lose their oldest event |
| Navigation.RunMakesOneHop | code.py:62-81 | `NavRun`: the inner loop ends after at most one hop along a present link, or stays on its page |
| Navigation.ReleasesNeverMove | code.py:62-81 | `NavRun`: events that are not presses never move the page |
| Navigation.NoLinksNoMove | code.py:62-81 | `NavRun`: a page with no links is never left |
| Navigation.DisplayUiInner | code.py:62-87 | the inner `while` loop with its `break`s computes the inner-loop result, and that ends one hop away at most |
| Navigation.WalkStaysInPages | code.py:56-87 | `Walk`: navigation never leaves a set of pages that is closed under its links |
| Navigation.WalkBeginsWithInnerLoop | code.py:56-87 | `Walk` and `NavRun`: until the inner loop breaks, `display_ui` stays on its page |
| Navigation.DisplayUi | code.py:56-87 | both nested loops compute the walk, which ends on a page of the closed set |

## Left out

- Hardware and I/O are not modelled: `keypad.Keys`, pins, `set_low`, neopixel, displayio, `board.DISPLAY.show`, and `print`/logging. A keypad queue is a finite sequence of events, and `events.get()` of an empty queue is `None`.
- The asyncio scheduling is not modelled: `asyncio.sleep`, `create_task`, `gather`, `run`. Each `while True` loop runs over a finite queue of polls or a finite number of ticks; one tick is one pass of the inner navigation loop.
- `keyboard.py`'s `monitor_keys` uses `await` in a method that is not `async`, which Python rejects. The model gives it the meaning of the two coroutine copies, whose loop body is the same.
- The table from the `chords` module is not part of this model. It is a parameter: two-level for `keyboard.py`, flat for `code.py` and `main.py`.
- The class-level lists (`pressed`, `key_subs`) and `last_chorded` are per-instance fields here. Sharing between instances is not modelled.
- `t`, `modifier`, `key`, `_mode` and `_state` are prints or unused and are not modelled.
- The `"unhandled key event"` branch is not modelled: a keypad event is always a press or a release.
- A subscriber's `on_key` reacts the same way every time: it returns, raises KeyError or raises something else. Its own effects are not modelled. The `log` field records every call attempted on it, including one on an `on_key` that is not callable, which raises before any call is made.
- Keyboard.OnKey: a chord entry is a typed pair, so an entry too short to index (IndexError in `on_key`) cannot be written.
- Keyboard.ChordedKeyboard.WidgetSub: the exception for a non-callable `on_key` carries the subscriber's name, not its printed form.
- Rendering is not modelled: `main.py`'s `display_ui`, and everything in `widgets.py` except the page links. That covers `into`, `update`, labels and widget highlighting.
- `main()` in both entry points is not modelled. It only sets up the registry, the pages and the tasks.
- Navigation.DisplayUi: the 0.1 s sleeps and the re-entry into a page (`into`) are not timed. A tick after a hop starts on the new page.
