# plastey core, modelled in Dafny

plastey is a sculpting application for an Oculus Rift headset and a Leap Motion
hand tracker, built on the Blender game engine. This project models the small,
self-contained components at its core, and proves what they do:

- the undo/redo `History` (history.py);
- the `CallbackManager` registry with its restricted mode and shared states
  (callback.py);
- the time-stamped head-up display `Text` (hud.py);
- the `vec3`/`mat4x4` helpers (utils.py);
- the tracker-to-scene positioners, the hand selectors and the per-frame
  order of `Application.__call__` (app.py);
- the `Sculptomat` game loop: `distance`, the finger setters, the hand
  routing and the camera placement (main.py);
- `float_range` and the grid walk of `generate` (plane.py);
- `sizeof_pow2` (communication.py);
- the LibOVR wrapper's shared globals `IS_INITIALISED`/`CONTROLLER_COUNT`,
  the controller's `__init__`, its deallocation and its `frame` transform
  (pyvr/src/oculus.c).

The imperative components take one of three forms.

- `History` (history.py), `Text` (hud.py) and the LibOVR globals with the
  `OculusRiftDK2` controller (pyvr/src/oculus.c) are stated twice. First,
  as step functions over a state datatype (`PushStep`, `UndoStep`,
  `RedoStep`, `UpdateStep`, `WriteStep`, `InitStep`, `DeallocStep`), about
  which the lemmas are proved. Second, as classes whose methods change their
  fields in place; each method is proved to produce exactly the state the
  step function gives.
- `Application.__call__` (app.py) and `Sculptomat.__call__` (main.py) are
  methods whose loops are proved equal to a function: the event sequence
  `FrameEvents`, and `Apply` of the frame's finger writes.
- The `CallbackManager` registry (callback.py) has no step function. Its
  lists are heap objects, so the sharing created by
  `OrderedDict.fromkeys(keys, [])` is modelled as real aliasing. Each method
  states its new key order, its lists' contents and its states directly,
  against `old` values. The order functions (`FromKeys`, `Without`) and the
  execution schedule (`Run`, `Schedule`) carry the lemmas.

`sizeof_pow2` (communication.py) and `float_range` (plane.py) are loops
specified by their own postconditions: the least power of two, and the
values below `stop`.

Other modelling choices:

- Floats are mathematical reals. Python integers are unbounded.
- `size_t` is a 64-bit unsigned integer that wraps around.
- Callbacks and undo/redo actions are opaque identifiers, and calling them is
  recorded as a trace.
- Clocks, device readings and LibOVR's answers are parameters.

Files:

- wrappers.dfy: the Option type.
- pyseq.dfy: Python's negative indexing and `list.pop`.
- One file per source module: history.dfy, callback.dfy, hud.dfy,
  utils.dfy, app.dfy, main.dfy, plane.dfy, communication.dfy and oculus.dfy.

## Model

| member | source | states |
|---|---|---|
| History.Capacity | history.py:44-49 | The limit is the deque's `maxlen` when one is given and `max_size <= maxlen`, otherwise `max_size`. |
| History.AppendBounded | history.py:70 | The deque's append adds at the right. With a `maxlen` the deque never exceeds it. |
| History.InitialState | history.py:40-49 | A new history is empty with cursor 0. Its limit is `max_size` unless a larger `maxlen` is given. It starts within `maxlen`. |
| History.DefaultLimit | history.py:40-49 | With the default `max_size` of 64, the limit is 64, or `maxlen` when that is at least 64. |
| History.PushFromSteadyState | history.py:56-70 | With cursor == length < limit, push appends the pair. The cursor moves up by one and stays equal to the length. Nothing is raised. |
| History.PushKeepsEntryAtCursor | history.py:56-58 | Push keeps every entry up to and including the cursor's position, then appends. After one undo from the tail nothing is discarded, and the cursor ends one short of the tail. |
| History.PushAfterDiscard | history.py:56-70 | When push discards entries and does not evict, the cursor moves up by 2 and ends equal to the new length. |
| History.PushEvictsOldest | history.py:60-61 | At the limit the oldest entry is dropped, the pair is appended and the cursor stays where it was. |
| History.PushBounded | history.py:60-70 | Push never takes the length past the limit or past `maxlen`, and it leaves the limit alone. |
| History.PushAfterRunawayUndo | history.py:56-58 | With a cursor below -1 the truncation pops past the empty deque. The push raises IndexError, leaves the deque empty and keeps the cursor. |
| History.UndoMovesCursor | history.py:74-80 | Undo lowers the cursor by one whatever happens. It invokes an action exactly when the new cursor is a valid Python index (-len..len-1): the undo of `entries[index-1]` for a cursor in 1..len, the undo of `entries[len+index-1]` when the new cursor is negative, and otherwise it reports an empty history. |
| History.UndoAtZeroHitsNewest | history.py:76-77 | Undo at cursor 0 of a non-empty history invokes the newest entry's undo, and the cursor becomes -1. |
| History.RedoMovesCursor | history.py:84-90 | Redo raises the cursor by one whatever happens. It invokes an action exactly when the new cursor is a valid Python index: the redo of `entries[index+1]` when that is in 0..len-1, and the redo of `entries[len+index+1]` when the new cursor is in -len..-1. From the last position or beyond, and below -len, it reports an empty history. |
| History.RedoAfterUndoSkipsEntry | history.py:74-90 | push A; undo; redo: the redo reports an empty history instead of redoing A. |
| History.SingleUndoThenPushKeepsUndone | history.py:53-77 | push A; push B; undo; push C: B is kept, and the next undo undoes B a second time. |
| History.UndoPastStartWraps | history.py:74-78 | push A; undo; undo: the second undo moves the cursor to -1 and undoes A again. |
| History.History.constructor | history.py:40-49 | The new object's state is the initial state of the given `max_size` and `maxlen`. |
| History.History.Push | history.py:53-70 | Truncates in a loop, evicts or moves the cursor, then appends. The new state and the IndexError flag are exactly those of PushStep. |
| History.History.Undo | history.py:74-80 | The new state and the report are exactly those of UndoStep. |
| History.History.Redo | history.py:84-90 | The new state and the report are exactly those of RedoStep. |
| History.CorrectedPush | history.py:53-70 | The intended push discards the undone entries and adds the pair last. Below the limit it keeps every applied entry. With the cursor at the limit it drops exactly the oldest entry. It keeps the history valid and the limit unchanged, and leaves the cursor at the tail. |
| History.CorrectedUndo | history.py:74-80 | The intended undo keeps the history valid. It moves the cursor down by one and undoes the entry it passes. At cursor 0 it reports an empty history and changes nothing. |
| History.CorrectedRedo | history.py:84-90 | The intended redo keeps the history valid. It redoes the entry at the cursor and moves up by one. At the tail it reports an empty history and changes nothing. |
| History.CorrectedPushes | history.py:53-70 | Pushing entries onto a history at its tail, within the limit, keeps them all and leaves the cursor at the tail. |
| History.CorrectedUndoAll | history.py:74-80 | Undoing `cursor` times undoes the applied entries newest first and reaches cursor 0. |
| History.CorrectedRedoAll | history.py:84-90 | Redoing to the tail redoes the remaining entries oldest first. |
| History.CorrectedRoundTrip | history.py:53-90 | Take N pushes into an empty history (N within the limit), then N undos, then N redos. The undos report the entries newest first, the redos oldest first, and the history ends where the pushes left it. |
| History.CorrectedPushDiscardsRedo | history.py:53-70 | After an undo, a push discards the undone entries. Nothing is left to redo, and the next undo undoes the new entry. |
| History.CorrectedUndoStopsAtStart | history.py:74-80 | Undo at cursor 0 reports an empty history and changes nothing. |
| PySeq.PyIndex | callback.py:69 | Python indexing on a length-n list: defined exactly for -n <= i < n, and a negative i counts from the end. |
| PySeq.RemoveAt | callback.py:69 | `pop(j)` keeps the elements before j and shifts those after it down by one. |
| PySeq.RemoveAtMultiset | callback.py:69 | `pop(j)` removes exactly one copy of the element at j and nothing else. |
| Callback.FromKeys | callback.py:48 | The keys of `OrderedDict.fromkeys(keys)` are exactly the given keys, each once, and the first key comes first. |
| Callback.Without | callback.py:77 | `del` removes exactly that key from the key order and keeps the order distinct. Deleting an absent key changes nothing. |
| Callback.AddKeysConcat | callback.py:48 | Adding keys in two batches gives the same order as adding them all at once: each key keeps the position of its first occurrence. |
| Callback.AddKeysOne | callback.py:48 | A further key goes last, unless it is already present. |
| Callback.FromKeysSnoc | callback.py:48 | The keys of `fromkeys(keys + [k])` are those of `fromkeys(keys)`, followed by `k` only when it is new. So the order is that of first occurrences. |
| Callback.WithoutConcat | callback.py:77 | `del` on a key order split in two deletes from each part and keeps both parts in order. |
| Callback.WithoutAt | callback.py:77 | In a distinct key order, `del` removes the key at its position and keeps every other key in its order. |
| Callback.DefaultIndexIsLast | callback.py:68-69 | The default index -1 of `remove_callback` and `execute_callback` selects the last callback of a non-empty list, and `pop` at it removes just that one. |
| Callback.Run | callback.py:94-97 | Executing a list calls each of its callbacks once, in list order, with the same states. |
| Callback.ScheduleConcat | callback.py:101-105 | Executing all callbacks over a split key order gives the two schedules one after the other, so keys run in insertion order. |
| Callback.ScheduleSnoc | callback.py:103-105 | A key added last runs its whole list, in list order, after every earlier key's callbacks. |
| Callback.ScheduleSharesStates | callback.py:101-105 | Every call made by `execute_all_callbacks` receives the same states map. |
| Callback.SharedListRunsOncePerKey | callback.py:101-105 | When every key is bound to the same list (restricted mode after `fromkeys`), each callback runs once per key. |
| Callback.CallbackManager.constructor | callback.py:41-48 | The unrestricted registry is empty. The restricted one has the given keys, without repeats, all bound to one fresh empty list. States are empty in both. |
| Callback.CallbackManager.AppendCallback | callback.py:52-64 | On a known key the callback is appended to that key's list, and every key sharing the list sees it. On an unknown key a restricted registry raises KeyError and changes nothing. An unrestricted one adds the key last with a one-element list. |
| Callback.CallbackManager.RemoveCallback | callback.py:68-69 | Removes exactly the element at the Python index from that key's list. An unknown key raises KeyError, a bad index raises IndexError, and either leaves the registry unchanged. |
| Callback.CallbackManager.RemoveCallbacks | callback.py:73-77 | Restricted: the key is bound to a fresh empty list, and is added if it was absent. Unrestricted: the key is deleted, or KeyError is raised when it is absent. |
| Callback.CallbackManager.RemoveAllCallbacks | callback.py:81-85 | Restricted: the keys and their order stay, all bound to one fresh empty list. Unrestricted: the registry is emptied. |
| Callback.CallbackManager.ExecuteCallback | callback.py:89-90 | Calls the callback at the Python index of the key's list with the states. An unknown key raises KeyError and a bad index raises IndexError. |
| Callback.CallbackManager.ExecuteCallbacks | callback.py:94-97 | Calls the key's list in order with the states, or raises KeyError for an unknown key. |
| Callback.CallbackManager.ExecuteAllCallbacks | callback.py:101-105 | The calls made are exactly the schedule: keys in insertion order, each list in order. |
| Callback.CallbackManager.SetStates | callback.py:109-110 | Inserts or overwrites the given names and keeps every other state. |
| Callback.CallbackManager.DelStates | callback.py:114-117 | Removes exactly the given names, ignoring absent ones, and keeps the other values. |
| Callback.RestrictedAliasing | callback.py:41-77 | In a restricted registry over two keys, a callback appended under one key is seen under the other. Once `remove_callbacks` rebinds the first key, later appends under the second no longer reach it. |
| Callback.AppendToEach | callback.py:52-56 | Appending through two keys bound to different lists changes each list separately. |
| Hud.WriteIsNewest | hud.py:78-82 | Write puts `(now, message)` at the left end, sets `_updated`, clears `_empty` and changes nothing else. |
| Hud.UpdateRemovesOnlyExpiredOldest | hud.py:53-57 | Update removes at most one message, always the oldest (right-end) one, and only once its time plus the interval has passed. |
| Hud.ExpiryDoesNotRedraw | hud.py:55-58 | Popping an expired message sets only the misspelt `_udpated`, so the display keeps showing the popped message and `_updated` stays false. |
| Hud.UpdateBlanksEmptyDeque | hud.py:60-74 | On an empty deque not yet marked empty, update marks it empty, blanks both texts and clears `_updated`. |
| Hud.UpdateIdleWhenEmpty | hud.py:60-66 | On an empty deque already marked empty, with no redraw pending, update changes nothing. |
| Hud.RedrawShowsDeque | hud.py:66-74 | A redraw shows the newest message first and the others, newest first, one per line. Both texts are blank without messages, and `_updated` is cleared. |
| Hud.LastExpiryBlanksOnNextUpdate | hud.py:51-74 | When the last message expires, the next update blanks both texts. |
| Hud.ChronologicalPreserved | hud.py:51-82 | With a clock that never goes back, write and update keep the time stamps non-increasing from left to right. |
| Hud.SplitJoin | hud.py:71 | Splitting the joined text at newlines gives the lines back when no line contains a newline, so the second text shows each other message on its own line. |
| Hud.ExpiredMessageStaysDisplayed | hud.py:55-74 | Write "a" at 0 and "b" at 1, then update at 1 and at 10 with interval 10. The deque then holds only "b", yet "a" is still displayed. |
| Hud.CorrectedUpdateShowsDeque | hud.py:51-74 | With expiry setting `_updated`, every update leaves the display showing the deque (before any write, the initial texts). Write keeps this. |
| Hud.CorrectedExpiryRedraws | hud.py:55-58 | The same run with the intended update stops displaying "a". |
| Hud.Text.constructor | hud.py:37-47 | The new object has no messages, with `_updated` false and `_empty` true. The two text objects keep what they showed. |
| Hud.Text.Update | hud.py:51-74 | The new state is exactly UpdateStep of the old state at the clock's time. |
| Hud.Text.Write | hud.py:78-82 | The new state is exactly WriteStep of the old state at the clock's time. |
| Utils.FromLine | utils.py:54-55 | `from_line` is the vector that leads from the first point to the second. |
| Utils.FromLineReversed | utils.py:54-55 | Reversing the line negates the vector. |
| Utils.VectorFormIgnoresExtras | utils.py:78-94 | With a vector argument, `dot_product` and `cross_product` ignore their extra y and z. |
| Utils.ScalarFormsAgree | utils.py:78-94 | The number-argument forms of `dot_product` and `cross_product` (x, y, z) agree with the vector forms. |
| Utils.DotSymmetric | utils.py:78-80 | The dot product is symmetric. |
| Utils.DotSelfIsSquaredLength | utils.py:40-42 | A vector's dot product with itself is its squared `length`. |
| Utils.CrossAntiCommutative | utils.py:86-90 | a x b = -(b x a), and a x a is the zero vector. |
| Utils.CrossOrthogonal | utils.py:86-90 | The cross product is orthogonal to both of its operands. |
| Utils.SquaredLengthZero | utils.py:40-42 | The length is zero exactly for the zero vector. |
| Utils.Normalize | utils.py:69-74 | A zero length gives `vec3()`. Any other length gives a unit vector that, scaled by the length, is the input. |
| Utils.UnitAfterDivision | utils.py:72 | Dividing each component by the (non-zero) length gives squared length 1. |
| Utils.IdentityEntries | utils.py:108-112 | The identity has 16 entries: 1.0 at positions 0, 5, 10 and 15, and 0.0 elsewhere. |
| Utils.AddMatrices | utils.py:126-130 | `__add__` has the length of the shorter operand, and each entry is the sum of the entries at that position. |
| App.PositionersInvertible | app.py:196-210 | Both positioners are one-to-one and onto: each has a two-sided inverse. |
| App.PositionersScaleDistances | app.py:196-210 | Both positioners multiply every squared distance by LEAP_MULTIPLIER squared, so the hand's shape is kept at 1/10 scale. |
| App.SelectorsMirror | app.py:186-192 | Called with `is_right`, the desk selector picks the right hand exactly for a right hand, and the head selector picks the left hand exactly for a right hand. The two never pick the same hand. |
| App.ChooseMode | app.py:133-139 | The positioner and the selector always come from the same mounting: the desk pair exactly when `mounted_on_desk` is truthy. |
| App.HandEventsOrder | app.py:166-172 | For one tracked hand the states are set first, then every finger is placed in order, and that hand's callbacks run last. |
| App.HandsEventsSplit | app.py:166-172 | The frame's events are the hands' blocks one after the other, in the tracker's order. |
| App.NoHandsRunBeforeEnd | app.py:166-172 | No hand's block runs the `Hands` callbacks. |
| App.HandsCallbacksRunLast | app.py:166-173 | In a valid frame the `Hands` callbacks run exactly once, after everything else. |
| App.Application.constructor | app.py:133-139 | The mode is the one `mounted_on_desk` chooses. |
| App.Application.Call | app.py:143-173 | A missing head tracker raises before anything happens. An invalid tracker frame returns with nothing written. Otherwise the events are exactly the frame's events, built hand by hand and finger by finger. |
| Main.DistanceIsLengthOfLine | main.py:68-71 | The squared distance is the squared length of the vector between the points. |
| Main.DistanceSymmetric | main.py:68-71 | The distance is symmetric. |
| Main.DistanceZeroIffEqual | main.py:68-71 | The distance is zero exactly between equal points. |
| Main.SettersAgreeWithPositioners | main.py:146-160 | The head and desk setters write exactly what Application's head and desk positioners compute (MINIFIER equals LEAP_MULTIPLIER). |
| Main.HandRoutingSwaps | main.py:100-107 | On the desk the tracker's left hand drives the right scene hand and the other way round. On the head each drives its own side. Each routing is one-to-one. |
| Main.CameraInvertible | main.py:119-122 | The camera offset `(x*50, -25 - z*50, 15 + y*50)` is one-to-one and onto. |
| Main.OneWritePerFinger | main.py:126-129 | A frame makes exactly one write per tracked finger. |
| Main.ApplyStep | main.py:129 | One more write changes only its own hand, at its own finger. |
| Main.ApplyUntouched | main.py:126-129 | A finger that no write targets keeps its position. |
| Main.ApplyLastWrite | main.py:126-129 | A finger ends at the value of the last write for it. |
| Main.OneHandFrameSetsFingers | main.py:126-129 | In a frame with one tracked hand whose fingers have distinct types, every finger is set on the routed scene hand at the setter's value. |
| Main.OneHandFrameSparesOtherHand | main.py:126-129 | The same frame leaves the other scene hand unchanged. |
| Main.PlacementsOfOneHand | main.py:126-129 | A one-hand frame's writes are that hand's finger writes. |
| Main.SceneHand.Set | main.py:149-151 | `hand[type] = position` changes exactly that finger. |
| Main.Sculptomat.constructor | main.py:82-108 | The mounting, the two scene hands and the camera are as given. |
| Main.Sculptomat.SetPositionOf | main.py:146-160 | The chosen setter writes its value at exactly that finger of that hand. |
| Main.Sculptomat.PlaceHand | main.py:128-129 | Running the finger loop for one hand applies exactly that hand's writes, in order, to the two scene hands. |
| Main.Sculptomat.Call | main.py:112-129 | No head-tracker reading raises TrackingError with nothing changed. Otherwise the camera is placed at CameraPosition, and both scene hands hold exactly the effect of the frame's writes in order. |
| Plane.ParseArgs | plane.py:39-47 | Three or more arguments give start, stop and step. Two give step 1. One is the stop, with start 0 and step 1. None raises IndexError. |
| Plane.CountIsFirstExit | plane.py:48-50 | With a positive step, Count is the least k with start + k*step >= stop. |
| Plane.FloatRange | plane.py:38-50 | The k-th value is start + k*step and is below stop. The generator stops exactly at the first value that reaches stop: after Count values with a positive step, never with a non-positive step and start < stop. With no arguments the first pull raises IndexError; a generator never pulled raises nothing. |
| Plane.KindRule | plane.py:99-108 | A vertex is a dot exactly when both modulo tests are zero, an edge vertex exactly when one is, and selected exactly when at least one is. |
| Plane.RowFacesSound | plane.py:111-115 | Every face of a row is the face of one of its vertices past the first row and column. |
| Plane.RowFacesAt | plane.py:111-115 | In a row past the first, the face of column col is the (col-1)-th of the row, built from (upper-left, upper, this vertex, left). |
| Plane.RowFaceCount | plane.py:111-115 | A row past the first has a face for every column but the first; the first row has none. |
| Plane.GridFacesSound | plane.py:111-115 | Every face of the grid belongs to a vertex with `col_i > 0` and `row_i > 0`. |
| Plane.GridFacesPrefix | plane.py:93-120 | Later rows only add faces after those of the earlier rows. |
| Plane.GridFaceIndex | plane.py:93-120 | Every vertex with `col_i > 0` and `row_i > 0` creates its face, at its row-major position. |
| Plane.GridFaceCount | plane.py:93-120 | The grid has (rows - 1) * (columns - 1) faces. |
| Plane.RowDotCount | plane.py:99-101 | A row holds one dot per multiple of the x subdivision when its index is a multiple of the y subdivision, and none otherwise. |
| Plane.BoneCount | plane.py:92-104 | The bone counter reaches ceil(rows / sy) * ceil(columns / sx). |
| Plane.WalkRow | plane.py:94-119 | The inner loop gives the row's vertices and their kinds. It appends the row's dots and its faces against the previous row. |
| Plane.GenerateGrid | plane.py:81-120 | A zero subdivision level raises ZeroDivisionError before any vertex. Otherwise every vertex is at its coordinates with its kind. Bone i is numbered i and runs from (x, y, 0) to (x, y, 1) at the i-th dot in row-major order. The faces are those of the grid. |
| Communication.SizeofPow2 | communication.py:53-58 | The result is a power of two at least the size, and the least such. Sizes up to 1 give 1. |
| Communication.LeastPow2Unique | communication.py:55-58 | Only one power of two is the least one at least the size, so the result is determined by the size. |
| Communication.LeastPow2Monotone | communication.py:55-58 | A larger size never gets a smaller buffer. |
| Oculus.ErrorsFrom | pyvr/src/oculus.c:366-383 | Entering the error labels at any one of them sets one exception per label passed. The last one is always the SDK message. |
| Oculus.RaiseAsWritten | pyvr/src/oculus.c:269-280 | The message is the prefix, then LibOVR's last error, then the suffix. It is undefined for a NULL suffix. |
| Oculus.NullSuffixUndefined | pyvr/src/oculus.c:366-380 | Only the SDK label gives a defined message. The no-device and device labels build theirs from a NULL suffix. |
| Oculus.StepsKeepGlobalsValid | pyvr/src/oculus.c:289-400 | `__init__` and the deallocation keep `CONTROLLER_COUNT` a `size_t`. |
| Oculus.InitInitialisesOnce | pyvr/src/oculus.c:290-296 | `ovr_Initialize` is called exactly while LibOVR is not initialised, and success sets the flag. A failure leaves the globals alone, leaves the device NULL, returns -1 and sets the SDK message. |
| Oculus.InitCountsOnce | pyvr/src/oculus.c:299-340 | Every `__init__` that gets past `ovr_Initialize` adds exactly one to the count (mod 2^64), even if later steps fail. One that does not get past it leaves the count alone. |
| Oculus.InitSucceedsExactly | pyvr/src/oculus.c:285-384 | `__init__` returns 0 exactly when LibOVR is up, a device is detected, the arguments parse and the device is created. Tracking is then configured on it and it is stored. Every failure returns -1 with a NULL device. |
| Oculus.InitDefaults | pyvr/src/oculus.c:313-335 | Device index 0, head factor 1 and head shift 0 apply unless the matching argument is given. |
| Oculus.InitReportsSdkMessageLast | pyvr/src/oculus.c:366-383 | Whichever LibOVR step fails, the exception left pending is the SDK message. |
| Oculus.InitFailureMessages | pyvr/src/oculus.c:366-383 | The exceptions each failure sets, in order, with a NULL suffix read as empty. A failed `ovr_Initialize` sets only the SDK message. No headset sets the no-device message, then the SDK message. A failed `ovrHmd_Create` sets the device message before both. |
| Oculus.DeallocDestroysLiveDevice | pyvr/src/oculus.c:392-400 | The device is destroyed, first, exactly when it is not NULL. LibOVR is shut down exactly when the count reaches 0, and the flag is then cleared. |
| Oculus.InitThenDeallocRestores | pyvr/src/oculus.c:289-400 | For a controller that got past `ovr_Initialize`, its deallocation restores the globals. It shuts LibOVR down exactly when it was the last one. |
| Oculus.FailedInitUnderflows | pyvr/src/oculus.c:396 | A controller whose `ovr_Initialize` failed still decrements the count on deallocation: from the start state it wraps to 2^64 - 1. |
| Oculus.UnderflowSkipsShutdown | pyvr/src/oculus.c:396-400 | After that underflow the next controller initialises LibOVR and wraps the count to 0. Its deallocation leaves LibOVR initialised and never shuts it down. |
| Oculus.CorrectedInitThenDeallocRestores | pyvr/src/oculus.c:389-400 | With the decrement limited to counted controllers, every `__init__` and its deallocation restore consistent globals, whether or not `ovr_Initialize` succeeded. |
| Oculus.CorrectedDeallocConsistent | pyvr/src/oculus.c:396-400 | The corrected deallocation keeps "initialised exactly while the count is positive" and never raises the count. |
| Oculus.FrameOf | pyvr/src/oculus.c:409-436 | Without a device `frame` raises TrackingError. Otherwise the orientation is passed through unchanged. |
| Oculus.FrameInvertible | pyvr/src/oculus.c:429-432 | With a non-zero head factor the reported position determines the tracked one: (reported - shift) / factor. |
| Oculus.DefaultFrameIsRaw | pyvr/src/oculus.c:429-436 | With factor 1 and no shift, `frame` reports the head pose as it is. |
| Oculus.LibOvr.constructor | pyvr/src/oculus.c:129-131 | At module load LibOVR is not initialised and the count is 0. |
| Oculus.OculusRiftDK2.constructor | pyvr/src/oculus.c:505 | The generic allocator gives a zero-filled controller: NULL device, factor 0, no shift. |
| Oculus.OculusRiftDK2.Init | pyvr/src/oculus.c:285-384 | The new globals, the controller's fields, the status, the exceptions and the LibOVR calls are exactly those of InitStep. |
| Oculus.OculusRiftDK2.Dealloc | pyvr/src/oculus.c:389-404 | The new globals and the LibOVR calls are exactly those of DeallocStep. |
| Oculus.OculusRiftDK2.GetFrame | pyvr/src/oculus.c:409-449 | The result is FrameOf: TrackingError without a device, otherwise the position times the head factor plus the head shift, componentwise, and the orientation unchanged. |

## Left out

- Blender, bpy/bmesh, the Leap and Oculus device objects, and every other foreign call are replaced by their inputs and outputs. The LibOVR answers are `Env` and `Pose`, the tracker frames are values, and calls are recorded as traces.
- Floating point rounding: floats are reals. `sqrt`, `acos` and `length` are not modelled.
- `vec3_rotation`, `rotation_matrix_from_vectors`, `mat4x4.__mul__` and `scale` are left out. The last two have no body, so the rotation matrix cannot be computed.
- `__repr__` and `__iter__` of vec3/mat4x4 are left out because they are formatting only.
- Utils.Normalize: takes the value of `length` as an argument constrained by its square, because the model has no square root.
- Main.DistanceSymmetric, Main.DistanceZeroIffEqual and Main.DistanceIsLengthOfLine: state their properties of the squared distance, because `sqrt` is not modelled.
- History: the `print` calls of `undo`/`redo` are not modelled. Only their choice between invoking an action and "History is empty" is kept.
- History: actions are not run. A raising undo/redo action would fall into the same `except IndexError` in the source; that is not modelled.
- History: the constructor's `*args, **kwargs` initial deque contents are not modelled. The history starts empty, with only `maxlen` taken from them.
- Callback: callbacks are opaque. A callback that changes the states or the registry while it runs, or that raises, is not modelled.
- Callback: `REFERENCE_ERROR`'s message text is not modelled; only the KeyError is.
- Hud: the time getter is an integer argument. The text objects are the strings they hold.
- App: the restart key (app.py:145-147) and `_prototype_creator` are not modelled because they are Blender calls. The device construction in `__init__` is also left out; only the mode choice is kept.
- App: the head tracker's frame values are not used by `__call__` (its camera lines are commented out). Only its failure to deliver a frame is modelled.
- Main: the module-level `Sculptomat(mounted_on=DESK)` and the commented-out code are not modelled.
- Plane.FloatRange: the generator is pulled at most `demand` times. A non-terminating range is stated as "yields every value it is asked for".
- Plane.GenerateGrid: takes the row and column coordinates (the values of the two `float_range` calls) as inputs. The float arithmetic of the step and range computation at plane.py:81-86 is not modelled, beyond the ZeroDivisionError of a zero subdivision level.
- Plane: the bevel, material, dot-object and constraint steps after the grid loop (plane.py:122-187) are Blender scene construction and are not modelled.
- Communication: `getsizeof(dumps(data))` is the input size. `Socket`, `Server`, `Client`, the shell commands and `AUTO_DEV` are network and I/O and are not modelled.
- Oculus: `ERROR_BUFFER_SIZE` truncation and the `strncat` length argument, which can overflow the buffer, are not modelled. Messages are unbounded strings.
- Oculus: on a failed argument parse, PyArg may already have written some of the fields. The model keeps the defaults for all of them.
- Oculus: `Py_BuildValue`'s conversion to C `float`, the frame object type, reference counting and `tp_free` are not modelled. The type tables and module initialisation are also left out.
- plastey.py, comm_setup.py, genenv.py, sphere.py, _generator.py, generator.py, loadenv.py, surface.py, hand.py, build.py, pylinmath and oculus_test.c are not part of this model. They are GUI, scene construction, thin wrappers or manual test loops.

## Findings

| source | as written | input that shows it | evidently intended | confidence | as-written member | corrected member |
|---|---|---|---|---|---|---|
| history.py:76-88 | undo and redo both move the cursor before indexing, so they are not inverses | push A; undo; redo | redo re-applies A | not executed | History.RedoAfterUndoSkipsEntry | History.CorrectedRoundTrip |
| history.py:56-68 | the truncation keeps the entry at the cursor, so a push after one undo keeps the undone entry | push A; push B; undo; push C; undo | the push discards B and the undo undoes C | not executed | History.SingleUndoThenPushKeepsUndone | History.CorrectedPushDiscardsRedo |
| history.py:76-77 | a negative cursor indexes from the end | push A; undo; undo | the second undo reports an empty history | not executed | History.UndoPastStartWraps | History.CorrectedUndoStopsAtStart |
| hud.py:58 | expiry sets the misspelt `_udpated`, so no redraw follows | write "a" at 0, "b" at 1, update at 1 and at 10, interval 10 | "a" leaves the display when it expires | not executed | Hud.ExpiredMessageStaysDisplayed | Hud.CorrectedUpdateShowsDeque |
| pyvr/src/oculus.c:396 | every deallocation decrements `CONTROLLER_COUNT`, including a controller whose `ovr_Initialize` failed and which never counted itself | a controller whose `ovr_Initialize` fails is deallocated, then a second one is created and deallocated | the count returns to 0 and LibOVR is shut down | not executed | Oculus.UnderflowSkipsShutdown | Oculus.CorrectedInitThenDeallocRestores |
| pyvr/src/oculus.c:367-375 | the device and no-device labels pass a NULL suffix to `strncat`, which C leaves undefined | `__init__` with no headset attached (`ovrHmd_Detect` false) | the no-device message, followed by the SDK message | not executed | Oculus.NullSuffixUndefined | Oculus.InitFailureMessages |
