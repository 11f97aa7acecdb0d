# Signup form slice

A model of the signup page's form-state slice (`src/features/signupSlice.js`).
The slice holds a flat record of four form fields, `name`, `email` and
`password` (strings) and `rememberMe` (a boolean), starting from empty strings
and `false`. Five reducers change it: `setName`, `setEmail`, `setPassword` and
`setRememberMe` each overwrite one field with the action's payload, and
`resetForm` clears all four fields back to their initial values.

`signup_slice.dfy` (module `SignupSlice`) gives the slice two ways:

- `Reduce` is the reducer as a function from a state snapshot and an action to
  the next snapshot. This is the immutable reading that the state library gives
  the in-place assignments. `Run` folds a sequence of dispatched actions through
  it.
- `SignupForm` is the state record as a class. Its methods assign its fields in
  place as the reducer bodies do. Each method's postcondition pins the field it
  writes, says that the other fields are unchanged, and ties the new snapshot to
  `Reduce`.

The properties are stated field by field through `Get`, `Writes` and
`Written`. `Writes` says which fields an action assigns, and `Written` says
what value it assigns there. The lemmas prove the algebra of the reducers:
reset yields the initial state and is idempotent, a later write to the same
fields erases an earlier one, and writes to different fields commute. Over a
whole dispatch history, a field holds the value of the last action that wrote
it, or its starting value if nothing wrote it. A reset makes everything before
it irrelevant.

## Model

| member | source | states |
|---|---|---|
| `SignupSlice.InitialState` | src/features/signupSlice.js:3-8 | every field of the initial state is blank: `""` for the three text fields, `false` for `rememberMe` |
| `SignupSlice.Reduce` | src/features/signupSlice.js:14-31 | after an action, each field the action writes holds the payload (or blank, for `resetForm`), and every other field keeps its previous value |
| `SignupSlice.SameFieldsSameState` | src/features/signupSlice.js:3-8 | the state is exactly its four fields: two states are equal if and only if they agree on every field |
| `SignupSlice.ResetYieldsInitial` | src/features/signupSlice.js:26-31 | `resetForm` yields exactly the initial state whatever the prior values, so there is no partial reset |
| `SignupSlice.ResetIdempotent` | src/features/signupSlice.js:26-31 | applying `resetForm` twice gives the same state as applying it once |
| `SignupSlice.LaterWriteWins` | src/features/signupSlice.js:14-31 | when a second action writes every field the first one wrote, the first one has no effect; so `setX(a); setX(b)` equals `setX(b)` |
| `SignupSlice.DisjointWritesCommute` | src/features/signupSlice.js:14-25 | actions that write different fields give the same state in either order |
| `SignupSlice.UntouchedFieldKept` | src/features/signupSlice.js:14-31 | a field that no action in a dispatch history writes keeps its starting value |
| `SignupSlice.LastWriteDecides` | src/features/signupSlice.js:14-31 | after a dispatch history, a field holds the value written by the last action in it that writes the field |
| `SignupSlice.ResetForgetsHistory` | src/features/signupSlice.js:26-31 | a `resetForm` in a history discards all earlier actions: the final state is the one reached from the initial state by the actions after it |
| `SignupSlice.SignupForm.constructor` | src/features/signupSlice.js:3-8 | a new form holds the initial state |
| `SignupSlice.SignupForm.SetName` | src/features/signupSlice.js:14-16 | `name` becomes the payload; `email`, `password` and `rememberMe` are unchanged |
| `SignupSlice.SignupForm.SetEmail` | src/features/signupSlice.js:17-19 | `email` becomes the payload; the other three fields are unchanged |
| `SignupSlice.SignupForm.SetPassword` | src/features/signupSlice.js:20-22 | `password` becomes the payload; the other three fields are unchanged |
| `SignupSlice.SignupForm.SetRememberMe` | src/features/signupSlice.js:23-25 | `rememberMe` becomes the payload; the three text fields are unchanged |
| `SignupSlice.SignupForm.ResetForm` | src/features/signupSlice.js:26-31 | all four fields are cleared together, leaving exactly the initial state |
| `SignupSlice.SignupForm.Dispatch` | src/features/signupSlice.js:10-37 | dispatching an action to the form moves its state exactly as `Reduce` does |

## Left out

- Payload types: an action's payload is untyped at run time, so `setRememberMe` could store a non-boolean and the text setters a non-string. The model fixes the payloads of the text setters to strings and that of `setRememberMe` to a boolean.
- The state library behind `createSlice` (action-creator generation, draft proxying, ignoring actions of other slices) is not modelled; the reducer bodies are modelled directly.
- `src/App.js`, `src/index.js`, `src/features/axiosInstance.js` and `tailwind.config.js` hold markup, provider wiring, HTTP client configuration and styling, with no logic to model.
- Password-strength classification, a common-password denylist, a feedback-message field, registration and Google-login requests, and token persistence appear nowhere in the slice or the other files here, so they are not modelled.
- Overlapping network requests are concurrency over code that is not part of this model.
