# MWT decision-recording pipeline, modelled in Dafny

This project models the core of the multi-world-testing (MWT) mockup in
`TestMwt/TestMwt.cpp`: the decision engine `Mwt`, the two explorers
`EpsilonGreedy` and `Softmax`, and the default recorder `StringRecorder`.

A caller gives `Mwt::Choose_Action` an explorer, a context and a unique key.
The engine builds the seed `unique_key + m_app_id` and asks the explorer for
an `(action, probability)` pair. It then calls the recorder exactly once with
the context, that action, that probability and the *unsalted* key, and
returns the action. As written, both explorers return the policy's action for
the context with probability `0.f`, and they ignore the key.
`StringRecorder::Record` appends four pieces to its string, in this order and
with no separators: the context's text, the decimal action, the probability's
text and the key.

Files and modules:

- `values.dfy` (`Values`): `U32` (actions are `u32`), an opaque 32-bit `Float32` that carries only its bits (`0.f` is `PositiveZero`), and `Decision`, the `pair<u32, float>`.
- `decimal.dfy` (`Decimal`): `std::to_string` on a `u32`, with a parser as its partner so the round trip can be stated.
- `explorers.dfy` (`Explorers`): the closed datatype `EpsilonGreedy | Softmax`. Each variant holds its configuration and a policy function `Ctx -> U32`. Each explorer has a selection function, and `ChooseAction` is the statically resolved call.
- `recorder.dfy` (`Recording`): the text of one entry, the transcript of a sequence of entries with its lemmas, and the class `StringRecorder`. The class has a `recording` field and a ghost `log` of the calls made so far; `Valid()` says `recording == Transcript(format, log)`.
- `mwt.dfy` (`MultiWorld`): the `Seed` function and the class `Mwt`, which holds a fixed application id and a recorder reference. Its private template `ChooseAction` is proved for any explorer, given as a selection function of (context, seed); the typed overloads instantiate it with the two explorers. The file also holds the two demonstrations from `_tmain`, used as concrete instances, and a third that uses a seed-dependent explorer.

Collaborators the source does not define become parameters. The context's
`To_String()` and `std::to_string(float)` are the two function fields of a
`Format` value, and a `StringRecorder` is built with one. The policy is a
function field of the explorer. The model fixes the engine's recorder type to
`StringRecorder`; the other recorder in the file, `MyRecorder`, has an empty
body.

Three places where the mockup falls short of what MWT needs:

- Offline importance weighting needs a probability in (0, 1] for every logged decision. The code reports `0.f`, so the model returns `PositiveZero`.
- MWT explorers draw their randomness from the seed. Both explorers here ignore it, so their decisions in the model do not depend on it either. The engine's contract is stated for any explorer, so the salted seed is still pinned down.
- An offline evaluator has to split the recording back into decisions. The recorder writes no field or record delimiter, and `Recording.EntryBoundariesLost` shows that the recording can then be ambiguous.

## Model

| member | source | states |
|---|---|---|
| `Explorers.EpsilonGreedyChooseAction` | TestMwt/TestMwt.cpp:49-55 | the epsilon-greedy explorer answers with the policy's action for the context and probability `0.f`, whatever the key |
| `Explorers.SoftmaxChooseAction` | TestMwt/TestMwt.cpp:74-80 | the softmax explorer answers with the policy's action for the context and probability `0.f`, whatever the key |
| `Explorers.ChooseAction` | TestMwt/TestMwt.cpp:117 | each explorer kind is routed to its own selection function |
| `Explorers.KeyIgnored` | TestMwt/TestMwt.cpp:49-55 | for any explorer and context, two different keys (so two different seeds) give the same decision |
| `Explorers.ExplorersAgree` | TestMwt/TestMwt.cpp:36-84 | an epsilon-greedy and a softmax explorer over the same policy decide alike whatever their epsilon, lambda or action count, because the constructors ignore the configuration |
| `Decimal.DecimalString` | TestMwt/TestMwt.cpp:138 | the action's text is non-empty and all decimal digits; it starts with '0' exactly when the action is 0, and then it is "0" |
| `Decimal.DecimalRoundTrip` | TestMwt/TestMwt.cpp:138 | reading the action's text back as a decimal number gives the action |
| `Decimal.DecimalStringInjective` | TestMwt/TestMwt.cpp:138 | two actions have the same text if and only if they are equal |
| `Decimal.DecimalStringLength` | TestMwt/TestMwt.cpp:138 | a value below 10^k has at most k digits |
| `Decimal.U32TextLength` | TestMwt/TestMwt.cpp:138 | a `u32` action's text is 1 to 10 characters long |
| `Recording.StringRecorder.constructor` | TestMwt/TestMwt.cpp:131-143 | a new recorder's string is empty and nothing has been recorded |
| `Recording.StringRecorder.Record` | TestMwt/TestMwt.cpp:134-141 | the log and the string each grow by exactly this call's entry; the old string stays a prefix; the new string is the old one plus the context text, the decimal action, the probability text and the key, in that order and with no separators; the length grows by the sum of the four lengths |
| `Recording.TranscriptConcat` | TestMwt/TestMwt.cpp:137-140 | recording two runs of calls one after the other leaves the two recordings one after the other |
| `Recording.TranscriptAppend` | TestMwt/TestMwt.cpp:137-140 | one more call appends exactly that call's four pieces |
| `Recording.TranscriptPrefix` | TestMwt/TestMwt.cpp:137-140 | the string after the first n calls is a prefix of the string after any later call (append-only) |
| `Recording.TranscriptEntryAt` | TestMwt/TestMwt.cpp:137-140 | after n calls, the i-th call's text sits in the string directly after the text of the calls before it (call order) |
| `Recording.EntryBoundariesLost` | TestMwt/TestMwt.cpp:137-140 | with no separators, two different call sequences (two calls, or one call with a longer key) can leave the same string |
| `MultiWorld.Seed` | TestMwt/TestMwt.cpp:117 | the seed is the key followed by the application id: the key is its prefix and the id the rest |
| `MultiWorld.SeedInjective` | TestMwt/TestMwt.cpp:117 | under one application id, two keys give the same seed if and only if they are equal |
| `MultiWorld.SeedAmbiguousAcrossApps` | TestMwt/TestMwt.cpp:117 | under two different application ids, two different keys can give the same seed |
| `MultiWorld.Mwt.constructor` | TestMwt/TestMwt.cpp:89-93 | the engine holds the given application id, fixed for its lifetime, and the given recorder |
| `MultiWorld.Mwt.ChooseAction` | TestMwt/TestMwt.cpp:113-123 | for any explorer: the decision is the explorer's answer for the seed key + application id; the recorder's log and recording grow by exactly one call's entry, holding that action and probability unchanged and the unsalted key; the result is that action; nothing but the recorder changes |
| `MultiWorld.Mwt.ChooseEpsilonGreedy` | TestMwt/TestMwt.cpp:100-104 | the epsilon-greedy overload gives the same guarantees as `ChooseAction`, with the epsilon-greedy selection |
| `MultiWorld.Mwt.ChooseSoftmax` | TestMwt/TestMwt.cpp:106-110 | the softmax overload gives the same guarantees as `ChooseAction`, with the softmax selection |
| `MultiWorld.ExampleEpsilonGreedy` | TestMwt/TestMwt.cpp:179-189 | the first demonstration returns action 0 and leaves the recording "00.000000key" |
| `MultiWorld.ExampleSoftmax` | TestMwt/TestMwt.cpp:191-201 | a softmax engine asked twice returns 0 both times and leaves both entries in call order |
| `MultiWorld.ExampleSeedReachesExplorer` | TestMwt/TestMwt.cpp:117-122 | an explorer that answers 1 only for the seed "keysalt" returns 1 for key "key" under salt "salt", so it was given exactly the key followed by the salt; the recording "10.000000key" keeps the unsalted key |

## Left out

- The `IExplorer` interface, its `InvokeChooseAction` overrides and the `Choose_Action(IExplorer&, …)` overload (TestMwt/TestMwt.cpp:30-34, 44-47, 69-72, 95-98) are not modelled. That overload calls a private virtual, converts a pair to `u32`, and never calls the recorder, so it is ill-formed as written.
- The elided exploration and randomisation logic behind the `// . . .` placeholders is not modelled, because it is not written. The constructors ignore epsilon, lambda and the action count, so there is no validation to model.
- Float formatting: `std::to_string(float)` and the context's `To_String()` are parameters of the recorder (`Format`), not definitions. The probability is an opaque bit pattern with no arithmetic.
- The model fixes the `Rec` template parameter of `Mwt` to `StringRecorder`, the file's only recorder with a body, and does not abstract over recorders. `MyRecorder`, whose `Record` does nothing, is not modelled.
- `MultiWorld.ExampleSoftmax` differs from the second demonstration in two ways. It uses a `StringRecorder` where the source uses `MyRecorder`. It asks a second time, with the key "key2", to show two entries in call order; the source asks once.
- The platform typedefs are reduced to one constraint: actions are bounded to 32 bits.
- The policy is a pure function of the context. A C++ policy could have internal state, and that is not modelled.
- Contexts are passed as values, not by reference, so aliasing between the context and the collaborators is not modelled.
- The explorer is a pure function in the model, so the number of times the engine asks it is not observable; only the recorder call is counted.
- A failing `Record` (an exception of `std::string::append`) is not modelled. The source has no error path.
