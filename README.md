# ofono interface and overlord state engine, in Dafny

This project models two parts of snapd, the daemon that confines snap packages.

**The `ofono` capability interface** (`interfaces/builtin/ofono.go`). A snap that provides the ofono telephony service has a *slot*. A snap that uses it has a *plug*. For each security backend (AppArmor, seccomp, udev, D-Bus) the interface gives the policy fragment each side needs:
- *permanently*, whether or not anything is connected;
- *once connected*, where the peer's AppArmor label is put in place of a `###…_SECURITY_TAGS###` placeholder.

On a classic (non-Ubuntu-Core) system the plug side also gets a rule for the unconfined ofono service. The interface also answers sanitisation and auto-connection questions.

The model has three modules:
- `Ofono` holds every operation, as functions over datatypes, with the fragment texts as constants.
- `Replace` models the `bytes.Replace(…, -1)` and `bytes.Count` semantics the substitution relies on.
- `Wrappers` holds `Option`, where `None` is Go's `nil`, and `Error`.

The proofs cover the following:
- Each connected AppArmor template holds its placeholder exactly once.
- So each connected fragment is the template's head, then the peer's label, then the template's tail.
- For a label without `#`, no placeholder is left, on a classic system or not.
- The classic fragment is the confined one extended by the unconfined rule.

**The overlord's `StateEngine`** (`overlord/stateengine.go`). It is modelled as a class. Its fields are the engine's state and its two manager lists:
- `initialize`: managers added but not yet initialised;
- `managers`: managers in use.

A ghost `calls` field records every request made to a manager. `Ensure` and `Stop` are imperative methods. Their loop is the shared method `Dispatch`, which walks the managers and stops at the first error. Each method is proved against a function on the lists, `EnsureStep` or `StopStep`, and against a trace function, `EnsureTrace` or `StopTrace`. Lemmas about those functions then state the following:
- the multiset of known managers is preserved;
- Ensure moves the pending managers into use once every Init succeeds, even when an Ensure request then fails; an Init failure leaves the lists alone;
- Stop moves the managers in use back to pending only when every one of them stops;
- the first error stops the loop;
- Stop followed by Ensure re-initialises and reorders the managers.

## Model

| member | source | states |
|---|---|---|
| Ofono.Name | interfaces/builtin/ofono.go:259-261 | the interface is named `ofono` |
| Ofono.PermanentPlugSnippet | interfaces/builtin/ofono.go:263-265 | a plug needs no permanent fragment on any backend, and there is no error |
| Ofono.ConnectedPlugSnippet | interfaces/builtin/ofono.go:267-282 | never an error. A fragment exactly for AppArmor and seccomp. AppArmor gives the plug template with the slot's label in place of its placeholder, plus the unconfined rule exactly when on classic. seccomp gives the fixed syscall list. udev, D-Bus and any other backend give nil |
| Ofono.PermanentSlotSnippet | interfaces/builtin/ofono.go:284-296 | never an error. Each of AppArmor, seccomp, udev and D-Bus gets its own fixed fragment. Any other backend gets nil |
| Ofono.ConnectedSlotSnippet | interfaces/builtin/ofono.go:298-307 | never an error. A fragment exactly for AppArmor: the slot template with the plug's label in place of its placeholder |
| Ofono.SanitizePlug | interfaces/builtin/ofono.go:309-311 | every plug is accepted |
| Ofono.SanitizeSlot | interfaces/builtin/ofono.go:313-315 | every slot is accepted |
| Ofono.LegacyAutoConnect | interfaces/builtin/ofono.go:317-319 | never auto-connected under the legacy rule |
| Ofono.AutoConnect | interfaces/builtin/ofono.go:321-324 | every plug/slot pair may be auto-connected |
| Ofono.ConnectedSlotTemplateSubstitution | interfaces/builtin/ofono.go:99-109 | the connected-slot template holds `###PLUG_SECURITY_TAGS###` exactly once, so replacing it with any label yields head + label + `),\n` |
| Ofono.ConnectedPlugTemplateSubstitution | interfaces/builtin/ofono.go:111-123 | the connected-plug template holds `###SLOT_SECURITY_TAGS###` exactly once, so replacing it with any label yields head + label + `),\n` |
| Ofono.ConnectedSlotSnippetLeavesNoPlaceholder | interfaces/builtin/ofono.go:300-304 | if the plug's label holds no `#`, the AppArmor slot fragment contains no `###PLUG_SECURITY_TAGS###` |
| Ofono.ConnectedPlugSnippetLeavesNoPlaceholder | interfaces/builtin/ofono.go:269-277 | if the slot's label holds no `#`, the AppArmor plug fragment contains no `###SLOT_SECURITY_TAGS###`, whether or not the system is classic |
| Ofono.ClassicWidensConnectedPlug | interfaces/builtin/ofono.go:273-276 | on classic the AppArmor plug fragment is the non-classic one followed by the unconfined rule, so the two always differ |
| Ofono.ConnectedPlugModeMattersOnlyForAppArmor | interfaces/builtin/ofono.go:278-281 | for every backend except AppArmor, classic and non-classic give the same result |
| Replace.Count | interfaces/builtin/ofono.go:272 | `bytes.Count`, which `bytes.Replace` uses to size its result: for a non-empty pattern, the matches counted fit in the input without overlapping (count times pattern length is at most the input's length) |
| Replace.ReplaceAll | interfaces/builtin/ofono.go:272 | `bytes.Replace(s, old, new, -1)`: replacing a pattern by itself gives the input back |
| Replace.Interleave | interfaces/builtin/ofono.go:272 | `bytes.Replace` with an empty pattern: inserting the empty replacement gives the input back |
| Replace.FirstMatch | interfaces/builtin/ofono.go:272 | the leftmost occurrence of the pattern: none starts earlier, and one starts there unless it is the end |
| Replace.InterleaveLength | interfaces/builtin/ofono.go:272 | replacing the empty pattern inserts the replacement once more than the input has characters |
| Replace.ReplaceAllLength | interfaces/builtin/ofono.go:272 | the result has the input's length plus Count times the difference between the replacement's and the pattern's lengths, as for Go's `bytes.Replace` |
| Replace.CountZeroIffAbsent | interfaces/builtin/ofono.go:272 | for a non-empty pattern, the count is zero if and only if the pattern does not occur |
| Replace.ReplaceAllWithoutMatch | interfaces/builtin/ofono.go:272 | with nothing to replace, the input is returned unchanged |
| Replace.ReplaceAllSplit | interfaces/builtin/ofono.go:272 | with `j` the leftmost match, the result is the input before `j`, then the replacement, then the text after the match replaced in turn. The count is one more than the remainder's |
| Replace.ReplaceAllPastLastMatch | interfaces/builtin/ofono.go:272 | when no match starts before the end, the input is returned unchanged and the count is zero |
| Replace.ReplaceAllSingle | interfaces/builtin/ofono.go:303 | a text p + pattern + q in which the pattern starts nowhere else holds it once and becomes p + replacement + q |
| Replace.ReplaceAllLeavesNoMatch | interfaces/builtin/ofono.go:303 | a non-empty replacement that shares no character with the pattern leaves no occurrence of the pattern |
| Replace.ReplaceAllCanLeaveMatch | interfaces/builtin/ofono.go:272 | a replacement that does not contain the pattern can still create one: replacing `ab` by `a` in `aabb` gives `aab` |
| Overlord.Manager.Init | overlord/stateengine.go:29-32 | Init returns the manager's Init outcome |
| Overlord.Manager.Ensure | overlord/stateengine.go:34-36 | Ensure returns the manager's Ensure outcome |
| Overlord.Manager.Stop | overlord/stateengine.go:38-40 | Stop returns the manager's Stop outcome |
| Overlord.FirstFailure | overlord/stateengine.go:79-84 | the index where a first-error loop stops. Every manager before it succeeds, and the one at it fails unless it is the end |
| Overlord.FirstError | overlord/stateengine.go:89-95 | a loop's result is nil exactly when every manager succeeds. Otherwise it is the first failing manager's error |
| Overlord.AttemptedStopsAtFirstFailure | overlord/stateengine.go:107-111 | the calls a loop makes are a prefix of "one call to each". They are all of them when none fails. Otherwise they run exactly up to the first failing manager |
| Overlord.EnsureStep | overlord/stateengine.go:77-96 | this function specifies `StateEngine.Ensure`. The multiset of known managers is kept. The lists are either unchanged (no pending managers, or an Init failed) or the pending managers are appended to those in use and `initialize` is emptied. The result is nil exactly when every pending Init and every Ensure of the new list succeeds. An Init failure returns the first Init error. Once every Init succeeds, the result is the first Ensure error of the new list |
| Overlord.StopStep | overlord/stateengine.go:105-117 | this function specifies `StateEngine.Stop`. The multiset of known managers is kept. The result is nil exactly when every manager in use stops. On success the managers in use are appended to `initialize` and `managers` is emptied. On failure the lists are unchanged and the first Stop error is returned |
| Overlord.StateEngine.constructor | overlord/stateengine.go:58-62 | a new engine holds the given state and no managers |
| Overlord.StateEngine.State | overlord/stateengine.go:65-67 | returns the engine's state. AddManager, Ensure and Stop never change it |
| Overlord.StateEngine.AddManager | overlord/stateengine.go:99-101 | the manager is appended to `initialize`. `managers` and the state are unchanged. The known multiset grows by exactly that manager |
| Overlord.StateEngine.Send | overlord/stateengine.go:80 | the request of the phase goes to the manager. Init receives the engine's state. The manager's answer is returned, together with the request made, which `Dispatch` records |
| Overlord.StateEngine.Dispatch | overlord/stateengine.go:89-94 | the first-error loop returns `FirstError`. The requests it sends are `Attempted`: exactly the managers up to and including the first failing one |
| Overlord.StateEngine.Ensure | overlord/stateengine.go:77-96 | the new lists and the result are `EnsureStep` of the old lists. The calls made are `EnsureTrace`. The state is unchanged |
| Overlord.StateEngine.Stop | overlord/stateengine.go:105-117 | the new lists and the result are `StopStep` of the old lists. The calls made are `StopTrace`. The state is unchanged |
| Overlord.EnsureAgainKeepsLists | overlord/stateengine.go:78-95 | after a successful Ensure, a second Ensure initialises nobody, keeps the lists and succeeds. Its only calls are one Ensure per manager in use |
| Overlord.StopThenEnsureReorders | overlord/stateengine.go:113-114 | after a successful Stop and an Ensure whose Inits succeed, the managers in use are the formerly pending ones followed by the formerly running ones. Every manager gets Init again first |
| Overlord.StopThenEnsureRestores | overlord/stateengine.go:29-31 | with no pending managers, Stop then a successful re-Init restores the engine's lists, calling Init on every manager again |
| Overlord.StopReturnsBeforeStoppingAll | overlord/stateengine.go:103-111 | when the first of two or more managers fails to stop, it is the only one asked to stop, and its error is returned |
| Overlord.AddThenEnsureAppends | overlord/stateengine.go:85 | a manager added to an engine with nothing pending is last in use after a successful Ensure |
| Overlord.InitFailureIsRetried | overlord/stateengine.go:78-87 | an Init failure leaves the lists as they were, so the next Ensure makes the same calls again. The calls stop at the failing manager |

### Comments and code that disagree

- The comment on `Stop` (`overlord/stateengine.go:103-104`) says it returns the first error "after all managers are stopped". The loop at lines 107-111 instead returns as soon as one manager fails, and never asks the later ones to stop. The model follows the code. `Overlord.StopReturnsBeforeStoppingAll` states the difference.

## Left out

- Meaning of the policy texts: the AppArmor, seccomp, udev and D-Bus fragments are opaque constant strings. Their content matches the Go literals character for character. Only their placeholder structure is reasoned about.
- Label builders: `slotAppLabelExpr` and `plugAppLabelExpr` are defined outside `ofono.go`. They are passed in as uninterpreted functions (`Ofono.LabelBuilders`).
- `release.OnClassic`: a global that is read at call time. It is modelled as the `onClassic` parameter of `Ofono.ConnectedPlugSnippet`.
- Bytes versus characters: fragments are `seq<char>`, not `[]byte`. `Replace.Interleave` inserts the replacement around each character, where Go's `bytes.Replace` with an empty pattern works around each UTF‑8 rune. The interface never uses an empty pattern.
- `Ofono.SecuritySystem`: `Other(name)` does not rule out the names of the four known backends. These are distinct Go string constants, modelled as separate constructors.
- Ofono snippet results: Go returns a fresh byte slice each time. The identity and aliasing of those slices are not modelled.
- `*state.State`: reduced to an empty class (`Overlord.SystemState`). Locking and the state's contents are outside this model.
- State managers: each `Overlord.Manager` answers Init, Ensure and Stop with an outcome fixed when it is built. The outcomes are constant fields. Managers that change their own state, or answer differently over time, are not modelled. The lemmas relating several engine calls rely on this fixed-outcome assumption.
- Engine concurrency: managers running concurrent activities, and callers using the engine from several goroutines, are not modelled.
- Go slice aliasing: `append` in `AddManager`, `Ensure` and `Stop` can share a backing array with the old slice. The model's lists are values.
- `Overlord.StateEngine.Send`: the argument Init receives (the engine's state) is not recorded in the `calls` trace.
