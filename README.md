# Agent status page and build-creator email prompt, in Dafny

This project models the decision logic of two view components of a
continuous-integration dashboard, and proves properties of that model.

- **`AgentShow`** (`app/components/agent/Show.js`) is the agent status page. The model covers:
  - the ordered list of labelled status items (`renderExtras`);
  - whether the "Stop Agent" row appears (`renderStopRow`);
  - the meta-data text, which is the entries sorted in place and joined by newlines, or `None`;
  - the `stopping` flag, driven by the stop click and by the stop mutation's success and failure callbacks;
  - the refresh timer, which runs only between mount and unmount.
- **`AvatarWithEmailPrompt`** (`app/components/build/AvatarWithEmailPrompt.js`) shows the build creator's avatar, sometimes with an email prompt. The model covers:
  - the case-insensitive lookup of the creator's email among the viewer's emails (`getUserEmailInformation`, `isCurrentUsersEmail`);
  - the choice of prompt (`renderContent`), as a variant: `Hidden`, `AddingEmail`, `VerifyEmail`, `UnknownEmail`;
  - when the prompt's query variables are turned on (`componentWillReceiveProps`);
  - the `isAddingEmail` flag, driven by the add click and by the mutations' callbacks;
  - the choice between the popover and the bare avatar (`render`).

Files:
- `js_runtime.dfy` (module `JsRuntime`) models the JavaScript built-ins the components use:
  - optional values and truthiness;
  - the `TypeError` thrown by reading a property of null;
  - ASCII `toLowerCase`;
  - the default string order of `Array.prototype.sort`, and sorting in place;
  - `join`, with splitting as its inverse.
- `flashes_store.dfy` (module `FlashesStore`) is the shape of a flash message.
- `agent_show.dfy` (module `AgentShow`) and `avatar_with_email_prompt.dfy` (module `AvatarWithEmailPrompt`) model the two components.

How the model is built:
- Each component is a class. Its fields are:
  - its props;
  - its local state (`stopping`, or `isAddingEmail` and the data layer's query variables);
  - a log of the effects it asks of the outside world, in order: `setState`, store commits with their callbacks, flashes, timers, refetches and `setVariables`.
- The pure decisions are functions over datatypes. Each class method says exactly what it adds to the log and what the new state is.
- Where the source throws, the model returns `Completion.Threw`:
  - `agent.stoppedBy.name` is read while the agent is stopped or stopping but `stoppedBy` is null;
  - `renderContent` destructures a null `build.createdBy`.

Two readings of the email prompt are kept side by side:
- As written, the lookup reads `verified` from the found edge rather than from its node (app/components/build/AvatarWithEmailPrompt.js:58), so the branch that returns null for a verified email (lines 161-164) never runs (see Findings). `UserEmailInformation`, `RenderContentAsWritten` and `RenderAsWritten` follow the code as written.
- The prop types put `verified` on `node` (lines 24-29), and that branch exists to hide the prompt for a verified email. `CorrectedUserEmailInformation`, `RenderContent` and `Render` read `verified` from the node.

The prompt query is turned on when the creator's email is *not* among the viewer's emails. The check reads the *current* props' email list, not the incoming one (lines 72-81).

## Model

| member | source | states |
|---|---|---|
| `JsRuntime.Lower` | app/components/build/AvatarWithEmailPrompt.js:52 | `toLowerCase` keeps the length, turns each upper-case ASCII letter into its lower-case letter, and changes no other character |
| `JsRuntime.StrLe` | app/components/agent/Show.js:166 | the default sort order on strings puts a prefix first: a string sorts at or before every string it is a prefix of, and strictly after every proper prefix of itself |
| `JsRuntime.StrLeTotal` | app/components/agent/Show.js:166 | the default sort order on strings is total |
| `JsRuntime.StrLeTransitive` | app/components/agent/Show.js:166 | the default sort order on strings is transitive |
| `JsRuntime.StrLeAntisymmetric` | app/components/agent/Show.js:166 | two strings that sort each before the other are equal |
| `JsRuntime.SortInPlace` | app/components/agent/Show.js:166 | `metaData.sort()` leaves the array in ascending order and holding exactly the entries it held before |
| `JsRuntime.InsertLast` | app/components/agent/Show.js:166 | one step of the sort: moving an entry into the sorted prefix extends the sorted prefix by one and keeps the array's entries |
| `JsRuntime.SortedUnique` | app/components/agent/Show.js:166 | that order is unique: two sorted arrangements of the same entries are equal, so the sorted text is determined by the entries |
| `JsRuntime.Join` | app/components/agent/Show.js:166 | `join('\n')` of no entries is empty and of one entry is that entry; the text starts with the first entry, and with two or more entries a newline follows it |
| `JsRuntime.SplitJoin` | app/components/agent/Show.js:166 | `join('\n')` loses nothing: splitting the joined text at newlines gives back the entries, when no entry contains a newline |
| `AgentShow.FieldItem` | app/components/agent/Show.js:59-101 | each optional field contributes at most one item, with that field's title, and does so exactly when the field is truthy |
| `AgentShow.LastCheckIn` | app/components/agent/Show.js:96-98 | the "last check-in" note exists exactly when `pingedAt` is set and the state is `connected` |
| `AgentShow.FieldItems` | app/components/agent/Show.js:59-101 | the first `n` optional fields contribute at most `n` items, each of a rank below `n` and each the one item its own field contributes |
| `AgentShow.PushFieldItems` | app/components/agent/Show.js:57-101 | the nine field pushes build the field items, in field order |
| `AgentShow.StateItems` | app/components/agent/Show.js:103-128 | the state branch throws exactly when the agent is stopped or stopping with a null `stoppedBy`; otherwise it adds at most two items, each ranked after every field item |
| `AgentShow.Extras` | app/components/agent/Show.js:56-131 | `renderExtras` throws exactly when the state branch throws; otherwise its list starts with the field items, holds at most 11 items, and every item after the field items is a state item |
| `AgentShow.PushStateItems` | app/components/agent/Show.js:103-130 | the state pushes append the state items to the field items, or throw when a stopped agent has no `stoppedBy` |
| `AgentShow.RenderExtras` | app/components/agent/Show.js:56-131 | `renderExtras` returns the field items followed by the state items |
| `AgentShow.FieldItemsRanked` | app/components/agent/Show.js:59-101 | the field items come in the fixed order Version, Hostname, PID, IP Address, User Agent, OS, Priority, Running, Connected, each at most once |
| `AgentShow.StateItemsShape` | app/components/agent/Show.js:103-128 | at most two state items, both after every field item, in order |
| `AgentShow.ExtrasOrdered` | app/components/agent/Show.js:56-130 | the whole list is in the fixed order (field items first, state items after), no title appears twice, and it has at most 11 items |
| `AgentShow.ExtrasFieldPresence` | app/components/agent/Show.js:59-101 | a field item's title appears exactly when its field is truthy, so a `pid` or `priority` of 0, or an empty string, is left out |
| `AgentShow.ExtrasWhenDisconnected` | app/components/agent/Show.js:103-107 | a `disconnected` agent shows the Disconnected item and neither Lost nor Stopped |
| `AgentShow.ExtrasWhenLost` | app/components/agent/Show.js:108-112 | a `lost` agent shows the Lost item and neither Disconnected nor Stopped |
| `AgentShow.ExtrasWhenStopped` | app/components/agent/Show.js:113-128 | a `stopped` or `stopping` agent throws exactly when `stoppedBy` is null; otherwise it shows Stopped, never Lost, and Disconnected exactly when `disconnectedAt` is set |
| `AgentShow.ExtrasOtherStates` | app/components/agent/Show.js:103-128 | every other state, `connected` included, shows none of the three state items |
| `AgentShow.ExtrasLastCheckIn` | app/components/agent/Show.js:91-101 | a Connected item shows `connectedAt` and has the check-in note exactly when `pingedAt` is set and the agent is connected |
| `AgentShow.RenderStopRow` | app/components/agent/Show.js:212-242 | the stop row exists exactly when the state is `connected` and `agentStop` is allowed; its button carries a loading label exactly while `stopping`, and that label is "Stopping…" |
| `AgentShow.RenderMetaData` | app/components/agent/Show.js:164-167 | the text is `None` when `metaData` is null or empty; otherwise the array is sorted in place (a permutation of the old array) and the text is its entries joined by newlines |
| `AgentShow.MetaDataTextLines` | app/components/agent/Show.js:166 | the lines of the meta-data text are the sorted entries, each entry once, when no entry holds a newline |
| `AgentShow.AgentShow.constructor` | app/components/agent/Show.js:32-34 | the page starts with `stopping` false, not mounted, with no effects |
| `AgentShow.AgentShow.ComponentDidMount` | app/components/agent/Show.js:36-38 | mounting starts exactly one refresh timer and records its handle |
| `AgentShow.AgentShow.ComponentWillUnmount` | app/components/agent/Show.js:40-42 | unmounting clears the timer with the recorded handle, which stays recorded; afterwards no timer of the page is live |
| `AgentShow.AgentShow.RefreshTick` | app/components/agent/Show.js:44-46 | a refresh (`forceFetch(true)`) can only come from a live timer, and a live timer exists only while mounted; the tick changes nothing else |
| `AgentShow.AgentShow.HandleStopButtonClick` | app/components/agent/Show.js:133-147 | the click prevents the default, sets `stopping` before committing the non-graceful stop with the success and error handlers, and changes nothing else |
| `AgentShow.AgentShow.HandleMutationSuccess` | app/components/agent/Show.js:149-151 | success clears `stopping` and changes nothing else |
| `AgentShow.AgentShow.HandleMutationError` | app/components/agent/Show.js:153-157 | failure pushes exactly one ERROR flash with the transaction's error, then clears `stopping`, and changes nothing else |
| `AgentShow.AgentShow.Render` | app/components/agent/Show.js:159-210 | `render` sorts the meta-data first, then shows the status items, the meta-data text and the stop row; it throws when `renderExtras` throws |
| `AvatarWithEmailPrompt.EdgeProperty` | app/components/build/AvatarWithEmailPrompt.js:273-279 | a fetched edge has only the property `node`; every other property, `verified` included, is undefined |
| `AvatarWithEmailPrompt.NodeProperty` | app/components/build/AvatarWithEmailPrompt.js:273-279 | a node carries `address` and `verified` |
| `AvatarWithEmailPrompt.FindIndex` | app/components/build/AvatarWithEmailPrompt.js:50-54 | `find` picks the first edge whose address equals the email ignoring case; it finds none exactly when no edge matches |
| `AvatarWithEmailPrompt.UserEmailInformation` | app/components/build/AvatarWithEmailPrompt.js:44-62 | `isCurrentUsers` is true exactly when some edge's address matches the email ignoring case; when none matches, `isVerified` is false too |
| `AvatarWithEmailPrompt.IsVerifiedNeverTruthy` | app/components/build/AvatarWithEmailPrompt.js:56-59 | as written, `isVerified` is never truthy, because it is read from the edge and not from its node |
| `AvatarWithEmailPrompt.CorrectedUserEmailInformation` | app/components/build/AvatarWithEmailPrompt.js:56-59 | reading `verified` from the node gives the same `isCurrentUsers`. `isVerified` is then truthy exactly when the first matching node is verified |
| `AvatarWithEmailPrompt.IsCurrentUsersEmail` | app/components/build/AvatarWithEmailPrompt.js:64-66 | true exactly when some edge's address matches the email ignoring case |
| `AvatarWithEmailPrompt.GetUserEmailInformation` | app/components/build/AvatarWithEmailPrompt.js:44-62 | the `find` loop and the two reassigned flags compute the as-written lookup |
| `AvatarWithEmailPrompt.Prechecks` | app/components/build/AvatarWithEmailPrompt.js:107-157 | the early returns of `renderContent`: a null creator throws; no creator email, `isTryingToPrompt` false, or a dismissed notice give null; then `isAddingEmail` gives "Adding Email…"; the email is classified exactly when the guards pass and no email is being added |
| `AvatarWithEmailPrompt.Classification` | app/components/build/AvatarWithEmailPrompt.js:159-213 | the prompt is null exactly when the email is the viewer's and `isVerified` is truthy; it is "Unknown email address" with the Add and Dismiss actions exactly when the email is not the viewer's; otherwise "Verify your email" for that email |
| `AvatarWithEmailPrompt.RenderContentAsWritten` | app/components/build/AvatarWithEmailPrompt.js:107-213 | `renderContent` as written throws exactly when the creator is null; it shows anything only when the guards pass; it shows "Adding Email…" exactly when the guards pass and an email is being added |
| `AvatarWithEmailPrompt.RenderContent` | app/components/build/AvatarWithEmailPrompt.js:107-213 | the same three facts for `renderContent` with the corrected lookup |
| `AvatarWithEmailPrompt.RenderContentClassified` | app/components/build/AvatarWithEmailPrompt.js:159-213 | with the corrected lookup: the viewer's verified email gives null; the viewer's unverified email gives "Verify your email"; any other email gives "Unknown email address" with the Add and Dismiss actions |
| `AvatarWithEmailPrompt.AsWrittenNeverHidesVerified` | app/components/build/AvatarWithEmailPrompt.js:159-213 | as written, once the guards pass and no email is being added, the result is never null: the viewer's own email always gives "Verify your email", and any other email gives "Unknown email address" with the Add and Dismiss actions |
| `AvatarWithEmailPrompt.AsWrittenPromptsVerifiedEmail` | app/components/build/AvatarWithEmailPrompt.js:56-59 | an example: a verified viewer address stored with different case prompts "Verify your email" as written, inside the popover, and is hidden, leaving the bare avatar, when corrected |
| `AvatarWithEmailPrompt.RenderAsWritten` | app/components/build/AvatarWithEmailPrompt.js:216-241 | `render` as written wraps the avatar in an always-shown popover 400 wide exactly when the as-written content is not null; otherwise it returns the bare avatar; it throws when `renderContent` throws |
| `AvatarWithEmailPrompt.Render` | app/components/build/AvatarWithEmailPrompt.js:216-241 | the same for the content with the corrected lookup |
| `AvatarWithEmailPrompt.AvatarWithEmailPrompt.constructor` | app/components/build/AvatarWithEmailPrompt.js:40-42 | the component starts with `isAddingEmail` false and the query variables at their initial values: no prompt email, `isTryingToPrompt` false |
| `AvatarWithEmailPrompt.AvatarWithEmailPrompt.ComponentWillReceiveProps` | app/components/build/AvatarWithEmailPrompt.js:72-81 | the variables become `isTryingToPrompt` true and the lower-cased creator email exactly when the new creator has an email that is not in the current props' email list. Otherwise nothing changes. `isTryingToPrompt` is never turned off |
| `AvatarWithEmailPrompt.AvatarWithEmailPrompt.HandleDismissClick` | app/components/build/AvatarWithEmailPrompt.js:83-87 | dismissing commits the notice dismissal with a failure handler and no success handler, and changes no state |
| `AvatarWithEmailPrompt.AvatarWithEmailPrompt.HandleMutationFailure` | app/components/build/AvatarWithEmailPrompt.js:89-93 | any failure, including a failed dismissal, clears `isAddingEmail`, then pushes exactly one ERROR flash |
| `AvatarWithEmailPrompt.AvatarWithEmailPrompt.HandleAddEmailClick` | app/components/build/AvatarWithEmailPrompt.js:95-101 | the click sets `isAddingEmail` before committing the creator's email with the success and failure handlers. The method requires a non-null creator, because its only caller, the Add button (line 199), is rendered only after `renderContent` has destructured a non-null `createdBy` |
| `AvatarWithEmailPrompt.AvatarWithEmailPrompt.HandleEmailAddedSuccess` | app/components/build/AvatarWithEmailPrompt.js:103-105 | success clears `isAddingEmail` and changes nothing else |

## Left out

- Markup and presentation are not modelled: JSX structure, CSS class names, inline styles, and the document title (app/components/agent/Show.js:170).
- The colour and label of the connection state are not modelled. `getColourForConnectionState` and `getLabelForConnectionState` come from `./shared`, which is not part of this model.
- Relay fragment declarations and queries are schema shape, not behaviour, so they are left out. Only the fields the components read are kept.
- The data store's calls (`Relay.Store.commitUpdate`, `relay.forceFetch`, `relay.setVariables`) are asynchronous. They appear only as entries in the effect log: the mutations with their callbacks, a refetch, and set variables.
  - The store invokes a mutation's callback by calling the matching handler method.
  - Set variables take effect at once. Relay's later refetch of the notice is not modelled.
- `setState` is modelled as an immediate assignment. React's batching is not modelled. Neither is the no-op React performs when a callback calls `setState` after unmount.
- The timing of the refresh timer, including its 5-second period, is not modelled. The browser picks the timer's handle; it is a parameter of the mount method.
- `permissions(...).collect` is reduced to the `agentStop.allowed` flag, because `lib/permissions` is not part of this model. What it returns when the action is not allowed is likewise not modelled; the model treats it as "no row".
- `FlashesStore` is a global channel. The model keeps only the messages each component pushes, in that component's effect log.
- The foreign components `FriendlyTime`, `JobLink`, `UserAvatar`, `AnchoredPopover`, `Spinner` and `Button` are left out. The model keeps the values passed to them, not what they render.
- `toLowerCase` is modelled on ASCII letters only. Unicode case mapping is not modelled.
- The sort compares Unicode code points. JavaScript compares UTF-16 code units, and the two orders differ only for characters outside the Basic Multilingual Plane.
- `pid` and `priority` are integers. `NaN`, which is also falsy in JavaScript, is not modelled.
- An email address that is null would make `toLowerCase` throw. The model treats every address as a string.
- `shouldComponentUpdate` (a shallow compare) decides whether React re-renders. That decision is not modelled: the render functions are total, so it does not affect what a render shows.
- `handleResendVerificationClick` is referenced at app/components/build/AvatarWithEmailPrompt.js:179 but never defined. So the "Verify your email" variant carries no action.
- The mutation descriptors carry more than the model keeps. For `EmailCreate` and `NoticeDismiss`, the model records the address and the notice; it leaves out the viewer they also carry.
- `app/components/build/EmailPrompt.js` is left out:
  - its guard logic is commented out;
  - its add handler is empty;
  - its one predicate calls an array method `.any`, which does not exist;
  - `AvatarWithEmailPrompt` supersedes it.
- `app/components/team/Members/user.js`, `app/components/shared/Media/index.js` and `app/components/shared/Media/description.js` are left out. They are presentational, and their only logic is choosing a class name.

## Findings

| source | as written | input that shows it | evidently intended | confidence | as-written member | corrected member |
|---|---|---|---|---|---|---|
| app/components/build/AvatarWithEmailPrompt.js:58 | `isVerified = foundEmail.verified` reads the edge `{node: {...}}`, which has no `verified`, so `isVerified` is always undefined. The "verified, so hide" branch at lines 162-164 never runs | creator email `dev@example.com`; the viewer's emails are the one edge `{node: {address: "Dev@Example.com", verified: true}}`; prompting on; no notice. The prompt shows "Verify your email" for an already verified address | `isVerified = foundEmail.node.verified`, so that the viewer's verified email hides the prompt | high (not executed) | `AvatarWithEmailPrompt.AsWrittenPromptsVerifiedEmail` | `AvatarWithEmailPrompt.CorrectedUserEmailInformation` |

The as-written lookup (`UserEmailInformation`, `GetUserEmailInformation`) stays in the model with its defect, shown by `IsVerifiedNeverTruthy` and `AsWrittenNeverHidesVerified`. `RenderContentAsWritten` and `RenderAsWritten` build on it, so the defect reaches the rendered view. `RenderContent` and `Render` use the corrected lookup, whose intended behaviour `RenderContentClassified` proves.
