# ResuMatch AI front-end logic in Dafny

This project models the parts of the ResuMatch AI front-end that make decisions or change
state:

- the session store of `app/lib/puter.ts` and its operations (`setError`, `checkAuthStatus`,
  `signIn`, `signOut`, `refreshUser`, `init`, `clearError`);
- the six-step analysis pipeline of the upload page (`handleAnalyze`, `handleSubmit`,
  `handleFileSelect`);
- the wipe page's delete loop, its reload of the listing, and its sign-in redirect;
- the file picker's rejection messages and 20 MiB ceiling;
- the score tiers and tip views of the feedback breakdown;
- the score label badge;
- the sidebar's user initial and its menu flag.

Every call into the Puter platform is a parameter giving the outcome it settles with:
- `Remote.Outcome` is either `Resolved(value)` or `Rejected(reason)`;
- a resolved `None` stands for a falsy result.

The platform's key-value store is a map from keys to records and its file store is a set of
paths (`Cloud.Storage`). A rejected call is taken to change neither.

The imperative code is modelled as classes whose methods change their fields:
- `Session.Store`
- `Upload.UploadPage`
- `Wipe.WipePage`
- `Uploader.FileUploader`
- `Sidebar.Menu`

Each state-changing method is proved equal to a pure effect function of the state before the
call and the outcomes. The properties the code promises are then proved about those effect
functions. `Session.Store` keeps a ghost log of every state it hands to `set`, so the
invariant "authenticated exactly when a user is present" holds at every state a subscriber can
observe, not only at the end of an operation.

`init` is modelled on discrete ticks of 100 ms:
- tick 0 is the synchronous check;
- ticks 1 to 99 are the interval callbacks;
- tick 100 is the 10 000 ms timeout.

At 10 000 ms both the timeout and the 100th interval callback are due; the model runs the
timeout first. A platform that first appears after the 9 900 ms callback and by 10 000 ms is
then never marked ready, and no error is set either. A platform found by an interval callback
does not cancel the timeout, so if it is gone again at 10 000 ms the timeout error follows the
probe's result. `Session.InitEffect` states both cases.

Two behaviours of the wipe page follow from the code as written:
- the wipe does not flush after a failed delete; the first rejection ends the handler;
- the wipe deletes the listing loaded earlier, not a fresh listing taken at delete time.

## Model

| member | source | states |
|---|---|---|
| Remote.MessageOrElse | app/routes/upload.tsx:86 | `err.message \|\| fallback` is never empty; it is the thrown object's message whenever that is non-empty, `Error` or not, and the fallback otherwise |
| Remote.MessageOf | app/lib/puter.ts:95-96 | the store's catch blocks keep an `Error`'s message, even an empty one, and the fallback for any other thrown value, including a non-`Error` object with a message |
| Remote.MessageOfAgreesWithMessageOrElse | app/routes/upload.tsx:86 | the store's `instanceof Error` test and the upload page's `\|\|` test agree except for an `Error` with an empty message and for a non-`Error` object with a non-empty message other than the fallback |
| Session.SetErrorEffect | app/lib/puter.ts:37-51 | `setError` leaves the error, a finished probe, no user and not authenticated; readiness is kept |
| Session.CheckAuthStatusEffect | app/lib/puter.ts:53-100 | the promise resolves to exactly the `isAuthenticated` the store holds afterwards, with `isAuthenticating` false; it is true iff the platform says signed in and hands over the user; an error is left iff a call failed or the platform is missing, always with the full failure shape: "Puter.js not available" without a platform, otherwise the rejected call's `Error` message or "Failed to check auth status"; the first state published is "error cleared, authenticating" |
| Session.SignInEffect | app/lib/puter.ts:102-118 | without a platform only "Puter.js not available" is published; authenticated afterwards iff the remote sign-in and the following probe succeed; an error is left iff the platform is missing, the sign-in rejects or the probe fails; a rejected sign-in leaves its message, or "Sign in failed" for a non-Error; after a resolved sign-in the rest is exactly the probe's states |
| Session.SignOutEffect | app/lib/puter.ts:120-147 | without a platform only "Puter.js not available" is published; unauthenticated with no user whatever the platform answers; the error is clear iff the remote sign-out resolved, and a rejection leaves its message or "Sign out failed" |
| Session.RefreshUserEffect | app/lib/puter.ts:149-176 | without a platform only "Puter.js not available" is published; authenticated with the fetched user iff `getUser` resolves, without asking `isSignedIn`; a rejection leaves the failure shape with its message or "Failed to refresh user" |
| Session.ClearErrorEffect | app/lib/puter.ts:216 | the error is cleared and every other field is unchanged |
| Session.FirstTick | app/lib/puter.ts:186-192 | the poll stops at the first tick that sees the platform, and no earlier tick saw it |
| Session.InitEffect | app/lib/puter.ts:178-200 | present at the call: detected at tick 0; detection is at the first tick that sees the platform, and publishes ready, then exactly the probe's states; after a detection by an interval callback, the timeout error follows iff the platform is missing at 10 000 ms; never seen and still missing at 10 000 ms: only the timeout error; first seen exactly at the deadline: nothing is published |
| Session.Poll | app/lib/puter.ts:186-192 | the interval loop finds exactly the first sighting in ticks 1 to 99 and runs one callback per tick until then |
| Session.OpEffect | app/lib/puter.ts:36-217 | every operation of the store maps a consistent state only to consistent states |
| Session.ReplayKeepsInvariant | app/lib/puter.ts:36-217 | for any sequence of store operations and any platform answers, every published state has `isAuthenticated` exactly when `user` is present |
| Session.InitialReplayKeepsInvariant | app/lib/puter.ts:202-214 | the initial store is consistent, and so is every state reached from it |
| Session.Store.constructor | app/lib/puter.ts:202-214 | authenticating, no error, not ready, no user, not authenticated |
| Session.Store.SetError | app/lib/puter.ts:37-51 | publishes exactly `SetErrorEffect` and keeps the invariant |
| Session.Store.BeginCall | app/lib/puter.ts:60 | `set({ isAuthenticating: true, error: null })`, done before each platform call (also lines 109, 127 and 156), publishes exactly `Begin` and keeps the invariant |
| Session.Store.CheckAuthStatus | app/lib/puter.ts:53-100 | publishes exactly the states of `CheckAuthStatusEffect` and returns its result |
| Session.Store.SignIn | app/lib/puter.ts:102-118 | publishes exactly the states of `SignInEffect` |
| Session.Store.SignOut | app/lib/puter.ts:120-147 | publishes exactly the states of `SignOutEffect` |
| Session.Store.RefreshUser | app/lib/puter.ts:149-176 | publishes exactly the states of `RefreshUserEffect` |
| Session.Store.ClearError | app/lib/puter.ts:216 | publishes exactly `ClearErrorEffect` |
| Session.Store.Init | app/lib/puter.ts:178-200 | publishes exactly the states of `InitEffect`; the number of interval callbacks is the detection tick, or 99 without detection |
| Session.Store.Settle | app/lib/puter.ts:186-199 | publishes exactly `Settled` for the outcome of the search, including the timeout's own check after a detection by an interval callback |
| Session.Store.OnDetected | app/lib/puter.ts:181-182 | marks the platform ready, then publishes the probe of `CheckAuthStatusEffect` |
| Resume.RecordKey | app/routes/upload.tsx:66 | the key is `resume:` followed by the id |
| Resume.RecordKeyInjective | app/routes/upload.tsx:66-81 | different ids never share a key |
| Resume.LoadRecord | app/routes/resume.tsx:32-33 | the results page finds a record iff its key is stored, and then finds that record |
| Cloud.Uploaded | app/routes/upload.tsx:44-45 | an upload adds at most one path, and one exactly when it resolved to a file item |
| Cloud.Storage.Upload | app/routes/upload.tsx:44 | the file store gains the reported path; the key-value store is untouched |
| Cloud.Storage.Set | app/routes/upload.tsx:66 | a resolved write stores the record under the key; a rejected one changes nothing |
| Cloud.Storage.Delete | app/routes/wipe.tsx:30 | a resolved delete removes the path |
| Cloud.Storage.Flush | app/routes/wipe.tsx:32 | a resolved flush empties the whole key-value store, not only this application's keys |
| Uploader.MaxFileSizeInBytes | app/components/FileUploader.tsx:13 | the ceiling is 20 971 520 bytes |
| Uploader.SomeHasCode | app/components/FileUploader.tsx:35 | true iff some error carries the code |
| Uploader.RejectionMessage | app/components/FileUploader.tsx:33-42 | an invalid type wins even over a too-large error; otherwise too large gives the size message; anything else the generic message |
| Uploader.FileUploader.constructor | app/components/FileUploader.tsx:11-12 | no file and no error |
| Uploader.FileUploader.OnDrop | app/components/FileUploader.tsx:15-23 | the first accepted file, or none, is kept and reported to `onFileSelect`; the error is cleared |
| Uploader.FileUploader.ReportRejection | app/components/FileUploader.tsx:32-42 | a rejection sets its message only when no error is shown, so a shown error is never replaced |
| Uploader.FileUploader.HandleRemove | app/components/FileUploader.tsx:44-48 | the file is dropped and `null` is reported; the error stays |
| Upload.CaughtMessage | app/routes/upload.tsx:85-88 | the catch block always shows a non-empty message |
| Upload.StatusOf | app/routes/upload.tsx:43-68 | every step shows a non-empty status; the second write runs under the analysis status, which no other step shows |
| Upload.FirstFailingFrom | app/routes/upload.tsx:39-88 | a thrown error ends the try block: the index found is a failing step and every step before it lets the run go on |
| Upload.FirstFailingSkips | app/routes/upload.tsx:39-88 | when the steps before an index all go on, the run's first failing step is the first from that index |
| Upload.UploadStop | app/routes/upload.tsx:43-53 | a failed upload stage stops at the first step that throws, with that step's message; it stops at the conversion iff the document upload succeeded and the conversion did not |
| Upload.PersistEffect | app/routes/upload.tsx:55-81 | the writes and the analysis stop at the first of them that throws, with its message, and succeed iff none throws; both writes use the same key; a complete run stores the stub with the parsed feedback; a failure after the first write leaves the stub; a failed first write leaves the store alone |
| Upload.AnalyzeEffect | app/routes/upload.tsx:28-89 | the run reaches exactly the steps up to its first failing one and shows that step's message, and completes iff no step fails; no record is written unless both uploads and the conversion succeed; a failure after the first write leaves the stub; the completed record differs from the stub only in its feedback; the file store gains exactly the reported paths |
| Upload.RunTouchesOnlyItsKey | app/routes/upload.tsx:66-81 | both writes of a run go to `resume:<uuid>`, so every other key keeps its record |
| Upload.FalsyUploadStopsRun | app/routes/upload.tsx:44-45 | an upload that resolves to nothing ends the run at its first step with "Failed to upload file", changing neither store |
| Upload.CompletedRunIsReadBack | app/routes/upload.tsx:80-84 | after a complete run the results page finds, under the id it is sent to, the stub with parsed feedback |
| Upload.UploadPage.constructor | app/routes/upload.tsx:18-21 | not processing, empty status, no error, no file |
| Upload.UploadPage.HandleFileSelect | app/routes/upload.tsx:23-26 | the chosen file is kept and the error is cleared |
| Upload.UploadPage.Abort | app/routes/upload.tsx:85-88 | the error is set and processing stops |
| Upload.UploadPage.HandleAnalyze | app/routes/upload.tsx:28-89 | performs exactly the run of `AnalyzeEffect` on both stores; a failure stops processing with the failure's message and the status of the step that failed; success shows the completion status and navigates to `/resume/<uuid>` |
| Upload.UploadPage.UploadFiles | app/routes/upload.tsx:43-53 | the first three steps, stopping as `UploadStop` says |
| Upload.UploadPage.ConvertAndUploadImage | app/routes/upload.tsx:47-53 | the conversion and the image upload, stopping as `UploadStop` says |
| Upload.UploadPage.Persist | app/routes/upload.tsx:55-81 | the two writes and the analysis, exactly as `PersistEffect` says |
| Upload.UploadPage.HandleSubmit | app/routes/upload.tsx:91-105 | the chosen file is kept; without one: the missing-file error, no step at all, and status and processing unchanged; with one: the run of `AnalyzeEffect`, with its status text, error and navigation |
| Wipe.FirstFailure | app/routes/wipe.tsx:29-31 | the index of the first rejected delete: all before it resolved |
| Wipe.FirstFailureUnique | app/routes/wipe.tsx:29-31 | any index with those properties is the first failure |
| Wipe.WipeEffect | app/routes/wipe.tsx:27-36 | the loaded paths are deleted in order, each once; the flush happens once, after all deletes, and only if every delete resolved; only the paths deleted before a failure leave the file store; any rejection leaves the page wiping with its old listing; success reloads the listing and closes the dialog |
| Wipe.DeletePaths | app/routes/wipe.tsx:29-31 | the loop issues one delete per path in order and stops right after the first rejection |
| Wipe.AuthRedirect | app/routes/wipe.tsx:21-25 | redirects to `/auth?next=/wipe` iff the session is neither authenticating nor authenticated |
| Wipe.ProbeDecidesRedirect | app/routes/wipe.tsx:21-25 | after an auth probe the page redirects iff the probe did not end signed in |
| Wipe.WipePage.constructor | app/routes/wipe.tsx:8-10 | no files, dialog closed, not wiping |
| Wipe.WipePage.LoadFiles | app/routes/wipe.tsx:12-15 | a resolved listing replaces the files |
| Wipe.WipePage.AskConfirm | app/routes/wipe.tsx:69-75 | opens the dialog unless wiping |
| Wipe.WipePage.Cancel | app/routes/wipe.tsx:86-92 | closes the dialog unless wiping |
| Wipe.WipePage.HandleDelete | app/routes/wipe.tsx:27-36 | performs exactly `WipeEffect` on the stores and the page |
| Details.ScoreStyles | app/components/Details.tsx:10-30 | green with the check mark iff the score is at least 70; yellow iff 40 to 69; red iff at most 39 |
| Details.ScoreStylesMonotone | app/components/Details.tsx:10-30 | a higher score never gets a lower tier |
| Details.BadgeClasses | app/components/Details.tsx:38-42 | a tier's badge string is a background class and a text class around one space |
| Details.ScoreBadgeView | app/components/Details.tsx:32-47 | the container gets the first class, the text the second, the icon and colour come from the tier, and the text is the score followed by `/100` |
| Details.BadgeViewSplitsBadge | app/components/Details.tsx:38-42 | the two classes are exactly `badge.split(" ")` |
| Details.BadgeTextShowsScore | app/components/Details.tsx:43 | the badge text ends in `/100` and reads back as the score |
| Text.Decimal | app/components/Details.tsx:43 | the text of a whole number is its digits, after a minus sign when negative |
| Text.Split | app/components/Details.tsx:38 | `split` yields at least one piece and no piece contains the separator |
| Details.TipItem | app/components/Details.tsx:62-93 | a good tip gets the check mark in green-600, any other the warning in amber-600; the explanation shows iff the item is detailed and the explanation is non-empty |
| Details.CategoryContent | app/components/Details.tsx:95-120 | every tip appears once in the grid and once in the detailed list, both in the tips' order, with its own text, and with the icon and colour of its kind; the grid entry is neither bold nor boxed and has no explanation; the detailed entry is bold and boxed and shows the tip's own explanation exactly when it is non-empty |
| Details.DetailsView | app/components/Details.tsx:122-174 | four sections: Tone & Style, Content, Structure, Skills, each built from its own category |
| ScoreBadge.GetBadge | app/components/ScoreBadge.tsx:6-10 | "Strong" iff the score is at least 71; "Good Start" iff 50 to 70; "Needs Work" iff at most 49 |
| ScoreBadge.GetBadgeMonotone | app/components/ScoreBadge.tsx:6-10 | a higher score never gets a lower label |
| ScoreBadge.SeventyIsGoodStart | app/components/ScoreBadge.tsx:7-8 | 70 is a good start and 71 is strong |
| ScoreBadge.AriaLabel | app/components/ScoreBadge.tsx:17 | "Score: " followed by the label |
| ScoreBadge.TiersDisagree | app/components/ScoreBadge.tsx:6-10 | this badge and the category badge rank a score differently exactly at 70 and from 40 to 49, and there the category badge is one tier higher |
| Sidebar.UserInitial | app/components/Sidebar.tsx:10-13 | "U" without a user or with a missing or empty name; otherwise the upper case of the name's first character |
| Text.UpperAscii | app/components/Sidebar.tsx:12 | `toUpperCase` on ASCII: a lower-case letter becomes its capital, anything else is kept, and the result is never lower-case |
| Sidebar.InitialOnlyFromFirstCharacter | app/components/Sidebar.tsx:12 | names with the same first character get the same initial |
| Sidebar.InitialIgnoresCase | app/components/Sidebar.tsx:12 | a lower-case first letter and its capital give the same initial |
| Sidebar.DisplayName | app/components/Sidebar.tsx:58 | the user name, or empty without one |
| Sidebar.InitialOfDisplayName | app/components/Sidebar.tsx:55-58 | the initial is "U" for an empty shown name and otherwise its first character capitalised |
| Sidebar.Menu.constructor | app/components/Sidebar.tsx:8 | the menu starts closed |
| Sidebar.Menu.Toggle | app/components/Sidebar.tsx:25 | the menu button flips the flag |
| Sidebar.Menu.NavClick | app/components/Sidebar.tsx:42 | a link click closes the menu |
| Sidebar.Menu.BackdropClick | app/components/Sidebar.tsx:62-66 | a backdrop click closes the menu |

## Left out

- Network, timers, rendering and browser resources are not modelled. Every platform call (`puter.auth.*`, `fs.*`, `kv.*`, `ai.feedback`) is an outcome parameter. The timers of `init` are discrete ticks.
- The store in app/lib/puter.ts declares no `fs`, `kv` or `ai` members, although the upload and wipe pages take them from it. The model treats them as the Puter services they name.
- Two pipelines, or a pipeline and a wipe, running at the same time are not modelled: each run is one sequential call.
- `convertPdfToImage`, `generateUUID`, `prepareInstructions` and `formatSize` are not part of this model. Their results are inputs, including the size text inside the too-large message.
- `JSON.stringify` and `JSON.parse` are not modelled. A record is a datatype, not its text. The parse of the reply is an outcome parameter, and so is the reply's text, whichever content shape it came in.
- react-dropzone's own filtering by type and size is not modelled. Its rejection codes are inputs.
- The rest of app/routes/resume.tsx is not modelled beyond the key it reads (object URLs, blob reads). So are app/components/ResumeCard.tsx, app/components/UserSettings.tsx, app/routes/auth.tsx, the routing table, and the static markup.
- Session.Store: the `getUser` accessor closure of `auth` is not modelled; nothing in the modelled code calls it. `setError` keeps the previous closure, so after a failure it can still return the old user, while `user` is null.
- Session.Store: platform presence is taken to be fixed during one operation. `signIn`'s nested `checkAuthStatus` looks the platform up again and is taken to see the same answer.
- Session.InitEffect: the order of the timeout and the last interval callback at 10 000 ms is left to the event loop. The model takes the timeout first.
- Session.InitEffect: a probe started by an interval callback is taken to settle before the 10 000 ms timeout, so the timeout error comes after its states. Interleavings of the two are not modelled.
- Session.CheckAuthStatusEffect and Session.RefreshUserEffect: `getUser` is taken to resolve to a user, never to `null`. Both set `isAuthenticated` with whatever it resolved to, and the invariant "authenticated only with a user" rests on that.
- Wipe.AuthRedirect: the effect reruns only when `isAuthenticating` changes; which renders trigger it is not modelled.
- Wipe.WipeEffect: a `readDir` that resolves to something other than a list is not modelled.
- Details.ScoreStyles: scores are integers. A fractional score in the code (69.5, say) is not modelled, and for such scores the tier bounds differ.
- ScoreBadge.GetBadge: scores are integers, as for `Details.ScoreStyles`.
- Sidebar.UserInitial: `toUpperCase` is modelled for ASCII letters only. Other characters are kept unchanged.
- Sidebar.UserInitial: `charAt(0)` yields one UTF-16 code unit, so a name starting with a character outside the Basic Multilingual Plane yields half a surrogate pair. The model takes a whole `char`.
- Upload.UploadPage.HandleSubmit: the form fields are inputs. Reading them from the `FormData` is not modelled.
- Uploader.FileUploader.OnDrop: `onFileSelect` is taken to be always supplied, as the upload page does. Its calls are recorded in `selections`.
- Upload.CaughtMessage: a rejection with `null` or `undefined` makes `err.message` throw inside the catch block, so the error is not set and processing never stops. The model does not tell those values apart from other values without a message and shows the fallback message for them.
