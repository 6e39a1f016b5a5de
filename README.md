# Build-notify action: a Dafny model

This project models a continuous-integration step that posts a build
notification to a Slack incoming webhook and then uploads the build's APK to
a Slack channel. Slack's external upload protocol has three steps:

1. reserve an upload URL (`files.getUploadURLExternal`), giving the file name and its exact byte length;
2. post the bytes as a multipart form to the returned `upload_url`;
3. finalize (`files.completeUploadExternal`) with the returned `file_id`, the channel and a comment.

Each step checks its reply. The first failure throws, and no later request
is made. The entry point sends the notification first, then runs the upload.
It reports any failure once, as `Action failed: <message>`.

The model has no network and no file system. The remote replies, and
whether the local file could be inspected, are inputs (`Uploader.Replies` and
the notification's `Exchange<()>`). The two imperative procedures are
methods. They return the log of outbound calls, in order, and the outcome.
The string and record derivations are functions.

- `Wire`: the calls, replies and message shapes.
- `Text`: string facts used by the proofs.
- `Notification`: the webhook payload.
- `Uploader`: the three-step protocol.
- `Orchestrator`: the configuration record, the derived file name and comment, and the top-level run.

Details of the code the model keeps:

- The finalize request sends a single `channel_id: channel`.
- The comment is always sent, as the template followed by ` #<build>`, even when the template is empty.
- The `message-color` input is read but never used (`Orchestrator.NotificationIgnoresColor`).

An error field missing from a reply prints as `undefined` in the thrown
message, as a template literal prints it (`Wire.Show`).

## Model

| member | source | states |
|---|---|---|
| `Wire.Show` | src/index.js:26 | A remote error field prints as itself, and as `undefined` when the reply lacks it, as a template literal prints it (also at line 67). |
| `Uploader.ErrorMessage` | src/index.js:25-75 | A thrown inspection or request error keeps its own message, since the handler rethrows it unchanged. A refused reservation reads `Failed to get upload URL: ` then the printed error. A rejected transfer reads `Failed to upload file content`. A refused finalize reads `Failed to complete upload: ` then the printed error. |
| `Uploader.UploadFile` | src/index.js:6-77 | The calls, in order: no call if the file cannot be inspected; otherwise the reservation, with the file name, the inspected size and the bearer token. The transfer follows only if the reservation answered `ok`; it goes to exactly the returned `upload_url`, with no Authorization and one form part `file`. The finalize follows only if the transfer status is exactly 200; it sends `[{id: file_id, title: fileName}]`, the channel, the comment and the bearer token. The outcome is the finalize reply, unchanged, exactly when all three steps succeed; otherwise it is the error of the first failing step. No endpoint is called twice. |
| `Uploader.TraceDeterministic` | src/index.js:12-64 | The call-log specification admits exactly one log for given inputs. |
| `Uploader.OutcomeDeterministic` | src/index.js:25-70 | The outcome specification covers every combination of replies with exactly one outcome. |
| `Uploader.AbortsAtFailedStep` | src/index.js:25-70 | The last call made is the step that failed; nothing follows it. A request that threw is the last call, and its message is the one reported. Success means all three calls were made and the finalize reply was `ok`. An inspection failure means no call was made. |
| `Uploader.RefusalMessagesIdentifyStep` | src/index.js:25-68 | The three messages the protocol throws itself (`Failed to get upload URL: <error>`, `Failed to upload file content`, `Failed to complete upload: <error>`) never coincide. A refusal's message determines the printed remote error. |
| `Notification.StatusSymbol` | src/index.js:116 | The status field shows ✅ exactly when the build status is the string `success`, and ❌ for every other value. |
| `Notification.Payload` | src/index.js:97-129 | A header block with the title (emoji on), then one section of four mrkdwn fields, in order: `*App:*` and the app name, `*Status:*` and the status symbol, `*Build:*` and `#` with the build number, `*Commit:*` and `<commitUrl|View>` (each label followed by a line break). The status field reads ✅ exactly when the build status is `success`, and ❌ otherwise. |
| `Notification.PayloadDetermined` | src/index.js:97-129 | Two notifications are equal exactly when they agree on the title, app name, success or failure, build number and commit URL. |
| `Orchestrator.NotificationFor` | src/index.js:97-129 | The notification filled from the inputs: header `messageTitle`, then the fields app name, status symbol, `#` and the build number, and `<commitUrl|View>`, in that order. |
| `Orchestrator.FileName` | src/index.js:133 | `<app>-<build>.apk`: the app name and a dash, then the build number, then the `.apk` extension. Its length is the two parts plus 5. |
| `Orchestrator.Comment` | src/index.js:139 | `<template> #<build>`: the template, then ` #`, then the build number. |
| `Orchestrator.Run` | src/index.js:79-147 | The notification is the first call and is never repeated. If it throws, no upload call is made and the action fails with `Action failed: ` + its message. Otherwise the remaining calls are the upload protocol for the file name `<app>-<build>.apk` and the comment `<template> #<build>`. The action succeeds exactly when the notification and all three upload steps succeed. Every upload failure is reported as `Action failed: ` + that step's message. |
| `Orchestrator.AllStepsSucceed` | src/index.js:97-140 | If every reply is favourable, the action succeeds after exactly four calls: notify, reserve, transfer, finalize. |
| `Orchestrator.ReservationRefusedInvalidAuth` | src/index.js:97-145 | If the reservation is refused with `invalid_auth`, the action fails with a message containing `invalid_auth`. Exactly two calls are made: notify and reserve. |
| `Orchestrator.NotificationIgnoresColor` | src/index.js:90-129 | The message colour input has no effect on the notification. |
| `Orchestrator.FileNameExample` | src/index.js:133 | App `MyApp` and build `42` give `MyApp-42.apk`. |
| `Orchestrator.FileNameShape` | src/index.js:133 | The display name is the app name, a dash, the build number and the `.apk` extension, in that order. |
| `Orchestrator.FileNameDetermined` | src/index.js:133 | Given either the app name or the build number, the display name determines the other. |
| `Orchestrator.FileNameAmbiguous` | src/index.js:133 | With neither part known, two different inputs can give the same display name. |
| `Orchestrator.CommentDetermined` | src/index.js:139 | For a fixed template, the comment determines the build number. |

## Left out

- HTTP itself is not modelled: endpoint URLs, content types and other headers. A call records its endpoint kind and whether it carries an Authorization bearer token.
- The HTTP client's own exceptions are not modelled case by case (network errors, rejection of non-2xx statuses). Each request may instead throw an arbitrary message (`Exchange.Threw`). The explicit check that the transfer status is exactly 200 is modelled.
- Inspecting and streaming the file is not modelled. The size is an input, or an error the inspection threw. The form is its list of parts.
- Reading the action's inputs from the environment is not modelled. They are the `Orchestrator.Config` record.
- Console diagnostics, including the rethrowing handler's log of the reply body, do not affect behaviour. They are left out, and the rethrow is modelled as passing the error through unchanged.
- Asynchrony is not modelled. Every request is awaited before the next, so the steps are sequential.
- JavaScript truthiness of `ok` is not modelled: `ok` is a boolean. A granted reservation is assumed to carry `upload_url` and `file_id` strings.
- Reporting the failure to the pipeline is modelled as the final status. Setting the process exit code is not.
- The module-level `run()` call at the end of the file is not modelled.
