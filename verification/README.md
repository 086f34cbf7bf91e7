# Video room quickstart: participant view, media slots, page navigation, line breaks

This project models in Dafny the parts of the video-room quickstart (`quickstart/src/joinroom.js`) that carry logic of their own. The DOM and the media and document-rendering libraries are replaced by plain state.

- **Participant view** (`participant_view.dfy`, module `ParticipantView`): the class `RoomView` holds the view's state. It records:
  - which participant is *active*, meaning shown in the main view (`activeParticipant`);
  - whether the user *pinned* that participant by clicking its thumbnail (`isActiveParticipantPinned`);
  - the video priority requested for each remote participant;
  - one container per participant, with its CSS classes and media elements;
  - the track the main `<video>` plays, and whether it is shown.

  Thumbnail clicks, dominant-speaker changes and disconnects are methods on it. So are attaching and detaching tracks. Whatever the handlers read from the room is passed in as a `Room` value: the dominant speaker, and, for each participant whose *first* video publication has a subscribed track, that track (a participant whose first video publication is unsubscribed counts as having no video, even when a later one is subscribed). Participant objects are compared by their `sid`. `RoomView.Valid()` is the invariant the handlers keep:
  - the `pinned` class marks exactly the pinned active participant;
  - no other container carries `active`;
  - only the pinned participant holds `high` priority among those still in the room;
  - every container keeps one audio and two video elements.
- **Media slots** (`media.dfy`, module `Media`): a container has one `<audio>` and two `<video>` elements. Each element is a slot that plays at most one track. Attaching fills the first free slot of the track's kind. Detaching releases the first slot only. Reading a second audio element that does not exist is an explicit outcome (`MissingElement(1)`), because in the source it is an uncaught `TypeError`.
- **Page navigation** (`pdf_pages.dfy`, module `PdfPages`): the class `PdfViewer` keeps the current page, the page count and the rendering flag. The Prev and Next handlers are specified by `PrevPage` and `NextPage`. The page stays between 1 and the page count whatever the user clicks.
- **`linebreak`** (`linebreak.dfy`, module `LineBreak`): the source's two global replacements are modelled as two passes of `ReplaceAll`. A lemma proves that they equal a single left-to-right rewrite, `Markup`. Every `"\n\n"` pair, taken left to right, becomes `<p></p>` and every other `"\n"` becomes `<br>`, so no newline is left.

`common.dfy` holds the shared types: `Option`, participant ids, track ids and track kinds.

Two behaviours of the code differ from what one might expect of a video view, and the model keeps them:
- **Detaching a track**: the code reverses only the attachment to the *first* element of its kind (joinroom.js:158), not both attachments. `Media.DetachKeepsSecondSlot` shows that a track placed in the second slot is still played there after it is detached.
- **Active marking**: the code guarantees that *at most* one container is marked active, not exactly one. A container built after its participant became active carries no `active` class. The active participant's container is also removed when that participant disconnects unpinned.

## Model

| member | source | states |
|---|---|---|
| `ParticipantView.RoomView.constructor` | quickstart/src/joinroom.js:13-18 | No participant is active and nothing is pinned; there are no containers or priorities. |
| `ParticipantView.RoomView.SetupParticipantContainer` | quickstart/src/joinroom.js:73-82 | A new participant (fresh id) gets a container with class `participant`, one audio and two video elements; the invariant is kept. |
| `Media.NewContainer` | quickstart/src/joinroom.js:77-81 | The new container is laid out with one audio and two video slots, all empty and hidden, and only the class `participant`. |
| `ParticipantView.WithPriority` | quickstart/src/joinroom.js:112-119 | Setting a priority changes only the given participant's entry, and not at all for the local participant, whose tracks have no `setPriority`. |
| `ParticipantView.RoomView.SetVideoPriority` | quickstart/src/joinroom.js:112-119 | The priority map becomes `WithPriority` of the old one; nothing else changes. |
| `ParticipantView.Unmark` | quickstart/src/joinroom.js:25-28 | Only the previous active participant's container changes, losing exactly `active` and `pinned`. |
| `ParticipantView.Mark` | quickstart/src/joinroom.js:41-46 | Only the new active participant's container changes, gaining `active`, and `pinned` exactly when the pinned flag is set. |
| `ParticipantView.DominantOrLocal` | quickstart/src/joinroom.js:65 | The participant to show is the dominant speaker when there is one, and the local participant otherwise. |
| `ParticipantView.FirstVideo` | quickstart/src/joinroom.js:49 | A participant has a first video track (read the same way at line 31) exactly when its first video publication has a subscribed track in the room, and then it is that track; no participant means no track. |
| `ParticipantView.MainAfterSwitch` | quickstart/src/joinroom.js:31-35 | After a switch the main view plays the new participant's first video track if it has one. Otherwise, if it played the previous participant's first video track it becomes empty, and if it played anything else it keeps it. |
| `ParticipantView.MainVisibleAfterSwitch` | quickstart/src/joinroom.js:34 | The main view is shown when the new participant has video, hidden when only the previous one had, and unchanged otherwise. |
| `ParticipantView.RoomView.SetActiveParticipant` | quickstart/src/joinroom.js:24-57 | `p` becomes active. The previous active container loses `active` and `pinned`. `p`'s container gains `active`, and `pinned` when the flag is set. If only the previous container carried marks, afterwards only `p`'s does. The main view switches as `MainAfterSwitch` says. |
| `ParticipantView.RoomView.SetCurrentActiveParticipant` | quickstart/src/joinroom.js:63-66 | The active participant becomes the dominant speaker, or the local participant when there is none. |
| `ParticipantView.RoomView.ClickContainer` | quickstart/src/joinroom.js:85-100 | Clicking the pinned active participant unpins it, resets its priority and shows the dominant speaker or local participant. Clicking anyone else pins it and marks it `active` and `pinned`. It gets `high` priority, and a previously pinned participant is reset. In both cases the classes move exactly as `setActiveParticipant` moves them: the old active container loses `active` and `pinned`, the new one gains `active` (and `pinned` when pinned). Media slots never change; the invariant is kept. |
| `ParticipantView.RoomView.Unpin` | quickstart/src/joinroom.js:86-90 | Unpinning resets the participant's priority, clears the flag and selects the dominant speaker or local participant, keeping the invariant. |
| `ParticipantView.RoomView.Pin` | quickstart/src/joinroom.js:91-99 | Pinning makes `p` active and pinned, with `high` priority. The previously pinned participant's priority is reset. `p`'s container carries `active` and `pinned`; the invariant is kept. |
| `ParticipantView.PinningKeepsOneHigh` | quickstart/src/joinroom.js:93-96 | After the reset-then-raise sequence of a pin, the pinned participant is the only one in the room with `high` priority. |
| `ParticipantView.UnpinningClearsHigh` | quickstart/src/joinroom.js:86-88 | Resetting the pinned participant's priority on unpin leaves no participant in the room with `high` priority. |
| `ParticipantView.SwitchKeepsMarksConsistent` | quickstart/src/joinroom.js:25-46 | Removing the marks from the previous active container and marking the next one leaves no other container marked `active` or `pinned`, and the next one marked `pinned` exactly when the view is pinned. |
| `ParticipantView.MarksAreUnique` | quickstart/src/joinroom.js:25-46 | Under the invariant, at most one container carries `active`, and at most one participant in the room holds `high` priority. |
| `ParticipantView.MovingMarksKeepsMedia` | quickstart/src/joinroom.js:26-45 | Moving the display classes changes no container's media elements. |
| `ParticipantView.RoomView.DominantSpeakerChanged` | quickstart/src/joinroom.js:426-430 | While pinned, nothing changes. Otherwise the dominant speaker (or local participant) becomes active, unpinned, with the main view switched. |
| `ParticipantView.RoomView.ParticipantDisconnected` | quickstart/src/joinroom.js:195-205 | The participant's container is always removed. If it was the pinned active participant, it is unpinned and the dominant speaker or local participant becomes active. Otherwise `active`, `pinned` and the main view are untouched. |
| `ParticipantView.PinThenUnpin` | quickstart/src/joinroom.js:85-100 | Pinning a participant and clicking it again leaves nothing pinned, with the dominant speaker or local participant active and the participant's priority reset. |
| `ParticipantView.PinnedIgnoresDominantSpeaker` | quickstart/src/joinroom.js:426-430 | After a pin, a dominant-speaker change leaves the pinned participant active, with `active` and `pinned` on its container. |
| `Media.AttachToGroup` | quickstart/src/joinroom.js:130-138 | The group is shown. The track goes into the first empty slot among the first two, and nothing else changes. If both slots are taken, no slot changes. A taken single slot yields `MissingElement(1)`. |
| `Media.VideoAttachFillsFirstFree` | quickstart/src/joinroom.js:132-138 | For a video group: slot 0 if it is empty, else slot 1 if it is empty, else no slot changes; it never misses an element. |
| `Media.SecondAudioTrackMissesElement` | quickstart/src/joinroom.js:135 | When the only audio slot is taken, attaching reads a second audio element that does not exist, and no slot changes. |
| `Media.Release` | quickstart/src/joinroom.js:158 | After detaching, an element no longer plays the track; an element playing another track keeps it. |
| `Media.DetachFromGroup` | quickstart/src/joinroom.js:156-158 | The group is hidden. Only the first slot can change: if it played the track it becomes empty, otherwise it is kept. Every other slot is kept. |
| `Media.DetachUndoesAttachInFirstSlot` | quickstart/src/joinroom.js:132-134 | Attaching into an empty first slot and then detaching restores the slots. |
| `Media.DetachKeepsSecondSlot` | quickstart/src/joinroom.js:135-137 | A track that went into the second slot is still played there after it is detached. |
| `ParticipantView.RoomView.AttachTrack` | quickstart/src/joinroom.js:126-147 | No container, or a data track (no element of its kind), gives `MissingElement(0)` and no change. Otherwise the container's group of that kind becomes `AttachToGroup`'s. The main view plays the track and is shown exactly when the track is video, the publisher is active and no element was missing. |
| `ParticipantView.RoomView.DetachTrack` | quickstart/src/joinroom.js:154-166 | For an audio or video track, the container's group of that kind becomes `DetachFromGroup`'s. The main view stops playing the track and is hidden exactly when it is video from the active participant. |
| `LineBreak.Markup` | quickstart/src/joinroom.js:272-276 | The one-pass rewrite leaves no newline in its output. |
| `LineBreak.LineBreakIsMarkup` | quickstart/src/joinroom.js:272-276 | The two global replacements equal the one-pass rewrite: pairs, taken left to right without overlap, become `<p></p>`; other newlines become `<br>`. |
| `LineBreak.ReplaceAll` | quickstart/src/joinroom.js:275 | A global replacement of a one-character pattern by a text that does not contain that character leaves no occurrence of it. |
| `LineBreak.LineBreak` | quickstart/src/joinroom.js:274-276 | The output of `linebreak` contains no newline. |
| `LineBreak.LineBreakWithoutNewlines` | quickstart/src/joinroom.js:274-276 | A text without newlines is returned unchanged. |
| `LineBreak.LineBreakPairsFirst` | quickstart/src/joinroom.js:272-275 | Three newlines between newline-free texts become a paragraph followed by a break. |
| `PdfPages.PrevPage` | quickstart/src/joinroom.js:609-612 | On page 1 Prev stays on page 1. Otherwise it moves back exactly one page, never below 1. |
| `PdfPages.NextPage` | quickstart/src/joinroom.js:615-618 | On the last page Next stays there. Otherwise it moves forward exactly one page, never past the last. |
| `PdfPages.NavigationStaysInRange` | quickstart/src/joinroom.js:609-618 | From any page between 1 and the page count, every sequence of Prev/Next clicks stays between 1 and the page count. |
| `PdfPages.NextClicksReachLastPage` | quickstart/src/joinroom.js:615-618 | Clicking Next at least as many times as there are pages left ends exactly on the last page. |
| `PdfPages.PdfViewer.constructor` | quickstart/src/joinroom.js:510-513 | No document is loaded and no page is rendering. |
| `PdfPages.PdfViewer.ShowPage` | quickstart/src/joinroom.js:540-600 | The current page becomes the requested one. The rendering flag is cleared when the page was fetched, and stays set when fetching failed. |
| `PdfPages.PdfViewer.ShowPdf` | quickstart/src/joinroom.js:517-537 | Loading succeeds when a document was fetched now or before. It then shows page 1 of that document, with the page count as total. On failure with no earlier document, nothing changes. Pages stay in range. |
| `PdfPages.PdfViewer.Prev` | quickstart/src/joinroom.js:609-612 | The page becomes `PrevPage` of the old page, and stays between 1 and the page count. |
| `PdfPages.PdfViewer.Next` | quickstart/src/joinroom.js:615-618 | The page becomes `NextPage` of the old page, and stays between 1 and the page count. |

## Left out

- The media SDK (`connect`, `Logger`, `publishTrack`, `unpublishTrack`, `createLocalVideoTrack`): foreign library calls. `track.attach` and `track.detach` are modelled only as what a slot plays (`Media.Release`). What the SDK leaves in `srcObject` after a detach is not modelled: a released slot counts as empty.
- `SetVideoPriority`: the per-track loop of `setVideoPriority` (joinroom.js:113-118) is modelled as one map entry per participant. Whether each publication currently has a subscribed track is SDK state and is not modelled. The local participant is skipped because local video tracks expose no `setPriority`.
- Data tracks: `trackPublished` hands every publication to `attachTrack`, data tracks included. The model captures that no element of kind `data` exists (attaching gives `MissingElement(0)` and changes nothing). What the SDK does when `detachTrack` receives a data track is not modelled; the model changes nothing.
- `DetachTrack`: when the participant's container no longer exists, the source hands `undefined` to the SDK's detach. What the SDK then detaches is not modelled; the model changes no slot in that case.
- Event wiring and the room lifecycle (joinroom.js:173-228, 295-507): listener registration, `participantConnected`, `trackPublished`, the returned promise and the unload/visibility handlers. Also the teardown on disconnect, including clearing the main video at line 491. All of this is asynchronous I/O and browser lifecycle. The visibility handler and the `disconnected` handler (line 480, before the teardown) also use an undeclared `localVideoTrack`; the teardown after it is not modelled either way.
- `loadBodyPix` / `perform` (joinroom.js:231-257): an endless asynchronous loop over a foreign segmentation library, with floating point.
- `draw` (joinroom.js:279-293): canvas drawing of a remote image.
- PDF rendering: `getDocument`, `getPage`, `render`, the viewport scale (floating point), alerts, and the display toggles of the loader and canvas. Only the page bookkeeping is modelled.
- `PdfPages.PdfViewer.ShowPage`: modelled as one step. The user cannot click while a page renders because the buttons are disabled, so the await between setting and clearing the rendering flag is not modelled. A render failure is caught and has no effect on the bookkeeping.
- CSS other than opacity (kept as a `visible` flag per element group and for the main view), the `data-identity` attribute (line 56), the `muted` attribute of the local participant's audio (line 78), and `console.log`: UI rendering with no logic.
- Commented-out speech recognition and canvas code (joinroom.js:302-332, 346-371, 390-402): dead code.
- The uniqueness of participant ids is a precondition of `SetupParticipantContainer`, tracked with a ghost set of ids already seen.
