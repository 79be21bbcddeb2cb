# ResumeRadar in Dafny

A model of the core of ResumeRadar, a React app that sends an uploaded
resume to an AI model and shows the structured feedback. The model covers:

- the highlight compositor (`createHighlightedCanvas`) and the
  `HighlightedResume` component that drives it;
- the score badges and category panels of the feedback views (`ScoreBadge`,
  `Summary`, `Details`);
- the prompt templates and sample data (`app/constants/index.ts`);
- the upload page's validation and prompt choice;
- the data-wipe page with its "DELETE ALL" confirmation dialog.

The files, one module each:

| file | module | what it models |
|---|---|---|
| `wrappers.dfy` | `Wrappers` | `Option` (for `null`/`undefined`) and `Result` (for a thrown `Error`) |
| `strings.dfy` | `Strings` | `String.prototype.trim` over the ECMAScript whitespace set, decimal text of numbers, substring occurrence |
| `feedback.dfy` | `FeedbackTypes` | the `Feedback` record the AI returns |
| `highlight.dfy` | `Highlight` | `createHighlightedCanvas` as a method that records the 2D-context calls it makes |
| `highlighted_resume.dfy` | `HighlightedResume` | the component's `isLoading`/`error` state, its image handlers, the branch it renders, and `handleDownload` |
| `score_badge.dfy` | `ScoreBadge` | `getBadgeInfo` and the badge it renders |
| `details.dfy` | `Details` | the badge, tip grid, tip cards and four accordion sections of `Details.tsx` |
| `summary.dfy` | `Summary` | the summary card's gauge and four category rows |
| `constants.dfy` | `Constants` | `prepareInstructions`, both prompt templates character for character, and the sample `resumes` |
| `upload.dfy` | `Upload` | `handleFileSelect`, `handleSubmit`, and the prompt choice and stored record of `handleAnalyses` |
| `wipe.dfy` | `Wipe` | `loadFiles`, `handleDelete` and the dialog's buttons and input |

State the source changes in place is modelled by a class, one per component:
- `HighlightedResume.ResumePreview`
- `Upload.UploadPage`
- `Wipe.WipePage`

Each class's fields are the component's `useState` variables, with two
additions: `ResumePreview.display` is the visible `<canvas>` element behind
`canvasRef` (its size and what was copied onto it), and `WipePage.calls` is a
log of the storage calls the page makes. Each handler is
a method, and its `ensures` ties the new state to a pure transition function
of the old state. The lemmas about those transition functions carry the
properties.

The browser, storage and AI services are represented as follows:
- Whether `getContext('2d')` returns a context is a boolean parameter.
- Whether the canvas element is mounted when `onload` fires is a boolean
  parameter.
- The outcome of a download is a parameter.
- The outcome of a storage call is a parameter.
- The wipe page records every storage call it makes (`WipePage.calls`).

Scores are the unbounded integers of the model; the source's scores are
JavaScript numbers.

## Model

| member | source | states |
|---|---|---|
| `Strings.BlankIffAllWhitespace` | app/routes/upload.tsx:124-133 | `field.trim()` is empty exactly when every character of the field is ECMAScript whitespace |
| `Strings.IntToStringRoundTrip` | app/components/Details.tsx:48 | the decimal text a score is rendered as reads back as that same score, negative scores included |
| `Highlight.StrokeColor` | app/lib/highlight.ts:30 | the border is "#10b981" exactly for a good highlight and "#f59e0b" exactly for an improve highlight |
| `Highlight.CreateHighlightedCanvas` | app/lib/highlight.ts:12-36 | fails with "Could not get canvas context" exactly when no 2D context is available; otherwise the canvas has the image's natural size and its calls are the image drawn at (0,0), then five calls per highlight in list order; the result equals `Composite` |
| `Highlight.HighlightOpsLength` | app/lib/highlight.ts:26-33 | each highlight contributes exactly five drawing calls |
| `Highlight.HighlightOpsAppend` | app/lib/highlight.ts:26-33 | painting a concatenated list is painting the first part, then the second |
| `Highlight.HighlightOpsAt` | app/lib/highlight.ts:26-33 | call 5i+k of the painted list is call k of highlight i's painting |
| `Highlight.HighlightPainted` | app/lib/highlight.ts:27-32 | highlight i is painted as: fill colour set to its `color`, its rectangle filled, stroke set by its type, line width 3, the same rectangle stroked |
| `Highlight.HighlightOpsShape` | app/lib/highlight.ts:26-33 | painting highlights never draws an image, always sets line width 3, and only ever sets one of the two stroke colours |
| `Highlight.ImageDrawnOnceFirst` | app/lib/highlight.ts:24-33 | with a context, the image is drawn exactly once, as the first call, so every highlight lies on top of it |
| `Highlight.EmptyHighlightsCopyImage` | app/lib/highlight.ts:21-24 | with no highlights the canvas is the bare image at its natural size |
| `Highlight.StrokeDependsOnlyOnType` | app/lib/highlight.ts:28-32 | a highlight's border (colour, width, rectangle) depends only on its type and geometry, never on its fill `color` |
| `HighlightedResume.ViewOf` | app/components/HighlightedResume.tsx:61-102 | the spinner shows exactly while loading; the error text shows exactly when loading is over and the error is a non-empty string; otherwise the canvas and the download button show |
| `HighlightedResume.ResumePreview.constructor` | app/components/HighlightedResume.tsx:17-18 | the component starts loading, with no error |
| `HighlightedResume.ResumePreview.OnLoad` | app/components/HighlightedResume.tsx:24-42 | `img.onload` leaves the state alone if the canvas is not mounted; otherwise a thrown composite sets "Failed to render highlights", and a successful one resizes the visible canvas if it has a context and copies the composite onto it, ending loading; the copy of a zero-width or zero-height composite throws and sets "Failed to render highlights" |
| `HighlightedResume.ResumePreview.OnError` | app/components/HighlightedResume.tsx:44-47 | `img.onerror` sets "Failed to load image" and ends loading |
| `HighlightedResume.ResumePreview.HandleDownload` | app/components/HighlightedResume.tsx:52-59 | `onDownload` runs exactly when the download resolved and the caller passed it; "Download failed:" is logged exactly when the download failed or the called `onDownload` threw, and nothing else happens |
| `HighlightedResume.LoadFailureShowsError` | app/components/HighlightedResume.tsx:44-47 | after an image error the component shows "Failed to load image" |
| `HighlightedResume.UnmountedLoadIsIgnored` | app/components/HighlightedResume.tsx:25 | a load while the canvas ref is null changes nothing |
| `HighlightedResume.RenderFailureShowsError` | app/components/HighlightedResume.tsx:37-40 | a load whose composite throws shows "Failed to render highlights" |
| `HighlightedResume.RenderSuccessShowsCanvas` | app/components/HighlightedResume.tsx:27-40 | a successful load of a non-empty image with both contexts shows the canvas, at the image's natural size, holding the composite; an image with a zero dimension is resized to but shows "Failed to render highlights" |
| `HighlightedResume.RunStaysConsistent` | app/components/HighlightedResume.tsx:24-47 | any sequence of handler calls keeps the error one of the two messages (or unset), and anything the canvas shows is this image's composite at its natural size |
| `HighlightedResume.ReachableView` | app/components/HighlightedResume.tsx:24-102 | in every reachable state, the canvas branch renders exactly when loading is over and no error is set, and what it shows is the composite |
| `HighlightedResume.AsWrittenLoadsNeverShowCanvas` | app/components/HighlightedResume.tsx:24-42 | as written, from the initial state no number of successful loads ever leaves the spinner (see Findings) |
| `HighlightedResume.CorrectedLoadShowsCanvas` | app/components/HighlightedResume.tsx:24-42 | with the canvas kept mounted, one successful load of a non-empty image shows the highlighted canvas; an empty image or a throwing composite shows the render error |
| `ScoreBadge.TierOf` | app/components/ScoreBadge.tsx:7-39 | every score falls in exactly one tier: at least 80, 60 to 79, 40 to 59, below 40 |
| `ScoreBadge.GetBadgeInfo` | app/components/ScoreBadge.tsx:6-40 | the badge word is "Strong", "Good", "Needs Work" or "Start" exactly on those four score ranges |
| `ScoreBadge.BadgeColoursShareTier` | app/components/ScoreBadge.tsx:8-38 | background, text and border classes all come from the tier's one colour family (green, blue, yellow, red) at shades 100, 800 and 200 |
| `ScoreBadge.TierMonotone` | app/components/ScoreBadge.tsx:7-31 | a higher score never gets a lower tier |
| `ScoreBadge.BadgeDeterminedByTier` | app/components/ScoreBadge.tsx:6-40 | two scores get the same badge exactly when they are in the same tier |
| `ScoreBadge.RenderShowsTier` | app/components/ScoreBadge.tsx:42-48 | the rendered badge shows its tier's icon and word |
| `Details.BadgeBackground` | app/components/Details.tsx:14-20 | the background is green from 80, blue from 60, yellow from 40 and red below, each exactly on its range |
| `Details.BadgeIcon` | app/components/Details.tsx:24-32 | the four-way chain yields the check icon exactly from 60 up and the warning icon exactly below |
| `Details.BadgeTextColor` | app/components/Details.tsx:37-46 | the text is green exactly from 60 up, yellow on 40 to 59, red below 40 |
| `Details.BadgeLabel` | app/components/Details.tsx:48 | the caption is the score's decimal text followed by "/100", and that text reads back as the score |
| `Details.BadgePartsAgree` | app/components/Details.tsx:9-52 | the check icon goes exactly with green text and a green or blue background; yellow background exactly with yellow text; red exactly with red |
| `Details.TipIcon` | app/components/Details.tsx:84-86 | a tip shows the check icon exactly when it is good and the warning icon exactly when it is to improve |
| `Details.TipCardStyle` | app/components/Details.tsx:101-103 | a card is green exactly for a good tip and yellow exactly for one to improve |
| `Details.GridItems` | app/components/Details.tsx:81-92 | one grid entry per tip, in order, with the tip's icon and title |
| `Details.TipCards` | app/components/Details.tsx:95-127 | one card per tip, in order; card i is the card of tip i at index i |
| `Details.CategoryContentRendersTips` | app/components/Details.tsx:69-131 | tip i appears as grid entry i and card i with its title and explanation; the ring shows exactly when i is in the selected set, the pin exactly when in addition there is a click handler; a click on card i reports (category, i) |
| `Details.DetailsRouting` | app/components/Details.tsx:133-208 | the four sections are Tone & Style, Content, Structure, Skills in that order; section j shows category j's badge and tips; clicks and the selection lookup both use that category's key |
| `Summary.ScoreTextColor` | app/components/Summary.tsx:6-13 | the score is green, blue, yellow or red exactly on the ranges from 80, 60 to 79, 40 to 59 and below 40 |
| `Summary.SummaryLayout` | app/components/Summary.tsx:30-50 | the gauge gets the overall score; the rows are Tone and Style, Skills, Structure, Content; each row's score text reads back as its category's score, out of "/100", with that score's badge and its `ScoreTextColor` class (green, blue, yellow or red by tier) |
| `Summary.RowColourMatchesBadge` | app/components/Summary.tsx:5-28 | a row's score colour and its badge word always name the same tier |
| `Constants.PrepareInstructions` | app/constants/index.ts:230-265 | the general prompt is returned exactly when the title is "General" or the description is "General resume analysis" |
| `Constants.TemplatesDiffer` | app/constants/index.ts:241-265 | the two templates differ for every title and description, because their indentation differs before the last line |
| `Constants.SpecificPromptIsNotGeneral` | app/constants/index.ts:241-265 | the job-specific prompt is never the general prompt |
| `Constants.SpecificTemplateStatesJob` | app/constants/index.ts:254-265 | the job-specific template contains the title and the description verbatim, each on its own line after its lead-in |
| `Constants.GeneralTemplateEmbedsFormat` | app/constants/index.ts:242-251 | the general template contains the response schema verbatim after "Provide the feedback using the following format: " |
| `Constants.SpecificTemplateEmbedsFormat` | app/constants/index.ts:254-265 | the job-specific template contains the response schema verbatim after the same lead-in |
| `Constants.JobSpecificPromptStatesJob` | app/constants/index.ts:261-262 | the job-specific prompt states the title and the description |
| `Constants.PromptsEmbedFormat` | app/constants/index.ts:249 | whichever template is chosen, the prompt carries the response schema |
| `Constants.SampleResumesWellFormed` | app/constants/index.ts:3-184 | six samples with ids "1" to "6" in order, hence distinct; overall scores within 0..100; every section scores 90 with no tips |
| `Upload.Validate` | app/routes/upload.tsx:117-138 | a submission is accepted exactly when a file is chosen and the three trimmed job fields are all filled or all blank; each of the three messages is produced exactly on its own condition, in the source's order of checks |
| `Upload.FilledIffNotAllWhitespace` | app/routes/upload.tsx:124-133 | a job field counts as filled exactly when it has a non-whitespace character |
| `Upload.UploadPage.constructor` | app/routes/upload.tsx:20-21 | the page starts with no file and no error |
| `Upload.UploadPage.HandleFileSelect` | app/routes/upload.tsx:23-29 | the file is replaced; the error is cleared when a file is chosen and kept when none is |
| `Upload.UploadPage.HandleSubmit` | app/routes/upload.tsx:104-141 | the error is cleared first, then set to the first failing check's message, or the fields and file are handed to the analysis |
| `Upload.SubmitStartsAnalysisIff` | app/routes/upload.tsx:117-140 | an analysis starts exactly when validation accepts; it receives the fields untrimmed and the page shows no error |
| `Upload.RejectedSubmitShowsMessage` | app/routes/upload.tsx:118-138 | a rejected submit shows one of the three non-empty messages |
| `Upload.SubmitForgetsPreviousError` | app/routes/upload.tsx:115 | a submit's outcome depends on the file and fields only, never on the error shown before |
| `Upload.FileSelectionClearsError` | app/routes/upload.tsx:23-29 | choosing a file clears the error; choosing none keeps it |
| `Upload.OrEmpty` | app/routes/upload.tsx:72-74 | `value \|\| ''` keeps a present string as typed and turns a missing one into ""; the result is empty exactly when the value is falsy |
| `Upload.InstructionsChoice` | app/routes/upload.tsx:83-88 | the general prompt is sent exactly when the title or description is missing or empty, or is itself the general one; otherwise the sent prompt states both |
| `Upload.WhitespaceIsNotGeneral` | app/constants/index.ts:239 | a whitespace-only title or description never matches the general ones |
| `Upload.WhitespaceFieldsSelectSpecificPrompt` | app/routes/upload.tsx:83-88 | fields of whitespace only pass validation as "all empty" yet select the job-specific prompt, with a blank title and description |
| `Upload.NewRecordDefaults` | app/routes/upload.tsx:68-76 | a new record has feedback "", keeps given fields as typed, and stores "" for missing ones |
| `Wipe.DeleteCalls` | app/routes/wipe.tsx:42 | one delete call per listed file, for that file's path, in list order |
| `Wipe.WipePage.constructor` | app/routes/wipe.tsx:9-13 | no files, dialog closed, not deleting, no success, empty text, no storage calls yet |
| `Wipe.WipePage.LoadFiles` | app/routes/wipe.tsx:15-22 | reads the root directory; a listing replaces the files, a failure changes nothing |
| `Wipe.WipePage.OpenDialog` | app/routes/wipe.tsx:220 | opens the dialog, nothing else |
| `Wipe.WipePage.TypeConfirmText` | app/routes/wipe.tsx:270-271 | the input's text becomes the typed text |
| `Wipe.WipePage.CancelDialog` | app/routes/wipe.tsx:281-284 | closes the dialog and clears the text |
| `Wipe.WipePage.HandleDelete` | app/routes/wipe.tsx:34-55 | does nothing without the exact phrase; otherwise issues the delete calls, the flush and the reload in order up to the first failure, and ends in the success or failure state |
| `Wipe.DeleteNeedsExactPhrase` | app/routes/wipe.tsx:35-37 | without exactly "DELETE ALL" nothing changes, and near misses are refused |
| `Wipe.SuccessfulDeleteResets` | app/routes/wipe.tsx:46-49 | success shows the success message, closes the dialog, clears the text, ends deleting and takes the reloaded list |
| `Wipe.FailedDeleteKeepsState` | app/routes/wipe.tsx:50-54 | a failure only ends deleting; success, dialog, text and list are unchanged |
| `Wipe.StorageCallOrder` | app/routes/wipe.tsx:42-46 | every file is deleted before the flush; the flush comes exactly when the deletions succeeded, the reload exactly when the flush did, and last |
| `Wipe.StepStaysConsistent` | app/routes/wipe.tsx:218-296 | no control breaks "deleting only inside the open dialog"; while deleting, confirm and cancel do nothing; success is never taken back |
| `Wipe.RunStaysConsistent` | app/routes/wipe.tsx:218-296 | any event sequence keeps that invariant and a shown success |
| `Wipe.InitialConsistent` | app/routes/wipe.tsx:9-13 | the initial page satisfies the invariant, so every reachable page does |
| `Wipe.ConfirmThenSettleIsDelete` | app/routes/wipe.tsx:289-296 | clicking an enabled "Delete All" and letting storage settle is exactly one `handleDelete` run |

## Left out

- Pixels: the canvas is its size plus the list of 2D-context calls made on it; rasterisation, colour parsing and `drawImage` scaling are not modelled.
- `downloadHighlightedResume` (app/lib/highlight.ts:38-76): it loads an image, builds a blob and clicks a link, all browser I/O. `handleDownload` sees only its outcome.
- `HighlightedResume`: the effect re-running when `imageUrl` or `highlights` change, and a stale image's handlers firing after that, are not modelled. Handler runs are for one image and one highlight list.
- The code keeps no selection state, computes no highlight rectangles and has no guard against a stale image load. Selection arrives as the `selectedTips` map, and highlight areas are an input.
- `createHighlightedCanvas` does not fail for a zero-size image; it draws into a zero-size canvas. The failure comes later, in the component's copy onto the visible canvas.
- Scores and geometry: JavaScript numbers are modelled as integers. This covers the scores, the highlight coordinates and sizes (`HighlightArea.x`, `y`, `width`, `height`) and the image dimensions (`SourceImage`). Fractional values, `NaN` and the number-to-text rules for them are not modelled.
- ScoreBadge.RenderShowsTier: does not state the badge's class string, only its icon and word. `BadgeColoursShareTier` states the three colour classes the string is built from.
- Class strings built with `cn(...)`: only the tier-dependent class of each element is modelled. Hover and cursor classes are the `clickable` flag, and the selection ring is the `ring` flag.
- The ATS section of the feedback is carried in `Feedback` but is not rendered by these components, so nothing is stated about it.
- `Accordion` open/close behaviour and `ScoreGauge` drawing: their files are not part of this model.
- `handleAnalyses` (app/routes/upload.tsx:42-100): the upload, PDF conversion, AI call, JSON parsing, status texts and navigation are asynchronous I/O. Only the prompt choice and the record defaults are modelled.
- `handleSubmit`'s `if (!form) return` and a `null` from `formData.get`: the form always contains its three inputs, so these cannot happen and are not modelled.
- The upload's `isProgressing` and `statusText` and the form's rendering are not modelled.
- `FileUploader` (PDF filter and 20 MB limit inside react-dropzone) and `Navbar` are not modelled.
- `formatFileSize` (app/routes/wipe.tsx:57-63): it uses `Math.log`, `toFixed` and `parseFloat`, which is floating point.
- Wipe.WipePage.HandleDelete: runs the asynchronous `handleDelete` to completion in one call. Clicks in between are modelled separately, by `Wipe.Step` with a `Settled` event. The concurrent `Promise.all` deletions are modelled as calls issued in list order.
- The wipe page's authentication redirect, its loading and error screens, and the file list's rendering are not modelled.
- `app/routes/resume.tsx` (fetching the record, building highlights from selected tips) is not part of this model.

## Findings

| source | as written | input that shows it | evidently intended | confidence | as-written member | corrected member |
|---|---|---|---|---|---|---|
| app/components/HighlightedResume.tsx:25 | `img.onload` acts only when `canvasRef.current` is set. The `<canvas>` is rendered only in the final branch (lines 77-82), which needs `isLoading` false. `isLoading` starts true and only the handlers clear it. | Any image that loads successfully: on load the spinner is on screen, the ref is null, the handler does nothing, and the spinner stays for good. | A successful load ends the spinner and shows the highlighted canvas, with the canvas element mounted while loading. | high, not executed | `HighlightedResume.AsWrittenLoadsNeverShowCanvas` | `HighlightedResume.CorrectedLoadShowsCanvas` |
