# RamyaPDF tool gating, conversion preconditions and UI state, in Dafny

This project models the part of RamyaPDF that decides what a tool needs before a
conversion may run, and the small state machines behind the screens that use it:

- **Tool registry** (`Tools`): the five conversion tools of `CONVERSION_TOOLS` as a
  constant `map<string, ToolConfig>`, with their input kinds, output kind, category,
  minimum plan and the `vector_only` / `restricted` flags.
- **Badge lookup** (`ToolUtils`): `getToolBadge` lower-cases a display name, replaces
  each whitespace run with `_`, looks the key up, and maps the plan to `"PRO"`,
  `"ENTERPRISE"` or `null` (`None`).
- **Vector-PDF heuristic** (`PdfUtils`): the name-based mocks `extractPdfText` and
  `detectEmbeddedImages`, and the rule of `isVectorPDF`. A document is scanned when it
  has an image and fewer than 50 characters of text.
- **Binary-signature check** (`Validation`): `validateBinFile` reads the first 20
  bytes. It passes when `CADBIN` or `DXFBIN` occurs in them, and otherwise fails with
  `UNSUPPORTED_BIN_FORMAT`.
- **Conversion orchestrator** (`Conversion`): `executeConversion` first runs the vector
  precheck, but only for the literal key `pdf_to_dwg`. Then comes the access check, then
  a credit deduction, but only for users whose `plan_type` is `"free"`. The three
  collaborators are methods of a `Backend` class. Their answers come from two oracle
  functions, and each call is appended to a ghost event log. `ExecuteConversion` is
  proved against the pure function `Execute`, whose contract states the call order and
  the short-circuits.
- **Cookie consent** (`CookieConsent`): the `Banner` class holds the consent being
  edited, the banner and settings flags, the stored preference and the parent's
  manual-open flag. Every transition keeps essential consent on.
- **PDF editor** (`PdfEditor`): the routing predicate that chooses the processing view
  over the canvas, and the initial drawing mode. It also covers the zoom and page clamps,
  which keep zoom in [50, 300] on multiples of 10 and the page in [1, 4] over any click
  sequence, and the `Editor` class whose handlers update mode, zoom, page and comments.
- **App** (`App`): the initial-theme rule, theme toggling, the `'free'` plan default of
  the profile read, and the card lock. The `AppState` class covers `handleToolClick`,
  `closeEditor` and `toggleTheme`.
- `Strings` holds the string operations these share: ASCII lower-casing, the
  `replace(/\s+/g, '_')` rewrite (`ReplaceSpaceRuns`) and `includes` (`Contains`).
  `Wrappers` holds `Option` and `Outcome`.

JavaScript truthiness is kept where the code relies on it:

- `reason || "Access denied"` replaces an empty reason as well as a missing one.
- `activeEditorFile && activeTool` hides the editor for an empty string.
- `plan_type || 'free'` replaces an empty plan.
- An absent `vector_only` or `restricted` flag is `false`.

What the code does not contain, and the model therefore does not either:

- The code has no tier-ordering entitlement evaluator, no usage ledger and no
  `EXECUTION_FAILED` outcome: `canUserUseTool` and `deductCredit` are defined nowhere in
  the source.
- The vector gate compares the raw key with `pdf_to_dwg`, not the tool's `vector_only`
  flag. `Conversion.NeedsVectorCheck` shows that the two agree on registry keys.
- `validateBinFile` is never called from `executeConversion`, so the orchestrator has no
  binary-signature precheck.

## Model

| member | source | states |
|---|---|---|
| Strings.ToLower | utils/toolUtils.ts:5 | `toLowerCase` over ASCII: same length, each character lower-cased on its own |
| Strings.ToLowerProperties | utils/toolUtils.ts:5 | the lower-cased string has no upper-case letter; it has whitespace exactly where the input has |
| Strings.ToLowerFixedPoint | utils/toolUtils.ts:5 | a string with no upper-case letter is unchanged by lower-casing |
| Strings.ReplaceSpaceRunsChars | utils/toolUtils.ts:5 | after `replace(/\s+/g, '_')` there is no whitespace; the result is no longer than the input; every character is `_` or comes from the input |
| Strings.ReplaceSpaceRunsKeepsNoUpper | utils/toolUtils.ts:5 | the rewrite brings in no upper-case letter |
| Strings.ReplaceSpaceRunsFixedPoint | utils/toolUtils.ts:5 | a string without whitespace is unchanged by the rewrite |
| Strings.ReplaceSpaceRunsIdempotent | utils/toolUtils.ts:5 | applying the rewrite twice is the same as applying it once |
| Strings.ReplaceAfterWord | utils/toolUtils.ts:5 | a whitespace-free prefix passes through the rewrite unchanged |
| Strings.ReplaceRun | utils/toolUtils.ts:5 | a whole non-empty whitespace run, however long, becomes a single `_` |
| Strings.ReplaceWordAndRun | utils/toolUtils.ts:5 | a word followed by a whitespace run becomes the word followed by one `_` |
| Strings.ReplaceSpaceRuns | utils/toolUtils.ts:5 | `replace(/\s+/g, '_')`, also used at `App.tsx:112`: the result is never longer than the input, and empty exactly when the input is; its other properties are the lemmas below |
| Strings.Contains | utils/validation.ts:15 | `includes`, also used in `utils/pdfUtils.ts` and `components/PDFEditor.tsx`: it holds only for a needle no longer than the string, and always for the empty needle |
| Strings.ContainsIff | utils/validation.ts:15 | `includes` holds exactly when the needle occurs at some offset |
| Strings.ContainsKeepsElements | components/PDFEditor.tsx:154 | a string that includes a word contains each of the word's characters |
| Tools.Lookup | constants/tools.ts:12-46 | a key is present iff it is one of the five; no tool requires `free`; cad tools require `pro` and binary tools `enterprise`; only `pdf_to_dwg` is `vector_only`; exactly `bin_to_pdf` and `pdf_to_bin` are `restricted`, and both require `enterprise`; every input list is non-empty and excludes the output kind |
| Tools.RegistryKeys | constants/tools.ts:12-46 | the table has exactly the five keys `dwg_to_pdf`, `pdf_to_dwg`, `cad_to_pdf`, `bin_to_pdf`, `pdf_to_bin` |
| Tools.KeysAreLowerWords | constants/tools.ts:13-39 | every key has no upper-case letter and no whitespace |
| Tools.DwgToPdfEntry | constants/tools.ts:13-18 | `dwg_to_pdf` reads `dwg`, `dxf`, `dwt`, writes `pdf`, is a cad tool for `pro`, with neither flag |
| Tools.CadToPdfEntry | constants/tools.ts:26-31 | `cad_to_pdf` reads `dwg`, `dxf`, writes `pdf`, is a cad tool for `pro`, with neither flag |
| Tools.BinToPdfEntry | constants/tools.ts:32-38 | `bin_to_pdf` reads `bin`, writes `pdf`, is a binary tool for `enterprise`, and is `restricted` |
| ToolUtils.NormalizeKey | utils/toolUtils.ts:5 | the normalised key has no upper-case letter and no whitespace, and is no longer than the name |
| ToolUtils.NormalizeFixedPoint | utils/toolUtils.ts:5 | a lower-case, whitespace-free name is its own key |
| ToolUtils.NormalizeIdempotent | utils/toolUtils.ts:5 | normalising a key again changes nothing |
| ToolUtils.RegistryKeysNormalized | utils/toolUtils.ts:5-6 | every registry key is a fixed point of the normalisation, so it is found by its own name |
| ToolUtils.GetToolBadge | utils/toolUtils.ts:3-14 | the badge is `None`, `"PRO"` or `"ENTERPRISE"`, never `"free"`; `None` iff the key is not in the table; `"PRO"` iff the tool requires `pro`; `"ENTERPRISE"` iff it requires `enterprise` |
| ToolUtils.BadgeOfRegistryKey | utils/toolUtils.ts:5-11 | a registry key, given as it is, gets `"PRO"` for a `pro` tool and `"ENTERPRISE"` for an `enterprise` tool |
| ToolUtils.BadgeOfNormalized | utils/toolUtils.ts:5-6 | a name and its normalised key get the same badge |
| ToolUtils.JoinThree | utils/toolUtils.ts:5 | replacing whitespace runs turns three whitespace-free words separated by such runs into the words joined by `_` |
| ToolUtils.KeyOfDwgToPdf | utils/toolUtils.ts:5 | `"DWG to PDF"` and `"dwg to pdf"` normalise to `dwg_to_pdf` |
| ToolUtils.KeyOfSpacedDwgToPdf | utils/toolUtils.ts:5 | `"DWG   to PDF"` normalises to `dwg_to_pdf`: the three-space run becomes one `_` |
| ToolUtils.BadgeOfKey | utils/toolUtils.ts:5-8 | a name gets the badge of its key when the key is in the table, and `None` otherwise |
| ToolUtils.BadgeOfDwgToPdfKey | utils/toolUtils.ts:5-10 | the key `"dwg_to_pdf"` itself gets `"PRO"` |
| ToolUtils.BadgeOfDwgToPdfName | utils/toolUtils.ts:5-10 | `"DWG to PDF"` gets `"PRO"` |
| ToolUtils.BadgeOfLowerDwgToPdfName | utils/toolUtils.ts:5-10 | `"dwg to pdf"` gets `"PRO"` |
| ToolUtils.BadgeOfSpacedDwgToPdfName | utils/toolUtils.ts:5-10 | `"DWG   to PDF"` gets `"PRO"` |
| ToolUtils.BadgeIgnoresSpelling | utils/toolUtils.ts:5-11 | `"DWG to PDF"`, `"dwg to pdf"`, `"dwg_to_pdf"` and `"DWG   to PDF"` all get `"PRO"` |
| ToolUtils.KeyOfBinToPdf | utils/toolUtils.ts:5 | `"Bin to PDF"` normalises to `bin_to_pdf` |
| ToolUtils.KeyOfCadToPdf | utils/toolUtils.ts:5 | `"CAD to PDF"` normalises to `cad_to_pdf` |
| ToolUtils.KeyOfMerge | utils/toolUtils.ts:5 | `"Merge"` normalises to `merge` |
| ToolUtils.BadgeOfBinToPdfName | utils/toolUtils.ts:5-11 | `"Bin to PDF"` gets `"ENTERPRISE"` |
| ToolUtils.BadgeOfCadToPdfName | utils/toolUtils.ts:5-10 | `"CAD to PDF"` gets `"PRO"` |
| ToolUtils.BadgeOfMergeName | utils/toolUtils.ts:5-8 | `"Merge"` normalises to `merge`, which is not in the table, so it gets `None` |
| ToolUtils.BadgeCatalogueExamples | utils/toolUtils.ts:5-13 | `"Bin to PDF"` gets `"ENTERPRISE"`, `"CAD to PDF"` gets `"PRO"`, `"Merge"` gets `None` |
| PdfUtils.ExtractPdfText | utils/pdfUtils.ts:7-18 | the text is empty iff the lower-cased name includes `scan`, and otherwise is the 31-character sample; it is always shorter than 50 |
| PdfUtils.DetectEmbeddedImages | utils/pdfUtils.ts:20-30 | 5 images iff the lower-cased name includes `scan` or `image`, else 0 |
| PdfUtils.IsVectorContent | utils/pdfUtils.ts:41-44 | false iff there is an image and fewer than 50 characters of text: with no image, or with at least 50 characters, the content is vector |
| PdfUtils.IsVectorPdf | utils/pdfUtils.ts:32-45 | under the mocks, a file is vector iff its lower-cased name includes neither `scan` nor `image` |
| Validation.Header | utils/validation.ts:9 | the window is the first `min(20, length)` bytes, a prefix of the file |
| Validation.ValidateBinFile | utils/validation.ts:5-20 | passes iff `CADBIN` or `DXFBIN` occurs at some offset inside the 20-byte window; any such offset is at most 14; a failure is always `UNSUPPORTED_BIN_FORMAT` |
| Validation.HeaderSearch | utils/validation.ts:15 | the `some`/`includes` search on the window finds exactly the signature offsets, and all lie in 0..14 |
| Validation.ShortFileRejected | utils/validation.ts:9-15 | a file shorter than 6 bytes is rejected |
| Validation.OnlyHeaderMatters | utils/validation.ts:9 | two files with the same 20-byte window get the same verdict |
| Validation.TailIgnored | utils/validation.ts:9 | appending bytes to a file of at least 20 bytes does not change the verdict |
| Validation.SignatureAtOffset14Accepted | utils/validation.ts:9-15 | `CADBIN` at offset 14, ending exactly at byte 20, is accepted |
| Validation.SignatureAtOffset15Rejected | utils/validation.ts:9-15 | `CADBIN` at offset 15, crossing byte 20, is rejected |
| Conversion.NeedsVectorCheck | services/conversion.ts:19 | for a registry key, the literal-key gate holds iff the tool is `vector_only`; it holds for no key outside the table |
| Conversion.DenialMessage | services/conversion.ts:30 | the thrown message is the reason when it is non-empty, and `"Access denied"` when it is missing or empty |
| Conversion.Execute | services/conversion.ts:11-38 | the vector check runs once, first, iff the key is `pdf_to_dwg`; if it fails, the outcome is `VECTOR_REQUIRED` and nothing else runs. Otherwise the access check runs once, right after it. A denial fails with the denial message and nothing follows. The credit is deducted exactly once iff the request passes and the plan is `"free"`, and then as the last call. Pass implies access was granted (and the file was vector for `pdf_to_dwg`). At most three calls are made |
| Conversion.MockedVectorGate | services/conversion.ts:19-24 | with the name-based mocks, a `pdf_to_dwg` request fails with `VECTOR_REQUIRED` iff the lower-cased file name includes `scan` or `image`, and then only the vector check ran |
| Conversion.DisplayNameSkipsVectorCheck | services/conversion.ts:19 | the un-normalised name `"PDF to DWG"` never gets the vector check: the access check is the first call |
| Conversion.Backend.constructor | services/conversion.ts:1-2 | the collaborators answer through the given oracles; the log starts empty |
| Conversion.Backend.IsVectorPdf | services/conversion.ts:20 | answers with the vector oracle for the file and logs one vector check |
| Conversion.Backend.CanUserUseTool | services/conversion.ts:27 | answers with the access oracle for user and key and logs one access check |
| Conversion.Backend.DeductCredit | services/conversion.ts:37 | logs one deduction with user, key and size |
| Conversion.ExecuteConversion | services/conversion.ts:11-38 | the outcome, and the calls appended to the log in order, are exactly those of `Execute` for the oracles' answers |
| CookieConsent.Toggle | components/CookieConsent.tsx:103-106 | `essential` is unchanged by any toggle; toggling it changes nothing; any other category is flipped and every other field kept |
| CookieConsent.ToggleTwice | components/CookieConsent.tsx:103-106 | toggling a category twice restores the consent |
| CookieConsent.Banner.constructor | components/CookieConsent.tsx:24-32 | starts with essential-only consent, banner and settings hidden, over whatever is stored |
| CookieConsent.Banner.Mount | components/CookieConsent.tsx:35-46 | with nothing stored the banner becomes visible; otherwise the stored consent is loaded; essential consent is kept |
| CookieConsent.Banner.OpenManual | components/CookieConsent.tsx:49-57 | reloads the stored consent if there is one and opens the settings |
| CookieConsent.Banner.Customize | components/CookieConsent.tsx:140 | opens the settings |
| CookieConsent.Banner.OpenPrivacy | components/CookieConsent.tsx:108-111 | hides the banner |
| CookieConsent.Banner.ToggleCategory | components/CookieConsent.tsx:103-106 | the consent becomes `Toggle` of the old one; essential consent is kept |
| CookieConsent.Banner.SavePreferences | components/CookieConsent.tsx:74-81 | stored and edited consent become `c`; banner, settings and the manual flag are cleared; the invariant holds iff `c` keeps essential consent |
| CookieConsent.Banner.AcceptAll | components/CookieConsent.tsx:83-91 | all four categories on, stored equal to the consent, everything hidden |
| CookieConsent.Banner.RejectNonEssential | components/CookieConsent.tsx:93-101 | only essential on, stored equal to the consent, everything hidden |
| CookieConsent.Banner.SaveCurrent | components/CookieConsent.tsx:294 | stores the consent being edited and hides everything |
| CookieConsent.Banner.CloseSettings | components/CookieConsent.tsx:181-187 | the close button and the identical Cancel handler (lines 283-288): settings closed; the banner is shown again iff nothing is stored; the edited consent is kept |
| PdfEditor.UsesProcessingView | components/PDFEditor.tsx:154-158 | the processing view is taken iff the tool name includes one of Compress, Merge, Split, Convert, `to`, OCR, Word, Excel, JPG and is not exactly `"OCR"` |
| PdfEditor.ConversionNameProcessed | components/PDFEditor.tsx:154-156 | `"PDF to Word"` opens the processing view |
| PdfEditor.OcrRouting | components/PDFEditor.tsx:154-156 | `"OCR PDF"` opens the processing view, the bare `"OCR"` the canvas |
| PdfEditor.EditMissesMergeWords | components/PDFEditor.tsx:154 | `"Edit"` includes none of Compress, Merge, Split |
| PdfEditor.EditMissesConvertWords | components/PDFEditor.tsx:154 | `"Edit"` includes none of Convert, `to`, OCR |
| PdfEditor.EditMissesExportWords | components/PDFEditor.tsx:154 | `"Edit"` includes none of Word, Excel, JPG |
| PdfEditor.EditNotProcessed | components/PDFEditor.tsx:154-156 | `"Edit"` opens the canvas |
| PdfEditor.InitialMode | components/PDFEditor.tsx:169-172 | draw iff the tool is `"Fill & Sign"`, text iff it is `"Edit"`, select otherwise |
| PdfEditor.ZoomIn | components/PDFEditor.tsx:285 | `min(z + 10, 300)`: adds 10 below 290 and gives 300 from 290 up; keeps a valid zoom valid, never exceeds 300, never decreases a zoom up to 300 |
| PdfEditor.ZoomOut | components/PDFEditor.tsx:283 | `max(z - 10, 50)`: subtracts 10 above 60 and gives 50 up to 60; keeps a valid zoom valid, never drops below 50, never increases a zoom from 50 up |
| PdfEditor.PrevPage | components/PDFEditor.tsx:287 | `max(p - 1, 1)`: steps back from any page after the first and gives page 1 from page 2 down, so page 1 stays; keeps a page in 1..4 |
| PdfEditor.NextPage | components/PDFEditor.tsx:289 | `min(p + 1, 4)`: steps forward from any page before the last and gives page 4 from page 3 up, so page 4 stays; keeps a page in 1..4 |
| PdfEditor.ZoomStaysValid | components/PDFEditor.tsx:283-285 | from any valid zoom, in particular the initial 100, every sequence of zoom clicks stays in [50, 300] on multiples of 10 |
| PdfEditor.PageStaysValid | components/PDFEditor.tsx:287-289 | from any page in 1..4, every sequence of previous, next and thumbnail (pages 1 to 4, lines 254-258) clicks stays in 1..4 |
| PdfEditor.Editor.constructor | components/PDFEditor.tsx:153-172 | a canvas editor (tool not routed to the processing view) starts at zoom 100, page 1, no comments, in the initial mode |
| PdfEditor.Editor.SetMode | components/PDFEditor.tsx:224-237 | the toolbar sets the mode |
| PdfEditor.Editor.ZoomInClick | components/PDFEditor.tsx:285 | zoom becomes `ZoomIn` of the old zoom; zoom and page stay valid |
| PdfEditor.Editor.ZoomOutClick | components/PDFEditor.tsx:283 | zoom becomes `ZoomOut` of the old zoom; zoom and page stay valid |
| PdfEditor.Editor.PrevClick | components/PDFEditor.tsx:287 | page becomes `PrevPage` of the old page; zoom and page stay valid |
| PdfEditor.Editor.NextClick | components/PDFEditor.tsx:289 | page becomes `NextPage` of the old page; zoom and page stay valid |
| PdfEditor.Editor.SelectPage | components/PDFEditor.tsx:254-258 | a thumbnail click sets the page to one of 1..4 |
| PdfEditor.Editor.AddComment | components/PDFEditor.tsx:197-205 | appends exactly one comment and keeps the earlier ones, in order |
| App.InitialTheme | App.tsx:79-83 | light iff the hour is in 7..18 and the system does not prefer dark, i.e. dark iff hour ≥ 19, hour < 7 or a dark preference |
| App.Toggled | App.tsx:101-103 | toggling always changes the theme |
| App.ToggleTwice | App.tsx:101-103 | toggling twice restores the theme |
| App.ProfilePlan | App.tsx:151 | the profile's plan when present and non-empty, `"free"` otherwise; never empty |
| App.CardLocked | App.tsx:300-311 | a card is locked iff the tool has a badge and the signed-in user's plan is `"free"`; the `!== 'free'` test never decides |
| App.IsLocked | App.tsx:311 | `!!badge && badge !== 'free' && user?.plan === 'free'`: no badge or no user is never locked, and a locked card has a free user and a badge other than `""` and `"free"` |
| App.SampleFileName | App.tsx:112 | the name is `Sample_` + `ReplaceSpaceRuns` of the tool name (no lower-casing) + `.pdf`; the middle has no whitespace and is no longer than the name, and a name without whitespace appears as is |
| App.MergePdfRewritten | App.tsx:112 | the single space of `"Merge PDF"` becomes `_`, and the case of both words is kept |
| App.SampleOfMergePdf | App.tsx:112 | the tool `"Merge PDF"` opens the file `Sample_Merge_PDF.pdf` |
| App.AppState.constructor | App.tsx:69-76 | no user, no editor, no pending tool, dialog closed, light theme |
| App.AppState.ApplyInitialTheme | App.tsx:78-84 | the theme becomes `InitialTheme` of the hour and the system preference |
| App.AppState.SignIn | App.tsx:146-152 | the user becomes the signed-in id with `ProfilePlan` of the profile's plan |
| App.AppState.ToggleTheme | App.tsx:101-103 | the theme becomes the other one |
| App.AppState.HandleToolClick | App.tsx:105-113 | with no user: parks the tool and opens the sign-in dialog, editor untouched; with a user: sets the tool and its sample file, and the editor shows for a non-empty name |
| App.AppState.CloseEditor | App.tsx:115-118 | clears the tool and the file, so the editor (line 450) is not shown |

## Left out

- Timers: the `setTimeout` delays of the extractor mocks, of the orchestrator's mock backend call and of the cookie banner's one-second appearance are not modelled. The banner appears at once, so a user action that races the timer is not modelled either.
- The orchestrator's backend job is a commented-out request followed by a delay, and the model ends after the deduction. Its `console.log` is left out.
- `canUserUseTool` and `deductCredit` are imported from `services/supabase.ts`, which does not define them, so they are oracles. The model invents no entitlement rules, credit arithmetic or usage records. A failing `deductCredit` (a rejected promise) is not modelled: the deduction always completes.
- A rejected `canUserUseTool` promise is not modelled: the access oracle always answers. In the code such a rejection leaves `executeConversion` with no deduction (`services/conversion.ts:27`).
- `CookieConsent.Banner.Mount` and the other banner methods require `Valid()`, so a stored consent is assumed to have `essential` on, as one written by this component's `savePreferences` has. The code loads whatever JSON is stored (`components/CookieConsent.tsx:42-43`).
- `fileSizeMB` is only passed through to the deduction. Since nothing computes with it, it is a `real`.
- `isVectorPDF` inside the orchestrator is an oracle on the file. `Conversion.MockedVectorGate` plugs in the mocks of `utils/pdfUtils.ts`.
- `localStorage` and `JSON.parse`: storage is an `Option<ConsentState>`, so malformed JSON is out of scope. `handleScriptInjection` only logs to the console and is left out.
- Rendering, styling and animation, the header menus, the tool cards, the legal texts and the error boundary are not modelled.
- Supabase and OAuth: the client, `handleGoogleLogin` and `fetchUser` are not modelled. The only part kept is the `'free'` default of the profile's plan (`App.ProfilePlan`).
- Gemini summarisation, chat and OCR are foreign network calls, and are not modelled. This includes the editor's AI analysis and copy handlers.
- The processing view's progress bar uses `Math.random` and `setInterval`, and is not modelled. The random id of `addComment` is a parameter.
- `toLowerCase` is modelled on ASCII letters only, and `\s` as ASCII space and tab through carriage return. Unicode case mapping and Unicode whitespace are left out.
- `Validation.ValidateBinFile`: the window is searched as bytes. The model does not decode it as UTF-8, as `chunk.text()` does. Decoding never turns ASCII bytes into something else, so the byte-level search decides the same way on the ASCII signatures.
- `types.ts` declares `User.plan` with values that disagree with the profile values `App.tsx:151` assigns. The model takes the plan as a string and tests it for `"free"` only.
- The app's view switching, cookie-settings flag, dashboard data and the editor's share and export buttons hold no logic, and are not modelled.
