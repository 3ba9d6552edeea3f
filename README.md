# Pet-grooming report wizard: the report draft and its rules

This project models the core of a three-step browser wizard that fills in a
pet-grooming report. In step 1 the groomer enters the pet's details and picks
services. In step 2 they add a "before" and an "after" photo, write notes and may
have the notes rewritten by a text service. In step 3 they pick a colour
template, look at the report card and export it as a PNG.

The model covers:

- the draft's datatypes (`Types`) and the fixed template and service catalogs
  (`Catalog`);
- the preview card as a pure function from a report to the strings it shows
  (`Preview`);
- the session of `App.tsx` as the class `App.ReportSession`. It holds the current
  step, the catalog service list with its checked flags, the draft, and the
  `isEnhancing` and `isGenerating` busy flags. Each handler is a method whose new
  state is given by a pure function of the old state;
- the single-file revision `index.tsx` as the class `Wizard.Wizard`. It has its own
  name-membership service toggle and a smaller inline card.

The two asynchronous handlers are split at their `await`. The rewrite becomes
`BeginEnhance` and `CompleteEnhance(reply)`. The export becomes `PressPrimary` and
`FinishExport(outcome)`. This split lets the model see the busy flags between the
two halves. The text service's reply and the export library's success or failure
arrive as parameters.

Two behaviours of the code worth stating plainly:

- Although the selected services behave as a set, their order depends on the
  revision. `App.tsx` keeps them in catalog order because it rebuilds them with
  filter and map. `index.tsx` keeps them in click order because it appends.
  `Wizard.FlagToggleAgreesWithMembershipToggle` proves that the two agree on
  membership.
- A failed rewrite does not leave the rewritten notes unset.
  `services/geminiService.ts:28-31` returns the raw notes on any failure, and
  `App.tsx:51` stores whatever comes back. The model therefore stores any reply.

## Model

| member | source | states |
|---|---|---|
| Types.OrElse | components/ReportPreview.tsx:38 | JavaScript's logical or on a string and a fallback: the value when it is non-empty, otherwise the fallback; never empty when the fallback is not |
| Types.OptionOrElse | components/ReportPreview.tsx:94 | JavaScript's logical or on an optional string: the value when present and non-empty, otherwise the fallback |
| Types.SetPetField | App.tsx:31-36 | the chosen pet field takes the new value; every other pet field and the gender keep theirs |
| Types.WithPhoto | types.ts:23-26 | the role's slot holds the new image; the other slot is untouched |
| Types.UploadOnto | App.tsx:166-171 | an upload fills its own role's slot, leaves the other slot alone, and changes no other report field |
| Types.WithPhotoReplaces | App.tsx:166 | a second upload to the same role replaces the first, so a role never holds two photos |
| Catalog.FindById | App.tsx:29 | `find` by id: absent exactly when no entry has the id; a result is a catalog entry with that id, and the head entry wins when it matches |
| Catalog.FindByIdIsFirstMatch | App.tsx:29 | the lookup returns the entry at the first matching index |
| Catalog.TemplateCatalogShape | constants.ts:4-37 | exactly four templates with pairwise distinct ids, the first being `modern-blue` |
| Catalog.ServiceCatalogShape | constants.ts:39-48 | exactly eight services with ids "1" to "8" in that order, none checked |
| Catalog.ServiceEntriesDistinct | constants.ts:40-47 | no two services share an id or a name |
| Catalog.FindCatalogTemplate | index.tsx:183-187 | a catalog template's own id finds that same template |
| Preview.DisplayName | components/ReportPreview.tsx:38 | the pet's name, or `宝贝` when empty; never empty |
| Preview.DashIfEmpty | components/ReportPreview.tsx:42 | breed and groomer show their value, or `-` when empty |
| Preview.WeightText | components/ReportPreview.tsx:46 | a non-empty weight shows as the weight followed by `kg`; an empty one as `-` |
| Preview.ServicesShown | components/ReportPreview.tsx:60-66 | one chip per list entry in list order; the `无选定服务` placeholder exactly when the list is empty |
| Preview.PhotoPanels | components/ReportPreview.tsx:69-86 | one panel per role whose slot holds a non-empty image, with that image and its role's caption; "before" ahead of "after" |
| Preview.Feedback | components/ReportPreview.tsx:94 | the rewritten notes if non-empty, else the notes if non-empty, else the default sentence |
| Preview.Render | components/ReportPreview.tsx:12-104 | the card shows the date verbatim, and each other field through the fallbacks above |
| Preview.RenderReadsOnlyShownFields | components/ReportPreview.tsx:12-104 | age, gender and template id are not shown: reports that agree on the shown fields render the same |
| Preview.RewriteShadowsNotes | components/ReportPreview.tsx:94 | once rewritten notes are present, editing the raw notes no longer changes the feedback |
| App.ToggleChecked | App.tsx:39 | flips `checked` on the services whose id matches; every other service is unchanged |
| App.CheckedNames | App.tsx:43 | the names of the checked services, at most one per service, each a catalog name |
| App.CurrentTemplate | App.tsx:29 | always a catalog template: the one with the report's id, or the first template when none matches |
| App.ExportFileName | App.tsx:73 | the file name is `洗护报告-`, then the displayed pet name, then `.png` |
| App.EnhanceRequest | App.tsx:47-50 | no request for empty notes; otherwise the raw notes and the pet's name, or `小可爱` when it is empty |
| App.InitialReport | App.tsx:17-25 | the empty draft: empty pet fields with gender male, no services, empty notes and groomer, no rewrite, no photos, the given date, the first template's id; its card shows only the defaults |
| App.InitialReportDefaults | App.tsx:17-25 | a new draft has no services, no rewrite, no photos, the given date, and template `modern-blue` |
| App.ToggleCheckedTwice | App.tsx:39 | toggling the same id twice restores the service list |
| App.ToggleCheckedKeepsEntries | App.tsx:39 | toggling changes no id or name, only flags |
| App.CheckedNamesMembership | App.tsx:43 | a name is listed if and only if a checked service carries it |
| App.CheckedNamesDistinct | App.tsx:43 | with distinct catalog names the derived list has no duplicates |
| App.CheckedNamesInListOrder | App.tsx:43 | the derived names are a subsequence of the list's names, so they keep catalog order |
| App.InitialServicesUnchecked | App.tsx:26 | the initial flag list yields the empty name list, matching the initial draft |
| App.CurrentTemplateOfCatalogId | App.tsx:29 | for a catalog id the fallback is never taken |
| App.RewriteIsShown | App.tsx:51 | after a non-empty reply is stored the card's feedback is that reply, and the raw notes are unchanged |
| App.MochiScenario | App.tsx:73 | the pet "Mochi" with notes "did great" and no photos exports `洗护报告-Mochi.png`, and its card shows the notes verbatim |
| App.ReportSession.Template | App.tsx:29 | in a valid session the card's template is the catalog entry with the report's template id |
| App.ReportSession.constructor | App.tsx:13-26 | starts at step 1, idle, with the catalog services unchecked and the initial draft |
| App.ReportSession.HandlePetInfoChange | App.tsx:31-36 | only `pet[field]` changes |
| App.ReportSession.SetGroomerName | App.tsx:122 | only `groomerName` changes |
| App.ReportSession.SetNotes | App.tsx:194 | only `notes` changes |
| App.ReportSession.ToggleService | App.tsx:38-45 | the flags are flipped for the id, and the report's names are rebuilt from them; the session invariant is kept |
| App.ReportSession.UploadPhoto | App.tsx:163-171 | the draft becomes the upload onto its current state |
| App.ReportSession.SelectTemplate | App.tsx:213-216 | only the template id changes, and the card is then drawn with the chosen template |
| App.ReportSession.BeginEnhance | App.tsx:47-49 | nothing happens while busy or with empty notes; otherwise the request is issued and `isEnhancing` is set |
| App.ReportSession.CompleteEnhance | App.tsx:50-52 | only `aiEnhancedNotes` changes (the notes stay), and `isEnhancing` clears |
| App.ReportSession.Back | App.tsx:246-248 | the step goes down by one above 1, and otherwise stays |
| App.ReportSession.PressPrimary | App.tsx:255-257 | while exporting nothing happens; below step 3 the step goes up by one; at step 3 an export starts with the file name taken at the click |
| App.ReportSession.FinishExport | App.tsx:62-81 | success keeps the image and yields the download link under the file name taken at the click; failure changes nothing else; `isGenerating` is false either way |
| App.ReportSession.ClosePreview | App.tsx:275 | the preview overlay closes |
| App.ToggleTwiceRestores | App.tsx:38-45 | two toggles of one id restore the flags and the report |
| Wizard.RemoveName | index.tsx:162 | removing a name drops that name and keeps exactly the other members, in their order |
| Wizard.ToggleMembership | index.tsx:162 | a present name is removed and an absent one appended at the end; no other name's membership changes |
| Wizard.RemoveNameKeepsDistinct | index.tsx:162 | filtering keeps a list duplicate-free |
| Wizard.ToggleMembershipKeepsDistinct | index.tsx:162 | the toggle never introduces a duplicate |
| Wizard.RemoveAppended | index.tsx:162 | appending an absent name and then removing it restores the list |
| Wizard.RemoveUniqueMultiset | index.tsx:162 | removing a name that occurs once takes away exactly one element |
| Wizard.ToggleMembershipTwice | index.tsx:162 | a double toggle restores the list when the name was absent, and restores the same names when it was present, with that name moved to the end |
| Wizard.FlagToggleAgreesWithMembershipToggle | App.tsx:39-44 | the flag-and-rebuild toggle and the membership toggle select the same services |
| Wizard.NameListedIffChecked | App.tsx:43 | with distinct names a service's name is listed if and only if that service is checked |
| Wizard.OtherNamesUnaffected | App.tsx:39-43 | flipping one service changes no other name's membership |
| Wizard.StaleUploadDropsFirstPhoto | index.tsx:173-174 | as written, both uploads are applied to the draft of one render; for any such draft without a "before" photo, the second write loses the first photo, while applying it to the current draft keeps it |
| Wizard.UploadsOntoCurrentKeepBoth | App.tsx:166-171 | uploads applied to the current draft keep both photos, commute, and touch nothing else |
| Wizard.PreviewTemplate | index.tsx:187 | the lookup without fallback finds a template exactly for catalog ids |
| Wizard.InlinePreview | index.tsx:98-118 | the inline card shows the date, the name or `宝贝`, the groomer or `-`, the present photos, and the feedback with the sentence `宝贝今天很听话！` as its default |
| Wizard.InlineAgreesWithComponent | index.tsx:98-118 | the inline card and the preview component agree on date, name, groomer and photo order; their feedback differs only when both notes are empty |
| Wizard.Wizard.Template | index.tsx:187 | in a valid wizard the lookup always finds a template |
| Wizard.Wizard.constructor | index.tsx:122-129 | starts at step 1, idle, with the initial draft |
| Wizard.Wizard.SetName | index.tsx:155 | only `pet.name` changes |
| Wizard.Wizard.SetGroomerName | index.tsx:157 | only `groomerName` changes |
| Wizard.Wizard.SetNotes | index.tsx:176 | only `notes` changes |
| Wizard.Wizard.ToggleService | index.tsx:160-164 | only the service names change, by the membership toggle; they stay duplicate-free catalog names |
| Wizard.Wizard.UploadPhoto | index.tsx:173-174 | the upload goes onto the current draft (the corrected behaviour, see Findings) |
| Wizard.Wizard.SelectTemplate | index.tsx:184 | only the template id changes, to a catalog id |
| Wizard.Wizard.Back | index.tsx:193 | the step goes down by one above 1, and otherwise stays |
| Wizard.Wizard.PressPrimary | index.tsx:194 | below step 3 the step goes up by one; at step 3 an export starts, even while one is already running |
| Wizard.Wizard.FinishDownload | index.tsx:132-141 | success keeps the image; `isGenerating` is false whether the export succeeded or threw |
| Wizard.Wizard.ClosePreview | index.tsx:203 | the preview overlay closes |

The session invariants `App.ReportSession.Valid` and `Wizard.Wizard.Valid` are
kept by every method. They say that the step stays within 1..3 and that the
template id is a catalog id. For `App`, the flag list keeps the catalog's ids and
names, and the report's names are exactly the checked ones. For `Wizard`, the
selected names are duplicate-free catalog names.

## Left out

- Photo capture (`components/PhotoUpload.tsx`, index.tsx:79-96): `FileReader` I/O. An upload is modelled as an opaque data-URL string arriving for one role. The source has no resize or recompression step.
- The text-rewriting service (`services/geminiService.ts`, index.tsx:61-76): a call to a hosted API. Its reply is a parameter of `CompleteEnhance`.
- Exporting: `htmlToImage.toPng`, the settle delays (App.tsx:60, index.tsx:136), the anchor-click download, `alert` and `console`. The export outcome is a parameter, and `FinishExport` returns the download link instead of clicking it.
- `reportRef.current` guards (App.tsx:56, index.tsx:133): the guard is evaluated at the click, when the step is 3 and the card is mounted, so it always passes and is not modelled separately. Back stays enabled while an export runs (App.tsx:246-248, index.tsx:193); pressing it during the settle delay unmounts the card, `toPng` then receives no node, and that export ends as a `Failed` outcome, which `FinishExport` and `FinishDownload` accept.
- `new Date().toISOString()` (App.tsx:21, index.tsx:125): it reads the clock, so the date is a constructor parameter.
- Layout, CSS classes, template colours as styling, the step dots and the `ReactDOM` root (index.tsx:210-211). `Preview.Render` does not take the template because the template only supplies colours.
- Gender edits: no input writes `gender`. `Types.PetField` therefore lists only the string-typed keys of `PetInfo`.
- In `index.tsx` the export button is not disabled while an export runs (App.tsx:257 disables it). `Wizard.Wizard.PressPrimary` therefore starts a second export. The first export to finish then clears `isGenerating` while the second is still in flight. The model does not count exports in flight.
- Stale rewritten notes: editing the notes after a rewrite leaves the old rewrite on the card, as `Preview.RewriteShadowsNotes` states. This is the code's behaviour and is modelled as such.

## Findings

| source | as written | input that shows it | evidently intended | confidence | as-written member | corrected member |
|---|---|---|---|---|---|---|
| index.tsx:173-174 | each upload callback spreads the `report` captured in the render where the file was picked | pick a "before" file and then an "after" file before the first read finishes: both callbacks hold the draft with no photos, so the second write leaves `photos.before` empty (any notes typed meanwhile are reverted too) | the upload goes onto the current draft, as the functional updates at App.tsx:166-171 do | low: needs two reads in flight at once; not executed | Wizard.StaleUploadDropsFirstPhoto | Wizard.UploadsOntoCurrentKeepBoth |
