# AI Readiness Assessment: form state, progress, submit and export

This project is a Dafny model of the form logic behind the AI Readiness
Assessment, a single-page questionnaire. A visitor enters contact details
(name, email, organization, country, contact number) and answers eleven
questions in four sections. The page shows a progress bar. On submit, the
email is checked, then the phone number, then the answers are posted with a
timestamp. If the post succeeds, the answers are exported as a document
and cleared.

The model has seven modules:

- `Delimited` (`delimited.dfy`): the ", " encoding of a multi-select
  answer. It covers `split(', ')` and `join(', ')`, both round trips, and
  when each holds.
- `Catalog` (`catalog.dfy`): the catalog datatypes and the `questions`
  constant of `src/quiz.js`. It also holds the progress denominator, both as
  the form computes it and as it was evidently meant.
- `FormData` (`form_data.dfy`): the answers as an ordered association list.
  JavaScript objects list string keys in insertion order, and both the
  export and the payload follow that order. It holds the spread update
  `Put` and the change handler `Change`.
- `Progress` (`progress.dfy`): the answered count and the percentage.
- `Export` (`export.dfy`): the document layout and the loop that draws it.
- `Submission` (`submission.dfy`): the submit decision as a function of the
  answers, the phone library, the response and the time.
- `Store` (`store.dfy`): the component's state as a class `FormStore`. Its
  fields are `formData` and `message`. The handlers are methods that
  assign them and are proved against the functions above.

The `questions` array in `src/App.js` is an empty placeholder, so the
catalog is a parameter of the store; `Catalog.Questions` is the instance
from `src/quiz.js`. The phone library, the network response and the clock
are parameters of `HandleSubmit`.

The model follows the code in three places worth noting:

- `src/App.js:73` assigns the formatted number into `formData.contact`
  before the request is sent. After a failed or rejected request, the kept
  answers therefore hold the formatted number, not the number as typed
  (`NotOkOutcome`, `ErrorOutcome`).
- The submit handler (`src/App.js:62-71`) checks only the email and the
  phone number of `formData`; it checks no other field.
- This revision of `src/App.js` has no local-storage persistence.

## Model

| member | source | states |
|---|---|---|
| Delimited.Split | src/App.js:39 | `split(', ')` scanning from the left: there is always at least one piece |
| Delimited.SplitPiecesClean | src/App.js:39 | no piece that `split` returns contains ", ", and the first piece is a prefix of the input |
| Delimited.JoinSplit | src/App.js:39-41 | joining what was split gives back the stored string, for every string |
| Delimited.SplitJoin | src/App.js:39-41 | splitting what was joined gives back the list of options, when there is at least one and none contains ", " |
| Delimited.JoinEmpty | src/App.js:40-41 | the joined string is empty exactly for no options or for a single empty option |
| Catalog.TotalFields | src/App.js:29 | the intended denominator: every item once plus the four required contact fields, so at least 4 |
| Catalog.TotalFromCounts | src/App.js:29 | the `reduce` from any start value adds the item count plus 4 for every section |
| Catalog.TotalQuestionsCounts | src/App.js:29 | `totalQuestions` = item count + 4 × number of sections |
| Catalog.QuizItems | src/quiz.js:1-78 | the catalog flattens to the eleven items q1 … q11 in order |
| Catalog.QuizSections | src/quiz.js:1-78 | four sections, 'Use Cases', 'Data Readiness', 'Technical Infrastructure', 'Team Readiness', holding 2, 3, 2 and 4 items |
| Catalog.QuizTotals | src/quiz.js:1-78 | 11 items; the form's fold gives 27 and the intended count gives 15 |
| Catalog.QuizNames | src/quiz.js:6-72 | the item names are exactly q1 … q11 in order, and they are pairwise distinct |
| Catalog.QuizCheckbox | src/quiz.js:41-44 | an item is a checkbox item if and only if it is q6 |
| Catalog.QuizOptions | src/quiz.js:8-74 | every item offers at least one option, and every option is non-empty and free of ", " |
| Catalog.Q6OptionsOk | src/quiz.js:43 | the multi-select item's options are non-empty and free of ", " |
| Catalog.QuizWellFormed | src/quiz.js:1-78 | the catalog meets the invariant the form relies on: distinct names and well-formed options |
| FormData.Lookup | src/App.js:39 | `formData[k]` is defined if and only if `k` is one of the stored keys |
| FormData.PutLookup | src/App.js:41-43 | after `{ ...formData, [k]: v }`, `k` reads `v` and every other key reads as before |
| FormData.PutKeys | src/App.js:41-43 | the spread keeps the key order and appends `k` only when it is new |
| FormData.PutDistinct | src/App.js:41-43 | the spread never duplicates a key |
| FormData.Remove | src/App.js:40 | the filter leaves no copy of the unticked option and only options that were there |
| FormData.RemoveKeepsOthers | src/App.js:40 | the filter drops exactly the copies of the option: other options keep their multiplicity and their relative order |
| FormData.SelectionsOfJoin | src/App.js:39-41 | options stored by the join are read back unchanged, when each is non-empty and free of ", " |
| FormData.ChangeOnlyNamed | src/App.js:36-45 | a change defines the named key, leaves every other key as it was, and adds the named key at the end only if it is new |
| FormData.ChangeDistinct | src/App.js:36-45 | a change keeps the keys distinct |
| FormData.OverwriteStores | src/App.js:42-43 | a non-checkbox change stores exactly the value given |
| FormData.CheckAppends | src/App.js:39-41 | ticking appends the option after those already ticked, in their order, whatever string was stored |
| FormData.CheckTwiceDuplicates | src/App.js:39-41 | ticking the same option twice stores it twice: duplicates are not removed |
| FormData.FirstCheck | src/App.js:39-41 | on a missing or empty field, the first tick stores the option string alone |
| FormData.UncheckRemovesAll | src/App.js:39-41 | after unticking, the option is not among the selections, whatever was stored |
| FormData.UncheckKeepsOthers | src/App.js:39-41 | unticking leaves the other options with their multiplicities and in their relative order |
| FormData.UncheckOnly | src/App.js:39-41 | unticking the only option ticked stores "" |
| Progress.Answered | src/App.js:32 | the number of non-empty values is at most the number of fields |
| Progress.Percent | src/App.js:33 | the percentage never exceeds 100 |
| Progress.PercentSpec | src/App.js:33 | the bar is full if and only if answered ≥ total; otherwise it shows ⌊answered·100/total⌋ |
| Progress.PercentMonotone | src/App.js:33 | more answered fields never lower the percentage |
| Progress.AnsweredPut | src/App.js:32 | storing a value changes the count only by the old and the new value of that key |
| Progress.ProgressGrows | src/App.js:32-33 | filling a field with a non-empty value never lowers the progress |
| Progress.AnsweredAtMost | src/App.js:32 | with distinct keys drawn from a set, at most that many values are answered |
| Progress.AnsweredAtLeast | src/App.js:32 | when every key of a set holds a non-empty value, at least that many values are answered |
| Progress.AsWrittenNeverFull | src/App.js:29-33 | as written, with two or more sections, no state the form can produce reaches 100% |
| Progress.AsWrittenCompleteForm | src/App.js:29-33 | as written, a completely filled form under a catalog shaped like the quiz shows 59%, with a denominator of 27 |
| Progress.CorrectedCompleteForm | src/App.js:29-33 | with the intended denominator, filling every required field shows 100%, for any catalog whose names are distinct from each other and from the contact fields |
| Progress.RequiredContactCount | src/App.js:121-155 | the four contact fields the intended denominator counts are the contact inputs other than the country, matching `ContactFieldCount` |
| Progress.QuizFields | src/quiz.js:1-78 | the quiz has 4 sections and 11 items, and its names are distinct from each other and from the contact fields |
| Export.EntryLinesAt | src/App.js:51-55 | entry `i` is drawn as "key: value" at the margin, `i` steps of 10 below the first entry |
| Export.RenderedLayout | src/App.js:48-56 | the export is the title at y = 20, then entry `i` as "key: value" at x = 20, y = 30 + 10·i, with nothing else; heights strictly increase, so entries come out in order |
| Export.Render | src/App.js:47-57 | the drawing loop with `y += 10` produces exactly the rendered document: font 14, the lines above, and saving under "AI_Readiness_Assessment.pdf" |
| Submission.EmailCheck | src/App.js:62 | the email passes if and only if it is stored, non-empty and contains '@' |
| Submission.EmailFirst | src/App.js:62-65 | a failing email ends the submit with the email message, unchanged answers, nothing sent and nothing exported; the outcome depends neither on the phone library nor on the response |
| Submission.PhoneSecond | src/App.js:67-71 | with a valid email, a number the library rejects ends the submit with the phone message and unchanged answers, so contact is not rewritten; nothing is sent, and the response plays no part |
| Submission.PayloadSent | src/App.js:73-76 | after both checks pass, the payload is sent whatever the response. It holds the formatted number under contact and the timestamp under timestamp, overriding any field of that name; every other field is as stored |
| Submission.PayloadKeys | src/App.js:73-75 | the payload keeps the key order of the answers and adds contact and timestamp at the end only when new |
| Submission.OkOutcome | src/App.js:87-90 | an ok response shows the success message, exports the answers with the formatted number, and clears them |
| Submission.NotOkOutcome | src/App.js:91-93 | a non-ok status shows the failure message, exports nothing, and keeps the answers with only contact changed, to its formatted form |
| Submission.ErrorOutcome | src/App.js:94-97 | a thrown request shows the error message, exports nothing, and keeps the answers with only contact changed, to its formatted form |
| Submission.SubmitKeepsDistinct | src/App.js:59-98 | a submit keeps the keys of the answers distinct |
| Delimited.Join | src/App.js:41 | `join(', ')`: the pieces with one ", " between neighbours; meaning given by JoinSplit, SplitJoin and JoinEmpty |
| Catalog.Questions | src/quiz.js:1-78 | the catalog constant, section by section; its shape is stated by QuizItems, QuizSections, QuizNames, QuizCheckbox and QuizOptions |
| Catalog.TotalFrom | src/App.js:29 | the `reduce` step by step from a start value; its closed form is TotalFromCounts |
| Catalog.TotalQuestions | src/App.js:29 | `totalQuestions`, the fold from 0; its closed form is TotalQuestionsCounts |
| FormData.Put | src/App.js:41-43 | the spread `{ ...formData, [k]: v }`, also used for the contact rewrite and the payload (src/App.js:73-75); meaning given by PutLookup, PutKeys and PutDistinct |
| FormData.Selections | src/App.js:39 | `formData[name] ? formData[name].split(', ') : []`; meaning given by SelectionsOfJoin and the Check/Uncheck lemmas |
| FormData.Change | src/App.js:36-45 | `handleChange`: a tick appends, an untick filters, anything else overwrites; meaning given by ChangeOnlyNamed, ChangeDistinct, OverwriteStores and the Check/Uncheck lemmas |
| Progress.ContactFields | src/App.js:121-155 | the five contact inputs by their `name` attributes |
| Progress.FormFields | src/App.js:121-155 | every field the form can write: the five contact inputs and the catalog's items |
| Export.Rendered | src/App.js:48-56 | the document the export produces; its layout is stated by RenderedLayout |
| Submission.IsOk | src/App.js:87 | `res.ok`: a response with a status from 200 to 299 |
| Submission.EmailValid | src/App.js:62 | the email guard; characterized by EmailCheck |
| Submission.PhoneInput | src/App.js:67 | `formData.contact \|\| ''`: the stored number, or "" when it is missing |
| Submission.Payload | src/App.js:75 | `{ ...formData, timestamp }`; its contents are stated by PayloadSent and PayloadKeys |
| Submission.Submit | src/App.js:59-98 | `handleSubmit` as a function of the answers, the phone library, the response and the time; its branches are stated by EmailFirst, PhoneSecond, PayloadSent, OkOutcome, NotOkOutcome and ErrorOutcome |
| Store.FormStore.constructor | src/App.js:25-26 | the store starts with no answers and an empty message |
| Store.FormStore.Progress | src/App.js:31-34 | the progress field is at most 100, and it is 100 if and only if the answered count reaches the intended denominator |
| Store.FormStore.HandleChange | src/App.js:36-45 | the answers become `Change` of the old answers and the message is unchanged, keeping the keys distinct |
| Store.FormStore.GeneratePdf | src/App.js:47-57 | the document exported from the current answers: one line per entry, entry `i` at y = 30 + 10·i |
| Store.FormStore.HandleSubmit | src/App.js:59-98 | message, answers, payload and export end as `Submit` of the old answers says, and the keys stay distinct |

## Left out

- Rendering, CSS, the progress bar's markup, the footer and the Cleave input
  mask with its region fallback are user interface only. The `isSelected`
  highlighting, a substring test, is part of that and is not modelled.
- The markup's `required` attributes (`src/App.js:121-155`) and the email
  input's `type="email"` (`src/App.js:125`) are left out with the rest of
  the markup. The browser checks them on the form's inputs before the
  submit handler runs; they are not checks of `formData`.
- The HTTP request and its endpoint are not modelled. `fetch` is the
  `Response` argument: a status, or a request that threw.
- The phone-number library is not modelled. Parsing, validating and
  formatting are one function parameter: raw number and region in, the
  international form or nothing out.
- The drawing and saving calls of the PDF library are not modelled. The
  document is its font size, its lines with their coordinates, and its
  file name.
- URL-encoding of the payload is not modelled; the payload is the ordered
  list of fields.
- The clock is not modelled; the ISO timestamp is a parameter.
- Percent: integer arithmetic, where the code floors a floating-point
  product. The two can differ by one, for example for 29 of 100.
- The division by zero for an empty catalog is left out. The store's
  progress uses `TotalFields`, which is never below 4.
- Progress under the code's own denominator is not a store member. The
  store uses the corrected denominator, and the as-written one is kept
  in the `AsWritten` lemmas.
- React's effect scheduling and asynchronous ordering are not modelled.
  `progress` is a function of the answers, not a separate field.
- Logging of the caught error is left out.
- An error thrown while exporting, which the code would also catch, is
  left out.
- JavaScript lists integer-like keys first; the form has no such keys,
  so the model keeps plain insertion order.

## Findings

| source | as written | input that shows it | evidently intended | confidence | as-written member | corrected member |
|---|---|---|---|---|---|---|
| src/App.js:29 | `reduce((sum, section) => sum + section.items.length + 4, 0)` adds the four contact fields once per section | the quiz catalog with all 16 form fields filled: 16 answered against 27 shows 59%, and no state ever reaches 100% | 11 items plus 4 contact fields = 15, so a complete form shows 100% | high (not executed) | Progress.AsWrittenCompleteForm | Progress.CorrectedCompleteForm |
