# Timber Pros field-service front end: a verified model of its page logic

Timber Pros is a browser front end for a tree-service business. This project
models the logic behind six of its screens and proves properties of that model:

- **The photo-annotation tool.** Office staff open a photo and mark it up.
  A green, red or blue circle is placed and saved with one click. A yellow or
  pink line is drafted on a click, given its end point on the first pointer
  move, and saved on release. Each saved annotation gets an optional note.
- **The work-order form.** It holds billable line items (units × rate = cost)
  and internal expenses (hours × rate = amount), plus a discount. The
  subtotal, total and expenses total are derived from them.
- **The schedule.** It lists jobs, which can be filtered by site manager and
  crew member. The page shows a job list per calendar day, and a dialog
  creates or edits jobs.
- **The job dialog.** Its form starts from the job being edited or from
  defaults. Each input replaces one part of the form.
- **The time tracker.** Staff clock in and out. The attendance log is filtered
  by role, and the page shows the average clock-in time.
- **The route guard.** It decides from the stored role whether a protected
  page is rendered or the user is redirected.

Each module follows one source file:

| module | source |
|---|---|
| `Annotations` | `src/components/AnnotatedPhotoUpload.tsx` |
| `WorkOrders` | `src/pages/CreateWorkOrder.tsx` |
| `Scheduling` | `src/pages/Schedule.tsx` |
| `Jobs` | `src/components/JobModal.tsx` (and the `Job` record shared with the schedule) |
| `TimeTracking` | `src/pages/TimeTracker.tsx` |
| `RoleGuard` | `src/components/RoleGuard.tsx` |
| `Seqs` | shared list operations: `filter`, `splice(i, 1)`, the include/remove toggle, `Array.from(new Set(..))` |
| `Options` | the `Option` type that stands for `null`/`undefined` |

Each React component whose state its handlers replace becomes a class:
`PhotoAnnotator`, `WorkOrderForm`, `SchedulePage`, `JobModal` and
`TimeTracker`. Each `useState` variable is a field and each handler is a
method. A method's postcondition gives the new value of every field it
touches and says that the others keep their old values. The values a handler
computes with `map`, `filter`, `find`, `reduce` or a spread are functions, and
lemmas prove what those functions mean. `calculateAvgClockIn` keeps its loop,
and that loop is proved against a specification function.

Inputs from the browser become parameters:

- the canvas bounding rectangle;
- the text returned by `prompt`;
- the current clock text and day;
- values read from `localStorage`;
- the generated mock logs;
- the random job id.

A few rules of JavaScript are written out where the code relies on them:

- Truthiness of `""` and `null`.
- `note || undefined`.
- `String.prototype.replace` with a string pattern, which replaces only the
  first match.
- `parseInt`, which reads the leading digit run and gives NaN when there is none.
- NaN absorbing a running sum.
- `Math.round`, which rounds halves up.
- `padStart(2, '0')`.

## Model

| member | source | states |
|---|---|---|
| `Annotations.ShapeClassification` | src/components/AnnotatedPhotoUpload.tsx:95-97 | the `includes('circle')` / `includes('line')` tests on the type tag are true for exactly the three circle kinds and the two line kinds respectively, and never both |
| `Annotations.DemoPhotos` | src/components/AnnotatedPhotoUpload.tsx:23-60 | the tool starts with six photos with pairwise distinct ids and no annotations |
| `Annotations.ClickShape` | src/components/AnnotatedPhotoUpload.tsx:91-98 | a click with a circle kind builds a 40×40 circle at the click point with no points; with a line kind, a zero-size draft whose only point is the click point |
| `Annotations.CommittedCircleRadius` | src/components/AnnotatedPhotoUpload.tsx:166-168 | every saved circle is drawn with radius `(width \|\| 40) / 2 = 20` |
| `Annotations.NormalizeNote` | src/components/AnnotatedPhotoUpload.tsx:136 | `note \|\| undefined`: a cancelled prompt or an empty note becomes no note; any other note is kept verbatim |
| `Annotations.WithNote` | src/components/AnnotatedPhotoUpload.tsx:136 | the spread copy differs from the annotation only in its note, which is the normalised prompt answer |
| `Annotations.AppendToPhoto` | src/components/AnnotatedPhotoUpload.tsx:139-147 | the `photos.map` keeps the length; photos with another id are unchanged; each photo with the id gets the annotation appended to its list |
| `Annotations.AppendCount` | src/components/AnnotatedPhotoUpload.tsx:139-147 | a save adds as many annotations in total as there are photos carrying the id |
| `Annotations.CountIdOfUnique` | src/components/AnnotatedPhotoUpload.tsx:139-147 | with unique ids, the id of a listed photo is carried by exactly one photo, so a save adds exactly one annotation |
| `Annotations.SaveAddsOne` | src/components/AnnotatedPhotoUpload.tsx:139-147 | with unique photo ids and a listed id, a save adds exactly one annotation over all photos |
| `Annotations.SaveAppendsLast` | src/components/AnnotatedPhotoUpload.tsx:139-147 | in the photo with the id, every earlier annotation stays in place, the new one is last, and the photo's id, source and caption are unchanged |
| `Annotations.AppendKeepsWellFormed` | src/components/AnnotatedPhotoUpload.tsx:139-147 | appending a circle or a two-point line keeps every stored list made only of circles and two-point lines |
| `Annotations.ReplaceFirstSpec` | src/components/AnnotatedPhotoUpload.tsx:353 | `replace('-', ' ')` changes only the first dash; a tag without a dash is unchanged |
| `Annotations.ReplaceFirstAt` | src/components/AnnotatedPhotoUpload.tsx:353 | with the first dash at index k, the result is the text with index k replaced and the rest kept |
| `Annotations.LabelOf` | src/components/AnnotatedPhotoUpload.tsx:353 | the sidebar headings are "green circle", "red circle", "blue circle", "yellow line" and "pink line": each type tag with its dash turned into a space |
| `Annotations.PhotoAnnotator.constructor` | src/components/AnnotatedPhotoUpload.tsx:63-67 | initial state: the demo photos, no photo open, not annotating, green circle selected, no draft |
| `Annotations.PhotoAnnotator.Open` | src/components/AnnotatedPhotoUpload.tsx:72-75 | opening sets the selected photo and the annotating flag and changes nothing else |
| `Annotations.PhotoAnnotator.Close` | src/components/AnnotatedPhotoUpload.tsx:77-81 | closing clears the selected photo, the annotating flag and the draft, and keeps the photos and the selected kind |
| `Annotations.PhotoAnnotator.SelectType` | src/components/AnnotatedPhotoUpload.tsx:279 | a radio button sets the selected kind and nothing else |
| `Annotations.PhotoAnnotator.Save` | src/components/AnnotatedPhotoUpload.tsx:130-151 | with no photo open nothing changes; otherwise the note-normalised annotation is appended to the open photo's entry in the list, the total number of annotations grows by exactly one, and the draft is cleared; photo ids stay unique and the open photo stays listed; the open photo's copy is not refreshed |
| `Annotations.PhotoAnnotator.Click` | src/components/AnnotatedPhotoUpload.tsx:83-106 | with no photo open nothing changes; a circle kind saves the circle built at (clientX − left, clientY − top), adding exactly one annotation in total; a line kind stores the one-point draft and saves nothing; stored annotations stay circles or two-point lines and a draft never exceeds two points |
| `Annotations.PhotoAnnotator.MouseMove` | src/components/AnnotatedPhotoUpload.tsx:108-122 | a second point is appended only to a one-point draft while a line kind is selected; every other move leaves the draft and all other state unchanged |
| `Annotations.PhotoAnnotator.MouseUp` | src/components/AnnotatedPhotoUpload.tsx:124-128 | only a line draft with more than one point is saved, through the same append as `Save`, adding exactly one annotation in total; otherwise nothing changes |
| `Annotations.PhotoAnnotator.SidebarLabels` | src/components/AnnotatedPhotoUpload.tsx:346-353 | the sidebar lists one heading per annotation of the open photo's copy, in order, each being its tag with the first dash replaced |
| `WorkOrders.EditItem` | src/pages/CreateWorkOrder.tsx:54-64 | a name edit sets only the name and keeps the cost; a units or rate edit sets that field and leaves the row with cost = units × rate |
| `WorkOrders.EditExpense` | src/pages/CreateWorkOrder.tsx:76-86 | a head edit sets only the head; an hours or rate edit sets that field and leaves amount = hours × rate |
| `WorkOrders.EditKeepsConsistent` | src/pages/CreateWorkOrder.tsx:54-86 | any edit keeps a consistent item or expense row consistent |
| `WorkOrders.SumCostsConcat` | src/pages/CreateWorkOrder.tsx:46 | the `reduce` of item costs splits over a concatenation |
| `WorkOrders.SumAmountsConcat` | src/pages/CreateWorkOrder.tsx:48 | the `reduce` of expense amounts splits over a concatenation |
| `WorkOrders.SubtotalIsSumOfProducts` | src/pages/CreateWorkOrder.tsx:46 | when every row is consistent, the subtotal equals the sum of units × rate, which is an independent right fold |
| `WorkOrders.SumCostsUpdate` | src/pages/CreateWorkOrder.tsx:46 | replacing item i changes the subtotal by the new cost minus the old |
| `WorkOrders.SumAmountsUpdate` | src/pages/CreateWorkOrder.tsx:48 | replacing expense i changes the expenses total by the new amount minus the old |
| `WorkOrders.SumCostsRemove` | src/pages/CreateWorkOrder.tsx:66-70 | removing item i takes exactly its cost out of the subtotal |
| `WorkOrders.SumAmountsRemove` | src/pages/CreateWorkOrder.tsx:88-92 | removing expense i takes exactly its amount out of the expenses total |
| `WorkOrders.WorkOrderForm.constructor` | src/pages/CreateWorkOrder.tsx:34-43 | the form opens with the two sample items, the three expense heads and no discount, all rows consistent |
| `WorkOrders.WorkOrderForm.AddItem` | src/pages/CreateWorkOrder.tsx:50-52 | appends `{name: "", units: 1, rate: 0, cost: 0}`; earlier rows, the subtotal, the expenses and the discount are unchanged |
| `WorkOrders.WorkOrderForm.ChangeItem` | src/pages/CreateWorkOrder.tsx:54-64 | only row `index` changes, as `EditItem` says; the subtotal moves by that row's change; every row stays consistent |
| `WorkOrders.WorkOrderForm.RemoveItem` | src/pages/CreateWorkOrder.tsx:66-70 | `splice(index, 1)`: a valid index removes exactly that row, keeps the others in order and lowers the subtotal by its cost; an out-of-range index changes nothing |
| `WorkOrders.WorkOrderForm.AddExpense` | src/pages/CreateWorkOrder.tsx:72-74 | appends `{head: "", hours: 0, rate: 0, amount: 0}`; the expenses total is unchanged |
| `WorkOrders.WorkOrderForm.ChangeExpense` | src/pages/CreateWorkOrder.tsx:76-86 | only expense `index` changes, as `EditExpense` says; the expenses total moves by that row's change |
| `WorkOrders.WorkOrderForm.RemoveExpense` | src/pages/CreateWorkOrder.tsx:88-92 | removes exactly one expense row and its amount from the expenses total, or does nothing for an index out of range |
| `WorkOrders.WorkOrderForm.SetDiscount` | src/pages/CreateWorkOrder.tsx:261 | the discount input sets the discount, and total = subtotal − discount |
| `Seqs.RemoveAt` | src/pages/CreateWorkOrder.tsx:68 | `splice(i, 1)` on a copy: rows before i are kept, rows after shift down by one, and an index out of range leaves the list as it was |
| `Seqs.RemoveAtInverse` | src/pages/CreateWorkOrder.tsx:68 | putting the removed row back at i restores the list |
| `Seqs.Filter` | src/pages/Schedule.tsx:140-149 | `filter` keeps exactly the elements that pass the predicate, and no more than the input holds |
| `Seqs.FilterCount` | src/pages/Schedule.tsx:140-149 | `filter` keeps every copy of a passing element and no copy of a failing one: each element occurs in the result as often as in the input if it passes, and not at all otherwise |
| `Seqs.FilterIsSubseq` | src/pages/Schedule.tsx:140-149 | a filter result is an order-preserving subsequence of its input |
| `Seqs.FilterKeepsAll` | src/pages/Schedule.tsx:140-149 | a predicate every element passes filters to the same list |
| `Seqs.FilterFilter` | src/pages/Schedule.tsx:151-153 | filtering a filtered list equals filtering once by the conjunction |
| `Seqs.RemoveAll` | src/pages/Schedule.tsx:126 | `filter(sm => sm !== x)` removes every occurrence of x and keeps everything else |
| `Seqs.RemoveAllIsFilter` | src/pages/Schedule.tsx:126 | removing every occurrence of x is exactly `filter(y => y !== x)`, so the order and multiplicity of the other elements are kept |
| `Seqs.ToggleMembership` | src/pages/Schedule.tsx:124-130 | after a toggle the name is listed iff it was not; no other name's membership changes; an absent name is appended |
| `Seqs.ToggleTwiceAbsent` | src/pages/Schedule.tsx:124-130 | toggling an absent name twice restores the original list |
| `Seqs.Dedup` | src/pages/Schedule.tsx:81-82 | `Array.from(new Set(xs))` has no duplicates and holds the same elements as xs |
| `Seqs.DedupFirstOccurrenceOrder` | src/pages/Schedule.tsx:81-82 | the de-duplicated list is ordered by first occurrence in xs |
| `Scheduling.FilterJobsSpec` | src/pages/Schedule.tsx:140-149 | a job is shown iff it is listed, its manager matches a non-empty manager filter, and it shares a crew member with a non-empty crew filter; a shown job appears as many times as it is listed; shown jobs keep their order; with both filters empty, every job is shown |
| `Scheduling.JobsOnDateSpec` | src/pages/Schedule.tsx:151-153 | a day's jobs are exactly the listed jobs that pass the filters and fall on that day, in list order |
| `Scheduling.ReplaceById` | src/pages/Schedule.tsx:107 | the edit keeps the length and replaces exactly the jobs whose id equals the saved job's id |
| `Scheduling.ReplaceByIdProperties` | src/pages/Schedule.tsx:107 | replacing is idempotent, keeps every position's id, and is the identity when no job has the id |
| `Scheduling.AllCrewMembership` | src/pages/Schedule.tsx:82 | a name is in the `flatMap` of crews iff some job lists it |
| `Scheduling.ManagersMembership` | src/pages/Schedule.tsx:81 | a name is in the mapped manager list iff some job has it as site manager |
| `Scheduling.UniqueListsSpec` | src/pages/Schedule.tsx:81-82 | the manager and crew filter lists have no duplicates, offer exactly the names that occur in some job, and keep first-occurrence order |
| `Scheduling.SchedulePage.constructor` | src/pages/Schedule.tsx:68-74 | the page starts with the two mock jobs, no day or job selected, the dialog closed and both filters empty |
| `Scheduling.SchedulePage.DateClick` | src/pages/Schedule.tsx:92-96 | the dialog opens for that day with no job selected; jobs and filters are unchanged |
| `Scheduling.SchedulePage.JobClick` | src/pages/Schedule.tsx:98-102 | the dialog opens for the job, with the job's own day selected |
| `Scheduling.SchedulePage.CloseModal` | src/pages/Schedule.tsx:119-122 | the dialog closes and the selected job is cleared; the selected day and the jobs are kept |
| `Scheduling.SchedulePage.SaveJob` | src/pages/Schedule.tsx:104-117 | when editing, the jobs with the saved id are replaced and the length is kept; when creating, exactly one copy of the job under the fresh id is appended; either way the dialog closes |
| `Scheduling.SchedulePage.ToggleSiteManager` | src/pages/Schedule.tsx:124-130 | the manager filter is toggled, so the name is selected iff it was not, and nothing else changes |
| `Scheduling.SchedulePage.ToggleCrewMember` | src/pages/Schedule.tsx:132-138 | the crew filter is toggled, so the name is selected iff it was not, and nothing else changes |
| `Jobs.FindClient` | src/components/JobModal.tsx:105 | `find` gives none iff no client has the name; a found client has that name and is listed |
| `Jobs.FindClientIsFirst` | src/components/JobModal.tsx:105 | `find` gives the first client carrying the name |
| `Jobs.DefaultForm` | src/components/JobModal.tsx:69-86 | a new job's form has the first work order, the first client with that client's own address, the first site manager, a crew of the first crew member, 10:00–17:00, the clicked day (or ""), no flags and an empty note |
| `Jobs.ApplyClient` | src/components/JobModal.tsx:103-114 | a listed client sets both the client name and its address, so the form's client and address then agree with the list; an unlisted name leaves the form unchanged |
| `Jobs.SetText` | src/components/JobModal.tsx:90-93 | the text input named by the field now holds the value; every other text field, the crew and the flags are unchanged |
| `Jobs.SetFlag` | src/components/JobModal.tsx:116-118 | the named checkbox now holds `checked`; every other flag and every text field is unchanged |
| `Jobs.JobModal.constructor` | src/components/JobModal.tsx:47-63 | the form before the effect runs: all texts empty except 10:00–17:00, no crew, no flags, an empty note |
| `Jobs.JobModal.Init` | src/components/JobModal.tsx:66-88 | the form becomes the job being edited, or the defaults for the selected day |
| `Jobs.JobModal.Change` | src/components/JobModal.tsx:90-93 | the form becomes `SetText` of the old form |
| `Jobs.JobModal.WorkOrderChange` | src/components/JobModal.tsx:95-101 | only the work order changes |
| `Jobs.JobModal.ClientChange` | src/components/JobModal.tsx:103-114 | the form becomes `ApplyClient` of the old form |
| `Jobs.JobModal.CheckboxChange` | src/components/JobModal.tsx:116-118 | the form becomes `SetFlag` of the old form |
| `Jobs.JobModal.CrewMemberToggle` | src/components/JobModal.tsx:120-130 | only the crew changes; the member is on it afterwards iff it was not before |
| `Jobs.JobModal.Submit` | src/components/JobModal.tsx:132-135 | the form as it stands is what is handed to `onSave` |
| `Jobs.CrewToggleTwice` | src/components/JobModal.tsx:120-130 | toggling an absent crew member on and off again gives back the same form |
| `TimeTracking.NatToDecimal` | src/pages/TimeTracker.tsx:219 | `String(n)` is a run of decimal digits whose value is n, with no leading zero, and is one digit long iff n < 10 |
| `TimeTracking.Pad2` | src/pages/TimeTracker.tsx:219 | `padStart(2, '0')` gives at least two characters, leaves longer text alone and puts zeros only in front |
| `TimeTracking.Pad2Value` | src/pages/TimeTracker.tsx:219 | padding a run of digits keeps its value |
| `TimeTracking.IndexFrom` | src/pages/TimeTracker.tsx:205 | a colon position found by the split lies in range and holds a colon |
| `TimeTracking.ParseInt` | src/pages/TimeTracker.tsx:206-207 | `parseInt` of a piece is NaN iff the piece is empty or does not start with a digit |
| `TimeTracking.DigitsFromValue` | src/pages/TimeTracker.tsx:206-207 | `parseInt` of a piece made only of digits is its decimal value |
| `TimeTracking.ColonsOfJoined` | src/pages/TimeTracker.tsx:205 | in "h:m" with h and m digits, the split finds the colon after h and no second colon |
| `TimeTracking.PiecesOfJoined` | src/pages/TimeTracker.tsx:205-207 | the two pieces of "h:m" parse to the values of h and m |
| `TimeTracking.ClockMinutesOfDigits` | src/pages/TimeTracker.tsx:205-208 | a clock text "h:m" made of digit runs counts h × 60 + m minutes |
| `TimeTracking.RoundDiv` | src/pages/TimeTracker.tsx:215 | `Math.round(t / c)` is the integer r with 2cr ≤ 2t + c < 2cr + 2c, so halves round up |
| `TimeTracking.FormatClockShape` | src/pages/TimeTracker.tsx:216-219 | the formatted average has at least two hour digits, a colon and exactly two minute digits; they read as avg div 60 and avg mod 60 |
| `TimeTracking.FormatClockReadsBack` | src/pages/TimeTracker.tsx:205-219 | a formatted clock, read back the way the average reads clock texts, gives the same number of minutes |
| `TimeTracking.AddMinutes` | src/pages/TimeTracker.tsx:208 | `totalMinutes +=` stays a number iff both sides are numbers, and is then their sum; NaN absorbs |
| `TimeTracking.SumAppend` | src/pages/TimeTracker.tsx:208 | one more reading adds its minutes to the running total |
| `TimeTracking.AverageClockIn` | src/pages/TimeTracker.tsx:199-220 | with no clock-in text the result is "00:00"; if some clock-in does not read as a number it is "NaN:NaN"; otherwise it is the rounded mean of the clock-ins, formatted as zero-padded HH:MM |
| `TimeTracking.NoClockIns` | src/pages/TimeTracker.tsx:204 | the count is zero exactly when every log's clock-in text is empty |
| `TimeTracking.SumBounds` | src/pages/TimeTracker.tsx:208 | n readings each between lo and hi sum to a number between n·lo and n·hi |
| `TimeTracking.RoundDivWithin` | src/pages/TimeTracker.tsx:215 | the rounded mean of a total between c·lo and c·hi lies between lo and hi |
| `TimeTracking.AverageWithinRange` | src/pages/TimeTracker.tsx:199-215 | when every clock-in reads as a minute count between lo and hi, the total is a number and the average lies between lo and hi |
| `TimeTracking.RoleLabel` | src/pages/TimeTracker.tsx:168 | the role column is "Site Manager" iff the role is "site-manager", and "Crew Member" otherwise |
| `TimeTracking.VisibleLogsSpec` | src/pages/TimeTracker.tsx:223-231 | an admin sees every log; anyone else sees every copy of each log with their own name and no other log; either way in the original order |
| `TimeTracking.VisibleAfterPrepend` | src/pages/TimeTracker.tsx:174 | a user's new log, put at the head of the list, also heads that user's visible logs |
| `TimeTracking.OrDefault` | src/pages/TimeTracker.tsx:89-90 | `getItem(key) \|\| fallback` gives the stored text when it is non-empty, and the fallback otherwise |
| `TimeTracking.TimeTracker.constructor` | src/pages/TimeTracker.tsx:81-85 | initial state: empty role and name, not clocked in, no clock-in time, no logs |
| `TimeTracking.TimeTracker.Load` | src/pages/TimeTracker.tsx:87-104 | the role defaults to "" and the name to "User"; the logs are the generated ones; a stored log for today clocks the user in at its time |
| `TimeTracking.TimeTracker.ClockIn` | src/pages/TimeTracker.tsx:125-126 | the user is clocked in at the given time; logs, role and name are unchanged |
| `TimeTracking.TimeTracker.ClockOut` | src/pages/TimeTracker.tsx:134-183 | without a non-empty clock-in time nothing changes; otherwise exactly one log is put at the head (its id is the day key followed by `-new`; it has the user's name and role label, the stored clock-in, the given clock-out and hours), the user is clocked out, and the shown logs gain that log at their head |
| `RoleGuard.Decide` | src/components/RoleGuard.tsx:26-39 | a missing or empty role goes to /login; a listed role renders the page; an unlisted admin or site manager goes to /work-order; any other unlisted role goes to /schedule; each outcome is characterised by an iff, so exactly one holds |
| `RoleGuard.EmptyRoleRedirectsEvenIfAllowed` | src/components/RoleGuard.tsx:26-28 | the login check comes first, so an empty role is redirected even when "" is an allowed role |
| `RoleGuard.AllowingMoreKeepsRendering` | src/components/RoleGuard.tsx:31-39 | adding allowed roles never turns a rendered page into a redirect |

## Left out

- Canvas drawing (`renderAnnotations`): colours, stroke widths, arcs and image
  drawing are Canvas API calls. Only the circle radius rule is modelled.
- Browser inputs: `getBoundingClientRect`, `prompt` and image load sizing. The
  rectangle's offsets and the prompt's answer are method parameters. The
  canvas ref is taken to exist.
- The photo-list `alt`/`src` text and the thumbnails grid are display only.
- The free-text `noteText` state of the annotation tool is never read by the
  handlers.
- Floating point:
  - Hours worked (`/ 60`, `toFixed(1)`) is the `hoursText` parameter of `ClockOut`.
  - `calculateTotalHours` (`parseFloat` over the total-hours texts) is not modelled.
  - Currency display (`toFixed(2)`) is not modelled.
  - Fractional `Number(e.target.value)` inputs are not modelled: money, units,
    hours and the discount are integers.
- `WorkOrders.WorkOrderForm.ChangeItem`: the code copies the array but then
  mutates the shared row object (`updatedItems[index][field] = value`). The old
  state's row therefore changes too (aliasing). The model replaces the row by
  value.
- `WorkOrders.WorkOrderForm.ChangeItem`: requires a shown row's index, as
  the table only passes those. At an out-of-range index the code would throw
  (it writes a field of `undefined`), and that case is not modelled.
- `WorkOrders.WorkOrderForm.ChangeExpense`: the code copies the array but then
  mutates the shared expense object (`updatedExpenses[index][field] = value`),
  so the old state's row changes too (aliasing). The model replaces the row
  by value.
- `WorkOrders.WorkOrderForm.ChangeExpense`: requires a shown row's index. At
  an out-of-range index the code would throw, and that case is not modelled.
- Randomness: the mock time logs come from `generateMockData`, a loop over
  dates with `Math.random`. They are a parameter of `Load`. The random job id
  is the `freshId` parameter of `SaveJob`.
- `localStorage`:
  - Reads are parameters: the role, the name, and today's stored log.
  - Writes are left out: the clock-in record and the clock-out update.
  - `ClockOut` treats the stored log as present, which is what the `"{}"`
    default gives. A stored literal `null` would make it do nothing, and that
    case is not modelled.
- `TimeTracking.TimeTracker.Load`: `todayLog.clockInTime` is taken to be a
  text. A stored log without that field would set `undefined`, which is not
  modelled.
- `TimeTracking.ParseInt`: models `parseInt` on unsigned decimal text only.
  Leading whitespace, a sign and a `0x` prefix are not modelled.
- Clock and calendar:
  - `toLocaleTimeString` and `toISOString` are replaced by the `now` and
    `today` parameters.
  - The date-fns month navigation, day grid and `parseISO`/`isSameDay` are
    not modelled. Days are their "yyyy-MM-dd" keys, so `isSameDay` is key
    equality. This also covers `format(selectedDate, 'yyyy-MM-dd')` in the
    job dialog.
- `RoleGuard.Decide`: the loading phase before the role has been read, which
  only renders "Loading...", is not modelled.
- Navigation, toasts, the navigation bar, the login page, the work-order list
  page and the application's routes are not part of this model.
- The order form's other fields (client name, order number, sales executive,
  date, time, comments) are plain `useState` inputs and are not modelled.

Three facts about the annotation tool's code bound what the model covers:

- Annotation coordinates are the display-space offsets `clientX - rect.left`
  and `clientY - rect.top` that the click and move handlers compute
  (src/components/AnnotatedPhotoUpload.tsx lines 87-88 and 112-113). Nothing
  scales them to the image's natural pixel size, so the model does not either.
- Annotations carry no id (lines 6-14). A note is asked for once, when an
  annotation is saved (line 134). No handler deletes, undoes or highlights an
  annotation, so the model has no such operations.
- A two-point line draft is saved on mouse-up even when both points coincide
  (lines 124-128). A draft with one point, which no pointer move has
  extended, is not saved on mouse-up: it stays the draft until a move adds
  its second point.
