# WalletWise core, modelled in Dafny

WalletWise is a personal-finance web app. This project models four parts of it:

- **The transaction store** (`useExpenses`). This is a list of income and expense records. `addExpense` appends a record, `deleteExpense` filters records out by id, and `saveExpenses` replaces the whole list.
- **The queries the dashboard runs over that list:**
  - the current month's income, expenses and savings;
  - the per-month series;
  - the per-category breakdown of expenses, largest first;
  - the colour a category name gets from its character-code checksum.
- **The transaction history view** (`ExpenseList`). It shows a copy of the list sorted newest day first, with a '+' or '-' sign per record.
- **The sign-in form** (`Auth`). This covers the password-strength score and its label, the three form modes (sign in, sign up, reset), and the checks a submission passes before the form calls the authentication service.
- **The profile hook** (`useProfile`). This covers the premium-status rule, the default profile row, the premium upgrade and the update guard.

Files and modules:

| file | module | what it holds |
|---|---|---|
| `calendar.dfy` | `Calendar` | Calendar days and month buckets. A continuous day count (`DayNumber`) orders days exactly as their midnight timestamps do. |
| `sorting.dfy` | `Sorting` | `Array.prototype.sort` with a numeric comparator, modelled as a stable insertion sort by an integer rank. Stability is required by section 23.1.3.30 of ECMA-262. |
| `ledger.dfy` | `Ledger` | The record types: transaction, draft, monthly row, category row. |
| `expenses.dfy` | `Expenses` | The store as a class whose `expenses` field is replaced by each operation. The queries: `MonthlyData` and `CategoryData` are loops that fill a map, each proved against a specification function and a predicate that says what the result means. Also the sample data the hook seeds storage with. |
| `history.dfy` | `History` | The sorted copy and the sign rule. |
| `auth.dfy` | `Auth` | The strength score, a method that increments a counter test by test. The label. The submission checks. The form state as a class. |
| `profiles.dfy` | `Profiles` | The premium rule, the default row, the update patch and the hook's state as a class. |

Modelling choices:

- **Dates.** A record's date is a valid proleptic Gregorian day (`CalendarDate`). A month label such as "Jan 2024" is the pair (year, month). Its sort key `new Date(label).getTime()` is the day count of the month's first day.
- **Amounts** are integers.
- **Injected values.** The new record's id, the clock's "now" and every answer of the remote services are parameters.
- **Kinds.** A record's `type` is one of two kinds, `Income` and `Expense`. `getMonthlyData` counts anything that is not income as an expense; with two kinds this is the same as counting expense records.

Two facts about the code that are easy to miss:

- **Month order.** `getMonthlyData` sorts the series by the instant the month label denotes, not by the label's text, so "Feb 2024" comes after "Dec 2023".
- **No month filter.** `getCategoryData` takes no month argument: the breakdown covers every expense record in the list.

## Model

| member | source | states |
|---|---|---|
| Calendar.DayNumberOrder | src/hooks/useExpenses.ts:53-55 | Comparing two days' timestamps is comparing the days in (year, month, day) order. Equal timestamps mean the same day. |
| Calendar.WithinMonthBounds | src/hooks/useExpenses.ts:49-56 | `startOfMonth(now) <= day <= endOfMonth(now)` holds exactly for the days of now's calendar month, both ends included. |
| Calendar.MonthRankOrder | src/hooks/useExpenses.ts:97 | Month labels sort in chronological (year, month) order. Two labels have the same key only if they are the same month. |
| Calendar.MonthLabelsChronological | src/hooks/useExpenses.ts:97 | Dec 2023 < Jan 2024 < Feb 2024 < Jan 2025. The two Januaries get different keys. |
| Sorting.SortBy | src/hooks/useExpenses.ts:97 | The sorted copy is a permutation of its input (same multiset) and ascends by rank. |
| Sorting.SortIsStable | src/hooks/useExpenses.ts:116 | For every rank, the elements of that rank keep their input order. |
| Sorting.SortStrictlyAscends | src/hooks/useExpenses.ts:97 | When no two elements share a rank, the sorted copy strictly ascends. |
| Sorting.StrictOrderIsUnique | src/hooks/useExpenses.ts:97 | Two strictly ascending arrangements of the same elements are equal. |
| Sorting.SortIsTheAscendingArrangement | src/hooks/useExpenses.ts:116 | When no two elements share a rank, the sort returns the one strictly ascending permutation of its input. |
| Expenses.ExpenseStore.constructor | src/hooks/useExpenses.ts:6 | The store starts empty. |
| Expenses.ExpenseStore.Save | src/hooks/useExpenses.ts:29-32 | The new list becomes the whole state. |
| Expenses.ExpenseStore.Add | src/hooks/useExpenses.ts:34-41 | Exactly one record is appended at the end: the draft's fields with the new id. The earlier records and their order are unchanged, and the length grows by one. |
| Expenses.ExpenseStore.Delete | src/hooks/useExpenses.ts:43-46 | The new list is the old one without the records carrying the id. When no record carries it, the list is unchanged and no error is raised. |
| Expenses.WithoutIdCounts | src/hooks/useExpenses.ts:44 | Every record with the id is gone. Every other record keeps its number of occurrences. |
| Expenses.WithoutIdKeepsOrder | src/hooks/useExpenses.ts:44 | Filtering distributes over concatenation, so the survivors keep their relative order. |
| Expenses.WithoutIdUnchanged | src/hooks/useExpenses.ts:43-46 | Deleting leaves the list unchanged if and only if no record carries the id. |
| Expenses.DeleteUndoesAdd | src/hooks/useExpenses.ts:34-46 | Deleting the id just given to a new record removes it again, together with any older record that carries the same id. |
| Expenses.CurrentMonthData | src/hooks/useExpenses.ts:48-71 | Income and expenses are the totals of the records of each kind dated in now's calendar month. Savings is income minus expenses. |
| Expenses.QuietMonthIsZero | src/hooks/useExpenses.ts:53-70 | A month without records reports (0, 0, 0). |
| Expenses.MonthlyData | src/hooks/useExpenses.ts:73-98 | The loop over the records yields the specified series. That series is one row per month with a record and none for other months. Each row carries the month's totals with savings = income − expenses, and the rows are in strictly increasing calendar order. |
| Expenses.Counted | src/hooks/useExpenses.ts:82-87 | Counting a record adds its amount to the month's combined totals: to income for an income record, and to expenses otherwise. |
| Expenses.TallyStep | src/hooks/useExpenses.ts:76-88 | Counting one more record keeps the map tallied: its months are the records' months in first-seen order, and each holds that month's income and expense sums. |
| Expenses.MonthlySeriesMeaning | src/hooks/useExpenses.ts:73-98 | The map-then-sort series satisfies that description for every list. |
| Expenses.MonthlySeriesUnique | src/hooks/useExpenses.ts:90-97 | That description determines the series: two lists of rows that satisfy it are equal. |
| Expenses.MonthlySeriesConserves | src/hooks/useExpenses.ts:76-88 | Summed over the rows, income is the income of all records and expenses the expenses of all records. No record is dropped or counted twice. |
| Expenses.SeriesAgreesWithCurrentMonth | src/hooks/useExpenses.ts:48-98 | The series row of a month equals the current-month summary for any day of that month. |
| Expenses.CategoryColor | src/hooks/useExpenses.ts:119-127 | The colour is always one of the nine palette entries. |
| Expenses.CharCodeSumIgnoresOrder | src/hooks/useExpenses.ts:125 | The checksum depends only on the multiset of characters. |
| Expenses.ColorIgnoresLetterOrder | src/hooks/useExpenses.ts:125-126 | Anagrams get the same colour. |
| Expenses.EmptyNameColor | src/hooks/useExpenses.ts:119-127 | The empty name maps to '#EF4444'. |
| Expenses.FoodColor | src/hooks/useExpenses.ts:125-126 | "Food" has checksum 392, and 392 mod 9 = 5, so its colour is '#10B981'. |
| Expenses.CategoryData | src/hooks/useExpenses.ts:100-117 | The loop over the expense records yields the specified breakdown. It has one entry per expense category and none for income or other names. Each entry carries its category's total and colour. Amounts never increase along the list, and entries of equal amount keep the order in which their categories first occur. |
| Expenses.CategoryBreakdownMeaning | src/hooks/useExpenses.ts:100-117 | The map-then-sort breakdown satisfies that description for every list. |
| Expenses.CategoryBreakdownConserves | src/hooks/useExpenses.ts:103-108 | The entries' amounts add up to the total of all expense records. |
| Expenses.CategoryBreakdownEmpty | src/hooks/useExpenses.ts:103-110 | The breakdown is empty if and only if the list holds no expense record. |
| Expenses.SampleCurrentMonth | src/hooks/useExpenses.ts:15-22 | Over the sample data, January 2024 is (75000, 16700, 58300) and February 2024 is (75000, 11000, 64000). |
| Expenses.SampleMonthlySeries | src/hooks/useExpenses.ts:15-22 | The sample series is the January row, then the February row. |
| Expenses.SampleCategoryBreakdown | src/hooks/useExpenses.ts:15-22 | The sample breakdown is Food 17700, Utilities 4500, Transportation 4300, Entertainment 1200. |
| History.SortedExpenses | src/components/ExpenseList.tsx:9-11 | The sorted copy holds the same records (same multiset, same count), newest day first. |
| History.SameDayKeepsStoreOrder | src/components/ExpenseList.tsx:9-11 | Records of the same day keep their store order. |
| History.ShowHistory | src/components/ExpenseList.tsx:7-11 | The view shows the sorted copy and leaves the store's own list unchanged. |
| History.SignSymbol | src/components/ExpenseList.tsx:86 | '+' exactly for income, '-' exactly for expenses. |
| Auth.PasswordStrength | src/components/Auth.tsx:100-108 | The score is the number of criteria met, one point each: length ≥ 8, a lowercase letter, an uppercase letter, a digit, another character. It lies between 0 and 5. |
| Auth.StrengthLabel | src/components/Auth.tsx:416-418 | Weak ⇔ ≤ 2, Fair ⇔ 3, Good ⇔ 4, Strong ⇔ ≥ 5. |
| Auth.LabelIsMonotone | src/components/Auth.tsx:416-418 | A higher score never gets a weaker label. |
| Auth.PasswordLabel | src/components/Auth.tsx:100-108 | A password is "Strong" exactly when it meets all five criteria. It is "Weak" exactly when it meets at most two. |
| Auth.ShortPasswordIsNeverStrong | src/components/Auth.tsx:102 | A password shorter than eight characters is never "Strong". |
| Auth.Decide | src/components/Auth.tsx:41-74 | The checks run in order. A blank e-mail is reported first. A blank password is reported next, and only outside reset mode. In reset mode a filled-in e-mail sends the reset request. In sign-up mode a mismatch is reported before a missing full name; with matching passwords a blank full name is reported, and otherwise `SignUp(email, password)` is sent. An account is requested only when the passwords match and a full name is given. In sign-in mode a filled-in e-mail and password send `SignIn(email, password)`. |
| Auth.AuthForm.constructor | src/components/Auth.tsx:7-25 | The form starts in sign-in mode with every field empty. |
| Auth.AuthForm.SwitchMode | src/components/Auth.tsx:112-126 | 'reset' gives (sign-up off, reset on), 'signup' gives (on, off) and 'signin' gives (off, off). Both messages are cleared. The two modes are never on together. |
| Auth.AuthForm.ToggleFromFooter | src/components/Auth.tsx:515-518 | The footer link goes to sign-in from reset or sign-up mode, and to sign-up from sign-in mode. |
| Auth.AuthForm.Submit | src/components/Auth.tsx:36-98 | A rejected or failed submission shows its message and changes no field. A successful reset leaves reset mode and shows the reset message. A successful sign-up returns to sign-in, clears e-mail, password, confirmation and every profile field, and shows the account message. Submitting never turns a mode on. |
| Auth.AuthForm.ClearOnChange | src/components/Auth.tsx:31-34 | After a render whose watched fields changed, both messages are empty. Otherwise they are kept. |
| Auth.AuthForm.SubmitAndRender | src/components/Auth.tsx:31-98 | As the page runs it, errors stay visible, but a successful reset or sign-up ends with an empty success message (see Findings). |
| Profiles.IsPremium | src/hooks/useProfile.ts:134-138 | Premium ⇔ a loaded profile with the flag set whose expiry is absent or strictly later than now. |
| Profiles.FlagIsRequired | src/hooks/useProfile.ts:135 | Without the flag there is no premium, whatever the expiry. |
| Profiles.PremiumOnlyExpires | src/hooks/useProfile.ts:137 | Premium at an instant implies premium at every earlier instant. |
| Profiles.ExpiryInstantIsPast | src/hooks/useProfile.ts:137 | At the expiry instant itself the profile is not premium. |
| Profiles.LocalPart | src/hooks/useProfile.ts:83 | The result is a prefix of the address without '@'. It stops at the first '@' or at the end. |
| Profiles.LocalPartIsWholeWithoutAt | src/hooks/useProfile.ts:83 | The local part is the whole address exactly when the address has no '@'. |
| Profiles.DefaultProfile | src/hooks/useProfile.ts:80-90 | The new row has the user's id and e-mail, the local part as full name, currency 'INR', notifications (e-mail on, push off, SMS off), and premium off with no expiry. |
| Profiles.NewProfileIsNotPremium | src/hooks/useProfile.ts:80-90 | A new profile is not premium at any instant. |
| Profiles.ApplyPatch | src/hooks/useProfile.ts:110-118 | An update never changes the row's id or e-mail, and an empty update changes nothing. |
| Profiles.PatchIsIdempotent | src/hooks/useProfile.ts:110-118 | Sending the same update twice stores what sending it once does. |
| Profiles.PremiumPatch | src/hooks/useProfile.ts:127-131 | The upgrade sets the flag. It uses the given expiry, or now + 31 536 000 000 ms (365 days) when none or an empty one is given, and touches nothing else. |
| Profiles.DefaultUpgradeLastsAYear | src/hooks/useProfile.ts:127-138 | After an upgrade without expiry, the profile is premium exactly at the instants before now + 365 days. |
| Profiles.GivenUpgradeLastsUntilExpiry | src/hooks/useProfile.ts:127-138 | After an upgrade with an expiry, the profile is premium exactly before that instant. |
| Profiles.ProfileStore.constructor | src/hooks/useProfile.ts:28-31 | No profile, loading, no error. |
| Profiles.ProfileStore.Fetch | src/hooks/useProfile.ts:42-71 | Without a user nothing happens. A found row becomes the profile. A missing row is created with the defaults. A failed read sets the error. Loading ends in every case. |
| Profiles.ProfileStore.Create | src/hooks/useProfile.ts:73-102 | Without a user nothing happens. A successful insert makes the default row the profile. A failed insert sets the error and keeps the profile. |
| Profiles.ProfileStore.Update | src/hooks/useProfile.ts:104-125 | Without a user or a loaded profile nothing happens and nothing is returned. Otherwise the patched row becomes the profile, or the error is set. |
| Profiles.ProfileStore.Upgrade | src/hooks/useProfile.ts:127-132 | The upgrade is an update with the premium patch. The user and the loading flag never change. With no user or no profile nothing happens: profile and error are kept and nothing is returned. A successful write stores the patched row, clears the error and returns it. A failed write keeps the profile, sets the update error and reports failure. A successful upgrade without an expiry makes the profile premium now and no longer premium 365 days later. |

## Left out

- Loading and seeding `localStorage`, and the JSON round trip of `saveExpenses`: browser I/O. `Save` models only the state change. The sample data is a fixture (`Expenses.Sample`).
- Id generation with `Date.now()`: the id is a parameter. Ids are not assumed to be unique.
- Record amounts are integers, not IEEE doubles, so rounding, NaN and the `|| 0` of a NaN total are not modelled.
- Strings from storage that are not valid ISO days: `parseISO` would give an invalid date, and `format` would throw. The model takes dates as valid days.
- Time zones: a record's day and now's month are compared as calendar days in one zone. The UTC midnight that `new Date("YYYY-MM-DD")` gives in the history sort orders days the same way.
- The label text "MMM yyyy" and engine-dependent parsing of `new Date("Jan 2024")`: a label is its (year, month), and its sort key is its first day.
- Auth.PasswordStrength: length is counted in Unicode scalar values, while JavaScript counts UTF-16 code units. The two differ for characters outside the Basic Multilingual Plane.
- Expenses.CategoryColor: the checksum uses the same scalar-value reading, so it differs from `charCodeAt` for characters outside the Basic Multilingual Plane.
- The authentication and profile services (`signUp`, `signIn`, `resetPassword`, the `user_profiles` queries): each answer is a parameter. A successful update is taken to store exactly the patched row.
- Profiles.ApplyPatch: patches cover the full name, currency, notifications, premium flag and expiry. The other optional profile fields and patches that change `id` or `email` are not modelled.
- `upgradeToPremiun`'s `toISOString` throws for instants beyond the year 275760; not modelled.
- React plumbing: the `useEffect` that fetches the profile when the user changes, the `loading` flag of the auth hook, and the separate hook instances kept in sync through storage and a page reload. These are not modelled.
- The browser's `required` attribute on the form inputs: it can stop a submission before `handleSubmit` runs, and is not modelled.
- Dashboard rendering, the savings-rate percentage, number formatting and the other presentational files are not part of this model.

## Findings

| source | as written | input that shows it | evidently intended | confidence | as-written member | corrected member |
|---|---|---|---|---|---|---|
| src/components/Auth.tsx:31-34 | The effect that clears `error` and `success` watches `isResetMode`, `isSignUp`, `email`, `password`, `confirmPassword` and `profileData`. A successful reset sets `isResetMode` to false, and a successful sign-up clears `isSignUp` and the fields, so the render that follows clears the success message that was just set. | Reset mode with e-mail "a@b.c" and a successful reset. `handleSubmit` sets the message "Password reset email sent! Check your inbox." and leaves reset mode; the following effect empties `success`. | The success message of a reset or of a sign-up stays on screen until the user changes something. | not executed; medium (rests on React running the effect after the re-render caused by the submission) | Auth.AuthForm.SubmitAndRender | Auth.AuthForm.Submit |
