# WeLux admin console: data-access shim and screen logic

This project models the core of the WeLux admin console, a React Native app
that staff use to follow client inquiries ("leads"), edit vlogs, job offers
and deals, and choose what the website's "Live" section streams. The model
covers five things:

- the data-access shim. It picks a mock client when the backend URL is a
  placeholder. Otherwise it picks the hosted client. The mock answers a
  chain of builder calls (`select`, `eq`, `order`, `single`, `upsert`)
  from canned data.
- the login check against the stored master access code;
- the dashboard greeting, the "time ago" label and the two dashboard
  fetches;
- the leads accordion with its filter chips;
- the live-stream settings screen and the three add/edit forms.

JavaScript values are `JsValues.Value`. The model follows the language's
rules for truthiness, `||`, `a.b` (throws on null or undefined) and `a?.b`,
and the trimming rule of `String.prototype.trim` (the ECMAScript white-space
and line-terminator characters). A query is a `Supabase.Call`: a table plus
the builder calls chained onto it. Awaiting it gives a `Settled`: either the
`{ data, error, count }` reply or a thrown exception. Each screen takes the
backend as a parameter `Backend = Call -> Settled`. The mock backend is
`MockAwait`. The clock is a parameter too: the hour for the greeting, the
elapsed milliseconds for the label, and `now` for timestamps.

The screens' handlers are methods of classes with the screen's state as
fields. Each handler is proved against a pure function. That function says
what the new state is for every answer from the backend.

What the model shows about the mock:

- The screens read the inquiries from `client_inquiries`. The mock keeps its
  canned leads under `leads`, so the leads list comes back empty
  (`Leads.MockLeadsEmpty`).
- The dashboard counter shows 0 (`Dashboard.MockStatsShowZero`).
- The dashboard's recent-activity query calls `limit` on the promise that
  `order` returns, which throws. The activity list therefore never changes
  (`Dashboard.MockRecentUnchanged`).
- The mock builder has no `insert`, `update` or `delete`. Every vlog save
  and vlog delete fails (`Vlogs.MockSaveFails`, `Vlogs.MockDeleteFails`).
  Every job and deal save ends in the "Demo Mode" alert
  (`Jobs.MockSaveIsDemo`, `Deals.MockSaveIsDemo`).
- `single` on `app_settings` answers with the master code whatever key was
  asked for. The streaming screen therefore gets the text `lux_master_2026`
  as its config. That text is not JSON, so parsing it throws and the screen
  keeps its defaults (`Streaming.MockConfigUnchanged`).

The screens chain four builder methods that the mock does not define:
- `limit` (src/screens/DashboardScreen.js:72);
- `update` and `insert` (the three add/edit screens, for example
  src/screens/vlogs/AddEditVlogScreen.js:54 and :62);
- `delete` (src/screens/vlogs/AddEditVlogScreen.js:86).

The mock builder (src/services/supabase.js:42-65) defines only `select`,
`eq`, `order`, `single` and `upsert`. Calling any other method is a
TypeError, and the model says so (`Supabase.MockMissingMethod`).

Dafny's `/` with a positive divisor rounds down, as `Math.floor` of a
JavaScript division does. The label functions rely on this.

## Model

| member | source | states |
|---|---|---|
| JsValues.Truthy | src/screens/LoginScreen.js:49 | a value is falsy exactly when it is undefined, null, false, 0 or the empty string |
| JsValues.Or | src/screens/StreamingScreen.js:26 | no contract; `a` when `a` is truthy, else `b`; stated by JsValues.OrTruthy and by every `...After` function |
| JsValues.OrTruthy | src/screens/StreamingScreen.js:26 | the logical or of a value and a truthy fallback is truthy and is one of its two operands |
| JsValues.Member | src/screens/StreamingScreen.js:26-27 | reading a property throws exactly when the object is null or undefined |
| JsValues.OptMember | src/screens/LoginScreen.js:50 | `v?.key` is undefined unless `v` is an object holding `key`, and for an object holding `key` it is exactly that field |
| JsValues.Trim | src/screens/LoginScreen.js:50 | `trim()` returns the slice of its input between the leading and the trailing white space, everything outside it white, neither end of it white, and is empty exactly when the input is all white space |
| JsValues.TrimFixed | src/screens/LoginScreen.js:50 | a string with no white space at either end is its own trim |
| JsValues.TrimIdempotent | src/screens/LoginScreen.js:50 | trimming twice gives the same result as trimming once |
| JsValues.DecimalString | src/screens/DashboardScreen.js:88 | a count renders as a non-empty string of digits with no leading zero |
| JsValues.DecimalRoundTrip | src/screens/DashboardScreen.js:88 | reading the rendered digits back gives the count |
| JsValues.DecimalInjective | src/screens/DashboardScreen.js:88 | different counts render differently |
| Supabase.Fails | src/screens/LoginScreen.js:49 | no contract; the screens' failure test: the await threw, or the reply's `error` is truthy and `if (error) throw error` fires |
| Supabase.ListAfter | src/screens/LeadsScreen.js:36-38 | the leads list and the dashboard's recent list (DashboardScreen.js:74-75) after a fetch: a truthy `data` on success, `[]` when data is falsy, the previous list on failure |
| Supabase.EnvOr | src/services/supabase.js:20-21 | no contract; an environment variable with its fallback (the logical or of two strings): an unset or empty variable falls back; stated by Supabase.CreateClient and Supabase.UnconfiguredIsMock |
| Supabase.Includes | src/services/supabase.js:27 | no contract; `s.includes(sub)` by recursion over the suffixes of `s`; stated by Supabase.IncludesIffOccurs |
| Supabase.IncludesIffOccurs | src/services/supabase.js:27 | `includes` holds exactly when the substring occurs at some position |
| Supabase.CreateClient | src/services/supabase.js:20-39 | the mock client is chosen exactly when the URL (default when unset or empty) contains "placeholder" or "TU_SUPABASE"; otherwise the hosted client gets that URL and key |
| Supabase.MockModeIgnoresKey | src/services/supabase.js:27 | the anon key never takes part in choosing the mock |
| Supabase.UnconfiguredIsMock | src/services/supabase.js:20-27 | with no backend URL configured the app runs on the mock |
| Supabase.MockLeads | src/services/supabase.js:7-11 | three canned leads with ids 1, 2, 3, created now, one day ago and two days ago |
| Supabase.MockLeadIdsDistinct | src/services/supabase.js:7-11 | the canned leads have distinct ids |
| Supabase.OrderRows | src/services/supabase.js:45-51 | no contract; the rows `order` resolves with for each table; stated by Supabase.MockOrder |
| Supabase.SingleRow | src/services/supabase.js:52-59 | no contract; the row `single` resolves with for each table; stated by Supabase.MockSingle |
| Supabase.MockFiltersIgnored | src/services/supabase.js:43-44 | `select` and `eq` calls before the rest of a chain never change the mock's answer |
| Supabase.MockOrder | src/services/supabase.js:45-51 | `order` answers the canned leads on 'leads', the one stream_config row on 'app_settings', and no rows elsewhere, with a null error |
| Supabase.MockSingle | src/services/supabase.js:52-59 | `single` answers `{ value: 'lux_master_2026' }` on 'app_settings' whatever was filtered, and null data elsewhere, with a null error |
| Supabase.MockUpsert | src/services/supabase.js:60-64 | `upsert` resolves with a null error and no data, whatever the payload |
| Supabase.MockMissingMethod | src/services/supabase.js:42-65 | chaining `limit`, `insert`, `update` or `delete` onto the mock builder throws |
| Supabase.IsMockMode | src/services/supabase.js:27 | mock mode holds exactly when "placeholder" or "TU_SUPABASE" occurs in the URL |
| Supabase.Step | src/services/supabase.js:42-65 | one chained call: select and eq keep the builder; calling limit, insert, update or delete on it throws; any call on a promise throws; an exception stays thrown; a terminal call's reply has a null error |
| Supabase.MockAwait | src/services/supabase.js:39-67 | awaiting a mock query never resolves with an error value, and every mock failure is the thrown TypeError |
| Supabase.MockAfterTerminal | src/services/supabase.js:45-64 | any call chained after `order`, `single` or `upsert` throws, since those return a promise |
| Supabase.MockSession | src/services/supabase.js:39-67 | a series of mock queries gets, query by query, what each gets alone |
| Supabase.MockWritesNotDurable | src/services/supabase.js:60-64 | whatever was written before, a query gets the same answer as in a fresh session |
| Login.StripQuotes | src/screens/LoginScreen.js:50 | removing quotes leaves no `'` or `"` and never lengthens the text |
| Login.StripQuotesAppend | src/screens/LoginScreen.js:50 | quotes are removed piecewise, so the other characters keep their order |
| Login.StripQuotesFixed | src/screens/LoginScreen.js:50 | text without quotes is left as it is |
| Login.Normalize | src/screens/LoginScreen.js:50 | the stored code as compared has no quote characters and no white space at either end |
| Login.NormalizeIdempotent | src/screens/LoginScreen.js:50 | normalising twice gives the same result as normalising once |
| Login.ReadStoredCode | src/screens/LoginScreen.js:50 | a text value is normalised, a missing value gives no code, and any other value throws |
| Login.Attempt | src/screens/LoginScreen.js:49-60 | access is granted exactly when the backend answered without error and the typed code equals the normalised stored text; a connection error exactly when the backend failed or the value is not text |
| Login.GrantedCodeIsNormal | src/screens/LoginScreen.js:50-52 | a typed code with quotes or surrounding white space is never accepted, since the typed code is not normalised |
| Login.MissingCodeDenied | src/screens/LoginScreen.js:50-57 | a missing stored code denies access |
| Login.MockLogin | src/services/supabase.js:54-56 | on the mock, login succeeds exactly for the code 'lux_master_2026' and is denied otherwise |
| Login.MasterCodeNormal | src/services/supabase.js:56 | the canned master code is already in normal form |
| Login.LoginQuery | src/screens/LoginScreen.js:43-47 | no contract (a constant); the master-code query on app_settings; issued by Login.LoginScreen.HandleLogin and answered by Login.MockLogin |
| Login.LoginScreen.constructor | src/screens/LoginScreen.js:33-35 | empty code, no error, not loading, no session |
| Login.ErrorText | src/screens/LoginScreen.js:57-60 | the error line is empty exactly when access is granted; a wrong code and a failed check get different texts |
| Login.LoginScreen.HandleLogin | src/screens/LoginScreen.js:38-65 | the settings query is issued; the error text is that of the outcome; the session becomes 'active' and the route 'Main' exactly when access is granted; loading ends false |
| Dashboard.Greeting | src/screens/DashboardScreen.js:32-38 | hours 0-11 morning, 12-17 afternoon, 18-20 evening, 21-23 night |
| Dashboard.GreetingMonotone | src/screens/DashboardScreen.js:32-38 | a later hour never gets an earlier greeting |
| Dashboard.GreetingCoversDay | src/screens/DashboardScreen.js:32-38 | every hour of the day gets exactly one of the four greetings |
| Dashboard.Elapsed | src/screens/DashboardScreen.js:84-94 | under a minute (including the future) is just now; then whole minutes 1-59, whole hours 1-23, whole days from 1, each the elapsed time rounded down in that unit |
| Dashboard.MinutesToHours | src/screens/DashboardScreen.js:85-90 | hours computed from rounded-down minutes are the rounded-down hours of the milliseconds |
| Dashboard.HoursToDays | src/screens/DashboardScreen.js:90-93 | days computed from rounded-down hours are the rounded-down days of the milliseconds |
| Dashboard.DaysFromMinutes | src/screens/DashboardScreen.js:90-93 | the day count from minutes divided by 60 and then by 24 equals the minutes divided by 1440, rounded down |
| Dashboard.TimeAgo | src/screens/DashboardScreen.js:81-95 | the label is "Just now" exactly when less than a minute has passed |
| Dashboard.TimeAgoCounted | src/screens/DashboardScreen.js:86-94 | after a minute the label is the floored count of minutes, hours or days, then the unit with an "s" exactly when the count is above one, then "ago" |
| Dashboard.AgoText | src/screens/DashboardScreen.js:87-94 | the label is "Just now" exactly for the just-now span; every counted label starts with a digit |
| Dashboard.UnitText | src/screens/DashboardScreen.js:88-94 | the text after the count starts with a space and then the unit's first letter (m, h or d) |
| Dashboard.Plural | src/screens/DashboardScreen.js:88 | the unit takes an "s" exactly when the count is above one |
| Dashboard.TimeAgoDeterminesSpan | src/screens/DashboardScreen.js:87-94 | two elapsed times with the same label have the same unit and count |
| Dashboard.LabelDeterminesAgo | src/screens/DashboardScreen.js:88-94 | a counted label determines its unit and its count |
| Dashboard.DigitsPrefix | src/screens/DashboardScreen.js:88-94 | a count followed by a unit that starts with a non-digit splits back uniquely |
| Dashboard.StatsQuery | src/screens/DashboardScreen.js:49-51 | no contract (a constant); the head-only exact count of client_inquiries; issued by FetchStats and answered by Dashboard.MockStatsShowZero |
| Dashboard.RecentQuery | src/screens/DashboardScreen.js:68-72 | no contract (a constant); the three newest inquiries; issued by FetchRecentActivity and answered by Dashboard.MockRecentUnchanged |
| Dashboard.TotalLeadsAfter | src/screens/DashboardScreen.js:53-58 | on success the counter becomes a truthy `count`, and 0 when the count is falsy; on failure it keeps its value |
| Dashboard.MockStatsShowZero | src/screens/DashboardScreen.js:49-57 | on the mock the lead counter shows 0 |
| Dashboard.MockRecentUnchanged | src/screens/DashboardScreen.js:68-78 | on the mock the activity list never changes |
| Dashboard.DashboardScreen.constructor | src/screens/DashboardScreen.js:22-29 | not refreshing, no recent leads, counter 0, status LIVE, health Optimal, growth +12% |
| Dashboard.DashboardScreen.FetchStats | src/screens/DashboardScreen.js:46-64 | only the lead counter changes, as TotalLeadsAfter says; the other stats are untouched and refreshing ends false |
| Dashboard.DashboardScreen.FetchRecentActivity | src/screens/DashboardScreen.js:66-79 | only the activity list changes, as Supabase.ListAfter says |
| Leads.FilterLabel | src/screens/LeadsScreen.js:20 | the filters All, New, Contacted and Booked are labelled exactly "All", "New", "Contacted" and "Booked" |
| Leads.ExactlyOneChipActive | src/screens/LeadsScreen.js:67 | a chip is drawn active exactly when it is the active filter |
| Leads.Toggled | src/screens/LeadsScreen.js:57-59 | after a tap nothing is expanded exactly when the tapped card was the expanded one; otherwise the tapped card is |
| Leads.IsExpanded | src/screens/LeadsScreen.js:84 | no contract; a card is expanded when its id equals the expanded id; stated by Leads.AtMostOneExpanded, Leads.ToggleFlips and Leads.CollapsedShowsNone |
| Leads.AtMostOneExpanded | src/screens/LeadsScreen.js:84 | in a list with distinct ids at most one card is drawn expanded |
| Leads.ToggleFlips | src/screens/LeadsScreen.js:58 | a tap flips the tapped card and leaves every other card collapsed |
| Leads.ToggleTwice | src/screens/LeadsScreen.js:58 | tapping the same card twice from the collapsed state collapses it again |
| Leads.CollapsedShowsNone | src/screens/LeadsScreen.js:84 | with nothing expanded no card is drawn expanded |
| Leads.LeadsQuery | src/screens/LeadsScreen.js:32-35 | no contract (a constant); every inquiry, newest first; issued by FetchLeads and OnRefresh and answered by Leads.MockLeadsEmpty |
| Leads.MockLeadsEmpty | src/screens/LeadsScreen.js:32-35 | on the mock the leads list comes back empty |
| Leads.LeadsScreen.constructor | src/screens/LeadsScreen.js:24-28 | no leads, loading, not refreshing, nothing expanded, filter All |
| Leads.LeadsScreen.ReceiveLeads | src/screens/LeadsScreen.js:37-44 | the list becomes what Supabase.ListAfter says; loading and refreshing both end false |
| Leads.LeadsScreen.FetchLeads | src/screens/LeadsScreen.js:30-45 | the newest-first inquiries query is issued and its answer received |
| Leads.LeadsScreen.OnRefresh | src/screens/LeadsScreen.js:51-55 | refreshing turns on, any expanded card collapses, and the fetch query goes out |
| Leads.LeadsScreen.ToggleExpand | src/screens/LeadsScreen.js:57-59 | the expanded id becomes Toggled of the old one: null or the tapped id |
| Leads.LeadsScreen.SetFilter | src/screens/LeadsScreen.js:74 | the chip becomes the active filter; the leads list and the expanded card do not change |
| Streaming.PlatformName | src/screens/StreamingScreen.js:59-93 | the YouTube, Twitch, link and custom buttons store exactly youtube, twitch, url and custom respectively |
| Streaming.PlatformNameInjective | src/screens/StreamingScreen.js:59-93 | different buttons store different platforms |
| Streaming.InputLabel | src/screens/StreamingScreen.js:99-104 | youtube, twitch and url each get their own label (YouTube link, Twitch channel, stream URL), and any other platform gets the embed-code label |
| Streaming.HelperText | src/screens/StreamingScreen.js:113-117 | youtube, twitch and url each get their own example hint, and any other platform gets the embed-code hint |
| Streaming.LabelsDistinct | src/screens/StreamingScreen.js:99-104 | the four platforms have four different field labels |
| Streaming.HintsDistinct | src/screens/StreamingScreen.js:113-117 | the four platforms have four different hints under the field |
| Streaming.Multiline | src/screens/StreamingScreen.js:108 | the field wraps exactly for custom and url |
| Streaming.NumberOfLines | src/screens/StreamingScreen.js:109 | the field is four lines tall exactly for custom, and one line otherwise |
| Streaming.TallFieldIsMultiline | src/screens/StreamingScreen.js:108-109 | a field taller than one line always wraps |
| Streaming.ConfigQuery | src/screens/StreamingScreen.js:18-22 | no contract (a constant); the stream_config value of app_settings; issued by FetchConfig and answered by Streaming.MockConfigUnchanged |
| Streaming.LoadConfig | src/screens/StreamingScreen.js:25 | a stored string goes through `JSON.parse`; any other stored value is used as it is |
| Streaming.ConfigAfter | src/screens/StreamingScreen.js:17-29 | a thrown query, a falsy stored value, text that `JSON.parse` rejects, or a config of null or undefined (which throws on `.platform`) leaves the screen unchanged; any other config that is not an object gives youtube and ''; a change always yields a truthy platform and a channel that is truthy or ''; when the loaded config (an object, or text that parses to one) lacks a truthy platform it becomes youtube, and a channel without a truthy value becomes ''; truthy fields are taken as stored |
| Streaming.LoadKeepsStorable | src/screens/StreamingScreen.js:17-29 | loading keeps the screen's configuration storable |
| Streaming.SavedRowLoadsBack | src/screens/StreamingScreen.js:31-37 | the value the save upserts, read back by the load, restores the saved platform and channel |
| Streaming.StoredValue | src/screens/StreamingScreen.js:34 | no contract; the `{ platform, channelId }` object a save stores; stated by Streaming.SaveLoadRoundTrip |
| Streaming.SaveCall | src/screens/StreamingScreen.js:34-37 | save upserts exactly `{ key: 'stream_config', value: { platform, channelId } }` into app_settings |
| Streaming.SaveLoadRoundTrip | src/screens/StreamingScreen.js:24-37 | loading the value that save wrote restores the saved platform and channel, whatever the screen held and whatever error is reported |
| Streaming.SaveLoadRoundTripText | src/screens/StreamingScreen.js:25-27 | the same holds when the value was stored as JSON text that parses to it |
| Streaming.LoadKeepsKnownPlatform | src/screens/StreamingScreen.js:26 | loading keeps the platform one of the four when the loaded config (an object, or text that parses to one) holds no truthy platform or one of the four |
| Streaming.MockConfigUnchanged | src/screens/StreamingScreen.js:18-25 | on the mock the stored value is the master code text, parsing it throws, and the screen keeps its settings |
| Streaming.MockSaveSucceeds | src/services/supabase.js:60-64 | on the mock, saving the stream settings always succeeds |
| Streaming.StreamingScreen.constructor | src/screens/StreamingScreen.js:8-11 | platform youtube, channel '', not loading, no toast; the configuration is storable |
| Streaming.StreamingScreen.FetchConfig | src/screens/StreamingScreen.js:17-29 | the stream_config query is issued and platform and channel become what ConfigAfter says; the configuration stays storable |
| Streaming.StreamingScreen.SaveConfig | src/screens/StreamingScreen.js:31-47 | the upsert of the current settings is issued, and loading back the value it writes restores those settings; the toast shows exactly on success, the error alert exactly on failure; loading ends false |
| Streaming.StreamingScreen.SelectPlatform | src/screens/StreamingScreen.js:59-93 | a button sets the platform to its own value, which is one of the four; the configuration stays storable |
| Streaming.StreamingScreen.SetChannelId | src/screens/StreamingScreen.js:106 | typing replaces the channel with the typed text; the configuration stays storable |
| Streaming.StreamingScreen.DismissToast | src/screens/StreamingScreen.js:134 | dismissing hides the toast |
| Forms.Complete | src/screens/vlogs/AddEditVlogScreen.js:35 | no contract; both required fields hold something other than white space; it is the negation of Forms.MissingRequired, which states it |
| Forms.MissingRequired | src/screens/vlogs/AddEditVlogScreen.js:35 | a form's presence check on its two required fields reports a missing field exactly when one of them is empty or all white space |
| Forms.MissingFields | src/screens/vlogs/AddEditVlogScreen.js:36 | the validation alert is titled Missing Fields and does not lead back |
| Forms.NewRow | src/screens/vlogs/AddEditVlogScreen.js:62 | an inserted row is the payload with every field unchanged, plus created_at |
| Forms.WriteCall | src/screens/vlogs/AddEditVlogScreen.js:50-65 | a save updates the edited record by its id exactly when a record is being edited, and otherwise inserts one new row |
| Forms.MockWriteThrows | src/services/supabase.js:42-65 | on the mock every form save throws |
| Vlogs.Payload | src/screens/vlogs/AddEditVlogScreen.js:44-48 | the payload carries exactly title, description and updated_at |
| Vlogs.EditingId | src/screens/vlogs/AddEditVlogScreen.js:32 | no contract; the id of the record being edited, if any; stated by Vlogs.SaveTargets |
| Vlogs.SaveCall | src/screens/vlogs/AddEditVlogScreen.js:50-63 | no contract; the write `handleSave` issues; stated by Vlogs.SaveTargets |
| Vlogs.SaveTargets | src/screens/vlogs/AddEditVlogScreen.js:50-65 | editing updates 'vlogs' where id is the edited vlog's; otherwise one row with title, description and created_at is inserted |
| Vlogs.SaveAlert | src/screens/vlogs/AddEditVlogScreen.js:67-73 | a failed save shows "Could not save vlog" and stays; a successful one says updated or created and leads back |
| Vlogs.SaveAlertDistinguishes | src/screens/vlogs/AddEditVlogScreen.js:67-73 | only a successful save leads back, and its text tells an update from a creation |
| Vlogs.MockSaveFails | src/screens/vlogs/AddEditVlogScreen.js:50-76 | on the mock every vlog save ends in the error alert |
| Vlogs.DeleteCall | src/screens/vlogs/AddEditVlogScreen.js:86 | no contract; the delete of the edited vlog by id; issued by Vlogs.VlogForm.HandleDelete and answered by Vlogs.MockDeleteFails |
| Vlogs.MockDeleteFails | src/screens/vlogs/AddEditVlogScreen.js:86 | on the mock every vlog delete fails |
| Vlogs.VlogForm.constructor | src/screens/vlogs/AddEditVlogScreen.js:27-29 | fields start from the vlog being edited, or empty |
| Vlogs.VlogForm.HandleSave | src/screens/vlogs/AddEditVlogScreen.js:34-77 | a blank title or description shows the validation alert with no write and no loading change; otherwise the write goes out, the alert is SaveAlert's, and loading ends false |
| Vlogs.VlogForm.HandleDelete | src/screens/vlogs/AddEditVlogScreen.js:79-96 | cancel does nothing; delete removes by the vlog's id; failure shows an error and ends loading; success goes back |
| Jobs.Payload | src/screens/jobs/AddEditJobScreen.js:43-50 | the payload carries title, company, location, deadline, description and updated_at |
| Jobs.EditingId | src/screens/jobs/AddEditJobScreen.js:32 | no contract; the id of the record being edited, if any; stated by Jobs.SaveTargets |
| Jobs.SaveCall | src/screens/jobs/AddEditJobScreen.js:52-61 | no contract; the write `handleSave` issues; stated by Jobs.SaveTargets |
| Jobs.SaveTargets | src/screens/jobs/AddEditJobScreen.js:52-62 | editing updates 'jobs' where id is the edited job's; otherwise one row with every field and created_at is inserted |
| Jobs.SaveAlert | src/screens/jobs/AddEditJobScreen.js:65-75 | success shows "Job saved successfully!", failure the Demo Mode alert |
| Jobs.SaveAlwaysGoesBack | src/screens/jobs/AddEditJobScreen.js:65-75 | whatever the backend answers, the alert leads back |
| Jobs.MockSaveIsDemo | src/screens/jobs/AddEditJobScreen.js:52-75 | on the mock every job save ends in the Demo Mode alert |
| Jobs.JobForm.constructor | src/screens/jobs/AddEditJobScreen.js:25-30 | fields start from the job being edited, or empty |
| Jobs.JobForm.HandleSave | src/screens/jobs/AddEditJobScreen.js:34-79 | a blank title or company shows the validation alert with no write; otherwise the write goes out, the alert is SaveAlert's, and loading ends false |
| Deals.Payload | src/screens/deals/AddEditDealScreen.js:41-47 | the payload carries title, discount, expiration, description and updated_at |
| Deals.EditingId | src/screens/deals/AddEditDealScreen.js:30 | no contract; the id of the record being edited, if any; stated by Deals.SaveTargets |
| Deals.SaveCall | src/screens/deals/AddEditDealScreen.js:49-58 | no contract; the write `handleSave` issues; stated by Deals.SaveTargets |
| Deals.SaveTargets | src/screens/deals/AddEditDealScreen.js:49-59 | editing updates 'deals' where id is the edited deal's; otherwise one row with every field and created_at is inserted |
| Deals.SaveAlert | src/screens/deals/AddEditDealScreen.js:62-70 | success shows "Deal saved successfully!", failure the Demo Mode alert |
| Deals.SaveAlwaysGoesBack | src/screens/deals/AddEditDealScreen.js:62-70 | whatever the backend answers, the alert leads back |
| Deals.MockSaveIsDemo | src/screens/deals/AddEditDealScreen.js:49-70 | on the mock every deal save ends in the Demo Mode alert |
| Deals.DealForm.constructor | src/screens/deals/AddEditDealScreen.js:24-28 | fields start from the deal being edited, or empty |
| Deals.DealForm.HandleSave | src/screens/deals/AddEditDealScreen.js:32-74 | a blank title or discount shows the validation alert with no write; otherwise the write goes out, the alert is SaveAlert's, and loading ends false |

## Left out

- The hosted backend client (`createClient` and its options) is a foreign library. Screens receive its answers as the `Backend` parameter. The source builds the hosted client on every load, in mock mode too, and then exports the mock instead; `Supabase.CreateClient` models only the exported client.
- The mock's simulated latency (`delay`), promise ordering and interleaving of concurrent handlers are not modelled. Each handler runs as one sequential step. The one exception is the leads refresh: it is split into `OnRefresh` and `ReceiveLeads`, because the collapse happens before the fetch settles.
- Clock reads are parameters: the hour, the elapsed milliseconds, `now`, and `loadedAt` for the mock's lead timestamps. One `now` stands for both `new Date()` calls of an insert. Dates are `Value.Time` instants. Date formatting (`toLocaleDateString`, ISO strings) is not modelled, and neither are invalid dates (NaN).
- `JSON.parse` is the `parse` parameter, and None means it threw. JSON itself is not modelled.
- Quote removal is a character filter rather than the regular expression it is written as. The result is the same.
- AsyncStorage, `Alert.alert`, `alert`, navigation and the snackbar are fields or results: the session, the route, the alert shown, whether the screen went back, and the toast flag. `Linking.openURL` (the leads screen's call and email buttons) and `console` output are not modelled.
- Rendering, styles and colours are not modelled. Neither are the list screens, the content menu, the tab navigator or the app shell.
- Values are compared structurally. JavaScript compares objects by identity, which matters only for object-valued lead ids.
- Form fields and record fields are strings. A record whose field is missing (where `trim()` would throw) is not modelled.
- Vlogs.VlogForm.HandleDelete: requires a vlog being edited, because the delete button is only shown when editing.
- Streaming.StreamingScreen.FetchConfig: does not keep the platform one of the four in general. A stored config written by another client can hold any platform, and the screen takes it. `Streaming.LoadKeepsKnownPlatform` states when the platform stays one of the four.
- Login.StripQuotes: states that no quotes remain and that the text gets no longer, and `Login.StripQuotesAppend` that the other characters keep their order. It does not state, as a multiset, which characters remain.
- The `refreshing` flag that the dashboard sets at the start of `fetchStats` is not observable in the one-step model. Only its final value is stated.
- Streaming.StreamingScreen: every handler requires `Valid()`, a storable configuration. This is a class invariant: the constructor establishes it and every handler keeps it.
