# Vehicle damage estimation portal — a verified model of its core

The portal has three parts:

- an ML service (Flask) that classifies uploaded car photos, prices the damage from per-brand cost tables and stores each estimate;
- an API server (Express and mongoose) for user accounts, feedback, notifications, stored predictions and uploads;
- a browser client (React) with the Home, Predict, History and admin dashboard pages, the navigation bar and the route guard.

This project models the logic of all three in Dafny and proves properties about it. It has one module per component:

| module | file | models |
|---|---|---|
| `Common` | common.dfy | ASCII lower-casing, Python `strip` and JavaScript `trim`, `rsplit`/`lastIndexOf`, `replace(/_/g, ' ')`, number printing, newest-first sorting, lookup by id |
| `Ids` | ids.dfy | the ObjectId cast both servers apply to ids given as text |
| `VehicleData` | vehicle_data.dfy | the brand and default cost tables |
| `Estimator` | estimator.dfy | `allowed_file`, `dynamic_cost`, the per-file loop of `POST /api/predict`, prediction deletion, `convert_objectid_to_str` |
| `Notifications` | notifications.dfy | the Notification schema; the admin router's create and mark-read; the per-user listing; the admin controller's listing, create and mark-read, which answer the same paths first |
| `Users` | users.dfy | the admin controller's user operations and the user controller's profile, password and account operations |
| `FeedbackBoard` | feedback.dfy | the Feedback schema, the POST check and the "latest ten" listing |
| `PredictionRecords` | predictions.dfy | the Prediction schema and the admin controller's listing and deletion |
| `Uploads` | uploads.dfy | the two multer configurations: filters, size limit and stored names |
| `ClientRoutes` | client_routes.dfy | `PrivateRoute` and the route table of `App.jsx` |
| `PredictionDisplay` | display.dfy | the confidence badge, damage label and image address used by Home and History |
| `HistoryPage` | history_page.dfy | the History page's fetch outcome and per-row fallbacks |
| `HomePage` | home_page.dfy | the hero slider and the feedback form |
| `PredictPage` | predict_page.dfy | the image cap, the option tables and the submit check |
| `AdminDashboard` | admin_dashboard.dfy | `processAnalytics`, the role toggle and the notification payload |
| `Navbar` | navbar.dfy | the unread count, the link lists, the active link and the reset on a route change |

How the model represents things:

- Stores (MongoDB collections, React component state that handlers update) are classes holding a `seq`. Their methods are proved against pure functions on the old contents.
- Request handlers are functions from the store and the request to `(status, new store)`.
- Every error path has its own status: a bad id cast (500), an unknown id (404), a refused ownership check (403), a failed validation (400 or 500).
- Values the system generates are parameters: ids, clocks, uuids, random numbers, the classifier's verdict, the annotated file name and the browser's date formatting.

## Model

| member | source | states |
|---|---|---|
| Common.Lower | ml-backend/app.py:121-122 | the result has the input's length, with every ASCII capital replaced by its lower-case letter and nothing else changed |
| Common.LowerIsLowerCase | ml-backend/app.py:121-122 | a lower-cased text has no capital letters, and lower-casing it again changes nothing |
| Common.LowerOfLowerCase | ml-backend/app.py:121-122 | lower-casing a text without capitals leaves it unchanged |
| Common.TrimStart | client/models/Feedback.js:7 | the result is a suffix of the input and starts with a non-space character unless it is empty |
| Common.TrimEnd | client/models/Feedback.js:7 | the result is a prefix of the input and ends with a non-space character unless it is empty |
| Common.Strip | ml-backend/app.py:121-122 | the result occurs in the input, has no leading or trailing whitespace, and everything removed before and after it is whitespace |
| Common.TrimBothStrippedAt | ml-backend/app.py:121-122 | removing whitespace from the start and then from the end leaves a part of the input with only whitespace around it |
| Common.StripOfAllSpace | client/routes/feedbackRoutes.js:12 | a text of whitespace only strips to "" |
| Common.StripKeepsLowerCase | ml-backend/app.py:121-122 | stripping a text without capitals leaves none |
| Common.StripKeepsInner | client/models/Feedback.js:7 | a text whose ends are not whitespace is left as it is |
| Common.LastIndexOf | ml-backend/app.py:67 | None iff the character does not occur; otherwise the position of its last occurrence |
| Common.DropAppend | ml-backend/app.py:67 | dropping a prefix distributes over concatenation |
| Common.LastIndexOfUnique | ml-backend/app.py:67 | a position holding the character with none after it is the last occurrence |
| Common.RStripSlash | ml-backend/app.py:164 | the result is a prefix of the input that does not end with '/', and only '/' characters were removed |
| Common.ReplaceChar | frontend/src/pages/History.jsx:83 | same length; each occurrence of the old character becomes the new one, and every other character is kept |
| Common.NatToString | frontend/src/pages/History.jsx:13 | the decimal text of a number is non-empty and made of digits |
| Common.InsertDesc | client/routes/adminNotifications.js:13 | inserting into a newest-first list keeps it newest first and adds exactly that element |
| Common.SortDesc | client/controllers/adminController.js:82-89 | the result is a newest-first permutation of the input; `getAllPredictions` of the admin controller lists the predictions in this order, and so does the notification listing |
| Common.SortDescMembers | client/routes/userNotifications.js:12-14 | an element is in the sorted list iff it is in the input |
| Common.FindFirst | client/controllers/adminController.js:17-18 | None iff no element has the key; otherwise the first position holding it |
| Common.RemoveAt | client/controllers/adminController.js:75 | removes exactly the element at the position and keeps the order of the others |
| Common.RemoveUniqueKey | client/controllers/adminController.js:73-81 | with unique keys, the removed key is no longer found and the rest stay unique |
| Common.AppendFreshKey | client/routes/feedbackRoutes.js:16-17 | appending an element whose key is not yet stored keeps the keys unique |
| Ids.CastObjectId | ml-backend/app.py:181 | succeeds iff the text is 24 hexadecimal digits; the id it gives is canonical lower-case hex |
| Ids.CastRoundTrip | ml-backend/app.py:99-107 | casting an id's printed text gives back the same id |
| Ids.CastIgnoresCase | client/routes/adminNotifications.js:40 | the cast ignores the case of the hex digits |
| VehicleData.DefaultCostsKeys | ml-backend/utils/vehicle_data.py:70-79 | the default table is keyed by exactly the eight damage classes |
| VehicleData.BrandCostsCoverDefaults | ml-backend/utils/vehicle_data.py:1-67 | every brand prices exactly the damage classes of the default table |
| VehicleData.BrandKeys | ml-backend/utils/vehicle_data.py:1-67 | the brands are the five listed names, all lower case |
| VehicleData.BrandModels | ml-backend/utils/vehicle_data.py:1-67 | each brand lists five distinct models |
| VehicleData.BrandModelsLowerCase | ml-backend/utils/vehicle_data.py:1-67 | every listed model name is lower case |
| VehicleData.CostsAtLeastMinimum | ml-backend/utils/vehicle_data.py:1-79 | every price in both tables is at least 1200 rupees (the default flat-tyre price), so positive |
| Estimator.AllowedFile | ml-backend/app.py:66-67 | true iff the name has a '.' and the text after its last '.', lower-cased, is jpg, jpeg or png |
| Estimator.LastDotUnique | ml-backend/app.py:67 | the last '.' of a name is unique, so the extension is well defined |
| Estimator.LastDotDecides | ml-backend/app.py:67 | the extension test is the test of the text after the last '.' |
| Estimator.TruncDiv | ml-backend/app.py:92-95 | the quotient is truncated toward zero, as Python's `int()` truncates |
| Estimator.DynamicCost | ml-backend/app.py:82-97 | None iff confidence < 0.6; truncated 80% of the base below 0.7; the base from 0.7 to 0.9; truncated 110% above 0.9 |
| Estimator.DynamicCostBand | ml-backend/app.py:82-97 | from confidence 0.6 on, a base of at least 10 gives a positive estimate between 80% and 110% of the base |
| Estimator.BaseCost | ml-backend/app.py:145-149 | the brand's price when the brand is listed and the model is one of its models, else the default price; never below 1200 |
| Estimator.Severity | ml-backend/app.py:160 | the table's severity for a listed damage class, else "medium"; always a severity with a cost range |
| Estimator.CostRange | ml-backend/app.py:161 | the table's range for a listed severity; the fallback range iff the severity is not listed |
| Estimator.SeverityCoversDamageTypes | ml-backend/app.py:160-161 | every priced damage class has a severity, and every severity has a range, so neither fallback is used |
| Estimator.ProcessFile | ml-backend/app.py:128-199 | a bad extension gives "Invalid file format."; a file handled without a record gets an error entry; a stored record has the upload's id, which was not yet stored |
| Estimator.ProcessFileSpec | ml-backend/app.py:128-199 | a record is stored iff every gate passes and its id is new; the stored record and its result entry agree on damage, cost and range; the cost is positive; no fallback severity or range is used; the record carries the file's own clock reading |
| Estimator.RequestContext | ml-backend/app.py:120-123 | each name is the form field ("unknown" when missing) lower-cased and then stripped, so it has no capitals; the user id is kept iff it is given and casts; the host URL is kept |
| Estimator.RunFiles | ml-backend/app.py:125-199 | at most one result per file and at most one stored record per result; without a raise, exactly one result per file |
| Estimator.PredictOutcome | ml-backend/app.py:114-205 | 400 iff `images` is missing, and then nothing is stored |
| Estimator.OutcomeOfRun | ml-backend/app.py:120-201 | with images, the response and the stored records are those of the run over the first six files |
| Estimator.PredictStoresAtMostSix | ml-backend/app.py:127 | a request stores at most six records |
| Estimator.OutcomeWithinBatch | ml-backend/app.py:127-199 | no more records are stored than files examined |
| Estimator.PredictKeepsIdsUnique | ml-backend/app.py:185 | a request that starts from unique ids leaves the ids unique |
| Estimator.RunStep | ml-backend/app.py:127-199 | each loop pass extends the results by one entry and the stored records by at most one |
| Estimator.NextRun | ml-backend/app.py:127-199 | a raising file ends the run with nothing added; a handled file adds its entry, and its record when it has one |
| Estimator.RaisedIsFinal | ml-backend/app.py:203-205 | once a file raises, later files change nothing |
| Estimator.RunKeepsIdsUnique | ml-backend/app.py:127-185 | a run that starts from unique ids leaves the ids unique |
| Estimator.StepKeepsIdsUnique | ml-backend/app.py:185 | the record one file stores has an id not yet stored |
| Estimator.Estimates | ml-backend/app.py:187-194 | keeps exactly the success entries, in order |
| Estimator.RunAccounting | ml-backend/app.py:127-199 | without a failure, the stored records are the success entries in order, with the same damage and cost |
| Estimator.PredictResultCount | ml-backend/app.py:117-201 | a 200 response has min(number of files, 6) results |
| Estimator.NoImagesStoresNothing | ml-backend/app.py:117-118 | a request without `images` is 400 and stores nothing |
| Estimator.PredictionCollection.Predict | ml-backend/app.py:114-205 | keeps the ids unique; the response and the appended records are the ones PredictOutcome gives |
| Estimator.PredictionCollection.RunBatch | ml-backend/app.py:127-199 | the loop's results, its stop on a raise and the records it inserts are exactly those of RunFiles |
| Estimator.PredictionCollection.ExamineNext | ml-backend/app.py:128-199 | one pass extends the results, the raise flag and the stored records exactly as RunFiles does for one more file |
| Estimator.PredictionCollection.DeletePrediction | ml-backend/app.py:227-237 | keeps the ids unique; 500 for an id that does not cast; 404 with no change when nothing matches; otherwise 200, exactly the matching record is removed and the id is no longer found |
| Estimator.ConvertObjectIdToStr | ml-backend/app.py:99-107 | the result has no ObjectIds; only ObjectId leaves change, into their text; lists keep their length and dicts their keys |
| Estimator.ConvertFixesIdFree | ml-backend/app.py:99-107 | a document without ObjectIds is returned unchanged |
| Estimator.ConvertIdempotent | ml-backend/app.py:99-107 | converting twice equals converting once |
| Notifications.RouterCreate | client/routes/adminNotifications.js:22-35 | saved iff title and message are non-empty and a non-empty userId casts; the saved record is unread, stamped now, and a broadcast iff userId was empty |
| Notifications.ControllerCreate | client/controllers/adminController.js:57-72 | saved iff title and message are non-empty; the record is always a broadcast, because the `user` path is not in the schema |
| Notifications.CreateHandlersAgreeOnBroadcast | client/controllers/adminController.js:61-65 | without a target, both create handlers build the same notification |
| Notifications.MayMarkRead | client/routes/adminNotifications.js:43-47 | a broadcast, the requester's own notification or an admin requester may mark; it refuses only another user's notification to a non-admin |
| Notifications.RouterMarkRead | client/routes/adminNotifications.js:38-55 | 500 for a bad id, 404 for an unknown one, 403 when the ownership rule refuses, else 200; only 200 changes the store, and only that flag |
| Notifications.ControllerMarkRead | client/controllers/adminController.js:44-55 | 500 for a bad id, 404 for an unknown one, else 200; only 200 changes the store, and only that flag |
| Notifications.RouterMarkReadIdempotent | client/routes/adminNotifications.js:38-55 | marking twice answers 200 again and changes nothing more |
| Notifications.SetReadKeepsLookup | client/routes/adminNotifications.js:49-50 | setting the flag does not move any id |
| Notifications.FindFirstSameKeys | client/routes/adminNotifications.js:40 | a lookup by id depends only on the ids |
| Notifications.MarkReadHandlersAgreeForAdmins | client/controllers/adminController.js:44-55 | for an admin, the router and the controller give the same answer and the same store |
| Notifications.BroadcastReadForEveryone | client/routes/adminNotifications.js:43-49 | anyone may mark a broadcast read, and its one shared flag then reads true in every user's listing |
| Notifications.AdminListing | client/controllers/adminController.js:33-42 | 500 with nothing listed iff `strictPopulate` rejects the undeclared `user` path; otherwise 200 with every stored notification exactly once, newest first |
| Notifications.Visible | client/routes/userNotifications.js:12-13 | the filter keeps each matching document with its stored count and drops the others; a sub-multiset of the store |
| Notifications.VisibleMembers | client/routes/userNotifications.js:12-13 | the filter keeps exactly the user's own notifications and the broadcasts |
| Notifications.UserList | client/routes/userNotifications.js:9-20 | a notification is listed iff it is stored and targets the user or everyone, each exactly as often as it is stored (a permutation of the filtered documents, a sub-multiset of the store); the list is newest first |
| Notifications.BroadcastListedForAll | client/routes/userNotifications.js:12-13 | every stored broadcast is listed for every user |
| Notifications.SetReadKeepsUnique | client/routes/adminNotifications.js:49-50 | setting a flag keeps the ids unique |
| Notifications.NotificationStore.Insert | client/routes/adminNotifications.js:30-34 | keeps the ids unique; 201 and append when the notification is built and its id is new; 500 and no change otherwise |
| Notifications.NotificationStore.Create | client/routes/adminNotifications.js:22-35 | keeps the ids unique; 201 and append when RouterCreate builds a record with a new id; 500 and no change otherwise |
| Notifications.NotificationStore.CreateAsAdmin | client/controllers/adminController.js:57-72 | the same, with the controller's record |
| Notifications.NotificationStore.MarkRead | client/routes/adminNotifications.js:38-55 | keeps the ids unique; status and new store are those of RouterMarkRead |
| Notifications.NotificationStore.MarkReadAsAdmin | client/controllers/adminController.js:44-55 | keeps the ids unique; status and new store are those of ControllerMarkRead |
| Users.RemoveKeepsConsistent | client/controllers/adminController.js:75 | removing an account keeps ids and emails unique, and the removed id is then unknown |
| Users.AllUsers | client/controllers/adminController.js:6-13 | one entry per account, in order, with every field except the password |
| Users.UpdateRole | client/controllers/adminController.js:15-31 | 500 for a bad id; 404 for an unknown user, decided before the role is checked; 400 for a role other than user or admin; 200 changes only that user's role |
| Users.UpdateRoleKeepsConsistent | client/controllers/adminController.js:15-31 | a role change keeps the store consistent |
| Users.DeleteUser | client/controllers/adminController.js:73-81 | 500 for a bad id, 404 for an unknown one; 200 removes exactly that user |
| Users.DeleteUserIsFinal | client/controllers/adminController.js:73-81 | after a delete the store is consistent, and deleting again is 404 |
| Users.GetProfile | client/controllers/userController.js:7-15 | None iff no account has the caller's id; otherwise that account without the password |
| Users.ApplyUpdate | client/controllers/userController.js:28-50 | the role is kept; email and name become the supplied values when given; the password becomes the hash of a supplied one; the image becomes an uploaded file's name; each field is otherwise unchanged |
| Users.UpdateProfile | client/controllers/userController.js:20-60 | 404 for an unknown caller; 400 when a new, different email is taken, with nothing saved; otherwise 200, each supplied email, name, password (hashed) and image is stored, every other field and every other account is unchanged, the role never changes, and the reply omits the password |
| Users.UpdateProfileKeepsConsistent | client/controllers/userController.js:27-35 | a profile update keeps every email unique |
| Users.ChangePassword | client/controllers/userController.js:65-89 | 400 when either password is missing, checked before the lookup; 404 for an unknown caller; 400 on a mismatch; 200 replaces only the password hash |
| Users.ChangePasswordKeepsConsistent | client/controllers/userController.js:65-89 | a password change keeps the store consistent |
| Users.DeleteAccount | client/controllers/userController.js:90-100 | 404 iff the caller is unknown; 200 removes exactly the caller |
| Users.DeleteAccountThenProfileMissing | client/controllers/userController.js:90-100 | after the account is deleted, the caller's profile is 404 |
| Users.UserStore.UpdateUserRole | client/controllers/adminController.js:15-31 | keeps the store invariant; status and store as UpdateRole |
| Users.UserStore.DeleteUserById | client/controllers/adminController.js:73-81 | keeps the store invariant; status and store as DeleteUser |
| Users.UserStore.UpdateOwnProfile | client/controllers/userController.js:20-60 | the field-by-field updates give exactly UpdateProfile, and the store invariant holds |
| Users.UserStore.ChangeOwnPassword | client/controllers/userController.js:65-89 | keeps the store invariant; status and store as ChangePassword |
| Users.UserStore.DeleteOwnAccount | client/controllers/userController.js:90-100 | keeps the store invariant; status and store as DeleteAccount |
| FeedbackBoard.ValidateFeedback | client/models/Feedback.js:3-21 | valid iff the trimmed name has at least 2 characters and the trimmed review at least 5; stores the trimmed fields, a missing city as "", and both timestamps |
| FeedbackBoard.ValidatedFieldsAreTrimmed | client/models/Feedback.js:4-20 | stored names and reviews have no surrounding whitespace and meet the minimum lengths |
| FeedbackBoard.PostFeedback | client/routes/feedbackRoutes.js:7-24 | 400 iff name or review is missing or empty; 500 iff the schema refuses; otherwise 201 with the validated record |
| FeedbackBoard.ShortNameRefusedBySchema | client/routes/feedbackRoutes.js:12-17 | with a valid review, a one-letter name (any non-space character) passes the route's check and fails the schema (500); any two non-space letters pass both (201) |
| FeedbackBoard.BlankNameRefusedBySchema | client/routes/feedbackRoutes.js:12-17 | a name of spaces passes the route's check and fails the schema |
| FeedbackBoard.Take | client/routes/feedbackRoutes.js:31 | the first min(n, length) elements |
| FeedbackBoard.Latest | client/routes/feedbackRoutes.js:27-37 | min(number stored, 10) records, newest first, drawn from the store without repetition (a sub-multiset) |
| FeedbackBoard.LatestAreMostRecent | client/routes/feedbackRoutes.js:29-31 | every record left out is no newer than every record listed |
| FeedbackBoard.FeedbackStore.Post | client/routes/feedbackRoutes.js:7-24 | keeps the ids unique; status and record as PostFeedback, except that a record whose id is already stored is 500; stores exactly one record on 201 and nothing otherwise |
| PredictionRecords.ValidatePrediction | client/models/Prediction.js:3-14 | valid iff the four strings are non-empty and both numbers are present; the fields are copied and both timestamps set |
| PredictionRecords.SchemaHasNoRanges | client/models/Prediction.js:8-9 | a negative confidence and a negative cost pass validation |
| PredictionRecords.DeletePrediction | client/controllers/adminController.js:92-103 | 500 for a bad id; 404 when absent; 200 removes exactly the matching record |
| PredictionRecords.DeletePredictionIsFinal | client/controllers/adminController.js:92-103 | with unique ids, a delete shrinks the collection by one, and deleting again is 404 |
| PredictionRecords.PredictionStore.Delete | client/controllers/adminController.js:92-103 | keeps the ids unique; status and new collection as DeletePrediction |
| Uploads.Basename | client/utils/upload.js:24 | the last path segment, without '/', ending the path once its trailing slashes are removed |
| Uploads.ExtOfBase | client/utils/upload.js:24 | "" or a '.' followed by text without '.', which ends the name and is shorter than it |
| Uploads.ExtName | client/utils/upload.js:24 | `path.extname`: "" or a slash-free, single-dot suffix of the path |
| Uploads.ExtNameOfPlainName | client/utils/upload.js:24 | a name without '/' is its own base name |
| Uploads.LastIndexOfAppendHit | client/utils/upload.js:18 | the last occurrence in p + s lies in s when s has one |
| Uploads.LastIndexOfAppendMiss | client/utils/upload.js:18 | otherwise it is the last occurrence in p |
| Uploads.ExtOfBaseAt | client/utils/upload.js:24 | the extension runs from the last '.' when that is not the first character |
| Uploads.ExtNameKeptUnderPrefix | client/utils/upload.js:16-19 | prefixing a name with slash-free text keeps its extension |
| Uploads.ExtNameOfAppendedExt | client/middleware/uploadMiddleware.js:10-11 | a dot-free stem followed by an extension has exactly that extension |
| Uploads.ImageExtensionMatchesPattern | client/middleware/uploadMiddleware.js:18-19 | each of .jpg, .jpeg and .png matches the pattern |
| Uploads.ExactFilter | client/utils/upload.js:23-30 | true iff the lower-cased extension is .jpg, .jpeg or .png; every name it accepts has an extension that the other filter's pattern matches |
| Uploads.PatternFilter | client/middleware/uploadMiddleware.js:17-27 | refuses a name without an extension of at least three characters; accepts every name the exact filter accepts when the MIME type matches the pattern |
| Uploads.PatternFilterAcceptsPngx | client/middleware/uploadMiddleware.js:17-27 | "photo.pngx" with type image/png passes the pattern filter and fails the exact one |
| Uploads.PngxExtension | client/middleware/uploadMiddleware.js:19 | the extension of "photo.pngx" is ".pngx" |
| Uploads.PngxMatchesPattern | client/middleware/uploadMiddleware.js:18-20 | ".pngx" is no image extension, yet it and "image/png" match the pattern |
| Uploads.GeneralUpload | client/utils/upload.js:12-37 | stored iff the exact filter passes and the size is at most 5 MB; refused with the filter's message iff the filter fails; the stored name is timestamp-random-original |
| Uploads.GeneralStoredName | client/utils/upload.js:16-19 | the stored name starts with the timestamp and a dash and ends with the whole original name |
| Uploads.GeneralStoredNameKeepsOriginal | client/utils/upload.js:16-19 | for a plain file name with an extension, the stored name keeps that extension |
| Uploads.ProfileUpload | client/middleware/uploadMiddleware.js:5-35 | stored iff the pattern filter passes and the size is at most 5 MB; refused with its message iff the filter fails; the stored name is field-timestamp plus the extension |
| Uploads.ProfileStoredName | client/middleware/uploadMiddleware.js:9-13 | the stored name starts with the field name and a dash and ends with the original extension |
| Uploads.ProfileStoredNameKeepsExtension | client/middleware/uploadMiddleware.js:9-13 | for a field name without '.' or '/', the stored image's extension is the original one |
| ClientRoutes.Guard | frontend/src/components/PrivateRoute.jsx:4-20 | no login redirects to /login; a non-admin on an admin route is sent to /; the page is shown iff logged in and the role is admin where one is needed |
| ClientRoutes.GuardIgnoresRoleWithoutAdmin | frontend/src/components/PrivateRoute.jsx:13-19 | without the admin requirement the role is never consulted |
| ClientRoutes.Lookup | frontend/src/App.jsx:24-68 | None iff no route has the path; otherwise an entry of the table with that path |
| ClientRoutes.Navigate | frontend/src/App.jsx:24-68 | an unknown path redirects to /; every redirect goes to / or /login; a shown page is the one its table entry names, and a guarded or admin entry is shown only to a login (with the admin role where required) |
| ClientRoutes.PublicPathsUnguarded | frontend/src/App.jsx:24-27 | the four public pages are shown to everyone |
| ClientRoutes.LoginPathsNeedLogin | frontend/src/App.jsx:30-53 | /predict, /history and /profile are shown iff someone is logged in; otherwise they redirect to /login |
| ClientRoutes.AdminPathNeedsAdmin | frontend/src/App.jsx:56-63 | /admin is shown iff the login has the admin role; other logins go to /, and no login to /login |
| ClientRoutes.UnknownPathsGoHome | frontend/src/App.jsx:68 | any path outside the table redirects to / |
| ClientRoutes.HomeTargetIsUnknown | frontend/src/App.jsx:68 | /home is not a route and redirects to / |
| ClientRoutes.RedirectsSettle | frontend/src/App.jsx:24-68 | every redirect lands on a public page that is shown, so redirects never chain |
| PredictionDisplay.NumberOrZero | frontend/src/pages/History.jsx:84 | falsy values and NaN become 0; a number is kept; a non-empty string is parsed |
| PredictionDisplay.ConfidenceBadge | frontend/src/pages/History.jsx:27-45 | High iff ≥ 0.9, Moderate iff in [0.6, 0.9), Low iff < 0.6 |
| PredictionDisplay.BadgeMonotone | frontend/src/pages/Home.jsx:454-472 | a higher confidence never earns a lower badge |
| PredictionDisplay.UnreadableConfidenceIsLow | frontend/src/pages/History.jsx:84-116 | a missing, null or unparsable confidence shows as 0 with the Low badge |
| PredictionDisplay.DamageLabel | frontend/src/pages/History.jsx:83 | an error iff the chosen truthy field is not a string; otherwise the first truthy field, or "", with every '_' replaced by a space |
| PredictionDisplay.DamageClassLabels | frontend/src/pages/Home.jsx:520-523 | every damage class is shown with the same length, and a space exactly where it had '_' |
| PredictionDisplay.ImageUrl | frontend/src/pages/History.jsx:86-90 | the stored URL when set; else the predicted-images base followed by the stored name; else no image |
| HistoryPage.CostCellOf | frontend/src/pages/History.jsx:121 | "N/A" iff neither cost is non-zero; otherwise the first non-zero cost |
| HistoryPage.ZeroCostShowsNotAvailable | frontend/src/pages/History.jsx:121 | a recorded cost of 0 is shown as "N/A" or gives way to the other field |
| HistoryPage.DateCellOf | frontend/src/pages/History.jsx:126-130 | the timestamp when present, else createdAt, else "N/A" |
| HistoryPage.RowOf | frontend/src/pages/History.jsx:83-130 | the badge matches the confidence shown; a missing or falsy confidence shows as 0 with Low; the cost and date read N/A iff neither field name carries a value |
| HistoryPage.Show | frontend/src/pages/History.jsx:10-90 | an error iff the fetch rejects, the status is not OK, the body does not parse or is not an array; a non-OK status gives "HTTP error! status: N", a non-array "Unexpected data format", a rejection or parse failure its own message or the fallback; [] gives the empty notice; a label error takes the page down; otherwise one row per item, in order |
| HistoryPage.ErrorText | frontend/src/pages/History.jsx:18 | never empty; the error's own message whenever it has one |
| HistoryPage.FallbackOnlyForSilentErrors | frontend/src/pages/History.jsx:11-18 | "Failed to fetch history" is shown only for a rejection or unparsable body whose message is empty (or is that text itself), never for the page's own errors |
| HistoryPage.HttpErrorIsNotFallback | frontend/src/pages/History.jsx:13-18 | the HTTP status message is never the fallback text |
| HomePage.Next | frontend/src/pages/Home.jsx:61-71 | each timer step keeps the slider valid and moves it to a neighbouring slide in the direction it then faces |
| HomePage.FirstStepEntersCycle | frontend/src/pages/Home.jsx:61-71 | one step puts the slider on its ping-pong cycle |
| HomePage.StepsAdd | frontend/src/pages/Home.jsx:53-74 | m + n steps are m steps followed by n steps |
| HomePage.PingPongPeriod | frontend/src/pages/Home.jsx:53-74 | on the cycle, the slider returns to the same state after 8 steps |
| HomePage.EverySlideShown | frontend/src/pages/Home.jsx:29-74 | from any valid state, every one of the five slides is shown within 8 steps |
| HomePage.StepsFromCycle | frontend/src/pages/Home.jsx:61-71 | the slide reached after k steps from a cycle state |
| HomePage.HeroSlider.Tick | frontend/src/pages/Home.jsx:61-71 | the in-place update equals Next and keeps the slider valid |
| HomePage.HeroSlider.GoTo | frontend/src/pages/Home.jsx:127-131 | a dot click shows that slide and keeps the direction |
| HomePage.JsTrimIdempotent | frontend/src/pages/Home.jsx:368 | trimming twice equals trimming once |
| HomePage.ClientCheckPassesRouteCheck | frontend/src/pages/Home.jsx:359-368 | a form the page lets through is never answered 400, and the server's trim leaves the posted fields unchanged |
| HomePage.ClientCheckWeakerThanSchema | frontend/src/pages/Home.jsx:359-361 | the page's check lets through a one-character name and a one-character review, both shorter than the schema's minimum lengths |
| HomePage.FeedbackSection.Submit | frontend/src/pages/Home.jsx:356-380 | refused iff a trimmed field is empty; a failed request changes nothing; a saved record is prepended and the form is cleared |
| HomePage.FeedbackSection.Deliver | frontend/src/pages/Home.jsx:370-376 | a saved record goes to the front of the list and the form is cleared; a failed request changes nothing |
| PredictPage.ModelOptions | frontend/src/pages/Predict.jsx:94-107 | the brand's three models followed by "unknown", or just "unknown" with no brand or the "unknown" brand |
| PredictPage.BrandOptionsMatchCostTables | frontend/src/pages/Predict.jsx:73-79 | the offered brands are the cost tables' brands in the same order, plus "unknown" |
| PredictPage.OfferedModelsAreKnown | frontend/src/pages/Predict.jsx:94-107 | every offered model other than "unknown" is one the cost tables list for that brand |
| PredictPage.ModelNamesUnpadded | frontend/src/pages/Predict.jsx:94-107 | no offered model name has surrounding whitespace |
| PredictPage.BrandNamesUnpadded | ml-backend/utils/vehicle_data.py:1-67 | no brand name has surrounding whitespace |
| PredictPage.OfferedModelInTable | frontend/src/pages/Predict.jsx:94-107 | an offered model other than "unknown" comes from the page's table |
| PredictPage.NormalisingKeeps | ml-backend/app.py:121-122 | lower-casing and stripping keep an unpadded lower-case name |
| PredictPage.PageChoicesPriceFromBrandTable | frontend/src/pages/Predict.jsx:31-34 | a brand and model chosen on the page survive the server's normalisation, so the price comes from the brand's own table |
| PredictPage.PredictForm.ChooseImages | frontend/src/pages/Predict.jsx:13-20 | accepted iff the total stays at most 6; accepted files are appended in order; refused ones change nothing |
| PredictPage.PredictForm.ChooseBrand | frontend/src/pages/Predict.jsx:66-68 | a brand choice clears the model |
| PredictPage.PredictForm.ChooseModel | frontend/src/pages/Predict.jsx:94-107 | a model choice keeps the brand and the images |
| PredictPage.PredictForm.Submit | frontend/src/pages/Predict.jsx:26-34 | a request is sent iff brand, model and at least one image are chosen; it carries them, with 1 to 6 images |
| AdminDashboard.CountDamage | frontend/src/pages/AdminDashboard.jsx:79-80 | one update of the damage counter keeps it equal to the counts over the predictions seen so far |
| AdminDashboard.AddCost | frontend/src/pages/AdminDashboard.jsx:82-83 | one update of the daily cost map keeps each day's total equal to the sum over the predictions seen so far |
| AdminDashboard.AddPercent | frontend/src/pages/AdminDashboard.jsx:85-86 | one update of the confidence lists keeps each day's list equal to that day's percentages so far |
| AdminDashboard.ProcessAnalytics | frontend/src/pages/AdminDashboard.jsx:73-99 | the loop's three charts equal the per-type counts, the per-day cost totals and the per-day mean confidence, with keys in order of first occurrence |
| AdminDashboard.DistributionFromCounters | frontend/src/pages/AdminDashboard.jsx:89 | the counter's entries in key order form the damage chart |
| AdminDashboard.CostsFromAccumulator | frontend/src/pages/AdminDashboard.jsx:90 | the cost map's entries in key order form the cost chart |
| AdminDashboard.MeansFromLists | frontend/src/pages/AdminDashboard.jsx:91-94 | every list is non-empty, and the lists' means in key order form the confidence chart |
| AdminDashboard.PerKeyTotalsAddUp | frontend/src/pages/AdminDashboard.jsx:78-87 | splitting by key loses nothing: the per-key totals add up to the overall total |
| AdminDashboard.DistributionCountsAll | frontend/src/pages/AdminDashboard.jsx:79-89 | the counts add up to the number of predictions, the types are distinct, and every type present has an entry |
| AdminDashboard.DailyCostsAddUp | frontend/src/pages/AdminDashboard.jsx:82-90 | the daily costs add up to the total estimated cost |
| AdminDashboard.DailyConfidenceInPercentRange | frontend/src/pages/AdminDashboard.jsx:85-94 | when every confidence is in [0, 1], every daily mean is in [0, 100] |
| AdminDashboard.ToggledRole | frontend/src/pages/AdminDashboard.jsx:285 | always a valid role; "user" iff the current role is "admin" |
| AdminDashboard.ToggleRoleRoundTrip | frontend/src/pages/AdminDashboard.jsx:108-115 | the toggle is its own inverse on valid roles, and the server never refuses the role it sends as invalid |
| AdminDashboard.NotificationPayload | frontend/src/pages/AdminDashboard.jsx:146-150 | title and message are copied; userId is null iff no target is selected, else the selection |
| AdminDashboard.PayloadTargets | frontend/src/pages/AdminDashboard.jsx:146-152 | with no target the router stores a broadcast and with a valid target that user; the controller, which serves the posted path, stores a broadcast either way |
| Navbar.Unread | frontend/src/components/Navbar.jsx:102 | exactly the unread notifications, never more than the list |
| Navbar.UnreadCountBounds | frontend/src/components/Navbar.jsx:102-130 | the count is at most the list's length, and 0 iff every notification is read |
| Navbar.UnreadCountAppend | frontend/src/components/Navbar.jsx:102 | counting splits over concatenation |
| Navbar.UnreadCountAfterSetRead | frontend/src/components/Navbar.jsx:102 | setting one flag lowers the count by one if it was unread, and by nothing otherwise |
| Navbar.MarkReadLowersUnreadCount | client/routes/adminNotifications.js:38-55 | a refused mark-read leaves the count alone; an accepted one lowers it by one exactly when the notification was unread |
| Navbar.AdminLinkIffAdmin | frontend/src/components/Navbar.jsx:85-100 | the admin link is shown iff the role is admin; logged out, the links are exactly Home, Features, Register and Login |
| Navbar.LinkPathsDistinct | frontend/src/components/Navbar.jsx:85-100 | no two links share a path, so paths work as keys |
| Navbar.LinksAreReachable | frontend/src/components/Navbar.jsx:115 | every link leads to a page the router shows to the same login |
| Navbar.AtMostOneActive | frontend/src/components/Navbar.jsx:80-83 | at most one link is highlighted |
| Navbar.OnRouteChange | frontend/src/components/Navbar.jsx:35-46 | the menu and both dropdowns close; the login record is re-read, and a parse failure keeps the old one |
| Navbar.RouteChangeIdempotent | frontend/src/components/Navbar.jsx:35-46 | running the effect again on the same store changes nothing |
| Navbar.RouteChangeClosesToggles | frontend/src/components/Navbar.jsx:43-45 | whatever was opened, the next route change closes it |
| Navbar.Logout | frontend/src/components/Navbar.jsx:74-78 | logging out clears the login record and nothing else |
| Navbar.LogoutThenRouteChange | frontend/src/components/Navbar.jsx:74-78 | after logout and the redirect, the bar is in its initial state with the logged-out links, and /login is shown |

## Left out

- The classifier (Keras) and image annotation (OpenCV) in ml-backend/app.py, utils/estimator.py and utils/image_utils.py are foreign numeric code. Their outputs are parameters of each upload.
- Training and dataset cleanup (train_model.py, clean_dataset.py) do file I/O only.
- Server wiring is not modelled: server.js, adminRoutes.js, userRoutes.js, the database connections and `.populate`. The `protect`/`admin` middleware and the User model are not part of this model either; the caller is a `Requester` with an id and a role.
- The password hook and `matchPassword` are function parameters (`hash`, `matches`).
- predictRoutes.js only forwards a request over HTTP.
- Saving files, uuids, `Date.now`, `Math.random` and `datetime.now` are parameters. Each upload to `POST /api/predict` carries its own clock reading, since `datetime.now()` is called once per record.
- The mongoose version is not part of this model, so `Notifications.AdminListing` takes `strictPopulate` as a parameter. From mongoose 6 on `strictPopulate` is on by default, and the admin listing of notifications answers 500. Under mongoose 5 it is off, and the listing is 200 with the notifications sorted. The GET listing in client/routes/adminNotifications.js:9-19 is never reached, because the admin controller's router is mounted earlier (client/server.js:49). It is not modelled apart from the shared sort.
- `GET /api/predictions` and `serve_annotated_image` are reads with no logic beyond `convert_objectid_to_str`, which is modelled.
- Failures of the database other than a duplicate `_id` (a lost connection, a failing `insert_one` or `save`) are not modelled. The modelled failures follow from the data: casts, validation, and a generated id that is already stored, which is a 500 with no change in the notification and feedback stores and stops the loop of `POST /api/predict` with a 500.
- Common.NatToString: its contract says only that the text is a non-empty run of digits, not which number it denotes; it is used only to print an HTTP status.
- Estimator.PredictionCollection.Predict: the `round(confidence*100, 2)` of a result entry is kept as the exact product.
- Floating-point arithmetic is modelled as exact: confidences and costs are reals, and the `int()` of `dynamic_cost` is an exact truncation.
- Strings are ASCII. Lower-casing and the whitespace sets of `strip` and `trim` follow the ASCII rules, so Unicode case mapping and Unicode spaces are not modelled.
- `ObjectId` accepts only the 24-hex-digit text form. The 12-byte form is not modelled.
- Newest-first sorts break ties in one fixed order, where MongoDB leaves the order unspecified.
- React Router's matching is modelled as exact string equality. Its case-insensitive matching and tolerance of a trailing slash are not modelled.
- Malformed `userInfo` JSON in storage: `PrivateRoute` treats stored text as a login without parsing it. Only the Navbar models the parse failure.
- A stored JSON value that is not an object (a number, say) is not modelled.
- `Number()` of an array (a one-element array converts to its element) is folded into `JsObject`, which converts to 0.
- `toFixed`, `parseFloat`, `toLocaleString` and `toLocaleDateString` are abstract. The day of a prediction is the parameter `dayOf`, and means are exact reals.
- AdminDashboard.ProcessAnalytics: the damage type is a string. A missing `damage_type` (the key "undefined") is not modelled.
- AdminDashboard.ProcessAnalytics: the order of `Object.entries` is first-occurrence order. JavaScript lists integer-like keys first in numeric order, and that is not modelled.
- The Home page's "Past Predicted" cost and date cells (`estimated_cost || 'N/A'`, `createdAt` only) are not modelled. Their badge, label and image use the same expressions as History, which are modelled.
- The Navbar's notification fetch (loading and error flags) and the click-outside handler are UI I/O.
- Profile.jsx, Register.jsx, Login.jsx, Features.jsx, Footer.jsx and Header.jsx are form glue around HTTP calls.
- The admin dashboard's fetches, confirmations and error banners are I/O.
